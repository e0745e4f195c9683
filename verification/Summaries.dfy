/**
 What summarising keeps, in every interleaving of writers in which the lock does not expire: a
 summary lists what it stands for, and nothing that was ever stored is lost or counted twice.
 */
module Summaries {
  import opened Basics
  import opened WorkingMemory

  /** The call holds, or is about to give back, the lock. */
  predicate Critical(p: Phase) { !p.Idle? && !p.Acquiring? }

  /** One call at a time is past the lock, and the lock carries its token. */
  ghost predicate Exclusive(s: State) {
    && (forall w | Critical(s.PhaseOf(w)) :: s.lock == Some(w.token))
    && forall v, w | Critical(s.PhaseOf(v)) && Critical(s.PhaseOf(w)) :: v == w
  }

  /** A summary lists this entry. */
  ghost predicate HasParent(log: seq<Entry>, id: Id) {
    exists j :: 0 <= j < |log| && id in log[j].sources
  }

  /** Sources were stored before the summary that lists them, and are listed once. */
  ghost predicate IsForest(log: seq<Entry>) {
    && (forall j, id | 0 <= j < |log| && id in log[j].sources :: id in IdSet(log[..j]))
    && forall i, j, id | 0 <= i < j < |log| && id in log[i].sources :: id !in log[j].sources
  }

  predicate DistinctIds(ids: seq<Id>) { forall i, j | 0 <= i < j < |ids| :: ids[i] != ids[j] }

  /** The queue is the end of what was chosen; it is live, and the part before it is not. */
  ghost predicate PartlyDeleted(hash: map<Id, Entry>, log: seq<Entry>, chosen: seq<Id>, queue: seq<Id>) {
    && |queue| <= |chosen| && queue == chosen[|chosen| - |queue|..]
    && (forall id | id in queue :: id in hash)
    && (forall id | id in chosen && id !in queue :: id in IdSet(log) && id !in hash && !HasParent(log, id))
  }

  /** What a pass has chosen is live until it deletes it, and has no parent until it stores the summary. */
  ghost predicate PassOk(s: State, p: Phase) {
    && !p.Evicting?
    && (p.Summarising? ==>
          && DistinctIds(p.chosen) && p.chosen != [] && p.since <= |s.log|
          && (forall id | id in p.chosen :: id in s.hash)
          && |s.hash| == p.before + |s.log| - p.since)
    && (p.Compressing? ==>
          && DistinctIds(p.chosen) && p.chosen != [] && p.since <= |s.log|
          && PartlyDeleted(s.hash, s.log, p.chosen, p.queue)
          && |s.hash| + |p.chosen| - |p.queue| == p.before + |s.log| - p.since)
  }

  /** Deleted by a pass that has not stored its summary yet. */
  ghost predicate InFlight(s: State, id: Id) {
    exists w :: s.PhaseOf(w).Compressing? && id in s.PhaseOf(w).chosen && id !in s.PhaseOf(w).queue
  }

  /** Everything stored is live, or below a summary, or in the hands of the pass under way. */
  ghost predicate Accounted(s: State) {
    && (forall id | id in s.hash :: !HasParent(s.log, id))
    && forall e | e in s.log :: e.id in s.hash || HasParent(s.log, e.id) || InFlight(s, e.id)
  }

  ghost predicate Inv(s: State) {
    && Consistent(s) && Exclusive(s) && IsForest(s.log) && Accounted(s)
    && forall w :: PassOk(s, s.PhaseOf(w))
  }

  // ----- the lock ---------------------------------------------------------------------------

  lemma ExclusiveStep(s: State, config: Config, step: Step)
    requires Exclusive(s) && Enabled(s, config, step) && !step.Expire?
    ensures Exclusive(Next(s, config, step))
  {
    hide Listing, Overflow, ToCompress, Ids, IdSet;
    var t := Next(s, config, step);
    assert Critical(s.PhaseOf(step.w)) ==> s.lock == Some(step.w.token);
    assert forall v | v != step.w :: t.PhaseOf(v) == s.PhaseOf(v);
  }

  // ----- one call moves ---------------------------------------------------------------------

  /** A step of one call that neither stores nor deletes, nor moves between the deleting phases. */
  lemma StillAccounted(s: State, t: State, w: Writer)
    requires Accounted(s) && t.hash == s.hash && t.log == s.log
    requires forall v | v != w :: t.PhaseOf(v) == s.PhaseOf(v)
    requires s.PhaseOf(w).Compressing? ==>
               (t.PhaseOf(w).Compressing? && t.PhaseOf(w).chosen == s.PhaseOf(w).chosen
                && t.PhaseOf(w).queue == s.PhaseOf(w).queue)
    ensures Accounted(t)
  {
    forall id | InFlight(s, id)
      ensures InFlight(t, id)
    {
      var v :| s.PhaseOf(v).Compressing? && id in s.PhaseOf(v).chosen && id !in s.PhaseOf(v).queue;
      assert t.PhaseOf(v).Compressing? && id in t.PhaseOf(v).chosen && id !in t.PhaseOf(v).queue;
    }
  }

  /** A step that changes one call's place and the lock only. */
  lemma MoveKeepsInv(s: State, t: State, w: Writer)
    requires Inv(s) && Exclusive(t) && t.hash == s.hash && t.log == s.log
    requires forall v | v != w :: t.PhaseOf(v) == s.PhaseOf(v)
    requires PassOk(s, t.PhaseOf(w)) && !s.PhaseOf(w).Compressing?
    ensures Inv(t)
  {
    StillAccounted(s, t, w);
    forall v
      ensures PassOk(t, t.PhaseOf(v))
    {
      assert PassOk(s, s.PhaseOf(v));
      assert PassOk(s, t.PhaseOf(v));
    }
  }

  // ----- storing an entry --------------------------------------------------------------------

  lemma KnownIds(log: seq<Entry>, e: Entry, id: Id)
    requires id in IdSet(log)
    ensures id in IdSet(log + [e])
  {
    var f :| f in log && f.id == id;
    assert f in log + [e];
  }

  /** An entry without sources gives nobody a parent. */
  lemma PlainParents(log: seq<Entry>, e: Entry, id: Id)
    requires e.sources == []
    ensures HasParent(log + [e], id) <==> HasParent(log, id)
  {
    if HasParent(log, id) {
      var j :| 0 <= j < |log| && id in log[j].sources;
      assert id in (log + [e])[j].sources;
    }
  }

  /** A stored summary is the parent of its sources, and of nothing else. */
  lemma SummaryParents(log: seq<Entry>, e: Entry, id: Id)
    ensures HasParent(log + [e], id) <==> HasParent(log, id) || id in e.sources
  {
    if HasParent(log, id) {
      var j :| 0 <= j < |log| && id in log[j].sources;
      assert id in (log + [e])[j].sources;
    }
    assert (log + [e])[|log|] == e;
  }

  lemma StaysForest(log: seq<Entry>, e: Entry)
    requires IsForest(log)
    requires forall id | id in e.sources :: id in IdSet(log) && !HasParent(log, id)
    ensures IsForest(log + [e])
  {
    var t := log + [e];
    forall j, id | 0 <= j < |t| && id in t[j].sources
      ensures id in IdSet(t[..j])
    {
      assert t[..j] == log[..j];
      assert log[..|log|] == log;
    }
    forall i, j, id | 0 <= i < j < |t| && id in t[i].sources
      ensures id !in t[j].sources
    {
      assert t[i] == log[i];
      assert HasParent(log, id);
    }
  }

  lemma SourcesAreStored(log: seq<Entry>, j: nat, id: Id)
    requires IsForest(log) && j < |log| && id in log[j].sources
    ensures id in IdSet(log)
  {
    var f :| f in log[..j] && f.id == id;
    assert f in log;
  }

  /** A new identity has no parent: sources were stored before. */
  lemma NewHasNoParent(log: seq<Entry>, id: Id)
    requires IsForest(log) && id !in IdSet(log)
    ensures !HasParent(log, id)
  {
    forall j, x | 0 <= j < |log| && x in log[j].sources
      ensures x in IdSet(log)
    {
      SourcesAreStored(log, j, x);
    }
  }

  lemma StoredIsConsistent(s: State, e: Entry)
    requires Consistent(s) && e.id !in IdSet(s.log)
    ensures Consistent(Stored(s, e)) && e.id !in s.hash && |Stored(s, e).hash| == |s.hash| + 1
  {
    forall k | 0 <= k < |s.log|
      ensures s.log[k].id != e.id
    {
      assert s.log[k] in s.log;
    }
    assert Stored(s, e).hash.Keys == s.hash.Keys + {e.id};
  }

  lemma AddKeepsPass(s: State, t: State, e: Entry, p: Phase)
    requires Consistent(s) && PassOk(s, p) && e.id !in IdSet(s.log) && e.sources == []
    requires t.hash == s.hash[e.id := e] && t.log == s.log + [e]
    ensures PassOk(t, p)
  {
    StoredIsConsistent(s, e);
    if p.Compressing? {
      forall id | id in p.chosen && id !in p.queue
        ensures id in IdSet(t.log) && id !in t.hash && !HasParent(t.log, id)
      {
        KnownIds(s.log, e, id);
        PlainParents(s.log, e, id);
      }
    }
  }

  lemma AddKeepsAccounts(s: State, t: State, e: Entry, w: Writer)
    requires Consistent(s) && Accounted(s) && IsForest(s.log) && e.id !in IdSet(s.log) && e.sources == []
    requires t.hash == s.hash[e.id := e] && t.log == s.log + [e]
    requires s.PhaseOf(w).Idle? && forall v | v != w :: t.PhaseOf(v) == s.PhaseOf(v)
    ensures Accounted(t)
  {
    forall id
      ensures HasParent(t.log, id) <==> HasParent(s.log, id)
    {
      PlainParents(s.log, e, id);
    }
    NewHasNoParent(s.log, e.id);
    forall id | InFlight(s, id)
      ensures InFlight(t, id)
    {
      var v :| s.PhaseOf(v).Compressing? && id in s.PhaseOf(v).chosen && id !in s.PhaseOf(v).queue;
      assert t.PhaseOf(v).Compressing? && id in t.PhaseOf(v).chosen && id !in t.PhaseOf(v).queue;
    }
  }

  lemma AddKeepsInv(s: State, config: Config, w: Writer, e: Entry)
    requires Inv(s) && Enabled(s, config, Add(w, e))
    ensures Inv(Next(s, config, Add(w, e)))
  {
    var t := Next(s, config, Add(w, e));
    ExclusiveStep(s, config, Add(w, e));
    StoredIsConsistent(s, e);
    StaysForest(s.log, e);
    AddKeepsAccounts(s, t, e, w);
    forall v
      ensures PassOk(t, t.PhaseOf(v))
    {
      if v != w {
        AddKeepsPass(s, t, e, s.PhaseOf(v));
      }
    }
  }

  // ----- a pass ---------------------------------------------------------------------------------

  lemma SnapshotKeepsInv(s: State, config: Config, w: Writer, order: seq<Entry>)
    requires Inv(s) && Enabled(s, config, Snapshot(w, order)) && config.strategy == Summarization
    ensures Inv(Next(s, config, Snapshot(w, order)))
  {
    ExclusiveStep(s, config, Snapshot(w, order));
    MoveKeepsInv(s, Next(s, config, Snapshot(w, order)), w);
  }

  /** The queue is what is left of the chosen. */
  lemma QueueShrinks(chosen: seq<Id>, queue: seq<Id>)
    requires DistinctIds(chosen) && 0 < |queue| <= |chosen| && queue == chosen[|chosen| - |queue|..]
    ensures queue[1..] == chosen[|chosen| - |queue| + 1..] && queue[0] !in queue[1..] && queue[0] in chosen
  {
    var m := |chosen| - |queue|;
    assert queue[0] == chosen[m];
    assert forall k | 0 <= k < |queue| - 1 :: queue[1..][k] == chosen[m + 1 + k];
  }

  lemma QueueMember(queue: seq<Id>, id: Id)
    requires queue != []
    ensures id in queue <==> id == queue[0] || id in queue[1..]
  {
    assert queue == [queue[0]] + queue[1..];
  }

  lemma DropKeepsConsistent(s: State, config: Config, w: Writer)
    requires s.PhaseOf(w).Compressing? && s.PhaseOf(w).queue != [] && s.PhaseOf(w).queue[0] in s.hash
    requires Consistent(s)
    ensures Consistent(Next(s, config, Drop(w)))
  {
    hide Next;
    DropEffect(s, config, w);
  }

  lemma OneMoreDeleted(hash: map<Id, Entry>, log: seq<Entry>, chosen: seq<Id>, queue: seq<Id>)
    requires PartlyDeleted(hash, log, chosen, queue) && DistinctIds(chosen) && queue != []
    requires queue[0] in IdSet(log) && !HasParent(log, queue[0])
    ensures PartlyDeleted(hash - {queue[0]}, log, chosen, queue[1..])
  {
    hide DistinctIds, HasParent, IdSet;
    QueueShrinks(chosen, queue);
    forall id
      ensures id in queue <==> id == queue[0] || id in queue[1..]
    {
      QueueMember(queue, id);
    }
  }

  /** The first of the queue leaves the hash and is in flight. */
  lemma DropKeepsPass(s: State, config: Config, w: Writer)
    requires PassOk(s, s.PhaseOf(w)) && s.PhaseOf(w).Compressing? && s.PhaseOf(w).queue != []
    requires s.PhaseOf(w).queue[0] in s.hash && s.PhaseOf(w).queue[0] in IdSet(s.log)
    requires !HasParent(s.log, s.PhaseOf(w).queue[0])
    ensures var t := Next(s, config, Drop(w)); PassOk(t, t.PhaseOf(w))
  {
    hide Next, DistinctIds, HasParent, IdSet, PartlyDeleted;
    DropEffect(s, config, w);
    OneMoreDeleted(s.hash, s.log, s.PhaseOf(w).chosen, s.PhaseOf(w).queue);
  }

  lemma FirstOfQueue(s: State, w: Writer)
    requires Consistent(s) && Accounted(s) && PassOk(s, s.PhaseOf(w))
    requires s.PhaseOf(w).Compressing? && s.PhaseOf(w).queue != []
    ensures var first := s.PhaseOf(w).queue[0];
            first in s.hash && first in IdSet(s.log) && !HasParent(s.log, first)
  {
    var first := s.PhaseOf(w).queue[0];
    assert first in s.PhaseOf(w).queue;
    assert s.hash[first] in s.log;
  }

  lemma DropEffect(s: State, config: Config, w: Writer)
    requires s.PhaseOf(w).Compressing? && s.PhaseOf(w).queue != [] && s.PhaseOf(w).queue[0] in s.hash
    ensures var p, t := s.PhaseOf(w), Next(s, config, Drop(w));
            && t.PhaseOf(w) == Compressing(p.queue[1..], p.chosen, p.before, p.since)
            && t.log == s.log && t.hash == s.hash - {p.queue[0]} && |t.hash| == |s.hash| - 1
            && forall v | v != w :: t.PhaseOf(v) == s.PhaseOf(v)
  {
    var p, t := s.PhaseOf(w), Next(s, config, Drop(w));
    assert t.hash.Keys == s.hash.Keys - {p.queue[0]};
  }

  lemma StillInFlight(s: State, config: Config, w: Writer, id: Id)
    requires s.PhaseOf(w).Compressing? && s.PhaseOf(w).queue != [] && s.PhaseOf(w).queue[0] in s.hash
    requires InFlight(s, id)
    ensures InFlight(Next(s, config, Drop(w)), id)
  {
    hide Next;
    DropEffect(s, config, w);
    var t := Next(s, config, Drop(w));
    var v :| s.PhaseOf(v).Compressing? && id in s.PhaseOf(v).chosen && id !in s.PhaseOf(v).queue;
    QueueMember(s.PhaseOf(w).queue, id);
    assert t.PhaseOf(v).Compressing? && id in t.PhaseOf(v).chosen && id !in t.PhaseOf(v).queue;
  }

  lemma NowInFlight(s: State, config: Config, w: Writer)
    requires PassOk(s, s.PhaseOf(w)) && s.PhaseOf(w).Compressing?
    requires s.PhaseOf(w).queue != [] && s.PhaseOf(w).queue[0] in s.hash
    ensures InFlight(Next(s, config, Drop(w)), s.PhaseOf(w).queue[0])
  {
    hide Next, HasParent;
    DropEffect(s, config, w);
    QueueShrinks(s.PhaseOf(w).chosen, s.PhaseOf(w).queue);
  }

  lemma DropKeepsAccounts(s: State, config: Config, w: Writer)
    requires s.PhaseOf(w).Compressing? && s.PhaseOf(w).queue != [] && s.PhaseOf(w).queue[0] in s.hash
    requires PassOk(s, s.PhaseOf(w)) && Accounted(s)
    ensures Accounted(Next(s, config, Drop(w)))
  {
    hide Next, HasParent, InFlight, PassOk;
    DropEffect(s, config, w);
    NowInFlight(s, config, w);
    forall id | InFlight(s, id)
      ensures InFlight(Next(s, config, Drop(w)), id)
    {
      StillInFlight(s, config, w, id);
    }
  }

  /** While one call is past the lock, every other pass condition is about no pass. */
  lemma OthersAreOutside(s: State, t: State, w: Writer, v: Writer)
    requires Exclusive(s) && Critical(s.PhaseOf(w)) && v != w && t.PhaseOf(v) == s.PhaseOf(v)
    ensures PassOk(t, t.PhaseOf(v))
  {
  }

  lemma DropKeepsInv(s: State, config: Config, w: Writer)
    requires Inv(s) && Enabled(s, config, Drop(w))
    ensures Inv(Next(s, config, Drop(w)))
  {
    hide Accounted, PassOk;
    var t := Next(s, config, Drop(w));
    ExclusiveStep(s, config, Drop(w));
    assert PassOk(s, s.PhaseOf(w));
    NoEviction(s, w);
    FirstOfQueue(s, w);
    DropKeepsConsistent(s, config, w);
    DropKeepsPass(s, config, w);
    DropKeepsAccounts(s, config, w);
    forall v
      ensures PassOk(t, t.PhaseOf(v))
    {
      if v != w {
        OthersAreOutside(s, t, w, v);
      }
    }
  }

  lemma NoEviction(s: State, w: Writer)
    requires PassOk(s, s.PhaseOf(w))
    ensures !s.PhaseOf(w).Evicting?
  {
  }

  lemma StoreKeepsAccounts(s: State, config: Config, w: Writer, e: Entry)
    requires Inv(s) && Enabled(s, config, Store(w, e))
    ensures Accounted(Next(s, config, Store(w, e)))
  {
    var p, t := s.PhaseOf(w), Next(s, config, Store(w, e));
    assert PassOk(s, p);
    forall id
      ensures HasParent(t.log, id) <==> HasParent(s.log, id) || id in p.chosen
    {
      SummaryParents(s.log, e, id);
    }
    NewHasNoParent(s.log, e.id);
    forall id | InFlight(s, id)
      ensures id in p.chosen
    {
      var v :| s.PhaseOf(v).Compressing? && id in s.PhaseOf(v).chosen && id !in s.PhaseOf(v).queue;
    }
  }

  lemma StoreKeepsInv(s: State, config: Config, w: Writer, e: Entry)
    requires Inv(s) && Enabled(s, config, Store(w, e))
    ensures Inv(Next(s, config, Store(w, e)))
  {
    var t := Next(s, config, Store(w, e));
    ExclusiveStep(s, config, Store(w, e));
    assert PassOk(s, s.PhaseOf(w));
    StoredIsConsistent(s, e);
    StaysForest(s.log, e);
    StoreKeepsAccounts(s, config, w, e);
    forall v
      ensures PassOk(t, t.PhaseOf(v))
    {
      if v != w {
        OthersAreOutside(s, t, w, v);
      }
    }
  }

  /** The steps that neither store nor delete, apart from a snapshot. */
  lemma OtherKeepsInv(s: State, config: Config, step: Step)
    requires Inv(s) && Enabled(s, config, step)
    requires step.Acquire? || step.Summarised? || step.Raised? || step.Release? || step.Unlock?
    ensures Inv(Next(s, config, step))
  {
    hide Accounted, IsForest, Listing, Consistent, ToCompress, Overflow, Ids, IdSet;
    assert PassOk(s, s.PhaseOf(step.w));
    ExclusiveStep(s, config, step);
    MoveKeepsInv(s, Next(s, config, step), step.w);
  }

  lemma NextKeepsInv(s: State, config: Config, step: Step)
    requires Inv(s) && config.strategy == Summarization && Enabled(s, config, step) && !step.Expire?
    ensures Inv(Next(s, config, step))
  {
    hide Accounted, IsForest, Listing, Consistent, ToCompress, Overflow, Ids, IdSet, Next;
    assert PassOk(s, s.PhaseOf(step.w));
    match step
    case Add(w, e) => AddKeepsInv(s, config, w, e);
    case Snapshot(w, order) => SnapshotKeepsInv(s, config, w, order);
    case Drop(w) => DropKeepsInv(s, config, w);
    case Store(w, e) => StoreKeepsInv(s, config, w, e);
    case Acquire(w) => OtherKeepsInv(s, config, step);
    case Summarised(w) => OtherKeepsInv(s, config, step);
    case Raised(w) => OtherKeepsInv(s, config, step);
    case Release(w) => OtherKeepsInv(s, config, step);
    case Unlock(w) => OtherKeepsInv(s, config, step);
    case Finish(w) =>
  }

  ghost predicate NoExpiry(steps: seq<Step>) {
    forall i | 0 <= i < |steps| :: !steps[i].Expire?
  }

  lemma {:induction false} InvAlways(states: seq<State>, steps: seq<Step>, config: Config, i: nat)
    requires IsRun(states, steps, config) && config.strategy == Summarization && NoExpiry(steps) && i < |states|
    ensures Inv(states[i])
  {
    if i > 0 {
      InvAlways(states, steps, config, i - 1);
      NextKeepsInv(states[i - 1], config, steps[i - 1]);
    }
  }

  // ----- provenance ---------------------------------------------------------------------------

  /** A path upwards: each identity is a source of the entry that the next one names. */
  ghost predicate Climbs(log: seq<Entry>, path: seq<Id>) {
    && path != []
    && forall k | 0 <= k < |path| - 1 :: IsParent(log, path[k], path[k + 1])
  }

  ghost predicate IsParent(log: seq<Entry>, id: Id, parent: Id) {
    exists j :: 0 <= j < |log| && log[j].id == parent && id in log[j].sources
  }

  /** The root is the entry itself or a summary above it. */
  ghost predicate StandsFor(log: seq<Entry>, root: Id, id: Id) {
    exists path :: Climbs(log, path) && path[0] == id && path[|path| - 1] == root
  }

  lemma ParentIsUnique(log: seq<Entry>, id: Id, a: Id, b: Id)
    requires IsForest(log) && IsParent(log, id, a) && IsParent(log, id, b)
    ensures a == b
  {
    var i :| 0 <= i < |log| && log[i].id == a && id in log[i].sources;
    var j :| 0 <= j < |log| && log[j].id == b && id in log[j].sources;
    assert i == j;
  }

  /** Two ways up from one entry to entries without a parent end at the same one. */
  lemma {:induction false} RootIsUnique(log: seq<Entry>, p: seq<Id>, q: seq<Id>)
    requires IsForest(log) && Climbs(log, p) && Climbs(log, q) && p[0] == q[0]
    requires !HasParent(log, p[|p| - 1]) && !HasParent(log, q[|q| - 1])
    ensures p[|p| - 1] == q[|q| - 1]
  {
    assert |p| > 1 ==> IsParent(log, p[0], p[1]);
    assert |q| > 1 ==> IsParent(log, q[0], q[1]);
    if |p| > 1 && |q| > 1 {
      ParentIsUnique(log, p[0], p[1], q[1]);
      ShorterPath(log, p);
      ShorterPath(log, q);
      RootIsUnique(log, p[1..], q[1..]);
    }
  }

  lemma ShorterPath(log: seq<Entry>, path: seq<Id>)
    requires Climbs(log, path) && |path| > 1
    ensures Climbs(log, path[1..]) && path[1..][|path| - 2] == path[|path| - 1]
  {
    forall k | 0 <= k < |path| - 2
      ensures IsParent(log, path[1..][k], path[1..][k + 1])
    {
      assert IsParent(log, path[k + 1], path[k + 2]);
    }
  }

  lemma LongerPath(log: seq<Entry>, id: Id, path: seq<Id>)
    requires Climbs(log, path) && IsParent(log, id, path[0])
    ensures Climbs(log, [id] + path)
  {
    var longer := [id] + path;
    forall k | 0 <= k < |longer| - 1
      ensures IsParent(log, longer[k], longer[k + 1])
    {
      if k > 0 {
        assert IsParent(log, path[k - 1], path[k]);
      }
    }
  }

  /** No pass has deleted an entry and not yet stored the summary for it. */
  ghost predicate OutsideDeletion(s: State) { forall w :: !s.PhaseOf(w).Compressing? }

  lemma OneStop(log: seq<Entry>, id: Id)
    ensures Climbs(log, [id])
  {
  }

  /** From the entry at one place in the history there is a way up to a live one. */
  lemma {:induction false} LiveRoot(s: State, k: nat) returns (path: seq<Id>)
    requires Inv(s) && OutsideDeletion(s) && k < |s.log|
    ensures Climbs(s.log, path) && path[0] == s.log[k].id && path[|path| - 1] in s.hash
    decreases |s.log| - k
  {
    hide PassOk, Exclusive, Consistent, IsForest;
    var id := s.log[k].id;
    assert s.log[k] in s.log;
    if id in s.hash {
      path := [id];
      assert Climbs(s.log, path) by { OneStop(s.log, id); }
    } else {
      var j :| 0 <= j < |s.log| && id in s.log[j].sources;
      ParentIsLater(s, k, j);
      var rest := LiveRoot(s, j);
      assert IsParent(s.log, id, s.log[j].id);
      LongerPath(s.log, id, rest);
      path := [id] + rest;
    }
  }

  lemma ParentIsLater(s: State, k: nat, j: nat)
    requires Inv(s) && k < |s.log| && j < |s.log| && s.log[k].id in s.log[j].sources
    ensures k < j
  {
    hide PassOk, Accounted, Exclusive;
    var f :| f in s.log[..j] && f.id == s.log[k].id;
    var m :| 0 <= m < j && s.log[..j][m] == f;
    assert s.log[m].id == s.log[k].id;
  }

  /**
   In every run in which the lock does not expire, whenever no pass is between its first deletion
   and its summary, every entry ever stored is live or below one live summary, and never two.
   */
  lemma EverythingIsKept(states: seq<State>, steps: seq<Step>, config: Config, i: nat, e: Entry)
    requires IsRun(states, steps, config) && config.strategy == Summarization && NoExpiry(steps) && i < |states|
    requires OutsideDeletion(states[i]) && e in states[i].log
    ensures exists root :: root in states[i].hash && StandsFor(states[i].log, root, e.id)
                           && forall other | other in states[i].hash && StandsFor(states[i].log, other, e.id) ::
                                other == root
  {
    var s := states[i];
    InvAlways(states, steps, config, i);
    var k :| 0 <= k < |s.log| && s.log[k] == e;
    var path := LiveRoot(s, k);
    var root := path[|path| - 1];
    assert StandsFor(s.log, root, e.id);
    forall other | other in s.hash && StandsFor(s.log, other, e.id)
      ensures other == root
    {
      var q :| Climbs(s.log, q) && q[0] == e.id && q[|q| - 1] == other;
      RootIsUnique(s.log, path, q);
    }
  }

  // ----- a pass does not grow the hash ------------------------------------------------------------

  function Adds(steps: seq<Step>): nat {
    if steps == [] then 0 else Adds(steps[..|steps| - 1]) + if steps[|steps| - 1].Add? then 1 else 0
  }

  /** A pass that took its snapshot of a hash of this size when this much had been stored, a writes ago. */
  ghost predicate InPass(s: State, w: Writer, size: nat, stored: nat, adds: nat) {
    var p := s.PhaseOf(w);
    && |s.hash| <= size + adds
    && (p.Summarising? || p.Compressing? || p.Releasing?)
    && (!p.Releasing? ==> p.before == size && p.since == stored && |s.log| == stored + adds)
  }

  lemma AddInPass(s: State, config: Config, step: Step, w: Writer, size: nat, stored: nat, adds: nat)
    requires Inv(s) && InPass(s, w, size, stored, adds) && Enabled(s, config, step) && step.Add?
    ensures InPass(Next(s, config, step), w, size, stored, adds + 1)
  {
    hide Exclusive, IsForest, Accounted, PassOk;
    StoredIsConsistent(s, step.entry);
  }

  lemma StoreInPass(s: State, config: Config, e: Entry, w: Writer, size: nat, stored: nat, adds: nat)
    requires Inv(s) && InPass(s, w, size, stored, adds) && Enabled(s, config, Store(w, e))
    ensures InPass(Next(s, config, Store(w, e)), w, size, stored, adds)
  {
    hide Exclusive, IsForest, Accounted, PartlyDeleted;
    assert PassOk(s, s.PhaseOf(w));
    StoredIsConsistent(s, e);
  }

  lemma DropInPass(s: State, config: Config, w: Writer, size: nat, stored: nat, adds: nat)
    requires Inv(s) && InPass(s, w, size, stored, adds) && Enabled(s, config, Drop(w))
    ensures InPass(Next(s, config, Drop(w)), w, size, stored, adds)
  {
    hide Next, Exclusive, IsForest, PartlyDeleted;
    assert PassOk(s, s.PhaseOf(w));
    FirstOfQueue(s, w);
    DropEffect(s, config, w);
  }

  lemma StepInPass(s: State, config: Config, step: Step, w: Writer, size: nat, stored: nat, adds: nat)
    requires Inv(s) && InPass(s, w, size, stored, adds) && Enabled(s, config, step)
    requires step != Release(w) && !step.Expire?
    ensures InPass(Next(s, config, step), w, size, stored, adds + if step.Add? then 1 else 0)
  {
    hide IsForest, Accounted, Listing, Consistent, PassOk;
    if step.Add? {
      AddInPass(s, config, step, w, size, stored, adds);
    } else if step.Store? && step.w == w {
      StoreInPass(s, config, step.summary, w, size, stored, adds);
    } else if step.Drop? && step.w == w {
      assert PassOk(s, s.PhaseOf(w));
      DropInPass(s, config, w, size, stored, adds);
    } else {
      assert step.w != w ==> !Critical(s.PhaseOf(step.w));
      assert Critical(s.PhaseOf(w));
    }
  }

  lemma SnapshotStartsPass(s: State, config: Config, step: Step)
    requires Enabled(s, config, step) && step.Snapshot? && config.strategy == Summarization
    ensures InPass(Next(s, config, step), step.w, |s.hash|, |s.log|, 0)
  {
  }

  lemma AddsUpTo(steps: seq<Step>, i: nat, j: nat)
    requires i < j <= |steps|
    ensures j == i + 1 ==> Adds(steps[i + 1..j]) == 0
    ensures j > i + 1 ==>
              Adds(steps[i + 1..j]) == Adds(steps[i + 1..j - 1]) + if steps[j - 1].Add? then 1 else 0
  {
    if j > i + 1 {
      assert steps[i + 1..j][..j - i - 2] == steps[i + 1..j - 1];
    }
  }

  /** From its snapshot to its end a pass leaves at most as many entries as it found and others added. */
  lemma {:induction false} PassDoesNotGrow(states: seq<State>, steps: seq<Step>, config: Config,
                                           i: nat, j: nat, w: Writer)
    requires IsRun(states, steps, config) && config.strategy == Summarization && NoExpiry(steps)
    requires i < j <= |steps| && steps[i].Snapshot? && steps[i].w == w
    requires forall k | i < k < j :: steps[k] != Release(w)
    ensures InPass(states[j], w, |states[i].hash|, |states[i].log|, Adds(steps[i + 1..j]))
    ensures |states[j].hash| <= |states[i].hash| + Adds(steps[i + 1..j])
  {
    hide Next, Enabled, Adds, Inv;
    AddsUpTo(steps, i, j);
    if j > i + 1 {
      PassDoesNotGrow(states, steps, config, i, j - 1, w);
      InvAlways(states, steps, config, j - 1);
      StepInPass(states[j - 1], config, steps[j - 1], w, |states[i].hash|, |states[i].log|, Adds(steps[i + 1..j - 1]));
    } else {
      SnapshotStartsPass(states[i], config, steps[i]);
    }
  }

  // ----- giving the lock back ------------------------------------------------------------------------

  /** The step is this call's own. */
  predicate Moves(step: Step, w: Writer) { !step.Expire? && step.w == w }

  /** The step that took the lock as it stands, if it is taken. */
  ghost function TakenAt(states: seq<State>, steps: seq<Step>, j: nat): Option<nat>
    requires |states| == |steps| + 1 && j < |states|
  {
    if j == 0 then None
    else if steps[j - 1].Acquire? && states[j - 1].lock.None? then Some(j - 1)
    else if steps[j - 1].Expire? || steps[j - 1].Unlock? then None
    else TakenAt(states, steps, j - 1)
  }

  /** The lock neither expires nor is deleted from one moment to another. */
  ghost predicate NotLost(steps: seq<Step>, i: nat, j: nat)
    requires i <= j <= |steps|
  {
    forall k | i <= k < j :: !steps[k].Expire? && !steps[k].Unlock?
  }

  lemma LockStep(s: State, config: Config, step: Step)
    requires Enabled(s, config, step)
    ensures Next(s, config, step).lock ==
            if step.Acquire? && s.lock.None? then Some(step.w.token)
            else if step.Expire? || step.Unlock? then None else s.lock
  {
  }

  /** A lock that is taken was taken by an earlier step, and carries the token of that step's call. */
  lemma {:induction false} TakenByStep(states: seq<State>, steps: seq<Step>, config: Config, j: nat)
    requires IsRun(states, steps, config) && j < |states|
    ensures var taken := TakenAt(states, steps, j);
            && (taken.Some? <==> states[j].lock.Some?)
            && (taken.Some? ==>
                  && taken.value < j && steps[taken.value].Acquire? && states[taken.value].lock.None?
                  && states[j].lock == Some(steps[taken.value].w.token))
  {
    hide Next, Enabled;
    if j > 0 {
      TakenByStep(states, steps, config, j - 1);
      assert states[j - 1 + 1] == Next(states[j - 1], config, steps[j - 1]);
      LockStep(states[j - 1], config, steps[j - 1]);
    }
  }

  /** A lock that stands at some moment stands later exactly if it has neither expired nor been deleted since. */
  lemma {:induction false} SameLockIff(states: seq<State>, steps: seq<Step>, config: Config, i: nat, j: nat)
    requires IsRun(states, steps, config) && i <= j < |states| && TakenAt(states, steps, i).Some?
    ensures TakenAt(states, steps, j) == TakenAt(states, steps, i) <==> NotLost(steps, i, j)
    ensures TakenAt(states, steps, j) == TakenAt(states, steps, i)
            || TakenAt(states, steps, j).None? || TakenAt(states, steps, j).value > i
  {
    hide Next, Enabled;
    TakenByStep(states, steps, config, i);
    if i < j {
      SameLockIff(states, steps, config, i, j - 1);
      TakenByStep(states, steps, config, j - 1);
    }
  }

  lemma PhaseStep(s: State, config: Config, step: Step, w: Writer)
    requires Enabled(s, config, step)
    ensures var p := Next(s, config, step).PhaseOf(w);
            && (!Moves(step, w) ==> p == s.PhaseOf(w))
            && (Moves(step, w) && p.Unlocking? ==> step == Release(w) && s.lock == Some(w.token))
            && (Moves(step, w) && Critical(p) && !Critical(s.PhaseOf(w)) ==> step == Acquire(w) && s.lock.None?)
  {
  }

  /** A call that is about to delete the lock has compared it, and has not moved since. */
  lemma {:induction false} ComparedAt(states: seq<State>, steps: seq<Step>, config: Config, j: nat, w: Writer)
    returns (i: nat)
    requires IsRun(states, steps, config) && j < |states| && states[j].PhaseOf(w).Unlocking?
    ensures i < j && steps[i] == Release(w) && states[i].lock == Some(w.token)
    ensures forall k | i < k < j :: !Moves(steps[k], w)
  {
    hide Next, Enabled;
    if j > 0 {
      assert states[j - 1 + 1] == Next(states[j - 1], config, steps[j - 1]);
      PhaseStep(states[j - 1], config, steps[j - 1], w);
      if Moves(steps[j - 1], w) {
        i := j - 1;
      } else {
        i := ComparedAt(states, steps, config, j - 1, w);
      }
    }
  }

  /** A call past the lock has taken it, and has been past it since. */
  lemma {:induction false} EnteredAt(states: seq<State>, steps: seq<Step>, config: Config, j: nat, w: Writer)
    returns (a: nat)
    requires IsRun(states, steps, config) && j < |states| && Critical(states[j].PhaseOf(w))
    ensures a < j && steps[a] == Acquire(w) && states[a].lock.None?
    ensures forall k | a < k <= j :: Critical(states[k].PhaseOf(w))
  {
    hide Next, Enabled;
    if j > 0 {
      assert states[j - 1 + 1] == Next(states[j - 1], config, steps[j - 1]);
      PhaseStep(states[j - 1], config, steps[j - 1], w);
      if Critical(states[j - 1].PhaseOf(w)) {
        a := EnteredAt(states, steps, config, j - 1, w);
      } else {
        a := j - 1;
      }
    }
  }

  /** After its comparison a call does not take the lock again before it deletes it. */
  lemma TakenByOther(states: seq<State>, steps: seq<Step>, config: Config, i: nat, j: nat, w: Writer)
    requires IsRun(states, steps, config) && i < j < |states| && steps[i] == Release(w)
    requires forall k | i < k < j :: !Moves(steps[k], w)
    requires TakenAt(states, steps, j).Some? && TakenAt(states, steps, j).value >= i
    ensures var b := TakenAt(states, steps, j).value; i < b < j && steps[b].Acquire? && steps[b].w != w
  {
    hide Next, Enabled;
    TakenByStep(states, steps, config, j);
    var b := TakenAt(states, steps, j).value;
    assert b > i ==> !Moves(steps[b], w);
  }

  /**
   What a call deletes when it gives the lock back. It deletes the lock it compared exactly if, in
   between, that lock neither expired nor was deleted by another call; if it was, the call deletes
   nothing or a lock that another call took in the meantime. Likewise it deletes the lock it took
   itself exactly if that was never lost since.
   */
  lemma UnlockDeletesComparedLockIff(states: seq<State>, steps: seq<Step>, config: Config, j: nat, w: Writer)
    returns (a: nat, i: nat)
    requires IsRun(states, steps, config) && j < |steps| && steps[j] == Unlock(w)
    ensures a < j && steps[a] == Acquire(w) && states[a].lock.None?
    ensures i < j && steps[i] == Release(w) && states[i].lock == Some(w.token)
    ensures forall k | i < k < j :: !Moves(steps[k], w)
    ensures TakenAt(states, steps, j) == TakenAt(states, steps, i) <==> NotLost(steps, i, j)
    ensures NotLost(steps, i, j) ==> states[j].lock == Some(w.token)
    ensures !NotLost(steps, i, j) ==>
              || states[j].lock.None?
              || exists b :: i < b < j && steps[b].Acquire? && steps[b].w != w && TakenAt(states, steps, j) == Some(b)
    ensures states[j].lock.Some? && states[j].lock != Some(w.token) <==>
            exists b :: i < b < j && TakenAt(states, steps, j) == Some(b)
                        && steps[b].Acquire? && steps[b].w.token != w.token
    ensures TakenAt(states, steps, j) == Some(a) <==> NotLost(steps, a + 1, j)
  {
    hide Next, NotLost;
    assert Enabled(states[j], config, steps[j]);
    i := ComparedAt(states, steps, config, j, w);
    a := EnteredAt(states, steps, config, j, w);
    TakenByStep(states, steps, config, i);
    TakenByStep(states, steps, config, j);
    SameLockIff(states, steps, config, i, j);
    SameLockIff(states, steps, config, a + 1, j);
    if TakenAt(states, steps, j) != TakenAt(states, steps, i) && states[j].lock.Some? {
      TakenByOther(states, steps, config, i, j, w);
    }
  }

  /** Without expiry a call only ever deletes its own lock. */
  lemma UnlockFreesOwnLock(states: seq<State>, steps: seq<Step>, config: Config, i: nat, w: Writer)
    requires IsRun(states, steps, config) && NoExpiry(steps) && i < |steps| && steps[i] == Unlock(w)
    ensures states[i].lock == Some(w.token)
  {
    ExclusiveAlways(states, steps, config, i);
    assert Enabled(states[i], config, steps[i]);
    assert Critical(states[i].PhaseOf(w));
  }

  lemma {:induction false} ExclusiveAlways(states: seq<State>, steps: seq<Step>, config: Config, i: nat)
    requires IsRun(states, steps, config) && NoExpiry(steps) && i < |states|
    ensures Exclusive(states[i])
  {
    if i > 0 {
      ExclusiveAlways(states, steps, config, i - 1);
      ExclusiveStep(states[i - 1], config, steps[i - 1]);
    }
  }

  // A run in which the lock of call a expires between its comparison and its deletion, and call b
  // takes it in the meantime.

  function ExampleConfig(): Config { Config(SlidingWindow, 1, 1, false) }

  const CALL_A := Writer(1, 1)
  const CALL_B := Writer(2, 2)
  const ENTRY_A := Entry(1, "first", 1, 1, [])
  const ENTRY_B := Entry(2, "second", 1, 2, [])

  function ExampleSteps(): seq<Step> {
    [Add(CALL_A, ENTRY_A), Acquire(CALL_A), Snapshot(CALL_A, [ENTRY_A]), Finish(CALL_A), Release(CALL_A),
     Expire, Add(CALL_B, ENTRY_B), Acquire(CALL_B), Unlock(CALL_A)]
  }

  function OneEntry(lock: Option<nat>, p: Phase, completed: seq<nat>): State {
    State(map[1 := ENTRY_A], lock, map[CALL_A := p], [ENTRY_A], completed)
  }

  function TwoEntries(lock: Option<nat>, p: Phase, q: Phase): State {
    State(map[1 := ENTRY_A, 2 := ENTRY_B], lock, map[CALL_A := p, CALL_B := q], [ENTRY_A, ENTRY_B], [1])
  }

  function ExampleStates(): seq<State> {
    [Init(),
     OneEntry(None, Acquiring(0), []), OneEntry(Some(1), Locked, []), OneEntry(Some(1), Evicting([], {1}, 1), []),
     OneEntry(Some(1), Releasing, [1]), OneEntry(Some(1), Unlocking, [1]), OneEntry(None, Unlocking, [1]),
     TwoEntries(None, Unlocking, Acquiring(0)), TwoEntries(Some(2), Unlocking, Locked), TwoEntries(None, Idle, Locked)]
  }

  ghost predicate Leads(s: State, step: Step, t: State) {
    Enabled(s, ExampleConfig(), step) && t == Next(s, ExampleConfig(), step)
  }

  lemma ExampleTakesLock()
    ensures Leads(Init(), Add(CALL_A, ENTRY_A), OneEntry(None, Acquiring(0), []))
    ensures Leads(OneEntry(None, Acquiring(0), []), Acquire(CALL_A), OneEntry(Some(1), Locked, []))
  {
  }

  lemma ExampleSnapshot()
    ensures Leads(OneEntry(Some(1), Locked, []), Snapshot(CALL_A, [ENTRY_A]), OneEntry(Some(1), Evicting([], {1}, 1), []))
  {
    assert ENTRY_A in [ENTRY_A];
    assert IdSet([ENTRY_A]) == {1} && Ids([]) == [] && [ENTRY_A][0..] == [ENTRY_A];
  }

  lemma ExampleCompares()
    ensures Leads(OneEntry(Some(1), Evicting([], {1}, 1), []), Finish(CALL_A), OneEntry(Some(1), Releasing, [1]))
    ensures Leads(OneEntry(Some(1), Releasing, [1]), Release(CALL_A), OneEntry(Some(1), Unlocking, [1]))
    ensures Leads(OneEntry(Some(1), Unlocking, [1]), Expire, OneEntry(None, Unlocking, [1]))
  {
  }

  lemma ExampleTakesOver()
    ensures Leads(OneEntry(None, Unlocking, [1]), Add(CALL_B, ENTRY_B), TwoEntries(None, Unlocking, Acquiring(0)))
    ensures Leads(TwoEntries(None, Unlocking, Acquiring(0)), Acquire(CALL_B), TwoEntries(Some(2), Unlocking, Locked))
    ensures Leads(TwoEntries(Some(2), Unlocking, Locked), Unlock(CALL_A), TwoEntries(None, Idle, Locked))
  {
    assert IdSet([ENTRY_A]) == {1};
  }

  /** So releasing may delete a lock that another process took over after an expiry. */
  lemma ReleaseCanFreeAnothersLock()
    ensures IsRun(ExampleStates(), ExampleSteps(), ExampleConfig())
    ensures ExampleSteps()[8] == Unlock(CALL_A) && ExampleStates()[8].lock == Some(CALL_B.token) != Some(CALL_A.token)
    ensures ExampleStates()[9].lock.None? && ExampleStates()[9].PhaseOf(CALL_B).Locked?
  {
    hide Leads, Init;
    ExampleTakesLock();
    ExampleSnapshot();
    ExampleCompares();
    ExampleTakesOver();
    forall i | 0 <= i < 9
      ensures Leads(ExampleStates()[i], ExampleSteps()[i], ExampleStates()[i + 1])
    {
    }
    ExampleIsRun();
  }

  lemma ExampleIsRun()
    requires forall i | 0 <= i < 9 :: Leads(ExampleStates()[i], ExampleSteps()[i], ExampleStates()[i + 1])
    ensures IsRun(ExampleStates(), ExampleSteps(), ExampleConfig())
  {
    hide Next, Enabled, OneEntry, TwoEntries, Init;
    assert |ExampleSteps()| == 9 && |ExampleStates()| == 10;
    forall i | 0 <= i < 9
      ensures Enabled(ExampleStates()[i], ExampleConfig(), ExampleSteps()[i])
              && ExampleStates()[i + 1] == Next(ExampleStates()[i], ExampleConfig(), ExampleSteps()[i])
    {
      assert Leads(ExampleStates()[i], ExampleSteps()[i], ExampleStates()[i + 1]);
    }
  }
}
