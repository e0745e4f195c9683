/**
 What the sliding window keeps and how large it grows, in every interleaving of writers, even
 when the lock expires during a pass and passes overlap.
 */
module SlidingWindow {
  import opened Basics
  import opened WorkingMemory

  /** The other entries that are not older than this one. */
  ghost function NotOlder(log: seq<Entry>, e: Entry): set<Entry> {
    set f | f in log && f != e && f.timestamp >= e.timestamp
  }

  /** As many other entries as the window holds are not older than this one. */
  ghost predicate Outnumbered(log: seq<Entry>, e: Entry, window: nat) {
    |NotOlder(log, e)| >= window
  }

  /** Whatever is no longer in the hash is outnumbered. */
  ghost predicate NewestKept(s: State, window: nat) {
    forall e | e in s.log && e.id !in s.hash :: Outnumbered(s.log, e, window)
  }

  /** What a pass leaves: at most a window of entries and what was stored since its snapshot. */
  ghost predicate Bounded(s: State, kept: set<Id>, queue: seq<Id>, since: nat, window: nat) {
    && since <= |s.log| && |kept| <= window
    && forall id | id in s.hash :: id in kept || id in queue || id in IdSet(s.log[since..])
  }

  ghost predicate BoundedSince(s: State, since: nat, window: nat) {
    exists kept :: Bounded(s, kept, [], since, window)
  }

  ghost predicate CompletedBounded(s: State, window: nat) {
    forall c | 0 <= c < |s.completed| :: BoundedSince(s, s.completed[c], window)
  }

  /** The identity is that of a stored entry, and that entry is outnumbered. */
  ghost predicate MayGo(s: State, id: Id, window: nat) {
    exists e :: e in s.log && e.id == id && Outnumbered(s.log, e, window)
  }

  /** A pass under way deletes only outnumbered entries, and will leave a bounded hash. */
  ghost predicate PhaseOk(s: State, p: Phase, window: nat) {
    && !p.Summarising? && !p.Compressing?
    && (p.Evicting? ==>
          && (forall k | 0 <= k < |p.queue| :: MayGo(s, p.queue[k], window))
          && Bounded(s, p.kept, p.queue, p.since, window))
  }

  ghost predicate Inv(s: State, window: nat) {
    && Consistent(s) && NewestKept(s, window) && CompletedBounded(s, window)
    && forall w :: PhaseOk(s, s.PhaseOf(w), window)
  }

  // ----- counting ------------------------------------------------------------------------

  lemma {:induction false} SubsetSize<T>(a: set<T>, b: set<T>)
    requires a <= b
    ensures |a| <= |b|
  {
    if a != {} {
      var x :| x in a;
      SubsetSize(a - {x}, b - {x});
    }
  }

  lemma {:induction false} DistinctSize(order: seq<Entry>)
    requires forall j, k | 0 <= j < k < |order| :: order[j] != order[k]
    ensures |set e | e in order| == |order|
  {
    if order != [] {
      DistinctSize(order[1..]);
      assert order[0] !in order[1..];
      assert order == [order[0]] + order[1..];
      assert (set e | e in order) == {order[0]} + set e | e in order[1..];
    }
  }

  lemma ManyNotOlder(log: seq<Entry>, others: seq<Entry>, e: Entry)
    requires forall j, k | 0 <= j < k < |others| :: others[j] != others[k]
    requires forall j | 0 <= j < |others| ::
               others[j] in log && others[j] != e && others[j].timestamp >= e.timestamp
    ensures Outnumbered(log, e, |others|)
  {
    DistinctSize(others);
    var these := set f | f in others;
    SubsetSize(these, NotOlder(log, e));
  }

  lemma ListedOnce(hash: map<Id, Entry>, order: seq<Entry>)
    requires Listing(hash, order)
    ensures forall i, j | 0 <= i < j < |order| :: order[i] != order[j]
  {
    hide IdSet;
  }

  lemma LaterListed(s: State, order: seq<Entry>, k: nat, j: nat)
    requires Consistent(s) && Listing(s.hash, order) && k <= j < |order|
    ensures order[j] in s.log && order[j].timestamp >= order[k].timestamp && (j != k ==> order[j] != order[k])
  {
    hide IdSet;
    assert order[j].id in s.hash;
  }

  /** An entry over the window is outnumbered by the window that stays. */
  lemma OverflowIsOutnumbered(s: State, order: seq<Entry>, k: nat, window: nat)
    requires Consistent(s) && Listing(s.hash, order) && k < |Overflow(order, window)|
    ensures order[k] in s.log && Outnumbered(s.log, order[k], window)
  {
    hide IdSet, Listing, Consistent, Outnumbered;
    var newest := order[|order| - window..];
    LaterListed(s, order, k, k);
    forall j | 0 <= j < |newest|
      ensures newest[j] in s.log && newest[j] != order[k] && newest[j].timestamp >= order[k].timestamp
    {
      assert newest[j] == order[|order| - window + j];
      LaterListed(s, order, k, |order| - window + j);
    }
    assert forall i, j | 0 <= i < j < |newest| :: newest[i] != newest[j] by {
      ListedOnce(s.hash, order);
    }
    ManyNotOlder(s.log, newest, order[k]);
  }

  /** The same entry by its identity. */
  lemma SameId(s: State, e: Entry, f: Entry)
    requires Consistent(s) && e in s.log && f in s.log && e.id == f.id
    ensures e == f
  {
  }

  // ----- steps ---------------------------------------------------------------------------

  /** The history is extended, and the hash gains nothing but what the history gained. */
  ghost predicate Later(s: State, t: State) {
    && s.log <= t.log && Consistent(t)
    && forall id | id in t.hash :: id in s.hash || id in IdSet(t.log[|s.log|..])
  }

  lemma StaysOutnumbered(log: seq<Entry>, longer: seq<Entry>, e: Entry, window: nat)
    requires Outnumbered(log, e, window) && log <= longer
    ensures Outnumbered(longer, e, window)
  {
    SubsetSize(NotOlder(log, e), NotOlder(longer, e));
  }

  lemma StillMayGo(s: State, t: State, id: Id, window: nat)
    requires Later(s, t) && MayGo(s, id, window)
    ensures MayGo(t, id, window)
  {
    var e :| e in s.log && e.id == id && Outnumbered(s.log, e, window);
    StaysOutnumbered(s.log, t.log, e, window);
  }

  lemma StillBounded(s: State, t: State, kept: set<Id>, queue: seq<Id>, since: nat, window: nat)
    requires Later(s, t) && Bounded(s, kept, queue, since, window)
    ensures Bounded(t, kept, queue, since, window)
  {
    forall id | id in IdSet(s.log[since..]) || id in IdSet(t.log[|s.log|..])
      ensures id in IdSet(t.log[since..])
    {
      if id in IdSet(s.log[since..]) {
        var k :| 0 <= k < |s.log[since..]| && s.log[since..][k].id == id;
        assert t.log[since..][k].id == id;
      } else {
        var k :| 0 <= k < |t.log[|s.log|..]| && t.log[|s.log|..][k].id == id;
        assert t.log[since..][k + |s.log| - since].id == id;
      }
    }
  }

  lemma PhaseStaysOk(s: State, t: State, p: Phase, window: nat)
    requires Later(s, t) && PhaseOk(s, p, window)
    ensures PhaseOk(t, p, window)
  {
    if p.Evicting? {
      StillBounded(s, t, p.kept, p.queue, p.since, window);
      forall k | 0 <= k < |p.queue|
        ensures MayGo(t, p.queue[k], window)
      {
        StillMayGo(s, t, p.queue[k], window);
      }
    }
  }

  lemma StaysBoundedSince(s: State, t: State, since: nat, window: nat)
    requires Later(s, t) && BoundedSince(s, since, window)
    ensures BoundedSince(t, since, window)
  {
    var kept :| Bounded(s, kept, [], since, window);
    StillBounded(s, t, kept, [], since, window);
  }

  /** Nothing leaves the hash but what may go. */
  lemma StaysNewest(s: State, t: State, window: nat)
    requires Later(s, t) && NewestKept(s, window)
    requires forall e | e in t.log && e.id !in t.hash ::
               e in s.log && (e.id !in s.hash || MayGo(s, e.id, window))
    requires Consistent(s)
    ensures NewestKept(t, window)
  {
    forall e | e in t.log && e.id !in t.hash
      ensures Outnumbered(t.log, e, window)
    {
      if e.id in s.hash {
        var f :| f in s.log && f.id == e.id && Outnumbered(s.log, f, window);
        SameId(s, e, f);
      }
      StaysOutnumbered(s.log, t.log, e, window);
    }
  }

  /** One call moves and the others keep their place. */
  lemma StepKeepsInv(s: State, t: State, w: Writer, window: nat)
    requires Inv(s, window) && Later(s, t)
    requires forall v | v != w :: t.PhaseOf(v) == s.PhaseOf(v)
    requires PhaseOk(t, t.PhaseOf(w), window)
    requires t.completed == s.completed
             || (exists c :: t.completed == s.completed + [c] && BoundedSince(t, c, window))
    requires forall e | e in t.log && e.id !in t.hash ::
               e in s.log && (e.id !in s.hash || MayGo(s, e.id, window))
    ensures Inv(t, window)
  {
    StaysNewest(s, t, window);
    forall v
      ensures PhaseOk(t, t.PhaseOf(v), window)
    {
      if v != w {
        PhaseStaysOk(s, t, s.PhaseOf(v), window);
      }
    }
    forall c | 0 <= c < |t.completed|
      ensures BoundedSince(t, t.completed[c], window)
    {
      if c < |s.completed| {
        StaysBoundedSince(s, t, s.completed[c], window);
      }
    }
  }

  lemma AddIsLater(s: State, e: Entry, w: Writer)
    requires Consistent(s) && e.id !in IdSet(s.log)
    ensures Later(s, Stored(s, e).At(w, Acquiring(0)))
  {
    var t := Stored(s, e).At(w, Acquiring(0));
    assert t.log[|s.log|..] == [e];
    assert e in t.log;
    assert forall k | 0 <= k < |s.log| :: s.log[k] in s.log;
  }

  /** A snapshot is split into what is queued and what is kept, a window of entries at most. */
  lemma SnapshotSplits(s: State, order: seq<Entry>, window: nat)
    requires Listing(s.hash, order)
    ensures var over := Overflow(order, window);
            Bounded(s, IdSet(order[|over|..]), Ids(over), |s.log|, window)
  {
    var over := Overflow(order, window);
    var rest := order[|over|..];
    IdsOfSeq(rest);
    forall id | id in s.hash
      ensures id in IdSet(rest) || id in Ids(over)
    {
      var k :| 0 <= k < |order| && order[k].id == id;
      if k < |over| {
        assert Ids(over)[k] == id;
      } else {
        assert rest[k - |over|] == order[k];
      }
    }
  }

  /** A snapshot queues outnumbered entries and keeps the window. */
  lemma SnapshotIsOk(s: State, order: seq<Entry>, window: nat)
    requires Consistent(s) && Listing(s.hash, order)
    ensures var over := Overflow(order, window);
            PhaseOk(s, Evicting(Ids(over), IdSet(order[|over|..]), |s.log|), window)
  {
    hide Bounded, Listing, Outnumbered;
    SnapshotSplits(s, order, window);
    var over := Overflow(order, window);
    forall k | 0 <= k < |over|
      ensures MayGo(s, Ids(over)[k], window)
    {
      OverflowIsOutnumbered(s, order, k, window);
    }
  }

  lemma DropIsLater(s: State, w: Writer, window: nat)
    requires Consistent(s) && s.PhaseOf(w).Evicting? && s.PhaseOf(w).queue != []
    ensures Later(s, Next(s, Config(SlidingWindow, window, 0, false), Drop(w)))
  {
    hide IdSet;
  }

  lemma BoundedWithoutFirst(t: State, kept: set<Id>, queue: seq<Id>, since: nat, window: nat)
    requires queue != [] && queue[0] !in t.hash && Bounded(t, kept, queue, since, window)
    ensures Bounded(t, kept, queue[1..], since, window)
  {
    assert queue == [queue[0]] + queue[1..];
  }

  /** Deleting the first of a queue. */
  lemma DropIsOk(s: State, w: Writer, window: nat)
    requires Inv(s, window) && s.PhaseOf(w).Evicting? && s.PhaseOf(w).queue != []
    ensures var t := Next(s, Config(SlidingWindow, window, 0, false), Drop(w));
            Later(s, t) && PhaseOk(t, t.PhaseOf(w), window) && MayGo(s, s.PhaseOf(w).queue[0], window)
  {
    hide MayGo, Bounded, NewestKept, CompletedBounded, Later;
    var p := s.PhaseOf(w);
    var t := Next(s, Config(SlidingWindow, window, 0, false), Drop(w));
    assert PhaseOk(s, p, window) && MayGo(s, p.queue[0], window);
    DropIsLater(s, w, window);
    StillBounded(s, t, p.kept, p.queue, p.since, window);
    BoundedWithoutFirst(t, p.kept, p.queue, p.since, window);
    forall k | 0 <= k < |p.queue| - 1
      ensures MayGo(t, p.queue[1..][k], window)
    {
      StillMayGo(s, t, p.queue[k + 1], window);
    }
  }

  lemma FinishIsBounded(s: State, w: Writer, window: nat)
    requires PhaseOk(s, s.PhaseOf(w), window) && s.PhaseOf(w).Evicting? && s.PhaseOf(w).queue == []
    ensures var since := s.PhaseOf(w).since;
            BoundedSince(s.(completed := s.completed + [since]).At(w, Releasing), since, window)
  {
    var p := s.PhaseOf(w);
    var t := s.(completed := s.completed + [p.since]).At(w, Releasing);
    assert Bounded(t, p.kept, [], p.since, window);
  }

  /** The steps that touch the lock and nothing else. */
  lemma LockStepKeepsInv(s: State, config: Config, step: Step)
    requires Inv(s, config.windowSize) && config.strategy == SlidingWindow && Enabled(s, config, step)
    requires step.Acquire? || step.Release? || step.Unlock? || step.Expire?
    ensures Inv(Next(s, config, step), config.windowSize)
  {
    hide Bounded, Overflow, Listing, Outnumbered, Ids, BoundedSince;
    var t := Next(s, config, step);
    var w := if step.Expire? then Writer(0, 0) else step.w;
    PhaseStaysOk(s, t, s.PhaseOf(w), config.windowSize);
    StepKeepsInv(s, t, w, config.windowSize);
  }

  lemma NextKeepsInv(s: State, config: Config, step: Step)
    requires Inv(s, config.windowSize) && config.strategy == SlidingWindow && Enabled(s, config, step)
    ensures Inv(Next(s, config, step), config.windowSize)
  {
    hide Bounded, Overflow, Listing, Outnumbered, Ids, BoundedSince;
    var window := config.windowSize;
    if step.Acquire? || step.Release? || step.Unlock? || step.Expire? {
      LockStepKeepsInv(s, config, step);
    } else {
      var w, t := step.w, Next(s, config, step);
      assert PhaseOk(s, s.PhaseOf(w), window);
      match step
      case Add(_, e) =>
        AddIsLater(s, e, w);
        StepKeepsInv(s, t, w, window);
      case Snapshot(_, order) =>
        SnapshotIsOk(s, order, window);
        PhaseStaysOk(s, t, t.PhaseOf(w), window);
        StepKeepsInv(s, t, w, window);
      case Drop(_) =>
        DropIsOk(s, w, window);
        StepKeepsInv(s, t, w, window);
      case Finish(_) =>
        FinishIsBounded(s, w, window);
        StepKeepsInv(s, t, w, window);
      case _ =>
    }
  }

  lemma {:induction false} InvAlways(states: seq<State>, steps: seq<Step>, config: Config, i: nat)
    requires IsRun(states, steps, config) && config.strategy == SlidingWindow && i < |states|
    ensures Inv(states[i], config.windowSize)
  {
    if i > 0 {
      InvAlways(states, steps, config, i - 1);
      NextKeepsInv(states[i - 1], config, steps[i - 1]);
    } else {
      assert Bounded(Init(), {}, [], 0, config.windowSize);
    }
  }

  // ----- theorems --------------------------------------------------------------------------

  /**
   An entry that was stored stays in the hash while fewer than a window of other entries are not
   older than it, whatever the writers, the lock and its expiry do.
   */
  lemma NewEntriesStay(states: seq<State>, steps: seq<Step>, config: Config, i: nat, e: Entry)
    requires IsRun(states, steps, config) && config.strategy == SlidingWindow && i < |states|
    requires e in states[i].log && |NotOlder(states[i].log, e)| < config.windowSize
    ensures e.id in states[i].hash && states[i].hash[e.id] == e
  {
    InvAlways(states, steps, config, i);
    SameId(states[i], e, states[i].hash[e.id]);
  }

  /** With distinct timestamps, the newest min(window, total) entries are always in the hash. */
  lemma NewestWindowStays(states: seq<State>, steps: seq<Step>, config: Config, i: nat, order: seq<Entry>, k: nat)
    requires IsRun(states, steps, config) && config.strategy == SlidingWindow && i < |states|
    requires forall e :: e in order <==> e in states[i].log
    requires forall a, b | 0 <= a < b < |order| :: order[a].timestamp < order[b].timestamp
    requires |order| - config.windowSize <= k < |order|
    ensures order[k].id in states[i].hash && states[i].hash[order[k].id] == order[k]
  {
    var newer := order[k + 1..];
    var newerSet := set e | e in newer;
    assert NotOlder(states[i].log, order[k]) <= newerSet by {
      forall e | e in NotOlder(states[i].log, order[k])
        ensures e in newer
      {
        assert e in order;
        var j :| 0 <= j < |order| && order[j] == e;
        assert j > k;
        assert newer[j - k - 1] == e;
      }
    }
    SubsetSize(NotOlder(states[i].log, order[k]), newerSet);
    SetOfSeq(newer);
    assert order[k] in order;
    NewEntriesStay(states, steps, config, i, order[k]);
  }

  lemma {:induction false} SetOfSeq(s: seq<Entry>)
    ensures |set e | e in s| <= |s|
  {
    if s != [] {
      SetOfSeq(s[1..]);
      assert s == [s[0]] + s[1..];
      assert (set e | e in s) == {s[0]} + set e | e in s[1..];
    }
  }

  lemma {:induction false} IdsOfSeq(s: seq<Entry>)
    ensures |IdSet(s)| <= |s|
  {
    if s != [] {
      IdsOfSeq(s[1..]);
      assert s == [s[0]] + s[1..];
      assert IdSet(s) == {s[0].id} + IdSet(s[1..]);
    }
  }

  /**
   Once a pass has completed, the hash never holds more than a window of entries and those stored
   since that pass took its snapshot.
   */
  lemma SizeIsBounded(states: seq<State>, steps: seq<Step>, config: Config, i: nat, c: nat)
    requires IsRun(states, steps, config) && config.strategy == SlidingWindow && i < |states|
    requires c < |states[i].completed|
    ensures states[i].completed[c] <= |states[i].log|
    ensures |states[i].hash| <= config.windowSize + |states[i].log| - states[i].completed[c]
  {
    var s, window := states[i], config.windowSize;
    InvAlways(states, steps, config, i);
    assert BoundedSince(s, s.completed[c], window);
    var kept :| Bounded(s, kept, [], s.completed[c], window);
    var later := s.log[s.completed[c]..];
    IdsOfSeq(later);
    SubsetSize(s.hash.Keys, kept + IdSet(later));
    assert |kept + IdSet(later)| <= |kept| + |IdSet(later)|;
  }
}
