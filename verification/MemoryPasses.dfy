/**
 The manager's own code, run by one call without interference: every command to the store is one
 step of the interleaving model, and together they make one pass.
 */
module MemoryPasses {
  import opened Basics
  import opened WorkingMemory

  /** A summary that stands for these entries. */
  function SummaryOf(draft: Entry, chosen: seq<Entry>): Entry { draft.(sources := Ids(chosen)) }

  /** The hash after an uninterrupted pass over this snapshot; no draft means that the summariser raised. */
  ghost function AfterPass(hash: map<Id, Entry>, order: seq<Entry>, config: Config, draft: Option<Entry>): map<Id, Entry> {
    match config.strategy
    case SlidingWindow => hash - IdSet(Overflow(order, config.windowSize))
    case Summarization =>
      var chosen := ToCompress(order, config);
      if chosen == [] || draft.None? then hash
      else (hash - IdSet(chosen))[draft.value.id := SummaryOf(draft.value, chosen)]
  }

  lemma ListingWithoutLast(hash: map<Id, Entry>, order: seq<Entry>)
    requires Listing(hash, order) && order != []
    ensures var id := order[|order| - 1].id;
            Listing(hash - {id}, order[..|order| - 1]) && |hash - {id}| == |hash| - 1
  {
    var last, front := order[|order| - 1], order[..|order| - 1];
    var rest := hash - {last.id};
    assert last.id in hash && rest.Keys == hash.Keys - {last.id};
    forall id | id in rest
      ensures id in IdSet(front)
    {
      var e :| e in order && e.id == id;
      assert e in front;
    }
  }

  lemma {:induction false} ListingSize(hash: map<Id, Entry>, order: seq<Entry>)
    requires Listing(hash, order)
    ensures |order| == |hash|
    decreases |order|
  {
    if order == [] {
      assert hash.Keys == {};
    } else {
      ListingWithoutLast(hash, order);
      ListingSize(hash - {order[|order| - 1].id}, order[..|order| - 1]);
    }
  }

  // ----- the tokens of a hash ----------------------------------------------------------

  /** The tokens of all entries, added up in no particular order. */
  ghost function Together(hash: map<Id, Entry>): nat
    decreases |hash|
  {
    if hash == map[] then 0
    else
      var id :| id in hash;
      SmallerWithout(hash, id);
      hash[id].tokens + Together(hash - {id})
  }

  lemma SmallerWithout(hash: map<Id, Entry>, id: Id)
    requires id in hash
    ensures |hash - {id}| == |hash| - 1
  {
    assert (hash - {id}).Keys == hash.Keys - {id};
  }

  /** It does not matter which entry is counted first. */
  lemma {:induction false} TogetherWithout(hash: map<Id, Entry>, id: Id)
    requires id in hash
    ensures Together(hash) == hash[id].tokens + Together(hash - {id})
    decreases |hash|
  {
    var first :| first in hash && Together(hash) == hash[first].tokens + Together(hash - {first});
    if first != id {
      SmallerWithout(hash, first);
      SmallerWithout(hash, id);
      TogetherWithout(hash - {first}, id);
      TogetherWithout(hash - {id}, first);
      assert (hash - {first}) - {id} == (hash - {id}) - {first};
    }
  }

  /** The total of a list is the sum of its entries' tokens, however it is cut. */
  lemma {:induction false} TotalOfConcat(a: seq<Entry>, b: seq<Entry>)
    ensures TotalTokens(a + b) == TotalTokens(a) + TotalTokens(b)
    ensures a != [] ==> TotalTokens([a[0]]) == a[0].tokens
  {
    if a == [] {
      assert a + b == b;
    } else {
      assert (a + b)[1..] == a[1..] + b;
      TotalOfConcat(a[1..], b);
    }
  }

  /** Every listing of a hash has the total of the hash. */
  lemma {:induction false} TotalIsTogether(hash: map<Id, Entry>, order: seq<Entry>)
    requires Listing(hash, order)
    ensures TotalTokens(order) == Together(hash)
    decreases |order|
  {
    hide TotalTokens, Together, Listing;
    if order == [] {
      NothingTogether(hash);
    } else {
      var front, last := order[..|order| - 1], order[|order| - 1];
      ListsLast(hash, order);
      ListingWithoutLast(hash, order);
      TotalIsTogether(hash - {last.id}, front);
      TogetherWithout(hash, last.id);
      assert order == front + [last];
      TotalOfConcat(front, [last]);
      TotalOfConcat([last], []);
    }
  }

  lemma NothingTogether(hash: map<Id, Entry>)
    requires Listing(hash, [])
    ensures Together(hash) == TotalTokens([]) == 0
  {
    assert hash.Keys == {};
  }

  lemma ListsLast(hash: map<Id, Entry>, order: seq<Entry>)
    requires Listing(hash, order) && order != []
    ensures order[|order| - 1].id in hash && hash[order[|order| - 1].id] == order[|order| - 1]
  {
    hide IdSet;
  }

  /** There is something to compress: too many tokens together, someone to summarise, and two entries or more. */
  ghost predicate MustCompress(hash: map<Id, Entry>, config: Config) {
    Together(hash) > config.tokenBudget && config.canSummarise && |hash| >= 2
  }

  /** The decision of a pass depends on the hash alone, and compresses the older half of it, rounded up. */
  lemma CompressesIff(hash: map<Id, Entry>, order: seq<Entry>, config: Config)
    requires Listing(hash, order)
    ensures |order| == |hash| && (ToCompress(order, config) != [] <==> MustCompress(hash, config))
    ensures MustCompress(hash, config) ==> ToCompress(order, config) == order[..(|hash| + 1) / 2]
  {
    hide Listing, TotalTokens, Together;
    TotalIsTogether(hash, order);
    ListingSize(hash, order);
  }

  /** What a pass makes of the size of the hash. */
  lemma PassSize(hash: map<Id, Entry>, order: seq<Entry>, config: Config, draft: Option<Entry>)
    requires Listing(hash, order) && config.strategy == Summarization
    ensures !MustCompress(hash, config) || draft.None? ==> AfterPass(hash, order, config, draft) == hash
    ensures MustCompress(hash, config) && draft.Some? && draft.value.id !in hash ==>
              && |AfterPass(hash, order, config, draft)| == |hash| / 2 + 1
              && draft.value.id in AfterPass(hash, order, config, draft)
  {
    hide Listing, Together, MustCompress, ToCompress, IdSet, SummaryOf, Overflow;
    CompressesIff(hash, order, config);
    var chosen := ToCompress(order, config);
    if chosen != [] && draft.Some? && draft.value.id !in hash {
      var half := (|hash| + 1) / 2;
      assert chosen == order[..half];
      DropPrefix(hash, order, half);
      MoreAfter(hash - IdSet(chosen), draft.value.id, SummaryOf(draft.value, chosen));
      HalfAndHalf(|hash|);
    }
  }

  lemma HalfAndHalf(n: nat)
    ensures n - (n + 1) / 2 == n / 2
  {
  }

  lemma MoreAfter(hash: map<Id, Entry>, id: Id, e: Entry)
    requires id !in hash
    ensures |hash[id := e]| == |hash| + 1
  {
    assert hash[id := e].Keys == hash.Keys + {id};
  }

  /** An uninterrupted sliding-window pass keeps the newest entries, a window of them, and no other. */
  lemma SlidingPassKeepsWindow(hash: map<Id, Entry>, order: seq<Entry>, config: Config, draft: Option<Entry>, k: nat)
    requires Listing(hash, order) && config.strategy == SlidingWindow && k < |order|
    ensures order[k].id in AfterPass(hash, order, config, draft) <==> k + config.windowSize >= |order|
  {
    var over := Overflow(order, config.windowSize);
    assert k < |over| ==> over[k] in over;
    if order[k].id in IdSet(over) {
      var j :| 0 <= j < |over| && over[j].id == order[k].id;
      assert j == k;
    }
  }

  lemma DropPrefix(hash: map<Id, Entry>, order: seq<Entry>, n: nat)
    requires Listing(hash, order) && n <= |order|
    ensures |hash - IdSet(order[..n])| == |hash| - n
  {
    hide *;
    RestIsListing(hash, order, n);
    ListingSize(hash - IdSet(order[..n]), order[n..]);
    ListingSize(hash, order);
  }

  lemma RestIsListing(hash: map<Id, Entry>, order: seq<Entry>, n: nat)
    requires Listing(hash, order) && n <= |order|
    ensures Listing(hash - IdSet(order[..n]), order[n..])
  {
    var front, rest, left := order[..n], order[n..], hash - IdSet(order[..n]);
    forall id | id in left
      ensures id in IdSet(rest)
    {
      var e :| e in order && e.id == id;
      assert e in front || e in rest;
    }
    forall k | 0 <= k < |rest|
      ensures rest[k].id in left
    {
      NotInFront(order, n, n + k);
    }
  }

  lemma NotInFront(order: seq<Entry>, n: nat, k: nat)
    requires Ordered(order) && n <= k < |order|
    ensures order[k].id !in IdSet(order[..n])
  {
    forall e | e in order[..n]
      ensures e.id != order[k].id
    {
      var j :| 0 <= j < n && order[..n][j] == e;
      assert order[j] == e;
    }
  }

  /** An uninterrupted summarising pass never leaves more entries than it found, and loses none of them. */
  lemma SummarisingPassKeepsAll(hash: map<Id, Entry>, order: seq<Entry>, config: Config, draft: Option<Entry>)
    requires Listing(hash, order) && config.strategy == Summarization
    requires draft.Some? ==> draft.value.id !in hash
    ensures |AfterPass(hash, order, config, draft)| <= |hash|
    ensures forall id | id in hash ::
              id in AfterPass(hash, order, config, draft)
              || (draft.Some? && draft.value.id in AfterPass(hash, order, config, draft)
                  && id in AfterPass(hash, order, config, draft)[draft.value.id].sources)
  {
    var chosen := ToCompress(order, config);
    if chosen != [] && draft.Some? {
      DropPrefix(hash, order, |chosen|);
      assert chosen == order[..|chosen|];
      var left := hash - IdSet(chosen);
      var after := AfterPass(hash, order, config, draft);
      assert after.Keys == left.Keys + {draft.value.id};
      forall id | id in IdSet(chosen)
        ensures id in Ids(chosen)
      {
        var k :| 0 <= k < |chosen| && chosen[k].id == id;
        assert Ids(chosen)[k] == id;
      }
    }
  }

  function InsertByTime(order: seq<Entry>, e: Entry): (r: seq<Entry>)
    ensures |r| == |order| + 1
  {
    if order == [] then [e]
    else if e.timestamp < order[0].timestamp then [e] + order
    else [order[0]] + InsertByTime(order[1..], e)
  }

  ghost predicate Ordered(order: seq<Entry>) {
    forall j, k | 0 <= j < k < |order| :: order[j].id != order[k].id && order[j].timestamp <= order[k].timestamp
  }

  lemma OrderedCons(first: Entry, rest: seq<Entry>)
    requires Ordered(rest) && forall f | f in rest :: f.id != first.id && first.timestamp <= f.timestamp
    ensures Ordered([first] + rest)
  {
    assert forall k | 0 <= k < |rest| :: rest[k] in rest;
  }

  lemma {:induction false} InsertKeepsOrder(order: seq<Entry>, e: Entry)
    requires Ordered(order) && e.id !in IdSet(order)
    ensures Ordered(InsertByTime(order, e))
    ensures forall f :: f in InsertByTime(order, e) <==> f == e || f in order
  {
    if order != [] && e.timestamp >= order[0].timestamp {
      var rest := order[1..];
      assert order == [order[0]] + rest;
      InsertKeepsOrder(rest, e);
      OrderedCons(order[0], InsertByTime(rest, e));
    } else {
      assert forall k | 0 <= k < |order| :: order[k] in order;
    }
  }

  /** A lock that stays held is given up at the third attempt. */
  lemma GivesUpAtTheThird(s: State, config: Config, w: Writer)
    requires s.lock.Some? && s.PhaseOf(w) == Acquiring(0)
    ensures var one := Next(s, config, Acquire(w));
            && one == s.At(w, Acquiring(1))
            && var two := Next(one, config, Acquire(w));
               && two == s.At(w, Acquiring(2)) && Next(two, config, Acquire(w)) == s.At(w, WorkingMemory.Idle)
  {
    hide IdSet;
  }

  class WorkingMemoryManager {
    const config: Config

    var hash: map<Id, Entry>
    var lock: Option<nat>
    ghost var calls: map<Writer, Phase>
    ghost var log: seq<Entry>
    ghost var completed: seq<nat>

    ghost function Value(): State
      reads this
    {
      State(hash, lock, calls, log, completed)
    }

    constructor (config: Config)
      ensures Value() == Init() && this.config == config
    {
      this.config := config;
      hash, lock, calls, log, completed := map[], None, map[], [], [];
    }

    /** HSET of a new entry. */
    method SetEntry(w: Writer, e: Entry)
      requires Enabled(Value(), config, Add(w, e))
      modifies this
      ensures Value() == Next(old(Value()), config, Add(w, e))
    {
      hash := hash[e.id := e];
      log := log + [e];
      calls := calls[w := Acquiring(0)];
    }

    /** SET of the lock key if it is absent. */
    method SetLockIfAbsent(w: Writer) returns (acquired: bool)
      requires Enabled(Value(), config, Acquire(w))
      modifies this
      ensures Value() == Next(old(Value()), config, Acquire(w))
      ensures acquired == old(lock).None?
    {
      ghost var attempt := calls[w].attempt;
      acquired := lock.None?;
      if acquired {
        lock := Some(w.token);
        calls := calls[w := Locked];
      } else {
        calls := calls[w := if attempt < LOCK_RETRIES then Acquiring(attempt + 1) else Idle];
      }
    }

    /** Try for the lock, and twice more. */
    method AcquireLock(w: Writer) returns (acquired: bool)
      requires Value().PhaseOf(w) == Acquiring(0)
      modifies this
      ensures acquired == old(lock).None?
      ensures hash == old(hash) && log == old(log)
      ensures Value().PhaseOf(w) == if acquired then Locked else Idle
      ensures lock == if acquired then Some(w.token) else old(lock)
    {
      var attempt := 0;
      while attempt <= LOCK_RETRIES
        invariant 0 <= attempt <= LOCK_RETRIES + 1
        invariant attempt <= LOCK_RETRIES ==> Value().PhaseOf(w) == Acquiring(attempt)
        invariant attempt == LOCK_RETRIES + 1 ==> Value().PhaseOf(w) == Idle
        invariant attempt > 0 ==> lock.Some?
        invariant hash == old(hash) && log == old(log) && lock == old(lock)
      {
        var got := SetLockIfAbsent(w);
        if got {
          return true;
        }
        attempt := attempt + 1;
      }
      return false;
    }

    /** Every entry, sorted by timestamp. */
    method GetEntries() returns (order: seq<Entry>)
      requires forall id | id in hash :: hash[id].id == id
      ensures Listing(hash, order)
    {
      order := [];
      var left := hash.Keys;
      while left != {}
        invariant left <= hash.Keys && Ordered(order)
        invariant forall e | e in order :: e.id in hash && e.id !in left && hash[e.id] == e
        invariant forall id | id in hash && id !in left :: id in IdSet(order)
        decreases |left|
      {
        var id :| id in left;
        InsertKeepsOrder(order, hash[id]);
        ghost var before := order;
        order := InsertByTime(order, hash[id]);
        assert hash[id] in order;
        assert forall e | e in before :: e in order;
        left := left - {id};
      }
      assert forall k | 0 <= k < |order| :: order[k] in order;
    }

    /** HDEL of the next entry that the pass decided to delete. */
    method DeleteEntry(w: Writer, id: Id)
      requires Enabled(Value(), config, Drop(w)) && Value().PhaseOf(w).queue[0] == id
      modifies this
      ensures Value() == Next(old(Value()), config, Drop(w))
    {
      hash := hash - {id};
      calls := calls[w := calls[w].(queue := calls[w].queue[1..])];
    }

    /** GET the lock, and DEL it if the token is this call's. */
    method ReleaseLock(w: Writer)
      requires Value().PhaseOf(w).Releasing?
      modifies this
      ensures hash == old(hash) && log == old(log) && Value().PhaseOf(w).Idle?
      ensures lock == if old(lock) == Some(w.token) then None else old(lock)
    {
      ghost var s := Next(Value(), config, Release(w));
      calls := s.calls;
      assert Value() == s;
      if lock == Some(w.token) {
        s := Next(Value(), config, Unlock(w));
        lock := None;
        calls := s.calls;
        assert Value() == s;
      }
    }

    /** What a pass decides between two commands. */
    ghost method Advance(step: Step)
      requires Enabled(Value(), config, step)
      requires step.Snapshot? || step.Finish? || step.Summarised? || step.Raised?
      modifies this`calls, this`completed
      ensures Value() == Next(old(Value()), config, step)
    {
      var s := Next(Value(), config, step);
      calls, completed := s.calls, s.completed;
    }

    /** HSET of the summary. */
    method SetSummary(w: Writer, summary: Entry)
      requires Enabled(Value(), config, Store(w, summary))
      modifies this
      ensures Value() == Next(old(Value()), config, Store(w, summary))
    {
      hash := hash[summary.id := summary];
      log := log + [summary];
      calls := calls[w := Releasing];
    }

    /** Delete what was decided, one command an entry. */
    method DeleteEntries(w: Writer, entries: seq<Entry>)
      requires Value().PhaseOf(w).Evicting? || Value().PhaseOf(w).Compressing?
      requires Value().PhaseOf(w).queue == Ids(entries)
      modifies this
      ensures hash == old(hash) - IdSet(entries)
      ensures log == old(log) && lock == old(lock)
      ensures Value().PhaseOf(w) == EmptyQueue(old(Value()).PhaseOf(w))
    {
      hide IdSet, Ids, Next, EmptyQueue;
      var i := 0;
      NoIds();
      while i < |entries|
        invariant 0 <= i <= |entries|
        invariant hash == old(hash) - IdSet(entries[..i]) && log == old(log) && lock == old(lock)
        invariant Value().PhaseOf(w).Evicting? || Value().PhaseOf(w).Compressing?
        invariant Value().PhaseOf(w).queue == Ids(entries)[i..]
        invariant EmptyQueue(Value().PhaseOf(w)) == EmptyQueue(old(Value()).PhaseOf(w))
      {
        OneMoreId(entries, i);
        DropTwice(old(hash), IdSet(entries[..i]), entries[i].id);
        DropShortens(Value(), config, w);
        DeleteEntry(w, entries[i].id);
        i := i + 1;
      }
      assert entries[..i] == entries;
      NothingQueued(Value().PhaseOf(w));
    }

    /** What the holder of the lock does: read everything, decide, delete, and store a summary. */
    method RunPass(w: Writer, draft: Option<Entry>) returns (raised: bool, ghost order: seq<Entry>)
      requires Value().PhaseOf(w).Locked? && forall id | id in hash :: hash[id].id == id
      requires draft.Some? ==> draft.value.id !in IdSet(log)
      modifies this
      ensures Value().PhaseOf(w).Releasing? && lock == old(lock)
      ensures Listing(old(hash), order) && hash == AfterPass(old(hash), order, config, draft)
      ensures raised <==> config.strategy == Summarization && ToCompress(order, config) != [] && draft.None?
    {
      hide Listing, TotalTokens;
      raised := false;
      var entries := GetEntries();
      order := entries;
      Advance(Snapshot(w, order));
      match config.strategy
      case SlidingWindow =>
        DeleteEntries(w, Overflow(entries, config.windowSize));
        Advance(Finish(w));
      case Summarization =>
        var chosen := ToCompress(entries, config);
        if chosen != [] {
          if draft.None? {
            Advance(Raised(w));
            raised := true;
          } else {
            Advance(Summarised(w));
            DeleteEntries(w, chosen);
            SetSummary(w, SummaryOf(draft.value, chosen));
          }
        }
    }

    /**
     One pass: nothing if another call holds the lock; otherwise what AfterPass says of the
     snapshot, and the lock is free again even if the summariser raised.
     */
    method ApplyStrategy(w: Writer, draft: Option<Entry>) returns (raised: bool, ghost order: seq<Entry>)
      requires Value().PhaseOf(w) == Acquiring(0) && forall id | id in hash :: hash[id].id == id
      requires draft.Some? ==> draft.value.id !in IdSet(log)
      modifies this
      ensures Value().PhaseOf(w).Idle?
      ensures old(lock).Some? ==> hash == old(hash) && lock == old(lock) && !raised
      ensures old(lock).None? ==> Listing(old(hash), order) && hash == AfterPass(old(hash), order, config, draft)
      ensures old(lock).None? ==> lock.None?
      // Under a token budget, it compresses exactly if the entries' tokens together exceed it, there are two or
      // more, and they can be summarised; if the summariser then raises, the call does and the hash is as it was.
      ensures old(lock).None? ==>
                (raised <==> config.strategy == Summarization && MustCompress(old(hash), config) && draft.None?)
      ensures old(lock).None? && config.strategy == Summarization ==>
                if MustCompress(old(hash), config) && draft.Some?
                then draft.value.id !in old(hash) ==> draft.value.id in hash && |hash| == |old(hash)| / 2 + 1
                else hash == old(hash)
    {
      hide Listing, AfterPass, ToCompress, MustCompress;
      raised, order := false, [];
      var acquired := AcquireLock(w);
      if acquired {
        raised, order := RunPass(w, draft);
        ReleaseLock(w);
        CompressesIff(old(hash), order, config);
        if config.strategy == Summarization {
          PassSize(old(hash), order, config, draft);
        }
      }
    }

    /** Store the entry, then run a pass. */
    method AddEntry(w: Writer, e: Entry, draft: Option<Entry>) returns (raised: bool, ghost order: seq<Entry>)
      requires Enabled(Value(), config, Add(w, e)) && forall id | id in hash :: hash[id].id == id
      requires draft.Some? ==> draft.value.id !in IdSet(log) && draft.value.id != e.id
      modifies this
      ensures Value().PhaseOf(w).Idle?
      ensures old(lock).Some? ==> hash == old(hash)[e.id := e] && lock == old(lock)
      ensures old(lock).None? ==>
                && Listing(old(hash)[e.id := e], order) && lock.None?
                && hash == AfterPass(old(hash)[e.id := e], order, config, draft)
      ensures old(lock).None? ==>
                (raised <==> config.strategy == Summarization && MustCompress(old(hash)[e.id := e], config) && draft.None?)
      ensures old(lock).None? && config.strategy == Summarization ==>
                if MustCompress(old(hash)[e.id := e], config) && draft.Some?
                then draft.value.id !in old(hash) ==> draft.value.id in hash && |hash| == |old(hash)[e.id := e]| / 2 + 1
                else hash == old(hash)[e.id := e]
    {
      hide Listing, AfterPass, ToCompress, MustCompress;
      SetEntry(w, e);
      raised, order := ApplyStrategy(w, draft);
    }
  }

  /** The phase of a pass that has deleted all it decided to. */
  function EmptyQueue(p: Phase): Phase {
    match p
    case Evicting(_, kept, since) => Evicting([], kept, since)
    case Compressing(_, chosen, before, since) => Compressing([], chosen, before, since)
    case _ => p
  }

  lemma NoIds()
    ensures IdSet([]) == {}
  {
  }

  lemma DropShortens(s: State, config: Config, w: Writer)
    requires Enabled(s, config, Drop(w))
    ensures var t, p := Next(s, config, Drop(w)), s.PhaseOf(w);
            && t.hash == s.hash - {p.queue[0]} && t.log == s.log && t.lock == s.lock
            && (t.PhaseOf(w).Evicting? || t.PhaseOf(w).Compressing?) && t.PhaseOf(w).queue == p.queue[1..]
            && EmptyQueue(t.PhaseOf(w)) == EmptyQueue(p)
  {
  }

  lemma NothingQueued(p: Phase)
    requires (p.Evicting? || p.Compressing?) && p.queue == []
    ensures EmptyQueue(p) == p
  {
  }

  lemma OneMoreId(entries: seq<Entry>, i: nat)
    requires i < |entries|
    ensures IdSet(entries[..i + 1]) == IdSet(entries[..i]) + {entries[i].id}
    ensures var rest := Ids(entries)[i..];
            rest != [] && rest[0] == entries[i].id && rest[1..] == Ids(entries)[i + 1..]
  {
    assert entries[..i + 1] == entries[..i] + [entries[i]];
  }

  lemma DropTwice(hash: map<Id, Entry>, ids: set<Id>, id: Id)
    ensures (hash - ids) - {id} == hash - (ids + {id})
  {
  }
}
