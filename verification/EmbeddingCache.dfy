/**
 The embedding service: a bounded cache in order of last use, in front of a backend that
 answers one text or a batch.

 The embedding itself is a function of the text; the cache and the batching may change how
 often the backend is asked, never what a caller gets.
 */
module EmbeddingCache {
  import opened Basics

  type Vector = seq<real>

  /** A text's digest stands for the text: the hash is taken to be injective. */
  datatype Digest = Sha256(text: string)

  datatype Key = Key(model: string, tenant: string, agent: string, digest: Digest)

  datatype EmbedError = RequestFailed | ZeroStep | MissingVector

  /** The number of entries the cache holds at most. */
  const CACHE_MAX_SIZE: nat := 2048

  /** How often one request is tried. */
  const ATTEMPTS: nat := 3

  // ----- the order of last use -------------------------------------------------------

  function Without<T(==,!new)>(s: seq<T>, x: T): (r: seq<T>)
    ensures forall y :: y in r <==> y in s && y != x
  {
    if s == [] then [] else if s[0] == x then Without(s[1..], x) else [s[0]] + Without(s[1..], x)
  }

  function MovedToEnd<T(==,!new)>(s: seq<T>, x: T): seq<T> { Without(s, x) + [x] }

  /** The distinct elements of a history, in the order in which they were last used. */
  function LastUses<T(==,!new)>(h: seq<T>): seq<T> {
    if h == [] then [] else MovedToEnd(LastUses(h[..|h| - 1]), h[|h| - 1])
  }

  function Newest<T>(s: seq<T>, n: nat): seq<T> {
    if |s| <= n then s else s[|s| - n..]
  }

  /** What a cache of bounded size must hold after a history of uses. */
  function Cached(h: seq<Key>): seq<Key> { Newest(LastUses(h), CACHE_MAX_SIZE) }

  predicate Distinct<T(==,!new)>(s: seq<T>) {
    forall i, j | 0 <= i < j < |s| :: s[i] != s[j]
  }

  lemma {:induction false} WithoutConcat<T(!new)>(a: seq<T>, b: seq<T>, x: T)
    ensures Without(a + b, x) == Without(a, x) + Without(b, x)
  {
    if a == [] {
      assert a + b == b;
    } else {
      assert (a + b)[1..] == a[1..] + b;
      WithoutConcat(a[1..], b, x);
    }
  }

  lemma {:induction false} WithoutAbsent<T(!new)>(s: seq<T>, x: T)
    requires x !in s
    ensures Without(s, x) == s
  {
    if s != [] {
      WithoutAbsent(s[1..], x);
    }
  }

  lemma {:induction false} WithoutKeepsDistinct<T(!new)>(s: seq<T>, x: T)
    requires Distinct(s)
    ensures Distinct(Without(s, x)) && |Without(s, x)| == (if x in s then |s| - 1 else |s|)
  {
    if s != [] {
      WithoutKeepsDistinct(s[1..], x);
      assert s[0] !in s[1..];
      if s[0] == x {
        WithoutAbsent(s[1..], x);
      }
    }
  }

  lemma {:induction false} LastUsesAreTheElements<T(!new)>(h: seq<T>)
    ensures Distinct(LastUses(h)) && forall x :: x in LastUses(h) <==> x in h
  {
    if h != [] {
      var front := h[..|h| - 1];
      LastUsesAreTheElements(front);
      WithoutKeepsDistinct(LastUses(front), h[|h| - 1]);
      assert h == front + [h[|h| - 1]];
    }
  }

  lemma LastUsesSnoc<T(!new)>(h: seq<T>, y: T)
    ensures LastUses<T>([]) == []
    ensures LastUses(h + [y]) == Without(LastUses(h), y) + [y]
  {
    assert (h + [y])[..|h|] == h;
  }

  lemma WithoutOther<T(!new)>(a: seq<T>, x: T, b: seq<T>, y: T)
    requires x != y
    ensures Without(a + [x] + b, y) == Without(a, y) + [x] + Without(b, y)
  {
    WithoutConcat(a + [x], b, y);
    WithoutConcat(a, [x], y);
    assert Without([x], y) == [x];
  }

  /** An element sits before exactly the distinct elements used after its own last use. */
  lemma {:induction false} UsesAfter<T(!new)>(before: seq<T>, x: T, after: seq<T>) returns (older: seq<T>)
    requires x !in after
    ensures LastUses(before + [x] + after) == older + [x] + LastUses(after)
  {
    hide Without, LastUses;
    if after == [] {
      assert before + [x] + after == before + [x];
      LastUsesSnoc(before, x);
      older := Without(LastUses(before), x);
    } else {
      var y := after[|after| - 1];
      var front := after[..|after| - 1];
      var o := UsesAfter(before, x, front);
      assert before + [x] + after == (before + [x] + front) + [y] && after == front + [y];
      LastUsesSnoc(before + [x] + front, y);
      LastUsesSnoc(front, y);
      WithoutOther(o, x, LastUses(front), y);
      older := Without(o, y);
    }
  }

  /** A key is cached exactly when fewer than the bound were used since its own last use. */
  lemma CachedIff(before: seq<Key>, x: Key, after: seq<Key>)
    requires x !in after
    ensures x in Cached(before + [x] + after) <==> |LastUses(after)| < 2048
  {
    var h := before + [x] + after;
    var older := UsesAfter(before, x, after);
    LastUsesAreTheElements(h);
    var uses := LastUses(h);
    assert uses[|older|] == x;
    if |LastUses(after)| < CACHE_MAX_SIZE {
      var c := Cached(h);
      assert c[|older| - (|uses| - |c|)] == x;
    }
  }

  lemma WithoutLast<T(!new)>(s: seq<T>, x: T)
    ensures Without(s + [x], x) == Without(s, x)
  {
    WithoutConcat(s, [x], x);
  }

  lemma NewestOfConcat<T(!new)>(a: seq<T>, b: seq<T>, n: nat)
    requires |b| >= n
    ensures Newest(a + b, n) == Newest(b, n)
  {
  }

  /** Evicting from the bounded order is bounding the unbounded order. */
  lemma BoundedMove<T(!new)>(uses: seq<T>, x: T, n: nat)
    requires Distinct(uses)
    ensures Newest(MovedToEnd(uses, x), n) == Newest(MovedToEnd(Newest(uses, n), x), n)
  {
    if |uses| > n {
      var lost, kept := uses[..|uses| - n], uses[|uses| - n..];
      WithoutConcat(lost, kept, x);
      WithoutKeepsDistinct(kept, x);
      assert uses == lost + kept;
      assert MovedToEnd(uses, x) == Without(lost, x) + MovedToEnd(kept, x);
      NewestOfConcat(Without(lost, x), MovedToEnd(kept, x), n);
    }
  }

  /** One more use of a key: move it to the end of what is cached, and evict. */
  lemma CachedAfter(h: seq<Key>, k: Key)
    ensures Cached(h + [k]) == Newest(MovedToEnd(Cached(h), k), CACHE_MAX_SIZE)
    ensures Distinct(Cached(h)) && |Cached(h)| <= CACHE_MAX_SIZE && Distinct(MovedToEnd(Cached(h), k))
    ensures |MovedToEnd(Cached(h), k)| == |Cached(h)| + if k in Cached(h) then 0 else 1
  {
    LastUsesAreTheElements(h);
    BoundedMove(LastUses(h), k, CACHE_MAX_SIZE);
    assert (h + [k])[..|h|] == h;
    WithoutKeepsDistinct(Cached(h), k);
  }

  // ----- the plain meaning of a batch --------------------------------------------------

  function Embedded(plain: string -> Vector, texts: seq<string>): (r: seq<Vector>)
    ensures |r| == |texts| && forall i | 0 <= i < |r| :: r[i] == plain(texts[i])
  {
    seq(|texts|, i requires 0 <= i < |texts| => plain(texts[i]))
  }

  function Chunks(texts: seq<string>, n: nat): (r: seq<seq<string>>)
    requires n > 0
    ensures forall c | c in r :: 0 < |c| <= n
  {
    if texts == [] then []
    else
      var m := if |texts| < n then |texts| else n;
      [texts[..m]] + Chunks(texts[m..], n)
  }

  function Flatten<T>(s: seq<seq<T>>): seq<T> {
    if s == [] then [] else s[0] + Flatten(s[1..])
  }

  lemma FlattenCons<T>(a: seq<T>, b: seq<seq<T>>)
    ensures Flatten([a] + b) == a + Flatten(b)
  {
    assert ([a] + b)[1..] == b;
  }

  /** The first chunk and the chunks of what is left. */
  lemma ChunksUnfold(texts: seq<string>, n: nat)
    requires n > 0
    ensures if texts == [] then Chunks(texts, n) == [] && Flatten(Chunks(texts, n)) == []
            else var m := if |texts| < n then |texts| else n;
                 Chunks(texts, n) == [texts[..m]] + Chunks(texts[m..], n)
  {
  }

  /** Chunking neither loses nor repeats nor reorders a text. */
  lemma {:induction false} ChunksFlatten(texts: seq<string>, n: nat)
    requires n > 0
    ensures Flatten(Chunks(texts, n)) == texts
  {
    hide Chunks, Flatten;
    ChunksUnfold(texts, n);
    if texts != [] {
      var m := if |texts| < n then |texts| else n;
      ChunksFlatten(texts[m..], n);
      FlattenCons(texts[..m], Chunks(texts[m..], n));
      assert texts[..m] + texts[m..] == texts;
    }
  }

  /** One of the attempts for a chunk succeeds. */
  ghost predicate Answered(answers: (nat, nat) -> bool, chunk: nat) {
    exists attempt: nat | attempt < ATTEMPTS :: answers(chunk, attempt)
  }

  lemma AnsweredIff(answers: (nat, nat) -> bool, chunk: nat)
    ensures Answered(answers, chunk) <==> answers(chunk, 0) || answers(chunk, 1) || answers(chunk, 2)
  {
  }

  /** The cached keys of a batch, position by position. */
  function Hits(keys: seq<Key>, cached: set<Key>): seq<Key> {
    if keys == [] then []
    else
      var k := keys[|keys| - 1];
      Hits(keys[..|keys| - 1], cached) + (if k in cached then [k] else [])
  }

  /** The keys of a batch that are not cached, each where it first occurs. */
  function Misses(keys: seq<Key>, cached: set<Key>): (r: seq<Key>)
    ensures Distinct(r) && forall k :: k in r <==> k in keys && k !in cached
  {
    if keys == [] then []
    else
      var k := keys[|keys| - 1];
      var front := Misses(keys[..|keys| - 1], cached);
      assert forall x :: x in keys <==> x in keys[..|keys| - 1] || x == k;
      if k in cached || k in front then front else front + [k]
  }

  function TextsOf(keys: seq<Key>): (r: seq<string>)
    ensures |r| == |keys| && forall i | 0 <= i < |r| :: r[i] == keys[i].digest.text
  {
    seq(|keys|, i requires 0 <= i < |keys| => keys[i].digest.text)
  }

  /** The uses of a batch are its keys: the cached ones wherever they occur, the others once. */
  lemma {:induction false} UsesOfBatch(keys: seq<Key>, cached: set<Key>, k: Key)
    ensures k in Hits(keys, cached) <==> k in keys && k in cached
    ensures multiset(Hits(keys, cached))[k] == if k in cached then multiset(keys)[k] else 0
  {
    if keys != [] {
      var front, last := keys[..|keys| - 1], keys[|keys| - 1];
      assert keys == front + [last];
      UsesOfBatch(front, cached, k);
    }
  }

  lemma {:induction false} LastOccurrence(s: seq<Key>, k: Key) returns (before: seq<Key>, after: seq<Key>)
    requires k in s
    ensures s == before + [k] + after && k !in after
  {
    var front, last := s[..|s| - 1], s[|s| - 1];
    assert s == front + [last];
    if last == k {
      before, after := front, [];
    } else {
      var rest;
      before, rest := LastOccurrence(front, k);
      after := rest + [last];
    }
  }

  lemma {:induction false} DistinctFits(s: seq<Key>, keys: set<Key>)
    requires Distinct(s) && forall x | x in s :: x in keys
    ensures |s| <= |keys|
  {
    if s != [] {
      assert forall x | x in s[1..] :: x in keys && x != s[0];
      DistinctFits(s[1..], keys - {s[0]});
    }
  }

  /** A batch of no more distinct keys than the cache holds leaves every one of them cached. */
  lemma BatchIsCached(h: seq<Key>, keys: seq<Key>, cached: set<Key>, k: Key)
    requires k in keys && |set x | x in keys| <= 2048
    ensures k in Cached(h + Hits(keys, cached) + Misses(keys, cached))
  {
    hide Cached, LastUses, Hits;
    var uses := Hits(keys, cached) + Misses(keys, cached);
    forall x
      ensures x in uses <==> x in keys
    {
      UsesOfBatch(keys, cached, x);
    }
    var before, after := LastOccurrence(uses, k);
    LastUsesAreTheElements(after);
    var all := set x | x in keys;
    assert forall x | x in after :: x in uses;
    DistinctFits(LastUses(after), all - {k});
    CachedIff(h + before, k, after);
    assert h + Hits(keys, cached) + Misses(keys, cached) == h + uses;
    assert h + (before + [k] + after) == h + before + [k] + after;
  }

  lemma AllCached(h: seq<Key>, ks: seq<Key>, cached: set<Key>, keys: seq<Key>, values: map<Key, Vector>,
                  plain: string -> Vector)
    requires keys == Cached(h + Hits(ks, cached) + Misses(ks, cached)) && Agree(keys, values, plain)
    ensures |set k | k in ks| <= 2048 ==> forall k | k in ks :: k in values
  {
    hide Cached, Hits, Misses;
    if |set k | k in ks| <= 2048 {
      forall k | k in ks
        ensures k in values
      {
        BatchIsCached(h, ks, cached, k);
      }
    }
  }

  // ----- the bookkeeping of a batch ------------------------------------------------------

  /** The uncached keys among the first n positions, in first-seen order, and the positions of each. */
  ghost predicate Bucketed(ks: seq<Key>, n: nat, cached: set<Key>, order: seq<Key>, positions: map<Key, seq<nat>>)
    requires n <= |ks|
  {
    && order == Misses(ks[..n], cached)
    && (forall k :: k in positions <==> k in order)
    && (forall k | k in positions :: positions[k] != [])
    && (forall k, m | k in positions && 0 <= m < |positions[k]| :: positions[k][m] < n && ks[positions[k][m]] == k)
    && forall p | 0 <= p < n && ks[p] !in cached :: ks[p] in positions && p in positions[ks[p]]
  }

  lemma MissesStep(ks: seq<Key>, n: nat, cached: set<Key>)
    requires n < |ks|
    ensures Misses(ks[..n + 1], cached) ==
            Misses(ks[..n], cached) + if ks[n] in cached || ks[n] in Misses(ks[..n], cached) then [] else [ks[n]]
    ensures Hits(ks[..n + 1], cached) == Hits(ks[..n], cached) + if ks[n] in cached then [ks[n]] else []
  {
    assert ks[..n + 1][..n] == ks[..n];
  }

  lemma BucketedHit(ks: seq<Key>, n: nat, cached: set<Key>, order: seq<Key>, positions: map<Key, seq<nat>>)
    requires n < |ks| && ks[n] in cached && Bucketed(ks, n, cached, order, positions)
    ensures Bucketed(ks, n + 1, cached, order, positions)
    ensures Hits(ks[..n + 1], cached) == Hits(ks[..n], cached) + [ks[n]]
  {
    hide Misses, Hits;
    MissesStep(ks, n, cached);
  }

  lemma BucketedNew(ks: seq<Key>, n: nat, cached: set<Key>, order: seq<Key>, positions: map<Key, seq<nat>>)
    requires n < |ks| && ks[n] !in cached && Bucketed(ks, n, cached, order, positions) && ks[n] !in positions
    ensures Bucketed(ks, n + 1, cached, order + [ks[n]], positions[ks[n] := [n]])
    ensures Hits(ks[..n + 1], cached) == Hits(ks[..n], cached)
  {
    hide Misses, Hits;
    MissesStep(ks, n, cached);
  }

  lemma BucketedAgain(ks: seq<Key>, n: nat, cached: set<Key>, order: seq<Key>, positions: map<Key, seq<nat>>)
    requires n < |ks| && ks[n] !in cached && Bucketed(ks, n, cached, order, positions) && ks[n] in positions
    ensures Bucketed(ks, n + 1, cached, order, positions[ks[n] := positions[ks[n]] + [n]])
    ensures Hits(ks[..n + 1], cached) == Hits(ks[..n], cached)
  {
    hide Misses, Hits;
    MissesStep(ks, n, cached);
  }

  /** The text at the first position of each key is the text of that key. */
  lemma FirstPositions(ks: seq<Key>, texts: seq<string>, cached: set<Key>, order: seq<Key>,
                       positions: map<Key, seq<nat>>)
    requires |texts| == |ks| && Bucketed(ks, |ks|, cached, order, positions) && TextsOf(ks) == texts
    ensures order == Misses(ks, cached) && ks[..|ks|] == ks
    ensures forall j | 0 <= j < |order| ::
              && order[j] in positions && positions[order[j]] != [] && positions[order[j]][0] < |texts|
              && texts[positions[order[j]][0]] == order[j].digest.text
    ensures forall k, m | k in positions && 0 <= m < |positions[k]| :: positions[k][m] < |texts|
  {
    hide Misses;
    assert ks[..|ks|] == ks;
    forall j | 0 <= j < |order|
      ensures && order[j] in positions && positions[order[j]] != [] && positions[order[j]][0] < |texts|
              && texts[positions[order[j]][0]] == order[j].digest.text
    {
      assert order[j] in order;
    }
  }

  /** The answers so far: those of the cached keys among the first n positions, and those of the keys done. */
  ghost predicate Filled(results: seq<Option<Vector>>, ks: seq<Key>, plain: string -> Vector, cached: set<Key>,
                         n: nat, done: seq<Key>)
  {
    && |results| == |ks|
    && forall p | 0 <= p < |ks| ::
         results[p] == if (p < n && ks[p] in cached) || ks[p] in done then Some(plain(ks[p].digest.text)) else None
  }

  /** The answers that are there. */
  function Present(results: seq<Option<Vector>>): seq<Vector> {
    if results == [] then []
    else if results[0].Some? then [results[0].value] + Present(results[1..])
    else Present(results[1..])
  }

  lemma {:induction false} PresentIsAll(results: seq<Option<Vector>>)
    requires forall p | 0 <= p < |results| :: results[p].Some?
    ensures |Present(results)| == |results|
    ensures forall p | 0 <= p < |results| :: Present(results)[p] == results[p].value
  {
    if results != [] {
      PresentIsAll(results[1..]);
    }
  }

  lemma NothingDone(ks: seq<Key>, plain: string -> Vector, cached: set<Key>)
    ensures Hits(ks[..0], cached) == [] && Bucketed(ks, 0, cached, [], map[])
    ensures Filled(seq(|ks|, _ => None), ks, plain, cached, 0, [])
    ensures Hits([], cached) == [] && Misses([], cached) == [] && Embedded(plain, []) == []
    ensures TextsOf([]) == [] && Flatten<string>([]) == []
  {
  }

  lemma FilledHit(results: seq<Option<Vector>>, ks: seq<Key>, plain: string -> Vector, cached: set<Key>, n: nat)
    requires n < |ks| && Filled(results, ks, plain, cached, n, [])
    ensures ks[n] in cached ==>
              Filled(results[n := Some(plain(ks[n].digest.text))], ks, plain, cached, n + 1, [])
    ensures ks[n] !in cached ==> Filled(results, ks, plain, cached, n + 1, [])
  {
  }

  /** Put one answer at each of these positions. */
  method FanOut(before: seq<Option<Vector>>, at: seq<nat>, v: Vector) returns (results: seq<Option<Vector>>)
    requires forall m | 0 <= m < |at| :: at[m] < |before|
    ensures |results| == |before|
    ensures forall p | 0 <= p < |results| :: results[p] == if p in at then Some(v) else before[p]
  {
    results := before;
    var m := 0;
    while m < |at|
      invariant 0 <= m <= |at| && |results| == |before|
      invariant forall p | 0 <= p < |results| :: results[p] == if p in at[..m] then Some(v) else before[p]
    {
      assert at[..m + 1] == at[..m] + [at[m]];
      results := results[at[m] := Some(v)];
      m := m + 1;
    }
    assert at[..m] == at;
  }

  /** Fanning one answer out to the positions of its key answers that key. */
  lemma FannedOut(before: seq<Option<Vector>>, after: seq<Option<Vector>>, ks: seq<Key>, plain: string -> Vector,
                  cached: set<Key>, order: seq<Key>, positions: map<Key, seq<nat>>, j: nat)
    requires Bucketed(ks, |ks|, cached, order, positions) && j < |order|
    requires Filled(before, ks, plain, cached, |ks|, order[..j]) && |after| == |before|
    requires forall p | 0 <= p < |after| ::
               after[p] == if p in positions[order[j]] then Some(plain(order[j].digest.text)) else before[p]
    ensures Filled(after, ks, plain, cached, |ks|, order[..j + 1])
  {
    var k := order[j];
    assert ks[..|ks|] == ks && k in order;
    assert order[..j + 1] == order[..j] + [k];
    forall p | 0 <= p < |ks|
      ensures after[p] == if ks[p] in cached || ks[p] in order[..j + 1] then Some(plain(ks[p].digest.text)) else None
    {
      assert p in positions[k] <==> ks[p] == k;
    }
  }

  lemma FilledIsAll(results: seq<Option<Vector>>, ks: seq<Key>, plain: string -> Vector, cached: set<Key>)
    requires Filled(results, ks, plain, cached, |ks|, Misses(ks, cached))
    ensures Present(results) == Embedded(plain, TextsOf(ks))
  {
    PresentIsAll(results);
  }

  /** The values are those of the keys, each the plain embedding of its text. */
  ghost predicate Agree(keys: seq<Key>, values: map<Key, Vector>, plain: string -> Vector) {
    && (forall k :: k in values <==> k in keys)
    && forall k | k in values :: values[k] == plain(k.digest.text)
  }

  lemma AgreeAfterInsert(keys: seq<Key>, values: map<Key, Vector>, plain: string -> Vector, k: Key)
    requires Agree(keys, values, plain)
    ensures Agree(MovedToEnd(keys, k), values[k := plain(k.digest.text)], plain)
  {
  }

  lemma AgreeAfterEviction(keys: seq<Key>, values: map<Key, Vector>, plain: string -> Vector)
    requires keys != [] && Distinct(keys) && Agree(keys, values, plain)
    ensures Agree(keys[1..], values - {keys[0]}, plain)
  {
    assert keys[0] !in keys[1..];
    assert forall x :: x in keys <==> x == keys[0] || x in keys[1..];
  }

  class EmbeddingService {
    const model: string
    const tenant: string
    const agent: string
    const isLocal: bool
    /** The chunk size of a remote batch, a setting that nothing validates. */
    const batchMax: int
    /** What the backend computes for a text. */
    const plain: string -> Vector

    /** The cache: its keys in order of last use, and their values. */
    var keys: seq<Key>
    var values: map<Key, Vector>

    /** Every use of a key, in order. */
    ghost var history: seq<Key>

    function CacheKey(text: string): Key { Key(model, tenant, agent, Sha256(text)) }

    function KeysOf(texts: seq<string>): (r: seq<Key>)
      ensures |r| == |texts| && forall i | 0 <= i < |r| :: r[i] == CacheKey(texts[i])
    {
      seq(|texts|, i requires 0 <= i < |texts| => CacheKey(texts[i]))
    }

    /** The cache holds the most recently used keys of the history, and the plain embedding of each. */
    ghost predicate Valid()
      reads this
    {
      keys == Cached(history) && Agree(keys, values, plain)
    }

    constructor (model: string, tenant: string, agent: string, isLocal: bool, batchMax: int, plain: string -> Vector)
      ensures Valid() && history == []
      ensures this.model == model && this.tenant == tenant && this.agent == agent
      ensures this.isLocal == isLocal && this.batchMax == batchMax && this.plain == plain
    {
      this.model, this.tenant, this.agent := model, tenant, agent;
      this.isLocal, this.batchMax, this.plain := isLocal, batchMax, plain;
      keys, values, history := [], map[], [];
    }

    /** A hit is the newest use of its key. */
    method MoveToEnd(k: Key)
      requires Valid() && k in values
      modifies this
      ensures Valid() && history == old(history) + [k]
      ensures values == old(values) && values[k] == plain(k.digest.text)
    {
      hide LastUses;
      CachedAfter(history, k);
      keys := Without(keys, k) + [k];
      history := history + [k];
    }

    /** Insert, move to the end, evict from the front while there are too many. */
    method PutCache(k: Key, v: Vector)
      requires Valid() && v == plain(k.digest.text)
      modifies this
      ensures Valid() && history == old(history) + [k]
    {
      hide Cached, LastUses, Without, Agree;
      CachedAfter(history, k);
      AgreeAfterInsert(keys, values, plain, k);
      values := values[k := v];
      if k !in keys {
        keys := keys + [k];
      }
      WithoutLast(old(keys), k);
      keys := Without(keys, k) + [k];
      history := history + [k];
      ghost var moved := keys;
      while |keys| > CACHE_MAX_SIZE
        invariant keys == moved || (|moved| == CACHE_MAX_SIZE + 1 && keys == moved[1..])
        invariant Agree(keys, values, plain)
        invariant history == old(history) + [k]
        decreases |keys|
      {
        AgreeAfterEviction(keys, values, plain);
        values := values - {keys[0]};
        keys := keys[1..];
      }
    }

    /** One text, one request, tried up to three times. */
    method EmbedRemote(text: string, answers: (nat, nat) -> bool) returns (r: Result<Vector, EmbedError>)
      ensures r == if Answered(answers, 0) then Ok(plain(text)) else Err(RequestFailed)
      ensures r.Ok? <==> answers(0, 0) || answers(0, 1) || answers(0, 2)
    {
      var attempt := 0;
      while attempt < ATTEMPTS
        invariant attempt <= ATTEMPTS
        invariant forall a: nat | a < attempt :: !answers(0, a)
      {
        if answers(0, attempt) {
          return Ok(plain(text));
        }
        attempt := attempt + 1;
      }
      return Err(RequestFailed);
    }

    /**
     A cached text costs no request and any other costs one that succeeds; either way the
     answer is the plain embedding. A failed request leaves the cache alone.
     */
    method Embed(text: string, answers: (nat, nat) -> bool) returns (r: Result<Vector, EmbedError>)
      requires Valid()
      modifies this
      ensures Valid()
      ensures r.Ok? <==>
                CacheKey(text) in old(values) || answers(0, 0) || (!isLocal && (answers(0, 1) || answers(0, 2)))
      ensures r.Ok? ==> r.value == plain(text) && history == old(history) + [CacheKey(text)]
      ensures r.Err? ==> history == old(history)
    {
      var key := CacheKey(text);
      if key in values {
        MoveToEnd(key);
        return Ok(values[key]);
      }
      // The in-process model is asked once and raises if it fails; a remote one is asked up to three times.
      if isLocal {
        r := if answers(0, 0) then Ok(plain(text)) else Err(RequestFailed);
      } else {
        r := EmbedRemote(text, answers);
      }
      if r.Ok? {
        PutCache(key, r.value);
      }
    }

    /**
     Chunk by chunk, each tried up to three times; the first chunk that fails every time ends
     the batch. The chunks sent are those that succeeded.
     */
    method EmbedRemoteBatch(texts: seq<string>, answers: (nat, nat) -> bool)
      returns (r: Result<seq<Vector>, EmbedError>, sent: seq<seq<string>>)
      ensures batchMax == 0 ==> r == Err(ZeroStep) && sent == []
      ensures batchMax < 0 ==> r == Ok([]) && sent == []
      ensures batchMax > 0 ==>
                && sent <= Chunks(texts, batchMax)
                && (forall c: nat | c < |sent| :: Answered(answers, c))
                && (r == if sent == Chunks(texts, batchMax) then Ok(Embedded(plain, texts)) else Err(RequestFailed))
                && (r.Err? ==> !Answered(answers, |sent|))
    {
      hide Chunks, Embedded;
      sent := [];
      if batchMax == 0 {
        return Err(ZeroStep), sent;
      }
      var all: seq<Vector> := [];
      var start, chunk := 0, 0;
      if batchMax < 0 {
        return Ok(all), sent;
      }
      NoChunks(plain, texts, batchMax);
      while start < |texts|
        invariant 0 <= start <= |texts| && chunk == |sent|
        invariant all == Embedded(plain, texts[..start])
        invariant Chunks(texts, batchMax) == sent + Chunks(texts[start..], batchMax)
        invariant forall c: nat | c < |sent| :: Answered(answers, c)
      {
        var end := if start + batchMax > |texts| then |texts| else start + batchMax;
        NextChunk(texts, start, end, batchMax, sent);
        EmbeddedSplit(plain, texts, start, end);
        var attempt := 0;
        while attempt < ATTEMPTS && !answers(chunk, attempt)
          invariant attempt <= ATTEMPTS
          invariant forall a: nat | a < attempt :: !answers(chunk, a)
        {
          attempt := attempt + 1;
        }
        if attempt == ATTEMPTS {
          return Err(RequestFailed), sent;
        }
        all := all + Embedded(plain, texts[start..end]);
        sent := sent + [texts[start..end]];
        start, chunk := end, chunk + 1;
      }
      assert texts[..start] == texts && texts[start..] == [];
      return Ok(all), sent;
    }

    /** The first pass of a batch: answer the hits, and note where each uncached key occurs. */
    method LookUpBatch(texts: seq<string>)
      returns (results: seq<Option<Vector>>, order: seq<Key>, positions: map<Key, seq<nat>>)
      requires Valid()
      modifies this
      ensures Valid() && |results| == |texts|
      ensures history == old(history) + Hits(KeysOf(texts), old(values).Keys)
      ensures Bucketed(KeysOf(texts), |texts|, old(values).Keys, order, positions)
      ensures Filled(results, KeysOf(texts), plain, old(values).Keys, |texts|, [])
    {
      hide Embedded, Hits, Misses, TextsOf, Bucketed, Filled, Cached, Agree;
      ghost var ks, cached := KeysOf(texts), values.Keys;
      NothingDone(ks, plain, cached);
      results, order, positions := seq(|texts|, _ => None), [], map[];
      var i := 0;
      while i < |texts|
        invariant 0 <= i <= |texts| && Valid() && values == old(values) && |results| == |texts|
        invariant history == old(history) + Hits(ks[..i], cached)
        invariant Bucketed(ks, i, cached, order, positions)
        invariant Filled(results, ks, plain, cached, i, [])
      {
        var k := CacheKey(texts[i]);
        FilledHit(results, ks, plain, cached, i);
        if k in values {
          BucketedHit(ks, i, cached, order, positions);
          MoveToEnd(k);
          results := results[i := Some(values[k])];
        } else if k !in positions {
          BucketedNew(ks, i, cached, order, positions);
          order := order + [k];
          positions := positions[k := [i]];
        } else {
          BucketedAgain(ks, i, cached, order, positions);
          positions := positions[k := positions[k] + [i]];
        }
        i := i + 1;
      }
      assert ks[..|texts|] == ks;
    }

    /** The backend can answer this batch. */
    ghost predicate Served(answers: (nat, nat) -> bool, texts: seq<string>) {
      if isLocal then answers(0, 0)
      else batchMax > 0 && forall c: nat | c < |Chunks(texts, batchMax)| :: Answered(answers, c)
    }

    lemma ServedIff(answers: (nat, nat) -> bool, texts: seq<string>)
      ensures Served(answers, texts) <==>
                || (isLocal && answers(0, 0))
                || (!isLocal && batchMax > 0
                    && forall c: nat | c < |Chunks(texts, batchMax)| :: answers(c, 0) || answers(c, 1) || answers(c, 2))
    {
      hide Chunks;
      if !isLocal && batchMax > 0 {
        forall c: nat | c < |Chunks(texts, batchMax)|
          ensures Answered(answers, c) <==> answers(c, 0) || answers(c, 1) || answers(c, 2)
        {
          AnsweredIff(answers, c);
        }
      }
    }

    /** The texts a batch needs go to the in-process model at once, or to the remote one in chunks. */
    method AskBackend(asked: seq<string>, answers: (nat, nat) -> bool)
      returns (r: Result<seq<Vector>, EmbedError>, ghost sent: seq<seq<string>>)
      requires asked != []
      ensures r.Ok? && r.value != [] <==> Served(answers, asked)
      ensures r.Ok? && r.value != [] ==> r.value == Embedded(plain, asked) && Flatten(sent) == asked
    {
      AskedFlatten(asked, batchMax);
      if isLocal {
        if answers(0, 0) {
          return Ok(Embedded(plain, asked)), [asked];
        }
        return Err(RequestFailed), [];
      }
      r, sent := EmbedRemoteBatch(asked, answers);
    }

    /** The second pass of a batch: cache each new answer and put it at every position of its key. */
    method FillMisses(hits: seq<Option<Vector>>, order: seq<Key>, positions: map<Key, seq<nat>>, vectors: seq<Vector>,
                      ghost ks: seq<Key>, ghost cached: set<Key>)
      returns (results: seq<Option<Vector>>)
      requires Valid() && |hits| == |ks| && |vectors| == |order|
      requires Bucketed(ks, |ks|, cached, order, positions) && Filled(hits, ks, plain, cached, |ks|, [])
      requires forall j | 0 <= j < |order| :: vectors[j] == plain(order[j].digest.text) && order[j] in positions
      requires forall k, m | k in positions && 0 <= m < |positions[k]| :: positions[k][m] < |hits|
      modifies this
      ensures Valid() && history == old(history) + order
      ensures Filled(results, ks, plain, cached, |ks|, order)
    {
      hide *;
      results := hits;
      var j := 0;
      assert order[..0] == [];
      while j < |order|
        invariant 0 <= j <= |order| && Valid() && |results| == |ks|
        invariant history == old(history) + order[..j]
        invariant Filled(results, ks, plain, cached, |ks|, order[..j])
      {
        var k := order[j];
        PutCache(k, vectors[j]);
        ghost var before := results;
        results := FanOut(results, positions[k], vectors[j]);
        FannedOut(before, results, ks, plain, cached, order, positions, j);
        assert order[..j + 1] == order[..j] + [k];
        j := j + 1;
      }
      assert order[..j] == order;
    }

    /**
     The answer for a batch is the plain embedding of each text, whatever is cached, repeated,
     evicted on the way or cut into chunks; the uses are the hits in order and then the misses in
     order; each uncached text is sent once. A batch that fails has moved its hits and no more.
     */
    method EmbedBatch(texts: seq<string>, answers: (nat, nat) -> bool)
      returns (r: Result<seq<Vector>, EmbedError>, ghost sent: seq<seq<string>>)
      requires Valid()
      modifies this
      ensures Valid()
      ensures var cached := old(values).Keys;
              var misses := Misses(KeysOf(texts), cached);
              && (r.Ok? <==> misses == [] || Served(answers, TextsOf(misses)))
              && (r.Ok? ==> r.value == Embedded(plain, texts))
              && (r.Ok? ==> history == old(history) + Hits(KeysOf(texts), cached) + misses)
              && (r.Err? ==> history == old(history) + Hits(KeysOf(texts), cached))
              && (r.Ok? ==> Flatten(sent) == TextsOf(misses))
      // The in-process model is asked once for all, a remote one up to three times for each chunk.
      ensures var misses := Misses(KeysOf(texts), old(values).Keys);
              r.Ok? <==>
                || misses == []
                || (isLocal && answers(0, 0))
                || (!isLocal && batchMax > 0
                    && forall c: nat | c < |Chunks(TextsOf(misses), batchMax)| ::
                         answers(c, 0) || answers(c, 1) || answers(c, 2))
      // Unless it has more distinct texts than the cache holds, all of them are cached then.
      ensures r.Ok? && |set k | k in KeysOf(texts)| <= 2048 ==> forall t | t in texts :: CacheKey(t) in values
    {
      hide Embedded, Hits, Misses, TextsOf, Bucketed, Filled, Cached, Chunks, Flatten, Present, Agree;
      hide Served;
      sent := [];
      ghost var ks, cached := KeysOf(texts), values.Keys;
      NothingDone(ks, plain, cached);
      ServedIff(answers, TextsOf(Misses(ks, cached)));
      if texts == [] {
        return Ok([]), sent;
      }
      var results, order, positions := LookUpBatch(texts);
      FirstPositions(ks, texts, cached, order, positions);
      if order != [] {
        var asked := seq(|order|, j requires 0 <= j < |order| => texts[positions[order[j]][0]]);
        assert asked == TextsOf(order);
        var answer;
        answer, sent := AskBackend(asked, answers);
        if answer.Err? {
          return Err(answer.error), sent;
        }
        var vectors := answer.value;
        if vectors == [] {
          return Err(MissingVector), sent;
        }
        results := FillMisses(results, order, positions, vectors, ks, cached);
      }
      FilledIsAll(results, ks, plain, cached);
      assert history == old(history) + Hits(ks, cached) + order;
      AllCached(old(history), ks, cached, keys, values, plain);
      assert forall i | 0 <= i < |texts| :: ks[i] in ks;
      return Ok(Present(results)), sent;
    }
  }

  /** Two services share a key exactly for one text and one model, tenant and agent. */
  lemma KeysAgreeIff(a: EmbeddingService, b: EmbeddingService, s: string, t: string)
    ensures a.CacheKey(s) == b.CacheKey(t) <==> s == t && a.model == b.model && a.tenant == b.tenant && a.agent == b.agent
  {
  }

  lemma AskedFlatten(asked: seq<string>, n: int)
    ensures Flatten([asked]) == asked
    ensures n > 0 ==> Flatten(Chunks(asked, n)) == asked
  {
    FlattenCons(asked, []);
    if n > 0 {
      ChunksFlatten(asked, n);
    }
  }

  lemma NoChunks(plain: string -> Vector, texts: seq<string>, n: nat)
    requires n > 0
    ensures Chunks([], n) == [] && Embedded(plain, texts[..0]) == []
    ensures texts[0..] == texts
  {
  }

  lemma Regroup<T>(a: seq<T>, x: T, b: seq<T>)
    ensures a + ([x] + b) == (a + [x]) + b
  {
  }

  lemma NextChunk(texts: seq<string>, start: nat, end: nat, n: nat, sent: seq<seq<string>>)
    requires n > 0 && start < |texts| && end == if start + n > |texts| then |texts| else start + n
    ensures sent + Chunks(texts[start..], n) == (sent + [texts[start..end]]) + Chunks(texts[end..], n)
  {
    var rest := texts[start..];
    assert rest[..end - start] == texts[start..end] && rest[end - start..] == texts[end..];
    assert Chunks(rest, n) == [texts[start..end]] + Chunks(texts[end..], n);
    Regroup(sent, texts[start..end], Chunks(texts[end..], n));
  }

  lemma EmbeddedSplit(plain: string -> Vector, texts: seq<string>, start: nat, end: nat)
    requires start <= end <= |texts|
    ensures Embedded(plain, texts[..end]) == Embedded(plain, texts[..start]) + Embedded(plain, texts[start..end])
  {
  }

  /** The texts a batch asks the backend for are its uncached texts, each once. */
  lemma AskedOnce(service: EmbeddingService, texts: seq<string>, cached: set<Key>)
    ensures Distinct(TextsOf(Misses(service.KeysOf(texts), cached)))
    ensures forall t :: t in TextsOf(Misses(service.KeysOf(texts), cached)) <==>
                        t in texts && service.CacheKey(t) !in cached
  {
    var ks := service.KeysOf(texts);
    var misses := Misses(ks, cached);
    forall i | 0 <= i < |misses|
      ensures misses[i] == service.CacheKey(misses[i].digest.text) && misses[i].digest.text in texts
    {
      assert misses[i] in ks;
    }
    forall t | t in texts && service.CacheKey(t) !in cached
      ensures t in TextsOf(misses)
    {
      var p :| 0 <= p < |texts| && texts[p] == t;
      assert ks[p] in misses;
      var i :| 0 <= i < |misses| && misses[i] == ks[p];
      assert TextsOf(misses)[i] == t;
    }
  }
}
