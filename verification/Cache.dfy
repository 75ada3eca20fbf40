// The panel's read cache of the user store, validated by users_rev. A reader takes several
// steps and the store is loaded by four queries outside any transaction, so commits,
// invalidations and other readers come in between.
module Cache {
  import opened Basics

  // wdtt_global, wdtt_users, wdtt_user_devices, wdtt_devices: one query each.
  const TABLES := 4

  // The columns of one table: `fenced` ones change only in transactions that also raise
  // users_rev; `loose` ones (traffic, last seen) change at any time.
  datatype Table<F, L> = Table(fenced: F, loose: L)

  type Content<F, L> = seq<Table<F, L>>

  datatype Cached<F, L> = Cached(store: Content<F, L>, rev: nat)

  // One call of loadPasswordsCached.
  datatype Reader<F, L> =
    | Idle
    | HasRev(rev: nat)
    | Loading(rev: nat, got: Content<F, L>)
    | Returned(store: Content<F, L>)

  // `history[r]`: the fenced columns of every table at users_rev r.
  datatype State<F, L> = State(history: seq<seq<F>>, loose: seq<L>, cache: Option<Cached<F, L>>,
                               readers: map<int, Reader<F, L>>)

  datatype Event<F, L> =
    | Commit(fenced: seq<F>) | Touch(loose: seq<L>) | Invalidate
    | ReadRev(i: int) | Check(i: int) | Query(i: int) | Keep(i: int) | Fail(i: int)

  datatype Log<F, L> = Begin(history: seq<seq<F>>, loose: seq<L>) | Then(before: Log<F, L>, last: Event<F, L>)

  function ReaderOf<F, L>(s: State<F, L>, i: int): Reader<F, L> {
    if i in s.readers then s.readers[i] else Idle
  }

  function Rev<F, L>(s: State<F, L>): int {
    |s.history| - 1
  }

  predicate Usable<F, L>(cache: Option<Cached<F, L>>, rev: nat) {
    cache.Some? && cache.value.rev == rev
  }

  /** Every state a run reaches has these shapes. */
  ghost predicate Shaped<F, L>(s: State<F, L>) {
    && |s.history| > 0 && |s.loose| == TABLES
    && (forall r | 0 <= r < |s.history| :: |s.history[r]| == TABLES)
  }

  ghost predicate WellFormed<F, L>(l: Log<F, L>) {
    match l
    case Begin(history, loose) => Shaped(State(history, loose, None, map[]))
    case Then(before, e) =>
      && WellFormed(before)
      && (e.Commit? ==> |e.fenced| == TABLES) && (e.Touch? ==> |e.loose| == TABLES)
  }

  function Step<F, L>(s: State<F, L>, e: Event<F, L>): State<F, L> {
    match e
    case Commit(fenced) => s.(history := s.history + [fenced])
    case Touch(loose) => s.(loose := loose)
    case Invalidate => s.(cache := None)
    case ReadRev(i) => if |s.history| > 0 then s.(readers := s.readers[i := HasRev(|s.history| - 1)]) else s
    case Check(i) =>
      var r := ReaderOf(s, i);
      if !r.HasRev? then s
      else if Usable(s.cache, r.rev) then s.(readers := s.readers[i := Returned(s.cache.value.store)])
      else s.(readers := s.readers[i := Loading(r.rev, [])])
    case Query(i) =>
      var r := ReaderOf(s, i);
      if r.Loading? && |r.got| < TABLES then s.(readers := s.readers[i := Loading(r.rev, r.got + Present(s, |r.got|))]) else s
    case Keep(i) =>
      var r := ReaderOf(s, i);
      if r.Loading? && |r.got| == TABLES then
        s.(cache := Some(Cached(r.got, r.rev)), readers := s.readers[i := Returned(r.got)])
      else s
    case Fail(i) => s.(readers := s.readers[i := Idle])
  }

  /** Table k as it is now; nothing if there is no such table. */
  function Present<F, L>(s: State<F, L>, k: nat): (t: Content<F, L>)
    ensures |t| <= 1
  {
    if |s.history| > 0 && k < |s.history[|s.history| - 1]| && k < |s.loose|
    then [Table(s.history[|s.history| - 1][k], s.loose[k])] else []
  }

  function Run<F, L>(l: Log<F, L>): State<F, L> {
    match l
    case Begin(history, loose) => State(history, loose, None, map[])
    case Then(before, e) => Step(Run(before), e)
  }

  // ---------- The three critical sections on the shared fields ----------

  class PasswordsCache<F, L> {
    var db: Option<Content<F, L>>
    var rev: nat

    ghost function Abs(): Option<Cached<F, L>>
      reads this
    {
      if db.Some? then Some(Cached(db.value, rev)) else None
    }

    constructor ()
      ensures Abs() == None
    {
      db, rev := None, 0;
    }

    method InvalidatePasswordsCache()
      modifies this
      ensures Abs() == None
    {
      db, rev := None, 0;
    }

    method Lookup(seen: nat) returns (hit: Option<Content<F, L>>)
      ensures hit == if Usable(Abs(), seen) then Some(Abs().value.store) else None
    {
      hit := if db.Some? && rev == seen then db else None;
    }

    method KeepLoaded(loaded: Content<F, L>, seen: nat)
      modifies this
      ensures Abs() == Some(Cached(loaded, seen))
    {
      db, rev := Some(loaded), seen;
    }
  }

  // ---------- What is in the cache ----------

  function Fenced<F, L>(c: Content<F, L>): (f: seq<F>)
    ensures |f| == |c|
  {
    seq(|c|, k requires 0 <= k < |c| => c[k].fenced)
  }

  /** `v` stood in column group k at some revision from `lo` up to now. */
  ghost predicate Seen<F>(history: seq<seq<F>>, lo: int, k: nat, v: F) {
    exists q :: 0 <= q < |history| && lo <= q && k < |history[q]| && history[q][k] == v
  }

  /** Each table was read at revision `lo` or later, not all at the same one. */
  ghost predicate ReadSince<F, L>(history: seq<seq<F>>, lo: int, c: Content<F, L>) {
    lo < |history| && forall k | 0 <= k < |c| :: Seen(history, lo, k, c[k].fenced)
  }

  ghost predicate CacheOk<F, L>(s: State<F, L>) {
    s.cache.Some? ==> |s.cache.value.store| == TABLES && ReadSince(s.history, s.cache.value.rev, s.cache.value.store)
  }

  ghost predicate ReaderOk<F, L>(s: State<F, L>, r: Reader<F, L>) {
    match r
    case Idle => true
    case HasRev(rev) => rev < |s.history|
    case Loading(rev, got) => |got| <= TABLES && ReadSince(s.history, rev, got)
    case Returned(store) => |store| == TABLES && ReadSince(s.history, 0, store)
  }

  ghost predicate Inv<F, L>(s: State<F, L>) {
    Shaped(s) && CacheOk(s) && forall i | i in s.readers :: ReaderOk(s, s.readers[i])
  }

  lemma SinceGrows<F, L>(history: seq<seq<F>>, lo: int, c: Content<F, L>, next: seq<F>)
    requires ReadSince(history, lo, c)
    ensures ReadSince(history + [next], lo, c)
  {
    forall k | 0 <= k < |c|
      ensures Seen(history + [next], lo, k, c[k].fenced)
    {
      assert Seen(history, lo, k, c[k].fenced);
      var q :| 0 <= q < |history| && lo <= q && k < |history[q]| && history[q][k] == c[k].fenced;
      assert (history + [next])[q] == history[q];
    }
  }

  lemma CommitKeeps<F, L>(s: State<F, L>, fenced: seq<F>)
    requires Inv(s) && |fenced| == TABLES
    ensures Inv(Step(s, Commit(fenced)))
  {
    var s' := Step(s, Commit(fenced));
    hide ReadSince;
    if s.cache.Some? {
      SinceGrows(s.history, s.cache.value.rev, s.cache.value.store, fenced);
    }
    forall i | i in s'.readers
      ensures ReaderOk(s', s'.readers[i])
    {
      var r := s.readers[i];
      if r.Loading? {
        SinceGrows(s.history, r.rev, r.got, fenced);
      } else if r.Returned? {
        SinceGrows(s.history, 0, r.store, fenced);
      }
    }
  }

  lemma QueryKeeps<F, L>(s: State<F, L>, i: int)
    requires Inv(s)
    ensures Inv(Step(s, Query(i)))
  {
    var r := ReaderOf(s, i);
    if r.Loading? && |r.got| < TABLES {
      var k := |r.got|;
      var got := r.got + Present(s, k);
      forall j | 0 <= j < |got|
        ensures Seen(s.history, r.rev, j, got[j].fenced)
      {
        if j == k {
          assert s.history[|s.history| - 1][k] == got[j].fenced;
        }
      }
      hide Seen;
    }
  }

  lemma StepKeeps<F, L>(s: State<F, L>, e: Event<F, L>)
    requires Inv(s)
    requires (e.Commit? ==> |e.fenced| == TABLES) && (e.Touch? ==> |e.loose| == TABLES)
    ensures Inv(Step(s, e))
  {
    if e.Commit? {
      CommitKeeps(s, e.fenced);
    } else if e.Query? {
      QueryKeeps(s, e.i);
    } else if e.Check? && s.cache.Some? {
      SinceStart(s.history, s.cache.value.rev, s.cache.value.store);
    } else if e.Keep? && ReaderOf(s, e.i).Loading? {
      SinceStart(s.history, ReaderOf(s, e.i).rev, ReaderOf(s, e.i).got);
    }
    hide Seen;
  }

  lemma SinceStart<F, L>(history: seq<seq<F>>, lo: nat, c: Content<F, L>)
    requires ReadSince(history, lo, c)
    ensures ReadSince(history, 0, c)
  {
    forall k | 0 <= k < |c|
      ensures Seen(history, 0, k, c[k].fenced)
    {
      assert Seen(history, lo, k, c[k].fenced);
    }
  }

  lemma {:induction false} RunKeeps<F, L>(l: Log<F, L>)
    requires WellFormed(l)
    ensures Inv(Run(l))
  {
    if l.Then? {
      RunKeeps(l.before);
      StepKeeps(Run(l.before), l.last);
      hide Inv, Step;
    }
  }

  // ---------- What a hit returns ----------

  /** Reader i has read revision r, and finds a cached store for it. */
  ghost predicate HitAt<F, L>(l: Log<F, L>, i: int, r: nat) {
    WellFormed(l) && ReaderOf(Run(l), i) == HasRev(r) && Usable(Run(l).cache, r)
  }

  /** Whenever the cached revision is the one on disk, the cached store is the present one
      on every fenced column, though its tables were loaded by separate queries. */
  lemma CachedAtDiskRevision<F, L>(l: Log<F, L>)
    requires WellFormed(l) && Run(l).cache.Some? && Run(l).cache.value.rev == Rev(Run(l))
    ensures Fenced(Run(l).cache.value.store) == Run(l).history[Rev(Run(l))]
  {
    RunKeeps(l);
    var s := Run(l);
    var store := s.cache.value.store;
    forall k | 0 <= k < TABLES
      ensures Fenced(store)[k] == s.history[Rev(s)][k]
    {
      assert Seen(s.history, Rev(s), k, store[k].fenced);
    }
  }

  /** No hit is older than the revision its reader read: each of the returned tables was the
      present one at some moment since. */
  lemma HitNotOlder<F, L>(l: Log<F, L>, i: int, r: nat)
    requires HitAt(l, i, r)
    ensures var store := Run(l).cache.value.store;
            && ReaderOf(Run(Then(l, Check(i))), i) == Returned(store)
            && |store| == TABLES
            && forall k | 0 <= k < TABLES :: Seen(Run(l).history, r, k, store[k].fenced)
  {
    RunKeeps(l);
  }

  /** `l` is an initial part of run `m`. */
  ghost predicate Extends<F, L>(m: Log<F, L>, l: Log<F, L>) {
    m == l || (m.Then? && Extends(m.before, l))
  }

  lemma {:induction false} HistoryGrows<F, L>(m: Log<F, L>, l: Log<F, L>)
    requires Extends(m, l)
    ensures Run(l).history <= Run(m).history
  {
    if m != l {
      HistoryGrows(m.before, l);
    }
  }

  /** The call as a whole still takes effect at one moment if the entry that reader i hits at
      the end of `m` was there when it read revision r at the end of `l`: the result is the
      database of that moment. */
  lemma HitOnOlderEntry<F, L>(m: Log<F, L>, i: int, l: Log<F, L>, r: nat)
    requires HitAt(m, i, r) && Extends(m, l) && WellFormed(l)
    requires Rev(Run(l)) == r && Run(l).cache == Run(m).cache
    ensures r < |Run(m).history| && Fenced(Run(m).cache.value.store) == Run(l).history[r] == Run(m).history[r]
  {
    CachedAtDiskRevision(l);
    HistoryGrows(m, l);
    RunKeeps(l);
  }

  // ---------- When a hit is not the present database ----------

  /** All of `h` from index n on is committed. */
  function Commits<F, L>(l: Log<F, L>, h: seq<seq<F>>, n: nat): Log<F, L>
    requires n <= |h|
    decreases |h| - n
  {
    if n == |h| then l else Commits(Then(l, Commit(h[n])), h, n + 1)
  }

  lemma {:induction false} CommitsRun<F, L>(l: Log<F, L>, h: seq<seq<F>>, n: nat)
    requires n <= |h| && WellFormed(l) && Run(l).history == h[..n] && (forall q | 0 <= q < |h| :: |h[q]| == TABLES)
    ensures var m := Commits(l, h, n);
            WellFormed(m) && Run(m) == Run(l).(history := h)
    decreases |h| - n
  {
    if n < |h| {
      assert h[..n] + [h[n]] == h[..n + 1];
      CommitsRun(Then(l, Commit(h[n])), h, n + 1);
    } else {
      assert h[..n] == h;
    }
  }

  /** Reader i has read the first tables of `got` and nothing else happened since `s`. */
  ghost predicate Loads<F, L>(l: Log<F, L>, s: State<F, L>, i: int, rev: nat, got: Content<F, L>) {
    WellFormed(l) && Shaped(s) && Run(l) == s.(readers := s.readers[i := Loading(rev, got)])
  }

  function Now<F, L>(s: State<F, L>, k: nat): Table<F, L>
    requires |s.history| > 0 && k < |s.history[|s.history| - 1]| && k < |s.loose|
  {
    Table(s.history[|s.history| - 1][k], s.loose[k])
  }

  lemma LoadsMore<F, L>(l: Log<F, L>, s: State<F, L>, i: int, rev: nat, got: Content<F, L>)
    requires Loads(l, s, i, rev, got) && |got| < TABLES
    ensures Loads(Then(l, Query(i)), s, i, rev, got + [Now(s, |got|)])
  {
    var r := s.readers;
    assert r[i := Loading(rev, got)][i := Loading(rev, got + [Now(s, |got|)])] == r[i := Loading(rev, got + [Now(s, |got|)])];
  }

  /** Tables k to 3 are read and the store is kept. */
  function Rest<F, L>(l: Log<F, L>, i: int, k: nat): Log<F, L>
    decreases TABLES - k
  {
    if k >= TABLES then Then(l, Keep(i)) else Rest(Then(l, Query(i)), i, k + 1)
  }

  lemma {:induction false} RestLoads<F, L>(l: Log<F, L>, s: State<F, L>, i: int, rev: nat, got: Content<F, L>)
    requires Loads(l, s, i, rev, got) && |got| <= TABLES
    ensures var m := Rest(l, i, |got|);
            && WellFormed(m) && Run(m).history == s.history && Run(m).cache.Some?
            && (forall j | j != i :: ReaderOf(Run(m), j) == ReaderOf(s, j))
            && var c := Run(m).cache.value;
            && c.rev == rev && |c.store| == TABLES && got <= c.store
            && forall k | |got| <= k < TABLES :: c.store[k] == Now(s, k)
    decreases TABLES - |got|
  {
    if |got| < TABLES {
      LoadsMore(l, s, i, rev, got);
      RestLoads(Then(l, Query(i)), s, i, rev, got + [Now(s, |got|)]);
      hide Loads, Run, WellFormed;
    }
  }

  /** A loader (0) misses at revision r and a second reader (1) reads the same revision. */
  function TwoReaders<F, L>(history: seq<seq<F>>, loose: seq<L>): Log<F, L> {
    Then(Then(Then(Begin(history, loose), ReadRev(1)), ReadRev(0)), Check(0))
  }

  lemma TwoReadersRun<F, L>(history: seq<seq<F>>, loose: seq<L>)
    requires WellFormed(Begin(history, loose))
    ensures var l, s := TwoReaders(history, loose), State(history, loose, None, map[1 := HasRev(|history| - 1)]);
            Loads(l, s, 0, |history| - 1, [])
  {
    var l0 := Begin(history, loose);
    var l1 := Then(l0, ReadRev(1));
    var l2 := Then(l1, ReadRev(0));
    assert Run(l1).readers == map[1 := HasRev(|history| - 1)];
    assert Run(l2) == Run(l1).(readers := Run(l1).readers[0 := HasRev(|history| - 1)]);
  }

  /** The condition is exact. If the present fenced columns differ from all earlier ones, a
      hit at revision r is the present database in every run if and only if r is the revision
      on disk when the cache is consulted. */
  lemma HitCurrentIff<F(!new), L(!new)>(h: seq<seq<F>>, r: nat, loose: seq<L>)
    requires r < |h| && |loose| == TABLES
    requires forall q | 0 <= q < |h| :: |h[q]| == TABLES
    requires forall q | 0 <= q < |h| - 1 :: h[q] != h[|h| - 1]
    ensures (forall l: Log<F, L>, i | HitAt(l, i, r) && Run(l).history == h :: Fenced(Run(l).cache.value.store) == h[|h| - 1])
            <==> r == |h| - 1
  {
    if r == |h| - 1 {
      forall l: Log<F, L>, i | HitAt(l, i, r) && Run(l).history == h
        ensures Fenced(Run(l).cache.value.store) == h[|h| - 1]
      {
        CachedAtDiskRevision(l);
      }
    } else {
      var l := StaleHit(h, r, loose);
      assert HitAt(l, 1, r) && Run(l).history == h;
    }
  }

  lemma StaleHit<F, L>(h: seq<seq<F>>, r: nat, loose: seq<L>) returns (l: Log<F, L>)
    requires r < |h| && |loose| == TABLES
    requires forall q | 0 <= q < |h| :: |h[q]| == TABLES
    ensures HitAt(l, 1, r) && Run(l).history == h && Fenced(Run(l).cache.value.store) == h[r]
  {
    var early := h[..r + 1];
    var s := State(early, loose, None, map[1 := HasRev(r)]);
    TwoReadersRun(early, loose);
    var m := Rest(TwoReaders(early, loose), 0, 0);
    RestLoads(TwoReaders(early, loose), s, 0, r, []);
    l := Commits(m, h, r + 1);
    CommitsRun(m, h, r + 1);
    assert ReaderOf(Run(m), 1) == ReaderOf(s, 1);
    var store := Run(l).cache.value.store;
    hide Run, Rest, TwoReaders, Commits, WellFormed, Loads;
    assert forall k | 0 <= k < TABLES :: Fenced(store)[k] == h[r][k];
  }

  /** A hit can even return a store that was never the database: the first table from before
      a commit, the others from after it. */
  lemma TornHit<F, L>(a: seq<F>, b: seq<F>, loose: seq<L>) returns (l: Log<F, L>)
    requires |a| == TABLES && |b| == TABLES && |loose| == TABLES
    requires a[0] != b[0] && a[1] != b[1]
    ensures HitAt(l, 1, 0) && Run(l).history == [a, b]
    ensures Fenced(Run(l).cache.value.store) != a && Fenced(Run(l).cache.value.store) != b
  {
    var s := State([a], loose, None, map[1 := HasRev(0)]);
    var s' := s.(history := [a, b]);
    TwoReadersRun([a], loose);
    var l0 := TwoReaders([a], loose);
    LoadsMore(l0, s, 0, 0, []);
    var l1 := Then(Then(l0, Query(0)), Commit(b));
    var got := [Table(a[0], loose[0])];
    assert Loads(l1, s', 0, 0, got) by {
      assert [] + [Now(s, 0)] == got;
      assert [a] + [b] == [a, b];
    }
    RestLoads(l1, s', 0, 0, got);
    l := Rest(l1, 0, 1);
    assert ReaderOf(Run(l), 1) == ReaderOf(s', 1);
    var store := Run(l).cache.value.store;
    hide Run, Rest, TwoReaders, WellFormed, Loads;
    assert store[0] == got[0] && store[1] == Now(s', 1);
    assert Fenced(store)[0] == a[0] && Fenced(store)[1] == b[1];
  }
}
