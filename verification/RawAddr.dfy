// Tunnel addresses of RAW devices: a counter walks the pool 10.70.0.1 - 10.70.255.254 and
// skips what is taken.
module RawAddr {
  import opened Basics

  // 10.70.b3.b4
  datatype Ip = Ip(b3: int, b4: int)

  const SERVER := Ip(66, 1)
  const POOL := 65024
  const ATTEMPTS := 65000

  function Address(n: int): Ip
    requires 0 <= n
  {
    Ip(n / 254 % 256, n % 254 + 1)
  }

  lemma Split(n: int)
    requires 0 <= n
    ensures n % POOL == n / 254 % 256 * 254 + n % 254
  {
    var q := n / 254;
    assert n == 254 * q + n % 254 && q == 256 * (q / 256) + q % 256;
    Remainder(n, q / 256, q % 256 * 254 + n % 254);
  }

  lemma Remainder(n: int, k: int, r: int)
    requires n == POOL * k + r && 0 <= r < POOL
    ensures n % POOL == r
  {
  }

  /** Two counter values give the same address exactly when they differ by a multiple of the
      pool size. */
  lemma SameAddressIff(a: int, b: int)
    requires 0 <= a && 0 <= b
    ensures Address(a) == Address(b) <==> a % POOL == b % POOL
  {
    Split(a);
    Split(b);
    Digits254(a / 254 % 256, a % 254, b / 254 % 256, b % 254);
  }

  /** Every address is a host of the pool, 10.70.0.1 to 10.70.255.254, and every host is one. */
  lemma AddressIsHost(n: int)
    requires 0 <= n
    ensures 0 <= Address(n).b3 <= 255 && 1 <= Address(n).b4 <= 254
  {
  }

  lemma HostHasNumber(b3: int, b4: int)
    requires 0 <= b3 <= 255 && 1 <= b4 <= 254
    ensures Address(254 * b3 + b4 - 1) == Ip(b3, b4)
  {
  }

  lemma Digits254(p: int, x: int, q: int, y: int)
    requires 0 <= x < 254 && 0 <= y < 254
    ensures p * 254 + x == q * 254 + y <==> p == q && x == y
  {
  }

  lemma NearAreDistinct(a: int, b: int)
    requires 0 <= a < b < a + POOL
    ensures Address(a) != Address(b)
  {
    hide Address;
    SameAddressIff(a, b);
    NotCongruent(a, b);
  }

  lemma NotCongruent(a: int, b: int)
    requires a < b < a + POOL
    ensures a % POOL != b % POOL
  {
    var p, q := a / POOL, b / POOL;
    assert a == POOL * p + a % POOL && b == POOL * q + b % POOL;
    if q > p {
      assert POOL * q >= POOL * p + POOL;
    } else {
      assert POOL * q <= POOL * p;
    }
  }

  /** The addresses of the n counter values after `start`. */
  ghost function Span(start: int, n: nat): set<Ip>
    requires -1 <= start
  {
    if n == 0 then {} else Span(start, n - 1) + {Address(start + n)}
  }

  lemma {:induction false} InSpan(start: int, n: nat, x: Ip) returns (m: int)
    requires -1 <= start && x in Span(start, n)
    ensures start < m <= start + n && Address(m) == x
  {
    if x == Address(start + n) {
      m := start + n;
    } else {
      m := InSpan(start, n - 1, x);
    }
    hide Address;
  }

  /** Up to 65024 consecutive counter values give distinct addresses. */
  lemma {:induction false} SpanSize(start: int, n: nat)
    requires -1 <= start && n <= POOL
    ensures |Span(start, n)| == n
  {
    if n > 0 {
      SpanSize(start, n - 1);
      if Address(start + n) in Span(start, n - 1) {
        var m := InSpan(start, n - 1, Address(start + n));
        NearAreDistinct(m, start + n);
      }
    }
    hide Address;
  }

  /** Across the wrap of the 32-bit counter the residues jump back by 2048: value b after it
      and a before it, less than a pool apart, differ if b is at least 2048. */
  lemma DistinctAcrossWrap(a: int, b: int)
    requires a < TWO_32 && 2048 <= b && b + TWO_32 - a < ATTEMPTS && 0 <= a
    ensures Address(a) != Address(b)
  {
    var b' := b + POOL * 66052;
    SameResidue(b, 66052);
    SameAddressIff(b, b');
    NearAreDistinct(a, b');
    hide Address;
  }

  lemma SameResidue(b: int, k: int)
    requires 0 <= b && 0 <= k
    ensures (b + POOL * k) % POOL == b % POOL
  {
    Remainder(b + POOL * k, b / POOL + k, b % POOL);
  }

  // ---------- getNextRawIP ----------

  predicate Taken(ip: Ip, used: set<Ip>) {
    ip == SERVER || ip in used
  }

  /** The k-th counter value after `start`; the counter has 32 bits. */
  function Candidate(start: Uint32, k: nat): Uint32 {
    (start + k) % TWO_32
  }

  ghost predicate AllTaken(start: Uint32, n: nat, used: set<Ip>) {
    forall k | 1 <= k <= n :: Taken(Address(Candidate(start, k)), used)
  }

  lemma SpanTaken(start: int, n: nat, used: set<Ip>)
    requires -1 <= start && forall m | start < m <= start + n :: Taken(Address(m), used)
    ensures Span(start, n) <= used + {SERVER}
  {
    forall x | x in Span(start, n)
      ensures x in used + {SERVER}
    {
      var m := InSpan(start, n, x);
    }
    hide Address, Span;
  }

  lemma SetBound<T>(a: set<T>, b: set<T>)
    requires a <= b
    ensures |a| <= |b|
  {
    assert b == a + (b - a);
  }

  lemma FullWithoutWrap(start: Uint32, used: set<Ip>)
    requires AllTaken(start, ATTEMPTS, used) && start + ATTEMPTS < TWO_32
    ensures |used| >= ATTEMPTS - 1
  {
    forall m: int | start < m <= start + ATTEMPTS
      ensures Taken(Address(m), used)
    {
      assert Candidate(start, m - start) == m;
    }
    SpanTaken(start, ATTEMPTS, used);
    SpanSize(start, ATTEMPTS);
    SetBound(Span(start, ATTEMPTS), used + {SERVER});
    hide Address, Span;
  }

  lemma FullAcrossWrap(start: Uint32, used: set<Ip>)
    requires AllTaken(start, ATTEMPTS, used) && start + ATTEMPTS >= TWO_32
    ensures |used| >= ATTEMPTS - 1 - 2048
  {
    var p := TWO_32 - 1 - start;
    var q := ATTEMPTS - p;
    var m := if q > 2048 then q - 2048 else 0;
    forall v: int | start < v <= start + p
      ensures Taken(Address(v), used)
    {
      assert Candidate(start, v - start) == v;
    }
    forall v: int | 2047 < v <= 2047 + m
      ensures Taken(Address(v), used)
    {
      assert Candidate(start, v + TWO_32 - start) == v;
    }
    SpanTaken(start, p, used);
    SpanTaken(2047, m, used);
    SpansApart(start, p, m);
    SpanSize(start, p);
    SpanSize(2047, m);
    hide Address, Span;
    SetBound(Span(start, p) + Span(2047, m), used + {SERVER});
    Disjoint(Span(start, p), Span(2047, m));
  }

  lemma Disjoint<T>(a: set<T>, b: set<T>)
    requires a !! b
    ensures |a + b| == |a| + |b|
  {
  }

  lemma SpansApart(start: Uint32, p: nat, m: nat)
    requires start + p == TWO_32 - 1 && p <= ATTEMPTS && (m > 0 ==> m + 2048 + p == ATTEMPTS)
    ensures Span(start, p) !! Span(2047, m)
  {
    forall x | x in Span(start, p) && x in Span(2047, m)
      ensures false
    {
      var a := InSpan(start, p, x);
      var b := InSpan(2047, m, x);
      DistinctAcrossWrap(a, b);
    }
    hide Address, Span;
  }

  /** The k-th candidate is the first free one. */
  ghost predicate FirstFree(start: Uint32, k: nat, used: set<Ip>) {
    k >= 1 && AllTaken(start, k - 1, used) && !Taken(Address(Candidate(start, k)), used)
  }

  lemma NextCandidate(start: Uint32, k: nat)
    ensures (Candidate(start, k) + 1) % TWO_32 == Candidate(start, k + 1)
    ensures Candidate(start, 0) == start
  {
  }

  lemma OneMoreTaken(start: Uint32, k: nat, used: set<Ip>)
    requires AllTaken(start, k, used)
    ensures Taken(Address(Candidate(start, k + 1)), used) ==> AllTaken(start, k + 1, used)
    ensures !Taken(Address(Candidate(start, k + 1)), used) ==>
              FirstFree(start, k + 1, used) && forall n: nat | n > k :: !AllTaken(start, n, used)
  {
    hide Taken, Address, Candidate;
  }

  lemma NoneTried(start: Uint32, used: set<Ip>)
    ensures AllTaken(start, 0, used)
  {
  }

  /** When all candidates are taken the pool is nearly full. */
  lemma AllTakenIsFull(start: Uint32, used: set<Ip>)
    requires AllTaken(start, ATTEMPTS, used)
    ensures |used| >= if start + ATTEMPTS < TWO_32 then ATTEMPTS - 1 else ATTEMPTS - 1 - 2048
  {
    if start + ATTEMPTS < TWO_32 {
      FullWithoutWrap(start, used);
    } else {
      FullAcrossWrap(start, used);
    }
  }

  class RawPool {
    var seqNo: Uint32
    var sessionsByIp: set<Ip>
    var ipByDevice: map<string, Ip>

    ghost function Used(): set<Ip>
      reads this
    {
      sessionsByIp + ipByDevice.Values
    }

    /** Distinct devices have distinct addresses and none has the server's. */
    ghost predicate Valid()
      reads this
    {
      && (forall d | d in ipByDevice :: ipByDevice[d] != SERVER)
      && forall d, e | d in ipByDevice && e in ipByDevice && d != e :: ipByDevice[d] != ipByDevice[e]
    }

    constructor (seqNo: Uint32)
      ensures Valid() && this.seqNo == seqNo && ipByDevice == map[] && sessionsByIp == {}
    {
      this.seqNo, sessionsByIp, ipByDevice := seqNo, {}, map[];
    }

    /** The first free one of the next 65000 candidates, so None exactly if all are taken.
        That cannot happen with at most 64998 addresses in use while the counter does not
        wrap, nor with at most 62950 wherever it stands. */
    method GetNextRawIP() returns (ip: Option<Ip>)
      modifies this`seqNo
      ensures ip.None? <==> AllTaken(old(seqNo), ATTEMPTS, Used())
      ensures ip.Some? ==>
                && ip.value == Address(seqNo) && !Taken(ip.value, Used())
                && exists k: nat :: FirstFree(old(seqNo), k, Used()) && k <= ATTEMPTS && seqNo == Candidate(old(seqNo), k)
      ensures ip.None? ==> seqNo == Candidate(old(seqNo), ATTEMPTS)
      ensures |Used()| <= ATTEMPTS - 2 && old(seqNo) + ATTEMPTS < TWO_32 ==> ip.Some?
      ensures |Used()| <= ATTEMPTS - 2 - 2048 ==> ip.Some?
    {
      var used := sessionsByIp + ipByDevice.Values;
      ghost var start := seqNo;
      NextCandidate(start, 0);
      hide Address, Candidate, AllTaken, FirstFree;
      assert AllTaken(start, 0, used) by {
        NoneTried(start, used);
      }
      for attempt := 0 to ATTEMPTS
        invariant used == Used() && seqNo == Candidate(start, attempt) && AllTaken(start, attempt, used)
      {
        NextCandidate(start, attempt);
        OneMoreTaken(start, attempt, used);
        seqNo := (seqNo + 1) % TWO_32;
        var candidate := Address(seqNo);
        if candidate == SERVER || candidate in used {
          continue;
        }
        return Some(candidate);
      }
      AllTakenIsFull(start, used);
      ip := None;
    }

    /** Every later call for the same device returns the address kept here. */
    method GetRawIPForDevice(device: string) returns (ip: Option<Ip>)
      requires Valid()
      modifies this`seqNo, this`ipByDevice
      ensures Valid()
      ensures var d := Named(device);
              && (ip.Some? ==> d in ipByDevice && ipByDevice[d] == ip.value)
              && (d in old(ipByDevice) ==> ip.Some? && ipByDevice == old(ipByDevice) && seqNo == old(seqNo))
              && (d !in old(ipByDevice) && ip.Some? ==>
                    ipByDevice == old(ipByDevice)[d := ip.value] && ip.value !in old(Used()))
              && (ip.None? ==> ipByDevice == old(ipByDevice) && AllTaken(old(seqNo), ATTEMPTS, Used()))
    {
      var d := Named(device);
      if d in ipByDevice {
        return Some(ipByDevice[d]);
      }
      ip := GetNextRawIP();
      if ip.Some? {
        assert forall e | e in ipByDevice :: ipByDevice[e] in ipByDevice.Values;
        ipByDevice := ipByDevice[d := ip.value];
      }
    }
  }

  // ---------- Concurrent callers ----------

  // One call of getRawIPForDevice: `Snapped` has collected the used addresses when the
  // counter stood at `at`, `Picked` has taken counter value n, `Served` has its answer
  // (`n` is -1 when another caller's address was found).
  datatype Caller =
    | Calling(device: string)
    | Snapped(device: string, used: set<Ip>, at: int, tries: nat)
    | Picked(device: string, at: int, n: int)
    | Served(device: string, n: int, ip: Ip)
    | Refused(device: string)

  // `origin`: which caller stored the address of a device, from which counter value, and
  // where the counter stood then (history only).
  datatype Origin = Origin(caller: int, n: int, stored: int)

  // `busy`: the addresses with sessions. A relay gets its address from this very call, and no
  // device ever loses its address, so they are among the stored ones.
  datatype State = State(seqNo: int, busy: set<Ip>, ips: map<string, Ip>, origin: map<string, Origin>, callers: seq<Caller>)

  datatype Event = Load(i: nat) | Snap(i: nat) | Try(i: nat) | Keep(i: nat) | Sessions(busy: set<Ip>)
  datatype Log = Begin(seqNo: int, devices: seq<string>) | Then(before: Log, last: Event)

  function Named(device: string): string {
    if device == "" then "unknown" else device
  }

  function Calls(devices: seq<string>): (c: seq<Caller>)
    ensures |c| == |devices| && forall i | 0 <= i < |c| :: c[i] == Calling(Named(devices[i]))
  {
    seq(|devices|, i requires 0 <= i < |devices| => Calling(Named(devices[i])))
  }

  function Step(s: State, e: Event): State {
    if e.Sessions? then if e.busy <= s.ips.Values then s.(busy := e.busy) else s
    else if e.i >= |s.callers| then s
    else
      var c := s.callers[e.i];
      match e
      case Load(i) =>
        if c.Calling? && c.device in s.ips then s.(callers := s.callers[i := Served(c.device, -1, s.ips[c.device])]) else s
      case Snap(i) =>
        if c.Calling? then s.(callers := s.callers[i := Snapped(c.device, s.busy + s.ips.Values, s.seqNo, 0)]) else s
      case Try(i) => if c.Snapped? && s.seqNo >= 0 then TryNext(s, i, c) else s
      case Keep(i) => if c.Picked? && c.n >= 0 then LoadOrStore(s, i, c) else s
  }

  function TryNext(s: State, i: nat, c: Caller): State
    requires i < |s.callers| && c.Snapped? && s.seqNo >= 0
  {
    if c.tries >= ATTEMPTS then s.(callers := s.callers[i := Refused(c.device)])
    else if Taken(Address(s.seqNo + 1), c.used) then
      s.(seqNo := s.seqNo + 1, callers := s.callers[i := c.(tries := c.tries + 1)])
    else s.(seqNo := s.seqNo + 1, callers := s.callers[i := Picked(c.device, c.at, s.seqNo + 1)])
  }

  function LoadOrStore(s: State, i: nat, c: Caller): State
    requires i < |s.callers| && c.Picked? && c.n >= 0
  {
    if c.device in s.ips then s.(callers := s.callers[i := Served(c.device, -1, s.ips[c.device])])
    else
      s.(ips := s.ips[c.device := Address(c.n)], origin := s.origin[c.device := Origin(i, c.n, s.seqNo)],
         callers := s.callers[i := Served(c.device, c.n, Address(c.n))])
  }

  function Run(l: Log): State {
    match l
    case Begin(seqNo, devices) => State(seqNo, {}, map[], map[], Calls(devices))
    case Then(before, e) => Step(Run(before), e)
  }

  // ---------- Sticky: one device, one address ----------

  ghost predicate ServedRight(s: State) {
    forall i | 0 <= i < |s.callers| && s.callers[i].Served? ::
      s.callers[i].device in s.ips && s.ips[s.callers[i].device] == s.callers[i].ip
  }

  lemma ServedStep(s: State, e: Event)
    requires ServedRight(s)
    ensures ServedRight(Step(s, e)) && forall d | d in s.ips :: d in Step(s, e).ips && Step(s, e).ips[d] == s.ips[d]
  {
    hide Address, Taken;
  }

  lemma {:induction false} ServedRun(l: Log)
    ensures ServedRight(Run(l))
  {
    if l.Then? {
      ServedRun(l.before);
      ServedStep(Run(l.before), l.last);
    }
    hide Step;
  }

  ghost predicate Extends(m: Log, l: Log) {
    m == l || (m.Then? && Extends(m.before, l))
  }

  lemma {:induction false} AddressesStay(m: Log, l: Log, d: string)
    requires Extends(m, l) && d in Run(l).ips
    ensures d in Run(m).ips && Run(m).ips[d] == Run(l).ips[d]
  {
    if m != l {
      AddressesStay(m.before, l, d);
      ServedRun(m.before);
      ServedStep(Run(m.before), m.last);
    }
    hide Step;
  }

  /** However calls interleave, all calls for one device are answered with one address, now
      and later. */
  lemma SameAnswer(m: Log, l: Log, i: nat, j: nat)
    requires Extends(m, l) && i < |Run(l).callers| && j < |Run(m).callers|
    requires Run(l).callers[i].Served? && Run(m).callers[j].Served?
    requires Run(l).callers[i].device == Run(m).callers[j].device
    ensures Run(l).callers[i].ip == Run(m).callers[j].ip
  {
    ServedRun(l);
    ServedRun(m);
    AddressesStay(m, l, Run(l).callers[i].device);
  }

  // ---------- Distinct devices never share ----------

  const SAFE_SPAN := 32513

  /** Between a call's look at the used addresses and its store, the counter moves by less than
      `bound`; and it has not wrapped. */
  ghost predicate Brisk(l: Log, bound: int) {
    match l
    case Begin(seqNo, _) => seqNo >= 0
    case Then(before, e) => Brisk(before, bound) && KeepsBriskly(Run(before), e, bound)
  }

  ghost predicate KeepsBriskly(s: State, e: Event, bound: int) {
    e.Keep? && e.i < |s.callers| && s.callers[e.i].Picked? ==> s.seqNo < TWO_32 && s.seqNo < s.callers[e.i].at + bound
  }

  function NumberOf(c: Caller): int {
    if c.Picked? || c.Served? then c.n else -1
  }

  ghost predicate NumbersOk(s: State) {
    && 0 <= s.seqNo
    && (forall i | 0 <= i < |s.callers| :: NumberOf(s.callers[i]) <= s.seqNo)
    && forall i, j | 0 <= i < j < |s.callers| ::
         NumberOf(s.callers[i]) == NumberOf(s.callers[j]) ==> NumberOf(s.callers[i]) < 0
  }

  /** A call that has looked can only clash with what was stored since. */
  ghost predicate CallerOk(s: State, c: Caller) {
    match c
    case Snapped(_, used, at, _) =>
      0 <= at <= s.seqNo && forall d | d in s.ips && d in s.origin :: s.ips[d] in used || s.origin[d].stored >= at
    case Picked(_, at, n) =>
      && 0 <= at < n <= s.seqNo && Address(n) != SERVER
      && forall d | d in s.ips && d in s.origin :: s.ips[d] == Address(n) ==> s.origin[d].stored >= at
    case _ => true
  }

  ghost predicate OriginOk(s: State, o: Origin, ip: Ip) {
    && 0 <= o.n <= o.stored <= s.seqNo && o.n > o.stored - SAFE_SPAN + 1
    && ip == Address(o.n) && ip != SERVER
    && 0 <= o.caller < |s.callers| && s.callers[o.caller].Served? && s.callers[o.caller].n == o.n
  }

  ghost predicate Unshared(ips: map<string, Ip>) {
    forall d, e | d in ips && e in ips && d != e :: ips[d] != ips[e]
  }

  ghost predicate Inv(s: State) {
    && NumbersOk(s) && Unshared(s.ips) && s.origin.Keys == s.ips.Keys
    && (forall i | 0 <= i < |s.callers| :: CallerOk(s, s.callers[i]))
    && forall d | d in s.ips :: d in s.origin && OriginOk(s, s.origin[d], s.ips[d])
  }

  /** The heart of it: what a brisk call is about to store is nobody's address. */
  lemma KeepIsNew(s: State, i: nat, d: string)
    requires Inv(s) && i < |s.callers| && s.callers[i].Picked? && d in s.ips
    requires s.seqNo < s.callers[i].at + SAFE_SPAN
    ensures s.callers[i].n >= 0 && s.ips[d] != Address(s.callers[i].n)
  {
    var c, o := s.callers[i], s.origin[d];
    assert CallerOk(s, c) && OriginOk(s, o, s.ips[d]);
    assert NumberOf(c) == c.n && NumberOf(s.callers[o.caller]) == o.n;
    assert o.caller != i;
    if s.ips[d] == Address(c.n) {
      assert o.n != c.n;
      if o.n < c.n {
        NearAreDistinct(o.n, c.n);
      } else {
        NearAreDistinct(c.n, o.n);
      }
    }
    hide Address;
  }

  lemma NumbersStep(s: State, e: Event)
    requires NumbersOk(s)
    ensures NumbersOk(Step(s, e)) && s.seqNo <= Step(s, e).seqNo
  {
    hide Address, Taken;
  }

  /** A step of caller i that stores nothing keeps the invariant if i itself stays right. */
  lemma CallerStep(s: State, s': State, i: nat)
    requires Inv(s) && NumbersOk(s') && i < |s.callers| == |s'.callers|
    requires s' == s.(seqNo := s'.seqNo, callers := s.callers[i := s'.callers[i]]) && s.seqNo <= s'.seqNo
    requires CallerOk(s', s'.callers[i]) && !s.callers[i].Served?
    ensures Inv(s')
  {
    forall j | 0 <= j < |s'.callers|
      ensures CallerOk(s', s'.callers[j])
    {
      assert CallerOk(s, s.callers[j]);
    }
    forall d | d in s'.ips
      ensures d in s'.origin && OriginOk(s', s'.origin[d], s'.ips[d])
    {
      assert OriginOk(s, s.origin[d], s.ips[d]);
    }
    hide NumbersOk, Address, Unshared;
  }

  lemma SnapKeeps(s: State, i: nat)
    requires Inv(s)
    ensures Inv(Step(s, Snap(i)))
  {
    NumbersStep(s, Snap(i));
    hide NumbersOk, Unshared, Address, OriginOk;
    if i < |s.callers| && s.callers[i].Calling? {
      var s' := Step(s, Snap(i));
      assert 0 <= s.seqNo by {
        Positive(s);
      }
      assert forall d | d in s.ips :: s.ips[d] in s.ips.Values;
      assert CallerOk(s', s'.callers[i]);
      CallerStep(s, s', i);
    }
  }

  lemma Positive(s: State)
    requires NumbersOk(s)
    ensures 0 <= s.seqNo
  {
  }

  lemma TryKeeps(s: State, i: nat)
    requires Inv(s)
    ensures Inv(Step(s, Try(i)))
  {
    NumbersStep(s, Try(i));
    Positive(s);
    hide NumbersOk, Unshared, Address, OriginOk;
    if i < |s.callers| && s.callers[i].Snapped? {
      var s' := Step(s, Try(i));
      assert CallerOk(s, s.callers[i]);
      assert CallerOk(s', s'.callers[i]);
      CallerStep(s, s', i);
    }
  }

  lemma LoadKeeps(s: State, i: nat)
    requires Inv(s)
    ensures Inv(Step(s, Load(i)))
  {
    NumbersStep(s, Load(i));
    hide NumbersOk, Unshared, Address, OriginOk;
    if i < |s.callers| && s.callers[i].Calling? && s.callers[i].device in s.ips {
      CallerStep(s, Step(s, Load(i)), i);
    }
  }

  /** What a brisk first store may rely on. */
  ghost predicate Storing(s: State, i: nat) {
    && Inv(s) && KeepsBriskly(s, Keep(i), SAFE_SPAN)
    && i < |s.callers| && s.callers[i].Picked? && s.callers[i].n >= 0 && s.callers[i].device !in s.ips
  }

  lemma StoreUnshared(s: State, i: nat)
    requires Storing(s, i)
    ensures Unshared(Step(s, Keep(i)).ips)
  {
    var c := s.callers[i];
    forall d | d in s.ips
      ensures s.ips[d] != Address(c.n)
    {
      KeepIsNew(s, i, d);
    }
    hide Address, NumbersOk, CallerOk, OriginOk;
  }

  lemma StoreCallers(s: State, i: nat, j: nat)
    requires Storing(s, i) && j < |s.callers|
    ensures var s' := Step(s, Keep(i)); j < |s'.callers| && CallerOk(s', s'.callers[j])
  {
    assert CallerOk(s, s.callers[j]);
    hide Address, NumbersOk, OriginOk, Unshared;
  }

  lemma StoreOrigins(s: State, i: nat, d: string)
    requires Storing(s, i) && d in Step(s, Keep(i)).ips
    ensures var s' := Step(s, Keep(i)); d in s'.origin && OriginOk(s', s'.origin[d], s'.ips[d])
  {
    assert CallerOk(s, s.callers[i]);
    if d in s.ips {
      assert OriginOk(s, s.origin[d], s.ips[d]);
    }
    hide Address, NumbersOk, Unshared;
  }

  lemma StoreKeeps(s: State, i: nat)
    requires Storing(s, i)
    ensures Inv(Step(s, Keep(i)))
  {
    NumbersStep(s, Keep(i));
    var s' := Step(s, Keep(i));
    StoreUnshared(s, i);
    forall j | 0 <= j < |s'.callers|
      ensures CallerOk(s', s'.callers[j])
    {
      StoreCallers(s, i, j);
    }
    forall d | d in s'.ips
      ensures d in s'.origin && OriginOk(s', s'.origin[d], s'.ips[d])
    {
      StoreOrigins(s, i, d);
    }
    hide Address, NumbersOk, CallerOk, OriginOk, Unshared;
  }

  lemma KeepKeeps(s: State, i: nat)
    requires Inv(s) && KeepsBriskly(s, Keep(i), SAFE_SPAN)
    ensures Inv(Step(s, Keep(i)))
  {
    if i < |s.callers| && s.callers[i].Picked? {
      assert CallerOk(s, s.callers[i]);
      if s.callers[i].device in s.ips {
        NumbersStep(s, Keep(i));
        hide NumbersOk, Unshared, Address, OriginOk;
        CallerStep(s, Step(s, Keep(i)), i);
      } else {
        StoreKeeps(s, i);
        hide Inv, Step;
      }
    }
  }

  lemma InvStep(s: State, e: Event)
    requires Inv(s) && KeepsBriskly(s, e, SAFE_SPAN)
    ensures Inv(Step(s, e))
  {
    match e
    case Load(i) => LoadKeeps(s, i); hide Inv, Step;
    case Snap(i) => SnapKeeps(s, i); hide Inv, Step;
    case Try(i) => TryKeeps(s, i); hide Inv, Step;
    case Keep(i) => KeepKeeps(s, i); hide Inv, Step;
    case Sessions(_) => hide OriginOk, Unshared, Address;
  }

  /** In every interleaving of brisk calls distinct devices have distinct addresses, and none
      the server's. */
  lemma {:induction false} NeverShared(l: Log)
    requires Brisk(l, SAFE_SPAN)
    ensures Inv(Run(l))
    ensures var ips := Run(l).ips; Unshared(ips) && forall d | d in ips :: ips[d] != SERVER
  {
    if l.Then? {
      NeverShared(l.before);
      InvStep(Run(l.before), l.last);
      hide Step;
    }
    assert forall d | d in Run(l).ips :: OriginOk(Run(l), Run(l).origin[d], Run(l).ips[d]);
  }

  lemma {:induction false} BriskerIsBrisk(l: Log, bound: int, more: int)
    requires Brisk(l, bound) && bound <= more
    ensures Brisk(l, more)
  {
    if l.Then? {
      BriskerIsBrisk(l.before, bound, more);
    }
  }

  /** That bound is exact: addresses stay distinct in every run in which the counter moves by
      less than `bound` between a call's look and its store if and only if `bound` is at most
      32513. */
  lemma BoundExact(bound: int)
    ensures (forall l | Brisk(l, bound) :: Unshared(Run(l).ips)) <==> bound <= SAFE_SPAN
  {
    if bound <= SAFE_SPAN {
      forall l | Brisk(l, bound)
        ensures Unshared(Run(l).ips)
      {
        BriskerIsBrisk(l, bound, SAFE_SPAN);
        NeverShared(l);
      }
    } else {
      var l := OvertakenCallsShare("a", "b");
      BriskerIsBrisk(l, SAFE_SPAN + 1, bound);
      assert Brisk(l, bound) && !Unshared(Run(l).ips);
    }
  }

  // ---------- Two calls that one pool overtakes ----------

  function Tries(l: Log, i: nat, k: nat): Log {
    if k == 0 then l else Then(Tries(l, i, k - 1), Try(i))
  }

  /** Caller i has tried k more candidates in vain. */
  function Tried(s: State, i: nat, k: nat): State
    requires i < |s.callers| && s.callers[i].Snapped?
  {
    s.(seqNo := s.seqNo + k, callers := s.callers[i := s.callers[i].(tries := s.callers[i].tries + k)])
  }

  /** The k counter values after `from` all give taken addresses. */
  ghost predicate TakenRange(from: int, k: nat, used: set<Ip>) {
    0 <= from && forall m | from < m <= from + k :: Taken(Address(m), used)
  }

  lemma LastTaken(from: int, k: nat, used: set<Ip>)
    requires TakenRange(from, k, used) && k > 0
    ensures 0 <= from && TakenRange(from, k - 1, used) && Taken(Address(from + k), used)
  {
    hide Taken, Address;
  }

  lemma RunTries(l: Log, i: nat, k: nat)
    ensures Run(Tries(l, i, k)) == if k == 0 then Run(l) else Step(Run(Tries(l, i, k - 1)), Try(i))
  {
    hide Step;
  }

  lemma {:induction false} InVain(l: Log, i: nat, k: nat)
    requires i < |Run(l).callers| && Run(l).callers[i].Snapped? && Run(l).callers[i].tries + k <= ATTEMPTS
    requires TakenRange(Run(l).seqNo, k, Run(l).callers[i].used)
    ensures Run(Tries(l, i, k)) == Tried(Run(l), i, k)
  {
    hide Address, Taken, Tried, Step, Run, Tries, TakenRange;
    RunTries(l, i, k);
    if k == 0 {
      TriedNothing(Run(l), i);
    } else {
      LastTaken(Run(l).seqNo, k, Run(l).callers[i].used);
      InVain(l, i, k - 1);
      OneMoreTry(Run(l), i, k - 1);
    }
  }

  lemma TriedNothing(s: State, i: nat)
    requires i < |s.callers| && s.callers[i].Snapped?
    ensures Tried(s, i, 0) == s
  {
    assert s.callers == s.callers[i := s.callers[i]];
  }

  lemma OneMoreTry(s: State, i: nat, k: nat)
    requires s.seqNo >= 0 && i < |s.callers| && s.callers[i].Snapped? && s.callers[i].tries + k < ATTEMPTS
    requires Taken(Address(s.seqNo + k + 1), s.callers[i].used)
    ensures Step(Tried(s, i, k), Try(i)) == Tried(s, i, k + 1)
  {
    hide Address, Taken;
    var c := s.callers[i].(tries := s.callers[i].tries + k + 1);
    assert Tried(s, i, k).callers[i := c] == s.callers[i := c];
  }

  lemma {:induction false} TriesBrisk(l: Log, i: nat, k: nat, bound: int)
    ensures Brisk(Tries(l, i, k), bound) <==> Brisk(l, bound)
  {
    if k > 0 {
      TriesBrisk(l, i, k - 1, bound);
    }
  }

  lemma Quiet(l: Log, e: Event, bound: int)
    requires !e.Keep?
    ensures Brisk(Then(l, e), bound) <==> Brisk(l, bound)
    ensures Run(Then(l, e)) == Step(Run(l), e)
  {
  }

  lemma Looks(s: State, i: nat)
    requires i < |s.callers| && s.callers[i].Calling? && s.busy == {}
    ensures Step(s, Snap(i)) == s.(callers := s.callers[i := Snapped(s.callers[i].device, s.ips.Values, s.seqNo, 0)])
  {
    assert s.busy + s.ips.Values == s.ips.Values;
  }

  lemma Picks(s: State, i: nat)
    requires i < |s.callers| && s.callers[i].Snapped? && s.callers[i].tries < ATTEMPTS && s.seqNo >= 0
    requires !Taken(Address(s.seqNo + 1), s.callers[i].used)
    ensures Step(s, Try(i)) == s.(seqNo := s.seqNo + 1,
                                  callers := s.callers[i := Picked(s.callers[i].device, s.callers[i].at, s.seqNo + 1)])
  {
    hide Address, Taken;
  }

  lemma Misses(s: State, i: nat)
    requires i < |s.callers| && s.callers[i].Snapped? && s.callers[i].tries < ATTEMPTS && s.seqNo >= 0
    requires Taken(Address(s.seqNo + 1), s.callers[i].used)
    ensures Step(s, Try(i)) == s.(seqNo := s.seqNo + 1,
                                  callers := s.callers[i := s.callers[i].(tries := s.callers[i].tries + 1)])
  {
    hide Address, Taken;
  }

  lemma Keeps(s: State, i: nat)
    requires i < |s.callers| && s.callers[i].Picked? && s.callers[i].n >= 0 && s.callers[i].device !in s.ips
    ensures var s', c := Step(s, Keep(i)), s.callers[i];
            && s' == s.(ips := s.ips[c.device := Address(c.n)], origin := s'.origin,
                        callers := s.callers[i := Served(c.device, c.n, Address(c.n))])
            && s'.ips.Values == s.ips.Values + {Address(c.n)}
  {
    hide Address;
    var c := s.callers[i];
    NewValue(s.ips, c.device, Address(c.n));
  }

  lemma NewValue(m: map<string, Ip>, k: string, v: Ip)
    requires k !in m
    ensures m[k := v].Values == m.Values + {v}
  {
    var m' := m[k := v];
    assert k in m' && m'[k] == v;
    forall x | x in m.Values
      ensures x in m'.Values
    {
      var d :| d in m && m[d] == x;
      assert d in m' && m'[d] == x;
    }
  }

  // ---------- A server that has given away all addresses but one ----------

  // The counter value whose address is the server's.
  const SERVER_AT := 16764

  // The devices served one after the other before the pool has one free address left.
  const EARLIER := 65022

  /** Where the counter stands after i undisturbed calls from 0 on. */
  function Walked(i: nat): nat {
    if i < SERVER_AT then i else i + 1
  }

  lemma ServerAt(n: int)
    requires 0 <= n
    ensures Address(n) == SERVER <==> n % POOL == SERVER_AT
  {
    SameAddressIff(n, SERVER_AT);
  }

  lemma NotWalked(n: int, m: nat)
    requires m < n <= POOL
    ensures Address(n) !in Span(0, m)
  {
    if Address(n) in Span(0, m) {
      var k := InSpan(0, m, Address(n));
      NearAreDistinct(k, n);
    }
    hide Address, Span;
  }

  /** The call of caller i, with nothing in between; only one of them meets the server's address. */
  function Serve(l: Log, i: nat): Log {
    var l1 := Then(Then(l, Snap(i)), Try(i));
    Then(if i == SERVER_AT - 1 then Then(l1, Try(i)) else l1, Keep(i))
  }

  function ServeAll(l: Log, k: nat): Log {
    if k == 0 then l else Serve(ServeAll(l, k - 1), k - 1)
  }

  /** The first k of the given devices have been served. */
  ghost predicate Filled(s: State, devices: seq<string>, k: nat) {
    && s.seqNo == Walked(k) && s.busy == {} && |s.callers| == |devices|
    && (forall j | k <= j < |devices| :: s.callers[j] == Calling(devices[j]) && devices[j] !in s.ips)
    && s.ips.Values == Span(0, Walked(k)) - {SERVER}
  }

  ghost predicate Distinct(devices: seq<string>) {
    forall i, j | 0 <= i < j < |devices| :: devices[i] != devices[j]
  }

  /** Caller k has picked the next address that is not the server's. */
  ghost predicate Picking(s: State, s': State, k: nat) {
    && k < |s.callers| && s.callers[k].Calling?
    && s' == s.(seqNo := Walked(k + 1),
                callers := s.callers[k := Picked(s.callers[k].device, Walked(k), Walked(k + 1))])
  }

  lemma ServerBelowPool(n: int)
    requires 0 <= n < POOL
    ensures Address(n) == SERVER <==> n == SERVER_AT
  {
    ServerAt(n);
    hide Address;
  }

  lemma WalkedNext(k: nat)
    requires k < EARLIER
    ensures Walked(k + 1) == (if k == SERVER_AT - 1 then Walked(k) + 2 else Walked(k) + 1) < POOL
    ensures Address(Walked(k + 1)) != SERVER
    ensures k == SERVER_AT - 1 ==> Address(Walked(k) + 1) == SERVER
  {
    ServerBelowPool(Walked(k + 1));
    ServerBelowPool(Walked(k) + 1);
    hide Address;
  }

  lemma SpanGrows(w: nat, n: nat)
    requires Address(n) != SERVER && (n == w + 1 || (n == w + 2 && Address(w + 1) == SERVER))
    ensures Span(0, n) - {SERVER} == Span(0, w) - {SERVER} + {Address(n)}
  {
    assert Span(0, w + 1) == Span(0, w) + {Address(w + 1)};
    assert Span(0, n) == Span(0, n - 1) + {Address(n)};
    hide Address, Span;
  }

  lemma NextIsFree(k: nat, used: set<Ip>)
    requires k < EARLIER && used == Span(0, Walked(k)) - {SERVER}
    ensures !Taken(Address(Walked(k + 1)), used)
    ensures Walked(k + 1) == if k == SERVER_AT - 1 then Walked(k) + 2 else Walked(k) + 1
    ensures k == SERVER_AT - 1 ==> Taken(Address(Walked(k) + 1), used)
    ensures Span(0, Walked(k + 1)) - {SERVER} == used + {Address(Walked(k + 1))}
  {
    hide Address, Span, Walked;
    WalkedNext(k);
    NotWalked(Walked(k + 1), Walked(k));
    SpanGrows(Walked(k), Walked(k + 1));
  }

  /** Looking and trying, once or, if the server's address is next, twice. */
  lemma PicksNext(s: State, k: nat, n: int, skip: bool)
    requires k < |s.callers| && s.callers[k].Calling? && s.busy == {} && s.seqNo >= 0
    requires n == s.seqNo + (if skip then 2 else 1) && !Taken(Address(n), s.ips.Values)
    requires skip ==> Taken(Address(s.seqNo + 1), s.ips.Values)
    ensures var s2 := Step(Step(s, Snap(k)), Try(k));
            (if skip then Step(s2, Try(k)) else s2)
            == s.(seqNo := n, callers := s.callers[k := Picked(s.callers[k].device, s.seqNo, n)])
  {
    hide Address, Taken, Step;
    Looks(s, k);
    if skip {
      Misses(Step(s, Snap(k)), k);
      Picks(Step(Step(s, Snap(k)), Try(k)), k);
    } else {
      Picks(Step(s, Snap(k)), k);
    }
  }

  lemma ServePicks(l: Log, k: nat, bound: int) returns (l': Log)
    requires var s := Run(l);
             && k < EARLIER && k < |s.callers| && s.callers[k].Calling? && s.busy == {} && s.seqNo == Walked(k)
             && s.ips.Values == Span(0, Walked(k)) - {SERVER}
    requires Brisk(l, bound)
    ensures Serve(l, k) == Then(l', Keep(k)) && Brisk(l', bound) && Picking(Run(l), Run(l'), k)
  {
    hide Address, Run, Brisk, Span, Taken, Step, Walked;
    NextIsFree(k, Run(l).ips.Values);
    PicksNext(Run(l), k, Walked(k + 1), k == SERVER_AT - 1);
    var l1 := Then(l, Snap(k));
    var l2 := Then(l1, Try(k));
    Quiet(l, Snap(k), bound);
    Quiet(l1, Try(k), bound);
    Quiet(l2, Try(k), bound);
    l' := if k == SERVER_AT - 1 then Then(l2, Try(k)) else l2;
  }

  /** The store: one more device served. */
  lemma StoresNext(s: State, s': State, devices: seq<string>, k: nat)
    requires Filled(s, devices, k) && k < EARLIER && k < |devices| && Distinct(devices) && Picking(s, s', k)
    ensures Filled(Step(s', Keep(k)), devices, k + 1)
  {
    hide Address, Span, Step, Walked;
    NextIsFree(k, s.ips.Values);
    Keeps(s', k);
  }

  lemma ServeKeeps(l: Log, devices: seq<string>, k: nat, bound: int)
    requires Filled(Run(l), devices, k) && k < EARLIER && k < |devices| && Distinct(devices) && Brisk(l, bound) && bound > 2
    ensures Filled(Run(Serve(l, k)), devices, k + 1) && Brisk(Serve(l, k), bound)
  {
    hide Address, Span, Step, Walked, Serve;
    var l' := ServePicks(l, k, bound);
    KeepStored(l', k, bound);
    WalkedNext(k);
    hide Run, Brisk, Distinct;
    StoresNext(Run(l), Run(l'), devices, k);
  }

  lemma KeepStored(l: Log, k: nat, bound: int)
    ensures Run(Then(l, Keep(k))) == Step(Run(l), Keep(k))
    ensures Brisk(Then(l, Keep(k)), bound) <==> Brisk(l, bound) && KeepsBriskly(Run(l), Keep(k), bound)
  {
    hide Step;
  }

  lemma {:induction false} AllServed(l: Log, devices: seq<string>, k: nat, bound: int)
    requires Filled(Run(l), devices, 0) && k <= EARLIER && k <= |devices| && Distinct(devices) && Brisk(l, bound) && bound > 2
    ensures Filled(Run(ServeAll(l, k)), devices, k) && Brisk(ServeAll(l, k), bound)
  {
    hide Filled, Run, Brisk, Serve, Distinct;
    if k > 0 {
      AllServed(l, devices, k - 1, bound);
      ServeKeeps(ServeAll(l, k - 1), devices, k - 1, bound);
    }
  }

  // ---------- Two devices for the last address ----------

  function Unary(n: nat): (name: string)
    ensures |name| == n
  {
    seq(n, _ => 'x')
  }

  function Names(shortest: nat, n: nat): (names: seq<string>)
    ensures |names| == n && forall j | 0 <= j < n :: |names[j]| == shortest + j
  {
    if n == 0 then [] else Names(shortest, n - 1) + [Unary(shortest + n - 1)]
  }

  /** Earlier devices, then a, b and one more, all different. */
  function Devices(a: string, b: string): (ds: seq<string>)
    ensures |ds| == EARLIER + 3
    ensures forall j | 0 <= j < EARLIER :: |ds[j]| == |a| + |b| + 1 + j
    ensures ds[EARLIER] == a && ds[EARLIER + 1] == b && |ds[EARLIER + 2]| == |a| + |b| + 1 + EARLIER
  {
    Names(|a| + |b| + 1, EARLIER) + [a, b, Unary(|a| + |b| + 1 + EARLIER)]
  }

  lemma DevicesDiffer(a: string, b: string)
    requires a != b && a != "" && b != ""
    ensures Distinct(Devices(a, b)) && forall j | 0 <= j < EARLIER + 3 :: Devices(a, b)[j] != ""
  {
    hide Devices;
    var ds := Devices(a, b);
    forall i, j | 0 <= i < j < |ds|
      ensures ds[i] != ds[j]
    {
      if i < EARLIER && j < EARLIER {
        assert |ds[i]| != |ds[j]|;
      }
    }
  }

  /** Callers 0 to 65021 have been served one after the other; the last three have not called. */
  lemma OneAddressLeft(a: string, b: string, bound: int) returns (l: Log)
    requires a != b && a != "" && b != "" && bound > 2
    ensures Brisk(l, bound) && Filled(Run(l), Devices(a, b), EARLIER)
  {
    var l0 := Begin(0, Devices(a, b));
    var noIps: map<string, Ip> := map[];
    DevicesDiffer(a, b);
    assert noIps.Values == {} && Span(0, 0) - {SERVER} == {};
    assert Filled(Run(l0), Devices(a, b), 0) by {
      hide Devices;
    }
    AllServed(l0, Devices(a, b), EARLIER, bound);
    l := ServeAll(l0, EARLIER);
  }

  /** What the last three callers are doing; the rest of the state as far as it matters. */
  ghost predicate Stage(s: State, n: int, ips: map<string, Ip>, a: Caller, b: Caller, c: Caller) {
    && s.seqNo == n && s.busy == {} && s.ips == ips && |s.callers| == EARLIER + 3
    && s.callers[EARLIER] == a && s.callers[EARLIER + 1] == b && s.callers[EARLIER + 2] == c
  }

  /** All addresses but the one after counter value POOL - 1 are stored. */
  ghost predicate LastLeft(ips: map<string, Ip>) {
    ips.Values == Span(0, POOL - 1) - {SERVER}
  }

  lemma LastIsFree(ips: map<string, Ip>)
    requires LastLeft(ips)
    ensures Address(2 * POOL) == Address(POOL) && !Taken(Address(POOL), ips.Values)
  {
    ServerAt(POOL);
    NotWalked(POOL, POOL - 1);
    SameResidue(POOL, 1);
    SameAddressIff(POOL, 2 * POOL);
    hide Address, Span;
  }

  lemma OthersTaken(ips: map<string, Ip>, from: int, k: nat)
    requires LastLeft(ips) && POOL <= from && from + k < 2 * POOL
    ensures TakenRange(from, k, ips.Values)
  {
    forall m | from < m <= from + k
      ensures Taken(Address(m), ips.Values)
    {
      SameResidue(m - POOL, 1);
      SameAddressIff(m - POOL, m);
      WalkedThrough(m - POOL, POOL - 1);
    }
    hide Address, Span;
  }

  lemma {:induction false} WalkedThrough(m: int, n: nat)
    requires 0 < m <= n
    ensures Address(m) in Span(0, n)
  {
    if m < n {
      WalkedThrough(m, n - 1);
    }
    hide Address;
  }

  lemma StageLooks(s: State, n: int, ips: map<string, Ip>, a: Caller, b: Caller, c: Caller, i: nat)
    requires Stage(s, n, ips, a, b, c) && EARLIER <= i < EARLIER + 3 && s.callers[i].Calling?
    ensures var look := Snapped(s.callers[i].device, ips.Values, n, 0);
            Stage(Step(s, Snap(i)), n, ips, if i == EARLIER then look else a,
                  if i == EARLIER + 1 then look else b, if i == EARLIER + 2 then look else c)
  {
    Looks(s, i);
    hide Step;
  }

  lemma StagePicks(s: State, n: int, ips: map<string, Ip>, a: Caller, b: Caller, c: Caller, i: nat)
    requires Stage(s, n, ips, a, b, c) && EARLIER <= i < EARLIER + 2 && n >= 0
    requires s.callers[i].Snapped? && s.callers[i].tries < ATTEMPTS && !Taken(Address(n + 1), s.callers[i].used)
    ensures var pick := Picked(s.callers[i].device, s.callers[i].at, n + 1);
            Stage(Step(s, Try(i)), n + 1, ips, if i == EARLIER then pick else a, if i == EARLIER + 1 then pick else b, c)
  {
    Picks(s, i);
    hide Step, Address, Taken;
  }

  lemma StageTries(s: State, n: int, ips: map<string, Ip>, a: Caller, b: Caller, c: Caller, i: nat, k: nat)
    requires Stage(s, n, ips, a, b, c) && EARLIER < i < EARLIER + 3 && s.callers[i].Snapped?
    ensures var tried := s.callers[i].(tries := s.callers[i].tries + k);
            Stage(Tried(s, i, k), n + k, ips, a, if i == EARLIER + 1 then tried else b, if i == EARLIER + 2 then tried else c)
  {
  }

  lemma StageKeeps(s: State, n: int, ips: map<string, Ip>, a: Caller, b: Caller, c: Caller, i: nat)
    requires Stage(s, n, ips, a, b, c) && EARLIER <= i < EARLIER + 2
    requires s.callers[i].Picked? && s.callers[i].n >= 0 && s.callers[i].device !in ips
    ensures var p := s.callers[i];
            var served := Served(p.device, p.n, Address(p.n));
            Stage(Step(s, Keep(i)), n, ips[p.device := Address(p.n)],
                  if i == EARLIER then served else a, if i == EARLIER + 1 then served else b, c)
  {
    Keeps(s, i);
    hide Step, Address;
  }

  /** Device a's caller has picked the last free address; the counter stands at POOL. */
  lemma FirstPicks(a: string, b: string) returns (l: Log, ips: map<string, Ip>, c: string)
    requires a != b && a != "" && b != ""
    ensures Brisk(l, SAFE_SPAN + 1) && LastLeft(ips) && a !in ips && b !in ips
    ensures Stage(Run(l), POOL, ips, Picked(a, POOL - 1, POOL), Calling(b), Calling(c))
  {
    var l0 := OneAddressLeft(a, b, SAFE_SPAN + 1);
    DevicesDiffer(a, b);
    ips, c := Run(l0).ips, Devices(a, b)[EARLIER + 2];
    hide Devices;
    assert Stage(Run(l0), POOL - 1, ips, Calling(a), Calling(b), Calling(c));
    LastIsFree(ips);
    hide Run, Brisk, Step, Address, Taken, Span, Filled, LastLeft;
    var l1 := Then(l0, Snap(EARLIER));
    Quiet(l0, Snap(EARLIER), SAFE_SPAN + 1);
    StageLooks(Run(l0), POOL - 1, ips, Calling(a), Calling(b), Calling(c), EARLIER);
    var look := Snapped(a, ips.Values, POOL - 1, 0);
    l := Then(l1, Try(EARLIER));
    Quiet(l1, Try(EARLIER), SAFE_SPAN + 1);
    StagePicks(Run(l1), POOL - 1, ips, look, Calling(b), Calling(c), EARLIER);
  }

  /** The third caller runs through 32512 stored addresses, then device b's caller looks. */
  lemma SecondLooks(a: string, b: string) returns (l: Log, ips: map<string, Ip>, c: Caller)
    requires a != b && a != "" && b != ""
    ensures Brisk(l, SAFE_SPAN + 1) && LastLeft(ips) && a !in ips && b !in ips
    ensures var at := POOL - 1 + SAFE_SPAN;
            Stage(Run(l), at, ips, Picked(a, POOL - 1, POOL), Snapped(b, ips.Values, at, 0), c)
  {
    hide Run, Brisk, Step, Address, Taken, TakenRange, Tries, Tried, Span, LastLeft;
    var l0, ips0, third := FirstPicks(a, b);
    ips := ips0;
    var first, look, k := Picked(a, POOL - 1, POOL), Snapped(third, ips.Values, POOL, 0), SAFE_SPAN - 1;
    var l1 := Then(l0, Snap(EARLIER + 2));
    Quiet(l0, Snap(EARLIER + 2), SAFE_SPAN + 1);
    StageLooks(Run(l0), POOL, ips, first, Calling(b), Calling(third), EARLIER + 2);
    OthersTaken(ips, POOL, k);
    InVain(l1, EARLIER + 2, k);
    TriesBrisk(l1, EARLIER + 2, k, SAFE_SPAN + 1);
    StageTries(Run(l1), POOL, ips, first, Calling(b), look, EARLIER + 2, k);
    c := look.(tries := k);
    var l2 := Tries(l1, EARLIER + 2, k);
    l := Then(l2, Snap(EARLIER + 1));
    Quiet(l2, Snap(EARLIER + 1), SAFE_SPAN + 1);
    StageLooks(Run(l2), POOL + k, ips, first, Calling(b), c, EARLIER + 1);
  }

  /** Device a's caller stores only now: 32513 counter steps after it looked. */
  lemma FirstStores(a: string, b: string) returns (l: Log, ips: map<string, Ip>, c: Caller)
    requires a != b && a != "" && b != ""
    ensures Brisk(l, SAFE_SPAN + 1) && LastLeft(ips) && b !in ips
    ensures var at := POOL - 1 + SAFE_SPAN;
            Stage(Run(l), at, ips[a := Address(POOL)], Served(a, POOL, Address(POOL)), Snapped(b, ips.Values, at, 0), c)
  {
    var l0, ips0, third := SecondLooks(a, b);
    ips, c := ips0, third;
    hide Address, Span, LastLeft;
    l := Then(l0, Keep(EARLIER));
    assert Run(l) == Step(Run(l0), Keep(EARLIER));
    hide Run, Step;
    StageKeeps(Run(l0), POOL - 1 + SAFE_SPAN, ips, Picked(a, POOL - 1, POOL),
               Snapped(b, ips.Values, POOL - 1 + SAFE_SPAN, 0), c, EARLIER);
  }

  /** Device b's caller goes through the other stored addresses and finds the same one free, one
      pool later, because it looked before a's was stored. */
  lemma SecondPicks(a: string, b: string) returns (l: Log, ips: map<string, Ip>, c: Caller)
    requires a != b && a != "" && b != ""
    ensures Brisk(l, SAFE_SPAN + 1) && b !in ips && Address(2 * POOL) == Address(POOL)
    ensures Stage(Run(l), 2 * POOL, ips[a := Address(POOL)], Served(a, POOL, Address(POOL)),
                  Picked(b, POOL - 1 + SAFE_SPAN, 2 * POOL), c)
  {
    hide Run, Brisk, Step, Address, Taken, TakenRange, Tries, Tried, Span, LastLeft;
    var l0, ips0, third := FirstStores(a, b);
    ips, c := ips0, third;
    var now, at, k := ips[a := Address(POOL)], POOL - 1 + SAFE_SPAN, SAFE_SPAN - 2;
    var first, look := Served(a, POOL, Address(POOL)), Snapped(b, ips.Values, at, 0);
    OthersTaken(ips, at, k);
    InVain(l0, EARLIER + 1, k);
    TriesBrisk(l0, EARLIER + 1, k, SAFE_SPAN + 1);
    StageTries(Run(l0), at, now, first, look, c, EARLIER + 1, k);
    var l1 := Tries(l0, EARLIER + 1, k);
    l := Then(l1, Try(EARLIER + 1));
    Quiet(l1, Try(EARLIER + 1), SAFE_SPAN + 1);
    LastIsFree(ips);
    StagePicks(Run(l1), at + k, now, first, look.(tries := k), c, EARLIER + 1);
  }

  /** So one step more and the property fails. Starting from an empty server, for any two
      devices: two calls, each with at most 32513 counter steps between its look and its store,
      store the last free address for both. */
  lemma OvertakenCallsShare(a: string, b: string) returns (l: Log)
    requires a != b && a != "" && b != ""
    ensures Brisk(l, SAFE_SPAN + 1) && Run(l).busy == {}
    ensures var ips := Run(l).ips; a in ips && b in ips && ips[a] == ips[b] == Address(POOL)
    ensures !Unshared(Run(l).ips)
  {
    var l0, ips, c := SecondPicks(a, b);
    hide Address;
    l := Then(l0, Keep(EARLIER + 1));
    assert Run(l) == Step(Run(l0), Keep(EARLIER + 1));
    hide Run, Step;
    StageKeeps(Run(l0), 2 * POOL, ips[a := Address(POOL)], Served(a, POOL, Address(POOL)),
               Picked(b, POOL - 1 + SAFE_SPAN, 2 * POOL), c, EARLIER + 1);
  }
}
