// The reorder buffer: numbered packets go in as they arrive and come out in
// sequence order, skipping a hole only after it has stalled the buffer.
module Reorder {
  import opened Basics

  const REORDER_MAX := 2048
  const STALL_TTL := 40 * MILLISECOND

  datatype Numbered = Numbered(number: int, ip: Packet)

  datatype State = State(next: int, inited: bool, buf: map<int, Packet>, waitSince: Option<int>)

  const FRESH := State(0, false, map[], None)

  // A call reads the clock when it meets a hole, and once more if it then skips: `now` and `later`.
  datatype Arrival = Arrival(number: int, ip: Packet, now: int, later: int)

  // The calls made on a fresh buffer, oldest first.
  datatype History = Start | Then(before: History, last: Arrival)

  datatype Drained = Drained(next: int, buf: map<int, Packet>, waitSince: Option<int>, out: seq<Numbered>)

  datatype Outcome = Outcome(state: State, out: seq<Numbered>, accepted: seq<Numbered>, discarded: map<int, Packet>)

  datatype Log = Log(state: State, accepted: multiset<Numbered>, emitted: seq<Numbered>, discarded: multiset<Numbered>)

  ghost predicate IsMin(m: int, keys: set<int>) {
    m in keys && forall k | k in keys :: m <= k
  }

  lemma MinExists(keys: set<int>)
    requires keys != {}
    ensures exists m :: IsMin(m, keys)
  {
    var k := Element(keys);
    if keys == {k} {
      assert IsMin(k, keys);
    } else {
      MinExists(keys - {k});
      var m :| IsMin(m, keys - {k});
      var least := if k < m then k else m;
      assert IsMin(least, keys) by {
        forall j | j in keys ensures least <= j {
          assert j == k || j in keys - {k};
        }
      }
    }
  }

  ghost function Min(keys: set<int>): (m: int)
    requires keys != {}
    ensures IsMin(m, keys)
  {
    MinExists(keys);
    var m: int :| IsMin(m, keys);
    m
  }

  lemma RemoveShrinks<V>(m: map<int, V>, k: int)
    requires k in m
    ensures |m - {k}| == |m| - 1
  {
    assert (m - {k}).Keys == m.Keys - {k};
    assert |m - {k}| == |(m - {k}).Keys| && |m| == |m.Keys|;
  }

  // ---------- What one call does ----------

  /** Emit from `next` on while packets are there; at a hole, wait, or skip to the
      smallest buffered number once the wait has lasted STALL_TTL. */
  ghost function Drain(next: int, buf: map<int, Packet>, waitSince: Option<int>, now: int, later: int): Drained
    decreases |buf|, next !in buf
  {
    if next in buf then
      RemoveShrinks(buf, next);
      var rest := Drain((next + 1) % TWO_32, buf - {next}, None, now, later);
      rest.(out := [Numbered(next, buf[next])] + rest.out)
    else if buf == map[] then Drained(next, buf, None, [])
    else if waitSince.None? then Drained(next, buf, Some(now), [])
    else if now - waitSince.value < STALL_TTL then Drained(next, buf, waitSince, [])
    else Drain(Min(buf.Keys), buf, None, later, later)
  }

  predicate TooLate(number: int, next: int) {
    number < next && next - number < TWO_31
  }

  ghost function Accept(r: State, a: Arrival): Outcome {
    var full := |r.buf| >= REORDER_MAX;
    var d := Drain(if full then a.number else r.next,
                   (if full then map[] else r.buf)[a.number := a.ip],
                   if full then None else r.waitSince, a.now, a.later);
    Outcome(State(d.next, true, d.buf, d.waitSince), d.out, [Numbered(a.number, a.ip)],
            if full then r.buf else map[])
  }

  ghost function Seeded(r: State, a: Arrival): State {
    if r.inited then r else r.(next := a.number, inited := true)
  }

  ghost function PushSpec(r: State, a: Arrival): Outcome {
    var s := Seeded(r, a);
    if TooLate(a.number, s.next) || a.number in s.buf then Outcome(s, [], [], map[])
    else Accept(s, a)
  }

  ghost function Run(h: History): Log {
    match h
    case Start => Log(FRESH, multiset{}, [], multiset{})
    case Then(h', a) =>
      var l := Run(h');
      var o := PushSpec(l.state, a);
      Log(o.state, l.accepted + multiset(o.accepted), l.emitted + o.out, l.discarded + Items(o.discarded))
  }

  ghost function Items(m: map<int, Packet>): multiset<Numbered> {
    multiset(set k | k in m :: Numbered(k, m[k]))
  }

  function Payloads(out: seq<Numbered>): seq<Packet> {
    if out == [] then [] else [out[0].ip] + Payloads(out[1..])
  }

  lemma {:induction false} PayloadsConcat(a: seq<Numbered>, b: seq<Numbered>)
    ensures Payloads(a + b) == Payloads(a) + Payloads(b)
  {
    if a == [] {
      assert a + b == b;
    } else {
      PayloadsConcat(a[1..], b);
      assert (a + b)[1..] == a[1..] + b;
    }
  }

  lemma Reassociate<T>(a: seq<T>, x: T, b: seq<T>)
    ensures a + ([x] + b) == (a + [x]) + b
  {
  }

  // ---------- The buffer object ----------

  class RawReorder {
    var next: int
    var inited: bool
    var buf: map<int, Packet>
    var waitSince: Option<int>

    ghost function Abs(): State
      reads this
    {
      State(next, inited, buf, waitSince)
    }

    constructor ()
      ensures Abs() == FRESH
    {
      next, inited, buf, waitSince := 0, false, map[], None;
    }

    method Push(number: Uint32, ip: Packet, now: int, later: int) returns (out: seq<Packet>)
      modifies this
      ensures var o := PushSpec(old(Abs()), Arrival(number, ip, now, later));
              Abs() == o.state && out == Payloads(o.out)
    {
      if !inited {
        next, inited := number, true;
      }
      if number < next && next - number < TWO_31 {
        return [];
      }
      if number in buf {
        return [];
      }
      if |buf| >= REORDER_MAX {
        next, buf, waitSince := number, map[], None;
      }
      buf := buf[number := ip];
      out := DrainReady(now, later);
    }

    /** The emitting loop of Push. */
    method DrainReady(now: int, later: int) returns (out: seq<Packet>)
      modifies this
      ensures var d := Drain(old(next), old(buf), old(waitSince), now, later);
              Abs() == State(d.next, old(inited), d.buf, d.waitSince) && out == Payloads(d.out)
    {
      out := [];
      var reading := now;
      ghost var target := Drain(next, buf, waitSince, now, later);
      ghost var rest := target;
      while true
        invariant rest == Drain(next, buf, waitSince, reading, later)
        invariant target.(out := []) == rest.(out := [])
        invariant Payloads(target.out) == out + Payloads(rest.out)
        invariant inited == old(inited)
        decreases |buf|, next !in buf
      {
        if next in buf {
          RemoveShrinks(buf, next);
          ghost var n := Numbered(next, buf[next]);
          ghost var before := out;
          out := out + [buf[next]];
          buf, next, waitSince := buf - {next}, (next + 1) % TWO_32, None;
          ghost var tail := Drain(next, buf, waitSince, reading, later);
          assert rest == tail.(out := [n] + tail.out);
          assert rest.out[1..] == tail.out;
          Reassociate(before, n.ip, Payloads(tail.out));
          rest := tail;
          continue;
        }
        if buf == map[] {
          waitSince := None;
          break;
        }
        if waitSince.None? {
          waitSince := Some(reading);
          break;
        }
        if reading - waitSince.value < STALL_TTL {
          break;
        }
        var minSeq := SmallestKey();
        next, waitSince, reading := minSeq, None, later;
      }
    }

    method SmallestKey() returns (m: int)
      requires buf.Keys != {}
      ensures m == Min(buf.Keys)
    {
      var todo := buf.Keys;
      var first := true;
      m := 0;
      while todo != {}
        invariant todo <= buf.Keys
        invariant first ==> todo == buf.Keys
        invariant !first ==> m in buf.Keys && forall k | k in buf.Keys && k !in todo :: m <= k
      {
        var k := AnyOf(todo);
        if first || k < m {
          m, first := k, false;
        }
        todo := todo - {k};
      }
      assert IsMin(m, buf.Keys);
    }
  }

  class RawOutSeq {
    var v: Uint32

    constructor ()
      ensures v == 0
    {
      v := 0;
    }

    method Next() returns (number: Uint32)
      modifies this
      ensures number == old(v) && v == (old(v) + 1) % TWO_32
    {
      v := (v + 1) % TWO_32;
      number := if v == 0 then TWO_32 - 1 else v - 1;
    }
  }

  // ---------- Any run: strict order and conservation ----------

  // A run stays unwrapped when its numbers lie in a window of SPAN numbers below 2^32.
  const SPAN := TWO_31

  /** The numbers strictly increase and lie in lo..hi. */
  ghost predicate Chain(lo: int, out: seq<Numbered>, hi: int)
    decreases |out|
  {
    if out == [] then lo <= hi else lo <= out[0].number && Chain(out[0].number + 1, out[1..], hi)
  }

  lemma {:induction false} ChainConcat(lo: int, a: seq<Numbered>, mid: int, b: seq<Numbered>, hi: int)
    requires Chain(lo, a, mid) && Chain(mid, b, hi)
    ensures Chain(lo, a + b, hi)
    decreases |a|
  {
    if a == [] {
      assert a + b == b;
      ChainWiden(lo, mid, b, hi);
    } else {
      assert (a + b)[1..] == a[1..] + b;
      ChainConcat(a[0].number + 1, a[1..], mid, b, hi);
    }
  }

  lemma {:induction false} ChainWiden(lo: int, mid: int, b: seq<Numbered>, hi: int)
    requires lo <= mid && Chain(mid, b, hi)
    ensures Chain(lo, b, hi)
  {
  }

  lemma {:induction false} ChainBounds(lo: int, out: seq<Numbered>, hi: int)
    requires Chain(lo, out, hi)
    ensures lo <= hi
    decreases |out|
  {
    if out != [] {
      ChainBounds(out[0].number + 1, out[1..], hi);
    }
  }

  lemma {:induction false} ChainAt(lo: int, out: seq<Numbered>, hi: int, j: nat)
    requires Chain(lo, out, hi) && j < |out|
    ensures lo <= out[j].number < hi
    decreases j
  {
    if j > 0 {
      ChainAt(out[0].number + 1, out[1..], hi, j - 1);
    } else {
      ChainBounds(out[0].number + 1, out[1..], hi);
    }
  }

  lemma {:induction false} ChainIncreases(lo: int, out: seq<Numbered>, hi: int, i: nat, j: nat)
    requires Chain(lo, out, hi) && i < j < |out|
    ensures out[i].number < out[j].number
    decreases j
  {
    if i == 0 {
      ChainAt(out[0].number + 1, out[1..], hi, j - 1);
    } else {
      ChainIncreases(out[0].number + 1, out[1..], hi, i - 1, j - 1);
    }
  }

  ghost predicate Within(buf: map<int, Packet>, lo: int, hi: int) {
    forall k | k in buf :: lo <= k < hi
  }

  ghost predicate Unwrapped(h: History, lo: int) {
    h.Then? ==> Unwrapped(h.before, lo) && lo <= h.last.number < lo + SPAN
  }

  /** Once the whole window is out its first number no longer looks late and is buffered again. */
  ghost predicate Exhausted(r: State, lo: int) {
    r.next == lo + SPAN && lo in r.buf
  }

  /** Between calls all waiting packets are past `next` and in the window, and the
      stall clock runs exactly while something waits. */
  ghost predicate Valid(r: State, lo: int) {
    && (!r.inited ==> r.buf == map[])
    && (r.inited ==> lo <= r.next <= lo + SPAN)
    && (r.inited ==> Exhausted(r, lo) || Within(r.buf, r.next + 1, lo + SPAN))
    && (r.waitSince.Some? <==> r.buf != map[])
  }

  lemma {:induction false} DrainInOrder(next: int, buf: map<int, Packet>, w: Option<int>, now: int, later: int, hi: int)
    requires 0 <= next <= hi < TWO_32 && Within(buf, next, hi)
    ensures var d := Drain(next, buf, w, now, later);
            && Chain(next, d.out, d.next)
            && next <= d.next <= hi && Within(d.buf, d.next + 1, hi)
            && (d.waitSince.Some? <==> d.buf != map[])
    decreases |buf|, next !in buf
  {
    if next in buf {
      RemoveShrinks(buf, next);
      assert (next + 1) % TWO_32 == next + 1;
      DrainInOrder(next + 1, buf - {next}, None, now, later, hi);
      assert Drain(next, buf, w, now, later).out[1..] == Drain(next + 1, buf - {next}, None, now, later).out;
    } else if buf == map[] || w.None? || now - w.value < STALL_TTL {
      assert Within(buf, next + 1, hi);
    } else {
      DrainInOrder(Min(buf.Keys), buf, None, later, later, hi);
      var d := Drain(next, buf, w, now, later);
      ChainWiden(next, Min(buf.Keys), d.out, d.next);
    }
  }

  lemma AcceptInOrder(s: State, a: Arrival, lo: int)
    requires Valid(s, lo) && s.inited && 0 <= lo <= a.number < lo + SPAN < TWO_32
    requires !TooLate(a.number, s.next) && a.number !in s.buf && s.next < lo + SPAN
    ensures var o := Accept(s, a); Valid(o.state, lo) && Chain(s.next, o.out, o.state.next)
  {
    var full := |s.buf| >= REORDER_MAX;
    var start := if full then a.number else s.next;
    var grown := (if full then map[] else s.buf)[a.number := a.ip];
    var w := if full then None else s.waitSince;
    DrainInOrder(start, grown, w, a.now, a.later, lo + SPAN);
    var d := Drain(start, grown, w, a.now, a.later);
    ChainWiden(s.next, start, d.out, d.next);
  }

  lemma AcceptAtEnd(s: State, a: Arrival, lo: int)
    requires Valid(s, lo) && s.inited && 0 <= lo <= a.number < lo + SPAN < TWO_32
    requires !TooLate(a.number, s.next) && a.number !in s.buf && s.next == lo + SPAN
    ensures var o := Accept(s, a); Valid(o.state, lo) && Chain(s.next, o.out, o.state.next)
  {
    assert a.number == lo;
    if s.buf != map[] {
      var k := Element(s.buf.Keys);
      assert false;
    }
    var none: map<int, Packet> := map[];
    var one := none[lo := a.ip];
    assert |none| == 0 && lo in one && s.next !in one;
    assert Accept(s, a).state == State(s.next, true, one, Some(a.now));
  }

  lemma PushInOrder(r: State, a: Arrival, lo: int)
    requires Valid(r, lo) && 0 <= lo <= a.number < lo + SPAN < TWO_32
    ensures var o := PushSpec(r, a);
            && Valid(o.state, lo) && o.state.inited
            && Chain(if r.inited then r.next else lo, o.out, o.state.next)
  {
    var s := Seeded(r, a);
    var o := PushSpec(r, a);
    if TooLate(a.number, s.next) || a.number in s.buf {
    } else if s.next == lo + SPAN {
      AcceptAtEnd(s, a, lo);
    } else {
      AcceptInOrder(s, a, lo);
      ChainWiden(if r.inited then r.next else lo, s.next, o.out, o.state.next);
    }
  }

  lemma ItemsRemove(m: map<int, Packet>, k: int)
    requires k in m
    ensures Items(m) == Items(m - {k}) + multiset{Numbered(k, m[k])}
  {
    var rest := m - {k};
    var a := set j | j in m :: Numbered(j, m[j]);
    var b := set j | j in rest :: Numbered(j, rest[j]);
    var n := Numbered(k, m[k]);
    forall x ensures x in a <==> x in b || x == n {
      if x in a && x != n {
        assert x.number in rest;
      }
    }
    assert a == b + {n} && n !in b;
  }

  lemma ItemsAdd(m: map<int, Packet>, k: int, p: Packet)
    requires k !in m
    ensures Items(m[k := p]) == Items(m) + multiset{Numbered(k, p)}
  {
    ItemsRemove(m[k := p], k);
    assert m[k := p] - {k} == m;
  }

  lemma ItemsEmpty()
    ensures Items(map[]) == multiset{}
  {
  }

  lemma {:induction false} DrainConserves(next: int, buf: map<int, Packet>, w: Option<int>, now: int, later: int)
    ensures var d := Drain(next, buf, w, now, later); multiset(d.out) + Items(d.buf) == Items(buf)
    decreases |buf|, next !in buf
  {
    var d := Drain(next, buf, w, now, later);
    if next in buf {
      RemoveShrinks(buf, next);
      ItemsRemove(buf, next);
      DrainConserves((next + 1) % TWO_32, buf - {next}, None, now, later);
      assert d.out == [Numbered(next, buf[next])] + Drain((next + 1) % TWO_32, buf - {next}, None, now, later).out;
    } else if buf != map[] && w.Some? && now - w.value >= STALL_TTL {
      DrainConserves(Min(buf.Keys), buf, None, later, later);
    } else {
      assert d.out == [] && d.buf == buf;
    }
  }

  lemma PushConserves(r: State, a: Arrival)
    requires !r.inited ==> r.buf == map[]
    ensures var o := PushSpec(r, a);
            multiset(o.accepted) + Items(r.buf) == multiset(o.out) + Items(o.state.buf) + Items(o.discarded)
  {
    var s := Seeded(r, a);
    ItemsEmpty();
    if TooLate(a.number, s.next) || a.number in s.buf {
    } else {
      var full := |s.buf| >= REORDER_MAX;
      var base: map<int, Packet> := if full then map[] else s.buf;
      ItemsAdd(base, a.number, a.ip);
      DrainConserves(if full then a.number else s.next, base[a.number := a.ip],
                     if full then None else s.waitSince, a.now, a.later);
    }
  }

  lemma {:induction false} RunChain(h: History, lo: int)
    requires 0 <= lo < lo + SPAN < TWO_32 && Unwrapped(h, lo)
    ensures var l := Run(h);
            && Valid(l.state, lo)
            && (if l.state.inited then Chain(lo, l.emitted, l.state.next) else l.emitted == [])
  {
    if h.Then? {
      RunChain(h.before, lo);
      var l := Run(h.before);
      var o := PushSpec(l.state, h.last);
      PushInOrder(l.state, h.last, lo);
      if l.state.inited {
        ChainConcat(lo, l.emitted, l.state.next, o.out, o.state.next);
      } else {
        assert l.emitted + o.out == o.out;
      }
    }
  }

  lemma {:induction false} RunInited(h: History)
    ensures var r := Run(h).state; !r.inited ==> r.buf == map[]
  {
    if h.Then? {
      RunInited(h.before);
    }
  }

  lemma Regroup<T>(a: multiset<T>, e: multiset<T>, b: multiset<T>, d: multiset<T>,
                   a': multiset<T>, e': multiset<T>, b': multiset<T>, d': multiset<T>)
    requires a == e + b + d && a' + b == e' + b' + d'
    ensures a + a' == (e + e') + b' + (d + d')
  {
    forall x ensures (a + a')[x] == ((e + e') + b' + (d + d'))[x] {
      assert a[x] == e[x] + b[x] + d[x] && (a' + b)[x] == (e' + b' + d')[x];
    }
  }

  /** Every accepted packet is accounted for once: emitted, still buffered, or thrown away
      by an overflow clear. This holds with wrap-around too; a stall skip drops nothing. */
  lemma {:induction false} RunConserves(h: History)
    ensures var l := Run(h); l.accepted == multiset(l.emitted) + Items(l.state.buf) + l.discarded
  {
    ItemsEmpty();
    if h.Then? {
      RunConserves(h.before);
      RunInited(h.before);
      var l := Run(h.before);
      var o := PushSpec(l.state, h.last);
      PushConserves(l.state, h.last);
      Regroup(l.accepted, multiset(l.emitted), Items(l.state.buf), l.discarded,
              multiset(o.accepted), multiset(o.out), Items(o.state.buf), Items(o.discarded));
    }
  }

  /** Over any run with any timing whose numbers lie in a window of 2^31, the emitted
      numbers strictly increase across the whole run. */
  lemma RunInOrder(h: History, lo: int)
    requires 0 <= lo < lo + SPAN < TWO_32 && Unwrapped(h, lo)
    ensures var l := Run(h);
            forall i, j | 0 <= i < j < |l.emitted| :: l.emitted[i].number < l.emitted[j].number
  {
    RunChain(h, lo);
    var l := Run(h);
    forall i, j | 0 <= i < j < |l.emitted| ensures l.emitted[i].number < l.emitted[j].number {
      ChainIncreases(lo, l.emitted, l.state.next, i, j);
    }
  }

  lemma PushHit(r: State, a: Arrival)
    requires r.inited && a.number == r.next && 0 <= r.next < TWO_32 && |r.buf| < REORDER_MAX
    requires r.next !in r.buf && (r.next + 1) % TWO_32 !in r.buf
    ensures var n := [Numbered(a.number, a.ip)];
            PushSpec(r, a) == Outcome(State((r.next + 1) % TWO_32, true, r.buf, if r.buf == map[] then None else Some(a.now)),
                                      n, n, map[])
  {
    var grown := r.buf[a.number := a.ip];
    assert grown - {a.number} == r.buf;
    var rest := Drain((r.next + 1) % TWO_32, r.buf, None, a.now, a.later);
    assert [Numbered(a.number, a.ip)] + rest.out == [Numbered(a.number, a.ip)];
  }

  /** One 2^31 window later, the next number. */
  function AfterWindow(lo: int): int {
    (lo + TWO_31 + 1) % TWO_32
  }

  lemma PushWaits(r: State, a: Arrival)
    requires r.inited && r.buf == map[] && r.waitSince == None && a.number != r.next && !TooLate(a.number, r.next)
    ensures PushSpec(r, a).state == State(r.next, true, map[a.number := a.ip], Some(a.now)) && PushSpec(r, a).out == []
  {
    var none: map<int, Packet> := map[];
    assert |none| == 0;
    assert none[a.number := a.ip] == map[a.number := a.ip];
  }

  lemma PushFirst(a: Arrival)
    requires 0 <= a.number < TWO_32
    ensures PushSpec(FRESH, a).state == State((a.number + 1) % TWO_32, true, map[], None)
    ensures PushSpec(FRESH, a).out == [Numbered(a.number, a.ip)]
  {
    var none: map<int, Packet> := map[];
    assert |none| == 0;
    PushHit(Seeded(FRESH, a), a);
    hide Accept;
  }

  lemma RunThen(h: History, a: Arrival)
    ensures Run(Then(h, a)).state == PushSpec(Run(h).state, a).state
    ensures Run(Then(h, a)).emitted == Run(h).emitted + PushSpec(Run(h).state, a).out
  {
    hide PushSpec;
  }

  /** After lo + 2^31 - 1 is out, lo does not look late any more and waits in the buffer. */
  lemma OldNumberBufferedAgain(lo: int)
    requires 0 <= lo < TWO_31
    ensures var h := Then(Then(Start, Arrival(lo + TWO_31 - 1, [], 0, 0)), Arrival(lo, [], 0, 0));
            && Run(h).state == State(lo + TWO_31, true, map[lo := []], Some(0))
            && Run(h).emitted == [Numbered(lo + TWO_31 - 1, [])]
  {
    var a0, a1 := Arrival(lo + TWO_31 - 1, [], 0, 0), Arrival(lo, [], 0, 0);
    var h1 := Then(Start, a0);
    assert Run(Start).state == FRESH && Run(Start).emitted == [];
    assert (lo + TWO_31) % TWO_32 == lo + TWO_31;
    hide Run, PushSpec;
    RunThen(Start, a0);
    PushFirst(a0);
    RunThen(h1, a1);
    PushWaits(Run(h1).state, a1);
  }

  lemma HitKeepsOld(h: History, lo: int)
    requires 0 <= lo < TWO_31
    requires Run(h).state == State(lo + TWO_31, true, map[lo := []], Some(0))
    ensures var l := Run(Then(h, Arrival(lo + TWO_31, [], 0, 0)));
            && l.state == State(AfterWindow(lo), true, map[lo := []], Some(0))
            && l.emitted == Run(h).emitted + [Numbered(lo + TWO_31, [])]
  {
    hide Run, PushSpec;
    var r := Run(h).state;
    assert r.buf.Keys == {lo} && |r.buf| == |r.buf.Keys|;
    RunThen(h, Arrival(lo + TWO_31, [], 0, 0));
    PushHit(r, Arrival(lo + TWO_31, [], 0, 0));
  }

  lemma StallEmitsOld(h: History, lo: int)
    requires 0 <= lo < TWO_31
    requires Run(h).state == State(AfterWindow(lo), true, map[lo := []], Some(0))
    ensures Run(Then(h, Arrival(lo + 1, [], STALL_TTL, 0))).emitted
            == Run(h).emitted + [Numbered(lo, []), Numbered(lo + 1, [])]
  {
    hide Run, PushSpec, AfterWindow;
    RunThen(h, Arrival(lo + 1, [], STALL_TTL, 0));
    StalledPair(Run(h).state, Arrival(lo + 1, [], STALL_TTL, 0), lo);
  }

  /** The window is exact, wherever it lies: with numbers that span one more, a stalled hole
      emits the oldest number, and its successor, after larger ones. */
  lemma OrderFailsOverWiderWindow(lo: int)
    requires 0 <= lo < lo + SPAN < TWO_32
    ensures var h := Then(Then(Start, Arrival(lo + SPAN - 1, [], 0, 0)), Arrival(lo, [], 0, 0));
            Run(Then(Then(h, Arrival(lo + SPAN, [], 0, 0)), Arrival(lo + 1, [], STALL_TTL, 0))).emitted
              == [Numbered(lo + SPAN - 1, []), Numbered(lo + SPAN, []), Numbered(lo, []), Numbered(lo + 1, [])]
  {
    hide Run, PushSpec, Drain, AfterWindow;
    var h := Then(Then(Start, Arrival(lo + TWO_31 - 1, [], 0, 0)), Arrival(lo, [], 0, 0));
    OldNumberBufferedAgain(lo);
    HitKeepsOld(h, lo);
    StallEmitsOld(Then(h, Arrival(lo + TWO_31, [], 0, 0)), lo);
  }

  lemma StalledPair(r: State, a: Arrival, lo: int)
    requires 0 <= lo < TWO_31
    requires r == State(AfterWindow(lo), true, map[lo := []], Some(0)) && a == Arrival(lo + 1, [], STALL_TTL, 0)
    ensures PushSpec(r, a).out == [Numbered(lo, []), Numbered(lo + 1, [])]
  {
    var both := r.buf[lo + 1 := []];
    assert r.buf.Keys == {lo} && |r.buf| == |r.buf.Keys|;
    DrainPair(both, lo, r.next);
    hide Drain;
  }

  lemma DrainPair(both: map<int, Packet>, lo: int, next: int)
    requires both == map[lo := [], lo + 1 := []] && 0 <= lo < TWO_31 && next !in both
    ensures Drain(next, both, Some(0), STALL_TTL, 0).out == [Numbered(lo, []), Numbered(lo + 1, [])]
  {
    var none: map<int, Packet> := map[];
    var one := none[lo + 1 := []];
    assert both.Keys == {lo, lo + 1} && IsMin(lo, both.Keys);
    assert both - {lo} == one && one - {lo + 1} == none;
    assert (lo + 1) % TWO_32 == lo + 1 && (lo + 2) % TWO_32 == lo + 2;
    var d2 := Drain(lo + 2, none, None, 0, 0);
    var d1 := Drain(lo + 1, one, None, 0, 0);
    assert d1.out == [Numbered(lo + 1, [])] + d2.out;
    assert Drain(lo, both, None, 0, 0).out == [Numbered(lo, [])] + d1.out;
    assert Drain(next, both, Some(0), STALL_TTL, 0) == Drain(lo, both, None, 0, 0);
  }

  // ---------- Order restoration ----------

  // Which packet each call delivers: the index, and the clock readings of the call.
  datatype Delivery = Nothing | Deliver(before: Delivery, index: nat, now: int, later: int)

  /** Packet i carries number start + i, as successive results of RawOutSeq.Next do. */
  ghost function Arrivals(start: Uint32, packets: seq<Packet>, d: Delivery): History
    requires Indexed(d, |packets|)
  {
    match d
    case Nothing => Start
    case Deliver(d', i, now, later) =>
      Then(Arrivals(start, packets, d'), Arrival(start + i, packets[i], now, later))
  }

  ghost predicate Indexed(d: Delivery, n: nat) {
    d.Deliver? ==> Indexed(d.before, n) && d.index < n
  }

  ghost predicate BeginsWithFirst(d: Delivery) {
    d.Deliver? && (if d.before.Nothing? then d.index == 0 else BeginsWithFirst(d.before))
  }

  ghost function Delivered(d: Delivery): set<nat> {
    match d
    case Nothing => {}
    case Deliver(d', i, _, _) => Delivered(d') + {i}
  }

  /** There is room, and if the hole in front stays open it has not been waited for STALL_TTL
      yet. */
  ghost predicate Roomy(r: State, a: Arrival) {
    && |r.buf| < REORDER_MAX
    && (r.waitSince.Some? && a.number != r.next ==> a.now - r.waitSince.value < STALL_TTL)
  }

  /** Neither escape hatch opens at this arrival. None can open for a packet that is late or
      already there, and the stall clock does not matter to one that fills the hole. */
  ghost predicate Calm(r: State, a: Arrival) {
    var s := Seeded(r, a);
    TooLate(a.number, s.next) || a.number in s.buf || Roomy(s, a)
  }

  ghost predicate CalmRun(h: History) {
    h.Then? ==> CalmRun(h.before) && Calm(Run(h.before).state, h.last)
  }

  ghost predicate Holds(buf: map<int, Packet>, start: int, packets: seq<Packet>, m: nat) {
    forall k | k in buf :: start + m <= k < start + |packets| && buf[k] == packets[k - start]
  }

  /** Exactly packets ..m are out; the buffer holds what else arrived. */
  ghost predicate Tracks(l: Log, start: Uint32, packets: seq<Packet>, m: nat, got: set<nat>) {
    && m <= |packets| && l.state.inited && l.state.next == start + m
    && Payloads(l.emitted) == packets[..m]
    && Holds(l.state.buf, start, packets, m)
    && (start + m) !in l.state.buf
    && AllKept(got, l.state, start)
  }

  ghost predicate AllKept(got: set<nat>, r: State, start: Uint32) {
    forall i | i in got :: start + i < r.next || start + i in r.buf
  }

  lemma SliceJoin<T>(s: seq<T>, i: nat, j: nat, k: nat)
    requires i <= j <= k <= |s|
    ensures s[i..j] + s[j..k] == s[i..k]
  {
  }

  /** What is left once packet m is out. */
  lemma HoldsRest(buf: map<int, Packet>, start: int, packets: seq<Packet>, m: nat)
    requires Holds(buf, start, packets, m) && start + m in buf
    ensures m < |packets| && buf[start + m] == packets[m] && Holds(buf - {start + m}, start, packets, m + 1)
  {
  }

  lemma EmptyPrefix(packets: seq<Packet>, m: nat)
    requires m <= |packets|
    ensures Payloads([]) == packets[m..m]
  {
  }

  lemma PayloadsCons(packets: seq<Packet>, m: nat, k: int, n: Numbered, out: seq<Numbered>)
    requires m < k <= |packets| && n.ip == packets[m] && Payloads(out) == packets[m + 1..k]
    ensures Payloads([n] + out) == packets[m..k]
  {
    assert ([n] + out)[1..] == out;
    assert [packets[m]] + packets[m + 1..k] == packets[m..k];
  }

  lemma DrainHit(next: int, buf: map<int, Packet>, w: Option<int>, now: int, later: int)
    requires next in buf
    ensures var rest := Drain((next + 1) % TWO_32, buf - {next}, None, now, later);
            Drain(next, buf, w, now, later) == rest.(out := [Numbered(next, buf[next])] + rest.out)
  {
  }

  lemma {:induction false} DrainTracks(start: Uint32, packets: seq<Packet>, m: nat, buf: map<int, Packet>,
                                       w: Option<int>, now: int, later: int)
    requires start + |packets| < TWO_32 && m <= |packets| && Holds(buf, start, packets, m)
    requires w.Some? && start + m !in buf ==> now - w.value < STALL_TTL
    ensures var d := Drain(start + m, buf, w, now, later);
            && start + m <= d.next <= start + |packets|
            && Payloads(d.out) == packets[m..d.next - start]
            && Holds(d.buf, start, packets, d.next - start) && d.next !in d.buf
            && (forall k | k in buf :: k < d.next || k in d.buf)
    decreases |buf|
  {
    if start + m in buf {
      RemoveShrinks(buf, start + m);
      HoldsRest(buf, start, packets, m);
      assert (start + m + 1) % TWO_32 == start + m + 1;
      var buf' := buf - {start + m};
      DrainTracks(start, packets, m + 1, buf', None, now, later);
      DrainHit(start + m, buf, w, now, later);
      var rest := Drain(start + m + 1, buf', None, now, later);
      hide Drain, Holds, Payloads;
      PayloadsCons(packets, m, rest.next - start, Numbered(start + m, buf[start + m]), rest.out);
    } else {
      EmptyPrefix(packets, m);
    }
  }

  lemma HoldsGrow(buf: map<int, Packet>, start: int, packets: seq<Packet>, m: nat, i: nat)
    requires Holds(buf, start, packets, m) && m <= i < |packets|
    ensures Holds(buf[start + i := packets[i]], start, packets, m)
  {
  }

  lemma AcceptEmits(r: State, start: Uint32, packets: seq<Packet>, m: nat, a: Arrival, i: nat)
    requires start + |packets| < TWO_32
    requires r.inited && r.next == start + m && start + m !in r.buf && Holds(r.buf, start, packets, m) && Roomy(r, a)
    requires m <= i < |packets| && a.number == start + i && a.ip == packets[i]
    ensures var o := Accept(r, a);
            && start + m <= o.state.next <= start + |packets| && o.state.inited
            && Payloads(o.out) == packets[m..o.state.next - start]
            && Holds(o.state.buf, start, packets, o.state.next - start) && o.state.next !in o.state.buf
            && (forall k | k in r.buf :: k < o.state.next || k in o.state.buf)
            && (a.number < o.state.next || a.number in o.state.buf)
  {
    hide Drain, Payloads, Holds;
    var grown := r.buf[a.number := a.ip];
    HoldsGrow(r.buf, start, packets, m, i);
    DrainTracks(start, packets, m, grown, r.waitSince, a.now, a.later);
    assert a.number in grown;
  }

  lemma KeptGrows(got: set<nat>, r: State, r': State, start: Uint32, i: nat)
    requires AllKept(got, r, start) && r.next <= r'.next
    requires forall k | k in r.buf :: k < r'.next || k in r'.buf
    requires start + i < r'.next || start + i in r'.buf
    ensures AllKept(got + {i}, r', start)
  {
  }

  lemma AcceptTracks(l: Log, start: Uint32, packets: seq<Packet>, m: nat, got: set<nat>, a: Arrival, i: nat)
    returns (m': nat)
    requires start + |packets| < TWO_32
    requires Tracks(l, start, packets, m, got) && Roomy(l.state, a)
    requires m <= i < |packets| && a.number == start + i && a.ip == packets[i] && a.number !in l.state.buf
    ensures var o := Accept(l.state, a);
            Tracks(Log(o.state, l.accepted, l.emitted + o.out, l.discarded), start, packets, m', got + {i})
  {
    hide Accept, Payloads, Holds, AllKept;
    var o := Accept(l.state, a);
    AcceptEmits(l.state, start, packets, m, a, i);
    m' := o.state.next - start;
    KeptGrows(got, l.state, o.state, start, i);
    PayloadsConcat(l.emitted, o.out);
    SliceJoin(packets, 0, m, m');
  }

  lemma PushTracks(l: Log, start: Uint32, packets: seq<Packet>, m: nat, got: set<nat>, a: Arrival, i: nat)
    returns (m': nat)
    requires start + |packets| < TWO_32 && |packets| < TWO_31
    requires Tracks(l, start, packets, m, got) && Calm(l.state, a)
    requires i < |packets| && a.number == start + i && a.ip == packets[i]
    ensures var o := PushSpec(l.state, a);
            Tracks(Log(o.state, l.accepted, l.emitted + o.out, l.discarded), start, packets, m', got + {i})
  {
    if i < m || a.number in l.state.buf {
      assert l.emitted + [] == l.emitted;
      m' := m;
    } else {
      m' := AcceptTracks(l, start, packets, m, got, a, i);
    }
  }

  lemma {:induction false} CalmRunTracks(start: Uint32, packets: seq<Packet>, d: Delivery) returns (m: nat)
    requires start + |packets| < TWO_32 && |packets| < TWO_31
    requires Indexed(d, |packets|) && BeginsWithFirst(d) && CalmRun(Arrivals(start, packets, d))
    ensures Tracks(Run(Arrivals(start, packets, d)), start, packets, m, Delivered(d))
  {
    hide Drain, Accept;
    var a := Arrival(start + d.index, packets[d.index], d.now, d.later);
    if d.before.Nothing? {
      var seeded := Log(State(start, true, map[], None), multiset{}, [], multiset{});
      m := PushTracks(seeded, start, packets, 0, {}, a, 0);
    } else {
      var k := CalmRunTracks(start, packets, d.before);
      hide Payloads, Holds, AllKept, PushSpec;
      m := PushTracks(Run(Arrivals(start, packets, d.before)), start, packets, k, Delivered(d.before), a, d.index);
    }
  }

  /** The buffer restores order. Number the packets consecutively from any start and deliver
      them in any order that begins with the first one, with any repetitions. If no arrival
      finds the buffer full and none makes a stall skip fire, the concatenated results are
      exactly the sent packets, in the order they were sent. */
  lemma RestoresOrder(start: Uint32, packets: seq<Packet>, d: Delivery)
    requires start + |packets| < TWO_32 && |packets| < TWO_31
    requires Indexed(d, |packets|) && BeginsWithFirst(d) && CalmRun(Arrivals(start, packets, d))
    requires forall i: nat | i < |packets| :: i in Delivered(d)
    ensures Payloads(Run(Arrivals(start, packets, d)).emitted) == packets
  {
    hide Run, Payloads, CalmRun;
    var m := CalmRunTracks(start, packets, d);
    assert m < |packets| ==> m in Delivered(d);
    assert packets[..m] == packets;
  }
}
