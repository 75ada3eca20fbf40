// The stall clock of the reorder buffer: how long the present hole has been waited for, read
// off the log of calls.
module ReorderStall {
  import opened Basics
  import opened Reorder

  /** The call keeps its packet. */
  ghost predicate Kept(r: State, a: Arrival) {
    var s := Seeded(r, a);
    !TooLate(a.number, s.next) && a.number !in s.buf
  }

  /** The clock reading at which the present hole was first met, None without one. A kept packet
      that emits nothing while others wait leaves the hole as it is; any other kept packet meets
      a new one, by its first reading, or by its second one if it gave up the old hole. */
  ghost function HoleSince(h: History): Option<int> {
    match h
    case Start => None
    case Then(h', a) =>
      var r, r' := Run(h').state, Run(h).state;
      if !Kept(r, a) then HoleSince(h')
      else if r'.buf == map[] then None
      else if r.buf != map[] && PushSpec(r, a).out == [] then HoleSince(h')
      else if r.buf != map[] && a.number != r.next then Some(a.later)
      else Some(a.now)
  }

  /** What a call's clock does when it starts without a hole. */
  lemma {:induction false} DrainFresh(next: int, buf: map<int, Packet>, now: int, later: int)
    ensures var d := Drain(next, buf, None, now, later);
            && d.next !in d.buf && d.waitSince == (if d.buf == map[] then None else Some(now))
            && (next in buf ==> d.out != [])
    decreases |buf|
  {
    if next in buf {
      RemoveShrinks(buf, next);
      DrainFresh((next + 1) % TWO_32, buf - {next}, now, later);
    }
  }

  lemma DrainClock(next: int, buf: map<int, Packet>, w: Option<int>, now: int, later: int)
    requires buf != map[]
    ensures var d := Drain(next, buf, w, now, later);
            && d.next !in d.buf
            && (next in buf || w.None? ==> d.waitSince == if d.buf == map[] then None else Some(now))
            && (next in buf ==> d.out != [])
            && (next !in buf && w.Some? ==>
                  if now - w.value < 40 * MILLISECOND then d == Drained(next, buf, w, [])
                  else d.out != [] && d.waitSince == if d.buf == map[] then None else Some(later))
  {
    if next in buf {
      RemoveShrinks(buf, next);
      DrainFresh((next + 1) % TWO_32, buf - {next}, now, later);
      DrainHit(next, buf, w, now, later);
    } else if w.None? {
      DrainFresh(next, buf, now, later);
    } else {
      DrainFresh(Min(buf.Keys), buf, later, later);
    }
  }

  /** Between calls there is no packet to emit, and the clock runs exactly while some wait. */
  ghost predicate Resting(r: State) {
    r.next !in r.buf && (r.waitSince.Some? <==> r.buf != map[]) && (!r.inited ==> r.buf == map[])
  }

  /** One kept packet. */
  lemma KeptClock(r: State, a: Arrival)
    requires Resting(r) && Kept(r, a)
    ensures var o := PushSpec(r, a);
            && Resting(o.state)
            && (|r.buf| >= REORDER_MAX ==> o.state.buf == map[])
            && (|r.buf| < REORDER_MAX && r.buf != map[] && a.number != r.next ==>
                  (if a.now - r.waitSince.value < 40 * MILLISECOND
                   then o.out == [] && o.state.waitSince == r.waitSince
                   else o.out != [] && o.state.waitSince == if o.state.buf == map[] then None else Some(a.later)))
            && (r.buf == map[] || a.number == r.next ==>
                  o.state.waitSince == (if o.state.buf == map[] then None else Some(a.now)))
            && (r.buf != map[] && a.number == r.next ==> o.out != [])
  {
    var s := Seeded(r, a);
    var full := |s.buf| >= REORDER_MAX;
    var next := if full then a.number else s.next;
    var base: map<int, Packet> := if full then map[] else s.buf;
    var grown := base[a.number := a.ip];
    assert a.number in grown;
    DrainClock(next, grown, if full then None else s.waitSince, a.now, a.later);
    FullEmpties(a);
    hide Drain;
  }

  lemma FullEmpties(a: Arrival)
    ensures var none: map<int, Packet> := map[];
            Drain(a.number, none[a.number := a.ip], None, a.now, a.later).buf == map[]
  {
    var none: map<int, Packet> := map[];
    var one := none[a.number := a.ip];
    assert one - {a.number} == none;
    assert Drain((a.number + 1) % TWO_32, none, None, a.now, a.later).buf == none;
    DrainHit(a.number, one, None, a.now, a.later);
  }

  lemma {:induction false} ClockIsLog(h: History)
    ensures Resting(Run(h).state) && Run(h).state.waitSince == HoleSince(h)
  {
    hide Accept, Drain;
    if h.Then? {
      ClockIsLog(h.before);
      var r := Run(h.before).state;
      RunThen(h.before, h.last);
      if Kept(r, h.last) {
        KeptClock(r, h.last);
        hide PushSpec, Kept;
      }
    }
  }

  /** A packet that is kept, finds room and does not fill the hole it meets emits nothing exactly
      while that hole has been waited for less than 40 ms. */
  lemma StallExact(h: History, a: Arrival)
    requires var r := Run(h).state; Kept(r, a) && r.buf != map[] && |r.buf| < REORDER_MAX && a.number != r.next
    ensures HoleSince(h).Some?
    ensures PushSpec(Run(h).state, a).out == [] <==> a.now - HoleSince(h).value < 40 * MILLISECOND
  {
    ClockIsLog(h);
    KeptClock(Run(h).state, a);
    hide Run, HoleSince, PushSpec, Kept;
  }
}
