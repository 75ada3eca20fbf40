// How downlink packets are shared out among the sessions of a group: multipath sends 16 to
// each session in turn, CHUNK1 a number that depends on the packet size, and flows that are
// not pinned spread by their key.
module GroupShares {
  import opened Basics
  import opened SessionGroup
  import opened GroupRun
  import FlowKey
  import Frame

  // ---------- Taking turns: c for each of n slots ----------

  datatype Spot = Spot(slot: nat, sent: nat)

  predicate Within(s: Spot, c: nat, n: nat) {
    s.slot < n && s.sent < c
  }

  function NextSlot(i: nat, n: nat): nat {
    if i + 1 == n then 0 else i + 1
  }

  function NextSpot(s: Spot, c: nat, n: nat): Spot {
    if s.sent + 1 == c then Spot(NextSlot(s.slot, n), 0) else s.(sent := s.sent + 1)
  }

  function SpotAfter(s: Spot, c: nat, n: nat, k: nat): Spot {
    if k == 0 then s else NextSpot(SpotAfter(s, c, n, k - 1), c, n)
  }

  /** How many of the next k go to slot m. */
  function Hits(s: Spot, c: nat, n: nat, m: nat, k: nat): nat {
    if k == 0 then 0 else Hits(s, c, n, m, k - 1) + if SpotAfter(s, c, n, k - 1).slot == m then 1 else 0
  }

  lemma {:induction false} StaysWithin(s: Spot, c: nat, n: nat, k: nat)
    requires Within(s, c, n)
    ensures Within(SpotAfter(s, c, n, k), c, n)
  {
    if k > 0 {
      StaysWithin(s, c, n, k - 1);
    }
  }

  lemma {:induction false} Compose(s: Spot, c: nat, n: nat, m: nat, j: nat, k: nat)
    ensures SpotAfter(s, c, n, j + k) == SpotAfter(SpotAfter(s, c, n, j), c, n, k)
    ensures Hits(s, c, n, m, j + k) == Hits(s, c, n, m, j) + Hits(SpotAfter(s, c, n, j), c, n, m, k)
  {
    if k > 0 {
      Compose(s, c, n, m, j, k - 1);
      assert j + k - 1 == j + (k - 1);
    }
  }

  /** Up to the end of a turn everything goes to its slot. */
  lemma {:induction false} SameTurn(s: Spot, c: nat, n: nat, m: nat, k: nat)
    requires Within(s, c, n) && s.sent + k <= c
    ensures SpotAfter(s, c, n, k) == if s.sent + k == c && k > 0 then Spot(NextSlot(s.slot, n), 0) else Spot(s.slot, s.sent + k)
    ensures Hits(s, c, n, m, k) == if s.slot == m then k else 0
  {
    if k > 0 {
      SameTurn(s, c, n, m, k - 1);
    }
  }

  function SlotAfter(i: nat, n: nat, t: nat): nat
    requires i < n && t <= n
  {
    if i + t < n then i + t else i + t - n
  }

  /** How many turns from slot i to slot m. */
  function Distance(i: nat, n: nat, m: nat): int {
    if m >= i then m - i else m - i + n
  }

  lemma {:induction false} WholeTurns(i: nat, c: nat, n: nat, m: nat, t: nat)
    requires i < n && m < n && t <= n && c > 0
    ensures SpotAfter(Spot(i, 0), c, n, t * c) == Spot(SlotAfter(i, n, t), 0)
    ensures Hits(Spot(i, 0), c, n, m, t * c) == if Distance(i, n, m) < t then c else 0
  {
    if t > 0 {
      WholeTurns(i, c, n, m, t - 1);
      assert t * c == (t - 1) * c + c;
      Compose(Spot(i, 0), c, n, m, (t - 1) * c, c);
      SameTurn(Spot(SlotAfter(i, n, t - 1), 0), c, n, m, c);
    }
  }

  /** Wherever one starts, c*n consecutive turns give every slot exactly c. */
  lemma EqualShares(s: Spot, c: nat, n: nat, m: nat)
    requires Within(s, c, n) && m < n
    ensures Hits(s, c, n, m, c * n) == c
  {
    hide SpotAfter, Hits;
    var i, r := NextSlot(s.slot, n), c - s.sent;
    SameTurn(s, c, n, m, r);
    WholeTurns(i, c, n, m, n - 1);
    assert r + (n - 1) * c + s.sent == c * n;
    Compose(s, c, n, m, r, (n - 1) * c);
    Compose(s, c, n, m, r + (n - 1) * c, s.sent);
    SameTurn(Spot(SlotAfter(i, n, n - 1), 0), c, n, m, s.sent);
  }

  // ---------- Which session a packet goes to ----------

  /** The packet of downlink step e goes to session id, as `out`, and nowhere else. */
  ghost predicate Goes(w: World, e: Event, id: SessId, out: Packet) {
    e.Downlink? && Carries(out, e.pkt) && Grew(w.g, Step(w, e).g, id, out)
  }

  ghost predicate GoesTo(w: World, e: Event, id: SessId) {
    exists out :: Goes(w, e, id, out)
  }

  lemma GoesToOne(w: World, e: Event, id: SessId, id': SessId)
    requires GoesTo(w, e, id) && GoesTo(w, e, id')
    ensures id == id'
  {
    hide Step, Carries;
    var out :| Goes(w, e, id, out);
    var out' :| Goes(w, e, id', out');
    OneQueueGrew(w.g, Step(w, e).g, id, out, id', out');
  }

  lemma OneQueueGrew(g: Group, g': Group, id: SessId, out: Packet, id': SessId, out': Packet)
    requires Grew(g, g', id, out) && Grew(g, g', id', out')
    ensures id == id'
  {
    assert |g'.queues[id].items| == |g.queues[id].items| + 1;
  }

  /** How many downlink packets came after `start`, which `h` goes on from. */
  ghost function Packets(h: History, start: History): nat
    decreases h
  {
    if h == start || h.Begin? then 0 else Packets(h.before, start) + if h.last.Downlink? then 1 else 0
  }

  /** How many of them went to session id. */
  ghost function Got(h: History, start: History, id: SessId): nat
    decreases h
  {
    if h == start || h.Begin? then 0
    else Got(h.before, start, id) + if GoesTo(Run(h.before), h.last, id) then 1 else 0
  }

  predicate AllHaveRoom(g: Group, ids: seq<SessId>) {
    ids != [] && forall id | id in ids :: HasRoom(g, id)
  }

  /** The candidates of each path, from the sessions' own fields: members heard of in the last 25 s,
      and of these the chunked and the framed ones. */
  lemma PathSessions(g: Group, now: int, id: SessId)
    requires ValidSessions(g)
    ensures var heard := id in g.members && id in g.sess && g.sess[id].lastSeen >= now - 25 * SECOND;
            && (id in Live(g, now) <==> heard)
            && (id in ChunkedOf(g, Live(g, now)) <==> heard && g.sess[id].chunked)
            && (id in FramedOf(g, Live(g, now)) <==> heard && g.sess[id].framed)
  {
    LiveIff(g, g.members, now, id);
    ChunkedIff(g, Live(g, now), id);
    FramedIff(g, Live(g, now), id);
    hide LiveOf, ChunkedOf, FramedOf, NoRepeats;
  }

  // ---------- Multipath ----------

  /** A framed client was heard of recently, no pin and no chunked session takes the packet, and
      `ids` are the fresh framed sessions. */
  predicate FramedPath(g: Group, e: Event, ids: seq<SessId>) {
    && e.Downlink?
    && !Sticky(g, FlowKey.Of(e.pkt), e.now)
    && ChunkedOf(g, Live(g, e.now)) == []
    && g.framed && e.now - g.framedLastSeen <= 10 * SECOND
    && FramedOf(g, Live(g, e.now)) == ids
    && AllHaveRoom(g, ids)
  }

  /** Every downlink packet after `start` is on the framed path over the same sessions; anything
      else may happen in between. */
  ghost predicate FramedRun(h: History, start: History, ids: seq<SessId>)
    decreases h
  {
    h == start || (h.Then? && FramedRun(h.before, start, ids) && (h.last.Downlink? ==> FramedPath(Run(h.before).g, h.last, ids)))
  }

  function FramedSpot(rr: Uint32, n: nat): Spot
    requires n > 0
  {
    Spot(rr / MP_CHUNK_PACKETS % n, rr % MP_CHUNK_PACKETS)
  }

  lemma NextMod(a: nat, n: nat)
    requires n > 0
    ensures (a + 1) % n == NextSlot(a % n, n)
  {
    if a % n + 1 == n {
      assert a + 1 == n * (a / n + 1);
      MultipleMod(a / n + 1, n);
    } else {
      SmallMod(a / n, a % n + 1, n);
    }
  }

  lemma MultipleMod(q: nat, n: nat)
    requires n > 0
    ensures (n * q) % n == 0
  {
    SmallMod(q, 0, n);
  }

  lemma SmallMod(q: nat, r: nat, n: nat)
    requires r < n
    ensures (n * q + r) % n == r
  {
    var x := n * q + r;
    var d: int, m: int := x / n - q, n;
    assert m * d == r - x % n;
    assert d >= 1 ==> m * d >= m;
    assert d <= -1 ==> m * d <= 0 - m;
  }

  lemma FramedNext(rr: Uint32, n: nat)
    requires n > 0 && rr + 1 < TWO_32
    ensures FramedSpot(rr + 1, n) == NextSpot(FramedSpot(rr, n), MP_CHUNK_PACKETS, n)
  {
    NextMod(rr / MP_CHUNK_PACKETS, n);
  }

  lemma FramedSend(g: Group, base: Group, ids: seq<SessId>, pkt: Packet)
    requires ids != [] && base.queues == g.queues && base.sess == g.sess && ValidSessions(g)
    requires forall id | id in ids :: HasCh(g, id) && HasRoom(g, id) && id in g.queues && !g.queues[id].closed
    ensures var s := SendFramed(base, ids, pkt);
            && Grew(g, s.group, ids[FramedSpot(base.rr, |ids|).slot], Frame.FrameBytes(base.outSeq, pkt))
            && s.group.rr == (base.rr + 1) % TWO_32 && s.group.outSeq == (base.outSeq + 1) % TWO_32
  {
    hide Frame.FrameBytes, NoRepeats;
    var id := ids[FramedSpot(base.rr, |ids|).slot];
    assert id in ids;
  }

  lemma FramedIs(g: Group, e: Event, ids: seq<SessId>)
    requires FramedPath(g, e, ids)
    ensures EnqueueDown(g, e.pkt, e.now, e.later, e.victim) == SendFramed(CancelStale(g, e.now), ids, e.pkt)
  {
    hide FlowKey.Of, SendFramed, SendChunked, PickFor, LiveOf, ChunkedOf, FramedOf, Sticky, StaleIn;
  }

  lemma FramedMembers(g: Group, pending: set<SessId>, e: Event, ids: seq<SessId>)
    requires FramedPath(g, e, ids) && ValidSessions(g) && ValidQueues(g, pending)
    ensures forall id | id in ids :: HasCh(g, id) && HasRoom(g, id) && id in g.queues && !g.queues[id].closed
  {
    hide FlowKey.Of, Sticky, LiveOf, FramedOf, ChunkedOf, NoRepeats, HasRoom;
    forall id | id in ids ensures HasCh(g, id) && HasRoom(g, id) {
      FramedIff(g, Live(g, e.now), id);
      LiveIff(g, g.members, e.now, id);
    }
  }

  lemma DownlinkStep(w: World, e: Event)
    requires e.Downlink?
    ensures Step(w, e).g == EnqueueDown(w.g, e.pkt, e.now, e.later, e.victim).group
  {
    hide EnqueueDown;
  }

  /** One framed packet: a numbered frame to the session whose turn it is. */
  lemma FramedStep(w: World, e: Event, ids: seq<SessId>)
    requires Valid(w) && FramedPath(w.g, e, ids)
    ensures Goes(w, e, ids[FramedSpot(w.g.rr, |ids|).slot], Frame.FrameBytes(w.g.outSeq, e.pkt))
    ensures Step(w, e).g.rr == (w.g.rr + 1) % TWO_32 && Step(w, e).g.outSeq == (w.g.outSeq + 1) % TWO_32
  {
    FramedMembers(w.g, w.pending, e, ids);
    FramedIs(w.g, e, ids);
    DownlinkStep(w, e);
    hide FramedPath, Step, EnqueueDown, SendFramed, ValidQueues, ValidFlows, ValidSessions, FramedSpot, Frame.FrameBytes, Grew, StaleIn;
    FramedSend(w.g, CancelStale(w.g, e.now), ids, e.pkt);
    assert Carries(Frame.FrameBytes(w.g.outSeq, e.pkt), e.pkt);
  }

  lemma SnocNoRepeats(ids: seq<SessId>, x: SessId)
    requires NoRepeats(ids) && x !in ids
    ensures NoRepeats(ids + [x])
  {
    var s := ids + [x];
    forall i, j | 0 <= i < j < |s| ensures s[i] != s[j] {
      assert s[i] == ids[i] && (j < |ids| ==> s[j] == ids[j]);
    }
  }

  lemma {:induction false} FiltersKeepOrder(g: Group, ids: seq<SessId>, now: int)
    requires NoRepeats(ids)
    ensures NoRepeats(LiveOf(g, ids, now)) && NoRepeats(ChunkedOf(g, ids)) && NoRepeats(FramedOf(g, ids))
  {
    if ids != [] {
      var front, x := ids[..|ids| - 1], ids[|ids| - 1];
      LastNotBefore(ids);
      FiltersKeepOrder(g, front, now);
      hide NoRepeats, LiveOf, ChunkedOf, FramedOf;
      LiveIff(g, front, now, x);
      ChunkedIff(g, front, x);
      FramedIff(g, front, x);
      SnocFilters(g, front, now, x);
      assert ids == front + [x];
    }
  }

  lemma LastNotBefore(ids: seq<SessId>)
    requires ids != [] && NoRepeats(ids)
    ensures NoRepeats(ids[..|ids| - 1]) && ids[|ids| - 1] !in ids[..|ids| - 1]
  {
  }

  lemma SnocFilters(g: Group, front: seq<SessId>, now: int, x: SessId)
    requires NoRepeats(LiveOf(g, front, now)) && NoRepeats(ChunkedOf(g, front)) && NoRepeats(FramedOf(g, front))
    requires x !in LiveOf(g, front, now) && x !in ChunkedOf(g, front) && x !in FramedOf(g, front)
    ensures NoRepeats(LiveOf(g, front + [x], now)) && NoRepeats(ChunkedOf(g, front + [x])) && NoRepeats(FramedOf(g, front + [x]))
  {
    hide NoRepeats;
    assert (front + [x])[..|front|] == front;
    SnocNoRepeats(LiveOf(g, front, now), x);
    SnocNoRepeats(ChunkedOf(g, front), x);
    SnocNoRepeats(FramedOf(g, front), x);
  }

  lemma PathNoRepeats(g: Group, now: int)
    requires ValidSessions(g)
    ensures NoRepeats(Live(g, now)) && NoRepeats(ChunkedOf(g, Live(g, now))) && NoRepeats(FramedOf(g, Live(g, now)))
  {
    hide NoRepeats, LiveOf, ChunkedOf, FramedOf;
    FiltersKeepOrder(g, g.members, now);
    FiltersKeepOrder(g, Live(g, now), now);
  }

  /** A packet that goes to one slot goes to no other. */
  lemma SlotGets(w: World, e: Event, ids: seq<SessId>, i: nat, out: Packet, m: nat)
    requires NoRepeats(ids) && i < |ids| && m < |ids| && Goes(w, e, ids[i], out)
    ensures GoesTo(w, e, ids[m]) <==> i == m
  {
    hide Goes;
    assert GoesTo(w, e, ids[i]);
    if GoesTo(w, e, ids[m]) {
      GoesToOne(w, e, ids[i], ids[m]);
    }
  }

  lemma NotDown(w: World, e: Event, id: SessId)
    requires !e.Downlink?
    ensures !GoesTo(w, e, id)
  {
    hide Step, Grew, Carries;
  }

  lemma FramedSlots(w: World, e: Event, ids: seq<SessId>, m: nat)
    requires Valid(w) && FramedPath(w.g, e, ids) && m < |ids|
    ensures GoesTo(w, e, ids[m]) <==> FramedSpot(w.g.rr, |ids|).slot == m
  {
    FramedStep(w, e, ids);
    PathNoRepeats(w.g, e.now);
    hide FramedSpot, FramedOf, LiveOf, NoRepeats, Step, Goes, GoesTo, Frame.FrameBytes, ValidQueues, ValidFlows, ValidSessions;
    SlotGets(w, e, ids, FramedSpot(w.g.rr, |ids|).slot, Frame.FrameBytes(w.g.outSeq, e.pkt), m);
  }

  /** Only downlink packets move the counters of multipath and of CHUNK1. */
  lemma OthersKeepCounters(w: World, e: Event)
    requires !e.Downlink?
    ensures var g, g' := w.g, Step(w, e).g; g'.rr == g.rr && g'.outSeq == g.outSeq && g'.chunk == g.chunk
  {
    hide ExpireFlows, FlowKey.Of, EnqueueDown;
  }

  lemma FramedMoves(w: World, e: Event, ids: seq<SessId>)
    requires Valid(w) && FramedPath(w.g, e, ids)
    ensures Step(w, e).g.rr == (w.g.rr + 1) % TWO_32 && Step(w, e).g.outSeq == Ahead(w.g.outSeq, 1)
  {
    hide FramedPath, Step, Valid, Goes, Frame.FrameBytes;
    FramedStep(w, e, ids);
  }

  /** A 32-bit counter k steps later. */
  function Ahead(a: Uint32, k: nat): Uint32 {
    (a + k) % TWO_32
  }

  lemma CountOn(a: Uint32, k: nat)
    ensures Ahead(Ahead(a, k), 1) == Ahead(a, k + 1) && Ahead(a, 0) == a
  {
    var q := (a + k) / TWO_32;
    assert a + k + 1 == (a + k) % TWO_32 + 1 + TWO_32 * q;
    WholeTurn((a + k) % TWO_32 + 1, q);
  }

  lemma WholeTurn(r: nat, q: nat)
    ensures (r + TWO_32 * q) % TWO_32 == r % TWO_32
  {
  }

  lemma {:induction false} FramedCounters(h: History, start: History, ids: seq<SessId>)
    requires FramedRun(h, start, ids) && Run(start).g.rr + Packets(h, start) < TWO_32
    ensures var k := Packets(h, start);
            Run(h).g.rr == Run(start).g.rr + k && Run(h).g.outSeq == Ahead(Run(start).g.outSeq, k)
    decreases h
  {
    hide FramedPath, Step, Valid, Ahead;
    CountOn(Run(start).g.outSeq, 0);
    if h != start {
      FramedCounters(h.before, start, ids);
      RunSafe(h.before);
      if h.last.Downlink? {
        FramedMoves(Run(h.before), h.last, ids);
        CountOn(Run(start).g.outSeq, Packets(h.before, start));
      } else {
        OthersKeepCounters(Run(h.before), h.last);
      }
    }
  }

  lemma {:induction false} FramedGot(h: History, start: History, ids: seq<SessId>, m: nat)
    requires FramedRun(h, start, ids) && m < |ids| && Run(start).g.rr + Packets(h, start) < TWO_32
    ensures var n, s, k := |ids|, FramedSpot(Run(start).g.rr, |ids|), Packets(h, start);
            && FramedSpot(Run(h).g.rr, n) == SpotAfter(s, MP_CHUNK_PACKETS, n, k)
            && Got(h, start, ids[m]) == Hits(s, MP_CHUNK_PACKETS, n, m, k)
    decreases h
  {
    hide FramedSpot, FramedPath, Run, GoesTo, Valid, NextSpot;
    if h != start {
      FramedCounters(h.before, start, ids);
      FramedCounters(h, start, ids);
      FramedGot(h.before, start, ids, m);
      var w := Run(h.before);
      if h.last.Downlink? {
        RunSafe(h.before);
        FramedSlots(w, h.last, ids, m);
        FramedNext(w.g.rr, |ids|);
      } else {
        NotDown(w, h.last, ids[m]);
      }
    }
  }

  /** Multipath is fair: while the fresh framed sessions stay the same, have room and the
      32-bit counter does not wrap, any 16*n consecutive packets put 16 into each of the n
      queues, whatever happens in between. */
  lemma FramedShares(h: History, start: History, ids: seq<SessId>, id: SessId)
    requires FramedRun(h, start, ids) && id in ids
    requires Packets(h, start) == 16 * |ids| && Run(start).g.rr + 16 * |ids| < TWO_32
    ensures Got(h, start, id) == 16
  {
    hide FramedRun, Packets, Got, Run, Hits;
    var m :| 0 <= m < |ids| && ids[m] == id;
    FramedGot(h, start, ids, m);
    ModBelow(Run(start).g.rr / MP_CHUNK_PACKETS, |ids|);
    EqualShares(FramedSpot(Run(start).g.rr, |ids|), MP_CHUNK_PACKETS, |ids|, m);
  }

  lemma ModBelow(a: nat, n: nat)
    requires n > 0
    ensures a % n < n
  {
  }

  /** It moves on after every 16th packet and only then: of two packets with no other downlink
      between them, the second goes to the next session of the list if the first completed 16,
      and to the same session otherwise. Their frames carry consecutive numbers. */
  lemma FramedTurns(h: History, start: History, ids: seq<SessId>, e: Event, e': Event, m: nat)
    requires FramedPath(Run(start).g, e, ids) && FramedRun(h, Then(start, e), ids) && Packets(h, Then(start, e)) == 0
    requires FramedPath(Run(h).g, e', ids) && Run(start).g.rr + 1 < TWO_32
    requires m < |ids| && GoesTo(Run(start), e, ids[m])
    ensures var next := if (Run(start).g.rr + 1) % 16 == 0 then ids[if m + 1 == |ids| then 0 else m + 1] else ids[m];
            var number := Run(start).g.outSeq;
            && Goes(Run(start), e, ids[m], Frame.FrameBytes(number, e.pkt))
            && Goes(Run(h), e', next, Frame.FrameBytes(Ahead(number, 1), e'.pkt))
  {
    hide FramedRun, FramedPath, Run, Step, Valid, Goes, GoesTo, Packets, Ahead, Frame.FrameBytes;
    var w := Run(start);
    AfterStep(start, e);
    RunSafe(start);
    RunSafe(h);
    FramedMoves(w, e, ids);
    FramedCounters(h, Then(start, e), ids);
    CountOn(Run(Then(start, e)).g.outSeq, 0);
    FramedTurn(w, e, Run(h), e', ids, m);
  }

  lemma AfterStep(h: History, e: Event)
    ensures Run(Then(h, e)) == Step(Run(h), e)
  {
    hide Step;
  }

  lemma FramedTurn(w: World, e: Event, w': World, e': Event, ids: seq<SessId>, m: nat)
    requires Valid(w) && Valid(w') && FramedPath(w.g, e, ids) && FramedPath(w'.g, e', ids)
    requires w.g.rr + 1 < TWO_32 && w'.g.rr == w.g.rr + 1 && w'.g.outSeq == Ahead(w.g.outSeq, 1)
    requires m < |ids| && GoesTo(w, e, ids[m])
    ensures var next := if (w.g.rr + 1) % 16 == 0 then ids[if m + 1 == |ids| then 0 else m + 1] else ids[m];
            && Goes(w, e, ids[m], Frame.FrameBytes(w.g.outSeq, e.pkt))
            && Goes(w', e', next, Frame.FrameBytes(Ahead(w.g.outSeq, 1), e'.pkt))
  {
    hide FramedPath, Step, Valid, Goes, GoesTo, Frame.FrameBytes, Ahead, FramedSpot;
    FramedStep(w, e, ids);
    FramedSlots(w, e, ids, m);
    FramedNext(w.g.rr, |ids|);
    SixteenthIs(w.g.rr, |ids|);
    FramedStep(w', e', ids);
  }

  lemma SixteenthIs(rr: Uint32, n: nat)
    requires n > 0
    ensures FramedSpot(rr, n).sent + 1 == MP_CHUNK_PACKETS <==> (rr + 1) % 16 == 0
  {
  }

  // ---------- CHUNK1 ----------

  /** No pin takes the packet, and `ids` are the fresh sessions that negotiated CHUNK1. */
  predicate ChunkPath(g: Group, e: Event, ids: seq<SessId>) {
    && e.Downlink?
    && !Sticky(g, FlowKey.Of(e.pkt), e.now)
    && ids != [] && ChunkedOf(g, Live(g, e.now)) == ids
  }

  /** Packets of `size` bytes go c to a turn. */
  predicate SizeClass(size: nat, c: nat) {
    || (size > 1100 && c == 64)
    || (701 <= size <= 1100 && c == 24)
    || (301 <= size <= 700 && c == 8)
    || (101 <= size <= 300 && c == 3)
    || (size <= 100 && c == 1)
  }

  /** Every downlink packet after `start` is of one size class, arrives within 15 ms from `since`,
      and finds the same chunked sessions with room; anything else may happen in between. */
  ghost predicate ChunkRun(h: History, start: History, ids: seq<SessId>, c: nat, since: int)
    decreases h
  {
    || h == start
    || (&& h.Then? && ChunkRun(h.before, start, ids, c, since)
        && (h.last.Downlink? ==> ChunkPacket(Run(h.before).g, h.last, ids, c, since)))
  }

  predicate ChunkPacket(g: Group, e: Event, ids: seq<SessId>, c: nat, since: int) {
    && ChunkPath(g, e, ids) && AllHaveRoom(g, ids)
    && SizeClass(|e.pkt|, c) && since <= e.now < since + 15 * MILLISECOND
  }

  /** The turn at its beginning: whose it is, and what it has had. */
  function ChunkSpot(c: Chunk, n: nat): Spot {
    Spot(if c.index >= n then 0 else c.index, c.count)
  }

  predicate Started(c: Chunk, since: int) {
    c.startedAt.Some? ==> since <= c.startedAt.value
  }

  lemma ChunkIs(g: Group, e: Event, ids: seq<SessId>)
    requires ChunkPath(g, e, ids)
    ensures EnqueueDown(g, e.pkt, e.now, e.later, e.victim) == SendChunked(CancelStale(g, e.now), ids, e.pkt, e.now)
  {
    hide FlowKey.Of, SendFramed, SendChunked, PickFor, LiveOf, ChunkedOf, FramedOf, Sticky, FramedRecent, StaleIn;
  }

  lemma ChunkMembers(g: Group, pending: set<SessId>, e: Event, ids: seq<SessId>)
    requires ChunkPath(g, e, ids) && ValidSessions(g) && ValidQueues(g, pending)
    ensures forall id | id in ids :: HasCh(g, id) && id in g.queues && !g.queues[id].closed && id in g.members
    ensures NoRepeats(ids)
  {
    PathNoRepeats(g, e.now);
    hide FlowKey.Of, Sticky, LiveOf, ChunkedOf, NoRepeats;
    forall id | id in ids ensures HasCh(g, id) {
      ChunkedIff(g, Live(g, e.now), id);
      LiveIff(g, g.members, e.now, id);
    }
  }

  /** The turn's session has room: it gets the packet. */
  lemma ChunkSend(g: Group, base: Group, ids: seq<SessId>, pkt: Packet, now: int)
    requires ids != [] && base.queues == g.queues && base.sess == g.sess
    requires forall id | id in ids :: HasCh(g, id) && id in g.queues && !g.queues[id].closed && id in g.members
    requires var t := Turn(base.chunk, |ids|, now); HasRoom(g, ids[t.index])
    ensures var s, t := SendChunked(base, ids, pkt, now), Turn(base.chunk, |ids|, now);
            && Grew(g, s.group, ids[t.index], pkt)
            && s.group.chunk == Counted(t, t.index, |ids|, |pkt|, now)
  {
    var t := Turn(base.chunk, |ids|, now);
    WrapAround(t.index, |ids|);
    hide Turn, Counted;
    assert ids[t.index] in ids;
    assert FirstRoom(base.(chunk := t), ids, t.index, 0) == Some(t.index);
  }

  lemma ChunkStep(w: World, e: Event, ids: seq<SessId>)
    requires Valid(w) && ChunkPath(w.g, e, ids)
    requires var t := Turn(w.g.chunk, |ids|, e.now); HasRoom(w.g, ids[t.index])
    ensures var t := Turn(w.g.chunk, |ids|, e.now);
            Goes(w, e, ids[t.index], e.pkt) && Step(w, e).g.chunk == Counted(t, t.index, |ids|, |e.pkt|, e.now)
  {
    ChunkMembers(w.g, w.pending, e, ids);
    ChunkIs(w.g, e, ids);
    DownlinkStep(w, e);
    hide ChunkPath, Step, EnqueueDown, SendChunked, ValidQueues, ValidFlows, ValidSessions, Turn, Counted, Grew, StaleIn, NoRepeats;
    ChunkSend(w.g, CancelStale(w.g, e.now), ids, e.pkt, e.now);
  }

  lemma ChunkTurn(k: Chunk, n: nat, c: nat, since: int, now: int, size: nat)
    requires n > 0 && SizeClass(size, c) && k.count < c && Started(k, since) && since <= now < since + 15 * MILLISECOND
    ensures var t := Turn(k, n, now); var k' := Counted(t, t.index, n, size, now);
            && t.index == ChunkSpot(k, n).slot
            && ChunkSpot(k', n) == NextSpot(ChunkSpot(k, n), c, n) && Started(k', since) && k'.count < c
  {
    Advance(ChunkSpot(k, n).slot, n);
  }

  lemma Advance(i: nat, n: nat)
    requires i < n
    ensures (i + 1) % n == NextSlot(i, n)
  {
    WrapAround(i, n);
    NextMod(i, n);
  }

  /** One packet of the class: the turn's session gets it, and no other. */
  lemma ChunkSlots(w: World, e: Event, ids: seq<SessId>, c: nat, since: int, m: nat)
    requires Valid(w) && ChunkPacket(w.g, e, ids, c, since) && m < |ids|
    requires w.g.chunk.count < c && Started(w.g.chunk, since)
    ensures GoesTo(w, e, ids[m]) <==> ChunkSpot(w.g.chunk, |ids|).slot == m
    ensures var k, k' := w.g.chunk, Step(w, e).g.chunk;
            ChunkSpot(k', |ids|) == NextSpot(ChunkSpot(k, |ids|), c, |ids|) && Started(k', since) && k'.count < c
  {
    var t := Turn(w.g.chunk, |ids|, e.now);
    ChunkTurn(w.g.chunk, |ids|, c, since, e.now, |e.pkt|);
    ChunkMembers(w.g, w.pending, e, ids);
    hide ChunkPath, Valid, Turn, Counted, ChunkSpot, NextSpot, Started, SizeClass, Step, Goes, GoesTo, HasRoom, NoRepeats;
    assert ids[t.index] in ids;
    ChunkStep(w, e, ids);
    SlotGets(w, e, ids, t.index, e.pkt, m);
  }

  lemma {:induction false} ChunkGot(h: History, start: History, ids: seq<SessId>, c: nat, since: int, m: nat)
    requires ChunkRun(h, start, ids, c, since) && m < |ids|
    requires Run(start).g.chunk.count < c && Started(Run(start).g.chunk, since)
    ensures var n, s, k := |ids|, ChunkSpot(Run(start).g.chunk, |ids|), Packets(h, start);
            && Run(h).g.chunk.count < c && Started(Run(h).g.chunk, since)
            && ChunkSpot(Run(h).g.chunk, n) == SpotAfter(s, c, n, k)
            && Got(h, start, ids[m]) == Hits(s, c, n, m, k)
    decreases h
  {
    hide ChunkSpot, ChunkPacket, GoesTo, Valid, NextSpot, Step, Started;
    if h != start {
      ChunkGot(h.before, start, ids, c, since, m);
      var w := Run(h.before);
      if h.last.Downlink? {
        RunSafe(h.before);
        ChunkSlots(w, h.last, ids, c, since, m);
      } else {
        NotDown(w, h.last, ids[m]);
        OthersKeepCounters(w, h.last);
      }
    }
  }

  /** CHUNK1 is fair: of c*n consecutive packets of one size class that arrive within 15 ms, each
      of the n chunked sessions gets c, if they have room. */
  lemma ChunkShares(h: History, start: History, ids: seq<SessId>, c: nat, since: int, id: SessId)
    requires ChunkRun(h, start, ids, c, since) && id in ids && Packets(h, start) == c * |ids|
    requires Run(start).g.chunk.count < c && Started(Run(start).g.chunk, since)
    ensures Got(h, start, id) == c
  {
    hide ChunkRun, Packets, Got, Run, Hits, Started;
    var m :| 0 <= m < |ids| && ids[m] == id;
    ChunkGot(h, start, ids, c, since, m);
    EqualShares(ChunkSpot(Run(start).g.chunk, |ids|), c, |ids|, m);
  }

  /** The turn moves on after c packets and not before: the first c of a fresh turn all go to one
      session. */
  lemma ChunkTogether(h: History, start: History, ids: seq<SessId>, c: nat, since: int)
    requires ChunkRun(h, start, ids, c, since) && ids != [] && 0 < Packets(h, start) <= c
    requires Run(start).g.chunk.count == 0 && Started(Run(start).g.chunk, since)
    ensures exists m :: 0 <= m < |ids| && Got(h, start, ids[m]) == Packets(h, start)
  {
    hide ChunkRun, Packets, Got, Run, Hits, Started;
    var s := ChunkSpot(Run(start).g.chunk, |ids|);
    ChunkGot(h, start, ids, c, since, s.slot);
    SameTurn(s, c, |ids|, s.slot, Packets(h, start));
  }

  /** A turn that has lasted 15 ms is over: the packet goes to the next session. */
  lemma ChunkDwell(w: World, e: Event, ids: seq<SessId>, m: nat)
    requires e.Downlink? && Valid(w) && ChunkPath(w.g, e, ids) && AllHaveRoom(w.g, ids)
    requires w.g.chunk.startedAt.Some? && e.now - w.g.chunk.startedAt.value >= 15 * MILLISECOND
    requires w.g.chunk.index == m < |ids|
    ensures GoesTo(w, e, ids[if m + 1 == |ids| then 0 else m + 1])
  {
    hide ChunkPath, Valid, Step, Goes, Counted, HasRoom;
    DwellTurn(w.g.chunk, |ids|, e.now);
    hide Turn;
    var t := Turn(w.g.chunk, |ids|, e.now);
    assert ids[t.index] in ids;
    ChunkStep(w, e, ids);
  }

  lemma DwellTurn(k: Chunk, n: nat, now: int)
    requires k.startedAt.Some? && now - k.startedAt.value >= 15 * MILLISECOND && k.index < n
    ensures Turn(k, n, now).index == NextSlot(k.index, n)
  {
    Advance(k.index, n);
  }

  /** And of two such packets with no other downlink between them, the second goes to the next
      session if the first was the c-th of its turn, and to the same one otherwise. */
  lemma ChunkTurns(h: History, start: History, ids: seq<SessId>, c: nat, since: int, e: Event, e': Event, m: nat)
    requires ChunkPacket(Run(start).g, e, ids, c, since) && ChunkPacket(Run(h).g, e', ids, c, since)
    requires ChunkRun(h, Then(start, e), ids, c, since) && Packets(h, Then(start, e)) == 0
    requires Run(start).g.chunk.count < c && Started(Run(start).g.chunk, since)
    requires m < |ids| && GoesTo(Run(start), e, ids[m])
    ensures var next := if Run(start).g.chunk.count + 1 == c then (if m + 1 == |ids| then 0 else m + 1) else m;
            GoesTo(Run(h), e', ids[next])
  {
    hide ChunkRun, ChunkPacket, Run, Step, Valid, GoesTo, Packets, Started, ChunkSpot;
    var w := Run(start);
    AfterStep(start, e);
    RunSafe(start);
    RunSafe(h);
    ChunkSlots(w, e, ids, c, since, m);
    ChunkGot(h, Then(start, e), ids, c, since, m);
    SpotCount(w.g.chunk, |ids|);
    var next := if w.g.chunk.count + 1 == c then NextSlot(m, |ids|) else m;
    ChunkSlots(Run(h), e', ids, c, since, next);
  }

  lemma SpotCount(k: Chunk, n: nat)
    ensures ChunkSpot(k, n).sent == k.count
  {
  }

  // ---------- Flows without a pin ----------

  /** No pin, no chunked and no framed session takes the packet, and `ids` are the sessions that
      are fresh when it is given to one of them. */
  predicate SpreadPath(g: Group, e: Event, ids: seq<SessId>) {
    && e.Downlink?
    && FlowKey.Of(e.pkt) !in g.flows.aff
    && ChunkedOf(g, Live(g, e.now)) == []
    && (g.framed && e.now - g.framedLastSeen <= 10 * SECOND ==> FramedOf(g, Live(g, e.now)) == [])
    && Live(g, e.later) == ids
    && AllHaveRoom(g, ids)
  }

  lemma SpreadIs(g: Group, e: Event, ids: seq<SessId>)
    requires SpreadPath(g, e, ids)
    ensures var p := PickFor(CancelStale(g, e.now), e.pkt, e.later, e.victim);
            EnqueueDown(g, e.pkt, e.now, e.later, e.victim)
              == match p.id case None => Sent(p.group, false, e.pkt, false) case Some(id) => SendTo(p.group, id, e.pkt)
  {
    hide FlowKey.Of, SendFramed, SendChunked, PickFor, LiveOf, ChunkedOf, FramedOf, StaleIn;
  }

  lemma {:induction false} LiveSame(g: Group, g': Group, ids: seq<SessId>, now: int)
    requires g.sess == g'.sess
    ensures LiveOf(g, ids, now) == LiveOf(g', ids, now)
  {
    if ids != [] {
      LiveSame(g, g', ids[..|ids| - 1], now);
    }
  }

  lemma SpreadPick(g: Group, e: Event, ids: seq<SessId>)
    requires SpreadPath(g, e, ids)
    ensures var p := PickFor(CancelStale(g, e.now), e.pkt, e.later, e.victim);
            && p.id == Some(ids[FlowKey.Of(e.pkt) % |ids|])
            && p.group.queues == g.queues && p.group.sess == g.sess && p.group.members == g.members
  {
    hide FlowKey.Of, LiveOf, ChunkedOf, FramedOf, StaleIn, ExpireFlows, PinFlow, HasRoom;
    LiveSame(g, CancelStale(g, e.now), g.members, e.later);
  }

  lemma SpreadStep(w: World, e: Event, ids: seq<SessId>)
    requires Valid(w) && SpreadPath(w.g, e, ids)
    ensures Goes(w, e, ids[FlowKey.Of(e.pkt) % |ids|], e.pkt)
  {
    var key: Key := FlowKey.Of(e.pkt);
    hide FlowKey.Of;
    var id := ids[key % |ids|];
    assert id in ids;
    LiveIff(w.g, w.g.members, e.later, id);
    SpreadIs(w.g, e, ids);
    SpreadPick(w.g, e, ids);
    DownlinkStep(w, e);
    var p := PickFor(CancelStale(w.g, e.now), e.pkt, e.later, e.victim);
    hide SpreadPath, PickFor, EnqueueDown, Step, NoRepeats, LiveOf, StaleIn;
    SendToEffect(w.g, p.group, w.pending, id, e.pkt);
  }

  /** Flows without a pin spread by their key: with the same n fresh sessions, two packets go to
      the same session if and only if their keys agree modulo n. */
  lemma KeysSpread(w: World, e: Event, w': World, e': Event, ids: seq<SessId>)
    requires e.Downlink? && e'.Downlink?
    requires Valid(w) && Valid(w') && SpreadPath(w.g, e, ids) && SpreadPath(w'.g, e', ids)
    ensures (exists id :: id in ids && GoesTo(w, e, id) && GoesTo(w', e', id))
              <==> FlowKey.Of(e.pkt) % |ids| == FlowKey.Of(e'.pkt) % |ids|
  {
    SpreadNoRepeats(w.g, e, ids);
    SpreadStep(w, e, ids);
    SpreadStep(w', e', ids);
    hide FlowKey.Of, SpreadPath, Goes, NoRepeats;
    var i, i' := FlowKey.Of(e.pkt) % |ids|, FlowKey.Of(e'.pkt) % |ids|;
    assert GoesTo(w, e, ids[i]) && GoesTo(w', e', ids[i']);
    SlotGets(w', e', ids, i', e'.pkt, i);
    if id :| id in ids && GoesTo(w, e, id) && GoesTo(w', e', id) {
      GoesToOne(w, e, id, ids[i]);
    }
  }

  lemma SpreadNoRepeats(g: Group, e: Event, ids: seq<SessId>)
    requires SpreadPath(g, e, ids) && ValidSessions(g)
    ensures NoRepeats(ids) && ids != []
  {
    hide FlowKey.Of, NoRepeats, LiveOf, ChunkedOf, FramedOf;
    PathNoRepeats(g, e.later);
  }

  /** A flow that goes to its pinned session on this path keeps the pin, for another 180 s; one that
      is given a session is pinned to it for as long. */
  lemma PickPins(g: Group, pkt: Packet, now: int, victim: Key)
    ensures var p, key := PickFor(g, pkt, now, victim), FlowKey.Of(pkt);
            p.id.Some? ==>
              var f := p.group.flows;
              && key in f.aff && f.aff[key] == p.id.value && key in f.exp && f.exp[key] == now + 180 * SECOND
              && ((key in g.flows.aff && key in g.flows.exp && now <= g.flows.exp[key] && g.flows.aff[key] in Live(g, now))
                  ==> p.id.value == g.flows.aff[key])
  {
    hide FlowKey.Of, LiveOf, ExpireFlows, StaleIn;
  }

  /** A session that joins is fresh from then on, even if it was never heard of before, and its queue
      is empty and open, with 256 places if it negotiated CHUNK1 and 8192 otherwise. */
  lemma JoinedIsFresh(w: World, id: SessId, chunked: bool, now: int)
    requires Valid(w) && id !in w.g.sess && |w.g.members| < 27
    ensures var g := Step(w, Join(id, chunked, now)).g;
            && id in g.members && id in g.sess && g.sess[id].lastSeen == now && g.sess[id].chunked == chunked
            && id in g.queues && g.queues[id] == Queue([], if chunked then 256 else 8192, false)
  {
    assert id in w.g.members + [id];
  }

  /** What a member's own steps are noted as, and what its writer takes. */
  lemma MembersSteps(w: World, id: SessId, now: int)
    requires Valid(w) && id in w.g.members
    ensures id in w.g.sess && id in w.g.queues
    ensures Step(w, Touch(id, now)).g.sess == w.g.sess[id := w.g.sess[id].(lastSeen := now)]
    ensures Step(w, FrameSession(id)).g.sess == w.g.sess[id := w.g.sess[id].(framed := true)]
    ensures Step(w, FrameGroup).g.framed && Step(w, FrameSeen(now)).g.framedLastSeen == now
    ensures w.g.queues[id].items != [] ==>
              Step(w, Take(id)).g.queues == w.g.queues[id := w.g.queues[id].(items := w.g.queues[id].items[1..])]
  {
    hide NoRepeats, ValidFlows;
    assert HasCh(w.g, id);
  }

  // ---------- Silent sessions ----------

  lemma OnlyTarget(g: Group, base: Group, x: SessId, out: Packet, id: SessId, out': Packet)
    requires base.queues == g.queues && Grew(g, SendTo(base, x, out).group, id, out')
    ensures id == x && HasCh(base, x)
  {
    assert |SendTo(base, x, out).group.queues[id].items| == |g.queues[id].items| + 1;
  }

  /** On every path: the packet goes where it is sent, if anywhere. */
  ghost predicate Target(g: Group, e: Event, x: SessId)
    requires e.Downlink?
  {
    || IsFresh(g, x, e.now)
    || IsFresh(g, x, e.later)
  }

  lemma ChunkTarget(g: Group, e: Event, id: SessId, out: Packet)
    requires e.Downlink? && ChunkedOf(g, Live(g, e.now)) != []
    requires Grew(g, SendChunked(CancelStale(g, e.now), ChunkedOf(g, Live(g, e.now)), e.pkt, e.now).group, id, out)
    ensures Target(g, e, id)
  {
    var ids := ChunkedOf(g, Live(g, e.now));
    var base := CancelStale(g, e.now);
    var t := Turn(base.chunk, |ids|, e.now);
    hide ChunkedOf, LiveOf, Turn, Counted, StaleIn;
    match FirstRoom(base.(chunk := t), ids, t.index, 0)
    case None => GrewDiffers(g, base.(chunk := t), id, out);
    case Some(idx) =>
      FirstRoomSome(base.(chunk := t), ids, t.index, 0);
      OnlyTarget(g, base.(chunk := Counted(t, idx, |ids|, |e.pkt|, e.now)), ids[idx], e.pkt, id, out);
      assert id in ids;
      ChunkedIff(g, Live(g, e.now), id);
      LiveIff(g, g.members, e.now, id);
  }

  lemma GrewDiffers(g: Group, g': Group, id: SessId, out: Packet)
    requires Grew(g, g', id, out)
    ensures g'.queues != g.queues
  {
    assert |g'.queues[id].items| == |g.queues[id].items| + 1;
  }

  lemma FramedTarget(g: Group, e: Event, id: SessId, out: Packet)
    requires e.Downlink? && FramedOf(g, Live(g, e.now)) != []
    requires Grew(g, SendFramed(CancelStale(g, e.now), FramedOf(g, Live(g, e.now)), e.pkt).group, id, out)
    ensures Target(g, e, id)
  {
    hide FramedOf, LiveOf, StaleIn, Frame.FrameBytes, FramedSlot;
    var ids, base := FramedOf(g, Live(g, e.now)), CancelStale(g, e.now);
    var base' := base.(outSeq := (base.outSeq + 1) % TWO_32, rr := (base.rr + 1) % TWO_32);
    OnlyTarget(g, base', ids[FramedSlot(base.rr, |ids|)], Frame.FrameBytes(base.outSeq, e.pkt), id, out);
    assert id in ids;
    FramedIff(g, Live(g, e.now), id);
    LiveIff(g, g.members, e.now, id);
  }

  lemma PickTarget(g: Group, e: Event, id: SessId, out: Packet)
    requires e.Downlink? && ValidSessions(g) && ValidFlows(g.flows, g.members)
    requires var p := PickFor(CancelStale(g, e.now), e.pkt, e.later, e.victim);
             Grew(g, (match p.id case None => Sent(p.group, false, e.pkt, false)
                                 case Some(x) => SendTo(p.group, x, e.pkt)).group, id, out)
    ensures Target(g, e, id)
  {
    hide FlowKey.Of, LiveOf, StaleIn, PickFor, Grew;
    PickForFacts(CancelStale(g, e.now), e.pkt, e.later, e.victim);
    var p := PickFor(CancelStale(g, e.now), e.pkt, e.later, e.victim);
    match p.id
    case None => GrewDiffers(g, p.group, id, out);
    case Some(x) => OnlyTarget(g, p.group, x, e.pkt, id, out);
  }

  lemma PathTarget(g: Group, e: Event, id: SessId, out: Packet)
    requires e.Downlink? && ValidSessions(g) && ValidFlows(g.flows, g.members)
    requires Grew(g, EnqueueDown(g, e.pkt, e.now, e.later, e.victim).group, id, out)
    ensures Target(g, e, id)
  {
    var key: Key := FlowKey.Of(e.pkt);
    hide FlowKey.Of, SendTo, SendChunked, SendFramed, PickFor, LiveOf, ChunkedOf, FramedOf, Grew, FramedRecent, ValidSessions, ValidFlows;
    if Sticky(g, key, e.now) {
      OnlyTarget(g, g.(flows := Flows(g.flows.aff, g.flows.exp[key := e.now + FLOW_AFF_TTL])), g.flows.aff[key], e.pkt, id, out);
    } else if ChunkedOf(g, Live(g, e.now)) != [] {
      ChunkTarget(g, e, id, out);
    } else if FramedRecent(g, e.now) && FramedOf(g, Live(g, e.now)) != [] {
      FramedTarget(g, e, id, out);
    } else {
      PickTarget(g, e, id, out);
    }
  }

  /** Whatever the path, a packet goes only to a session that was heard of in the last 25 s. */
  lemma NeverToSilent(w: World, e: Event, id: SessId)
    requires Valid(w) && e.Downlink? && GoesTo(w, e, id)
    ensures id in w.g.sess && (w.g.sess[id].lastSeen >= e.now - 25 * SECOND || w.g.sess[id].lastSeen >= e.later - 25 * SECOND)
  {
    hide EnqueueDown, Step, Carries, Grew, ValidSessions, ValidFlows, ValidQueues;
    var out :| Goes(w, e, id, out);
    DownlinkStep(w, e);
    PathTarget(w.g, e, id, out);
  }
}
