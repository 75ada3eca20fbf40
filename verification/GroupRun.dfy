// Every interleaving of the steps that relays, their writers, the reaper and the tunnel
// reader take on one session group.
module GroupRun {
  import opened Basics
  import opened SessionGroup
  import FlowKey
  import Frame

  // ---------- Which sessions a filter keeps ----------

  lemma {:induction false} LiveIff(g: Group, ids: seq<SessId>, now: int, x: SessId)
    ensures x in LiveOf(g, ids, now) <==> x in ids && HasCh(g, x) && IsFresh(g, x, now)
  {
    if ids != [] {
      LiveIff(g, ids[..|ids| - 1], now, x);
      assert ids == ids[..|ids| - 1] + [ids[|ids| - 1]];
    }
  }

  lemma {:induction false} ChunkedIff(g: Group, ids: seq<SessId>, x: SessId)
    ensures x in ChunkedOf(g, ids) <==> x in ids && IsChunked(g, x)
  {
    if ids != [] {
      ChunkedIff(g, ids[..|ids| - 1], x);
      assert ids == ids[..|ids| - 1] + [ids[|ids| - 1]];
    }
  }

  lemma {:induction false} FramedIff(g: Group, ids: seq<SessId>, x: SessId)
    ensures x in FramedOf(g, ids) <==> x in ids && IsFramed(g, x)
  {
    if ids != [] {
      FramedIff(g, ids[..|ids| - 1], x);
      assert ids == ids[..|ids| - 1] + [ids[|ids| - 1]];
    }
  }

  // ---------- The flow table stays consistent ----------

  ghost predicate ValidFlows(f: Flows, members: seq<SessId>) {
    && f.aff.Keys == f.exp.Keys
    && (forall k | k in f.aff :: f.aff[k] in members)
    && |f.aff| <= FLOW_AFF_MAX
  }

  lemma DropValid(f: Flows, members: seq<SessId>, keys: set<Key>)
    requires ValidFlows(f, members)
    ensures var g := DropFlows(f, keys);
            ValidFlows(g, members) && (exists k :: k in keys && k in f.aff) ==> |g.aff| < |f.aff|
    ensures ValidFlows(DropFlows(f, keys), members)
  {
    var g := DropFlows(f, keys);
    assert g.aff.Keys == f.aff.Keys - keys && g.exp.Keys == f.exp.Keys - keys;
    assert |g.aff| == |g.aff.Keys| && |f.aff| == |f.aff.Keys|;
    CardinalityOfDifference(f.aff.Keys, keys);
  }

  lemma CardinalityOfDifference<T>(a: set<T>, b: set<T>)
    ensures |a - b| <= |a|
    ensures (exists x :: x in b && x in a) ==> |a - b| < |a|
  {
    assert |a| == |a - b| + |a * b|;
    if x :| x in b && x in a {
      assert x in a * b;
    }
  }

  lemma ExpireValid(f: Flows, members: seq<SessId>, now: int, victim: Key)
    requires ValidFlows(f, members)
    ensures var g := ExpireFlows(f, now, victim);
            ValidFlows(g, members) && |g.aff| < FLOW_AFF_MAX
  {
    if |f.aff| >= FLOW_AFF_MAX {
      var g := DropFlows(f, Expired(f, now));
      DropValid(f, members, Expired(f, now));
      if |g.aff| >= FLOW_AFF_MAX {
        assert |g.aff.Keys| == |g.aff|;
        var k := Evicted(g.aff.Keys, victim);
        DropValid(g, members, {k});
        assert k in {k} && k in g.aff;
      }
    }
  }

  lemma PinValid(f: Flows, members: seq<SessId>, key: Key, id: SessId, now: int)
    requires ValidFlows(f, members) && |f.aff| < FLOW_AFF_MAX && id in members
    ensures ValidFlows(PinFlow(f, key, id, now), members)
  {
    var g := PinFlow(f, key, id, now);
    assert g.aff.Keys == f.aff.Keys + {key} && g.exp.Keys == f.exp.Keys + {key};
    assert |g.aff| == |g.aff.Keys| && |f.aff| == |f.aff.Keys|;
  }

  lemma RefreshValid(f: Flows, members: seq<SessId>, key: Key, until: int)
    requires ValidFlows(f, members) && key in f.aff
    ensures ValidFlows(Flows(f.aff, f.exp[key := until]), members)
  {
    assert f.exp[key := until].Keys == f.exp.Keys;
  }

  lemma RemoveFlowsValid(f: Flows, members: seq<SessId>, id: SessId)
    requires ValidFlows(f, members)
    ensures ValidFlows(DropFlows(f, FlowsOf(f, id)), Without(members, id))
  {
    DropValid(f, members, FlowsOf(f, id));
    var g := DropFlows(f, FlowsOf(f, id));
    forall k | k in g.aff ensures g.aff[k] in Without(members, id) {
      WithoutIff(members, id, g.aff[k]);
    }
  }

  lemma {:induction false} WithoutIff(ids: seq<SessId>, id: SessId, x: SessId)
    ensures x != id ==> (x in Without(ids, id) <==> x in ids)
    ensures x in Without(ids, id) ==> x in ids
    ensures |Without(ids, id)| <= |ids|
  {
    if ids != [] && ids[0] != id {
      WithoutIff(ids[1..], id, x);
      assert ids == [ids[0]] + ids[1..];
    } else if ids != [] {
      assert ids == [ids[0]] + ids[1..];
    }
  }

  // ---------- The group invariant ----------

  ghost predicate NoRepeats(ids: seq<SessId>) {
    forall i, j | 0 <= i < j < |ids| :: ids[i] != ids[j]
  }

  /** The member list is exactly the sessions that still have a queue to send to. */
  ghost predicate ValidSessions(g: Group) {
    && NoRepeats(g.members)
    && |g.members| <= MAX_SESSIONS
    && g.queues.Keys == g.sess.Keys
    && (forall id | id in g.members :: HasCh(g, id))
    && (forall id | id in g.sess && g.sess[id].hasCh :: id in g.members)
  }

  ghost predicate ValidQueues(g: Group, pending: set<SessId>) {
    && (forall id | id in g.queues :: |g.queues[id].items| <= g.queues[id].cap)
    && (forall id | id in g.queues && HasCh(g, id) :: !g.queues[id].closed && id !in pending)
    && (forall id | id in pending :: id in g.queues && !g.queues[id].closed)
  }

  // ---------- One downlink packet ----------

  /** Only queue `id` changed, and only by one packet at its end that it had room for. */
  ghost predicate Grew(g: Group, g': Group, id: SessId, out: Packet) {
    && id in g.members && id in g.queues && HasRoom(g, id)
    && g'.queues == g.queues[id := g.queues[id].(items := g.queues[id].items + [out])]
  }

  /** What a send may do: everything but the queues is as in `base`. */
  ghost predicate SendEffect(g: Group, base: Group, s: Sent) {
    && !s.panics
    && s.group == base.(queues := s.group.queues)
    && (if s.ok then exists id :: Grew(g, s.group, id, s.out) else s.group.queues == g.queues)
  }

  lemma SendToEffect(g: Group, base: Group, pending: set<SessId>, id: SessId, out: Packet)
    requires ValidSessions(g) && ValidQueues(g, pending) && base.queues == g.queues && base.sess == g.sess
    requires HasCh(g, id)
    ensures SendEffect(g, base, SendTo(base, id, out)) && SendTo(base, id, out).out == out
    ensures SendTo(base, id, out).ok <==> HasRoom(g, id)
    ensures SendTo(base, id, out).ok ==> Grew(g, SendTo(base, id, out).group, id, out)
  {
    assert id in g.members && id in g.queues;
    if HasRoom(g, id) {
      assert Grew(g, SendTo(base, id, out).group, id, out);
    }
  }

  lemma {:induction false} FirstRoomNone(g: Group, ids: seq<SessId>, start: nat, i: nat, j: nat)
    requires ids != [] && FirstRoom(g, ids, start, i) == None && i <= j < |ids|
    ensures !(HasCh(g, ids[(start + j) % |ids|]) && HasRoom(g, ids[(start + j) % |ids|]))
    decreases |ids| - i
  {
    if i < j {
      FirstRoomNone(g, ids, start, i + 1, j);
    }
  }

  lemma {:induction false} FirstRoomSome(g: Group, ids: seq<SessId>, start: nat, i: nat)
    requires ids != [] && FirstRoom(g, ids, start, i).Some?
    ensures var x := ids[FirstRoom(g, ids, start, i).value]; HasCh(g, x) && HasRoom(g, x)
    decreases |ids| - i
  {
    if !(i < |ids| && HasCh(g, ids[(start + i) % |ids|]) && HasRoom(g, ids[(start + i) % |ids|])) {
      FirstRoomSome(g, ids, start, i + 1);
    }
  }

  lemma WrapAround(x: nat, n: nat)
    requires x < n
    ensures x % n == x && (x + n) % n == x
  {
  }

  /** The round robin reaches every session: no room found means no room anywhere. */
  lemma NoRoomAnywhere(g: Group, ids: seq<SessId>, start: nat, x: SessId)
    requires start < |ids| && FirstRoom(g, ids, start, 0) == None && x in ids
    ensures !(HasCh(g, x) && HasRoom(g, x))
  {
    var i :| 0 <= i < |ids| && ids[i] == x;
    var j := if i >= start then i - start else i + |ids| - start;
    WrapAround(i, |ids|);
    FirstRoomNone(g, ids, start, 0, j);
  }

  lemma SendChunkedEffect(g: Group, base: Group, pending: set<SessId>, ids: seq<SessId>, pkt: Packet, now: int)
    requires ValidSessions(g) && ValidQueues(g, pending) && base.queues == g.queues && base.sess == g.sess
    requires ids != [] && forall id | id in ids :: HasCh(g, id)
    ensures var s := SendChunked(base, ids, pkt, now);
            && SendEffect(g, base.(chunk := s.group.chunk), s) && s.out == pkt
            && (s.ok <==> exists id :: id in ids && HasRoom(g, id))
  {
    var t := Turn(base.chunk, |ids|, now);
    var g1 := base.(chunk := t);
    match FirstRoom(g1, ids, t.index, 0)
    case None =>
      forall id | id in ids ensures !HasRoom(g, id) {
        NoRoomAnywhere(g1, ids, t.index, id);
      }
    case Some(idx) =>
      FirstRoomSome(g1, ids, t.index, 0);
      var base' := g1.(chunk := Counted(t, idx, |ids|, |pkt|, now));
      SendToEffect(g, base', pending, ids[idx], pkt);
      assert ids[idx] in ids;
  }

  lemma PickForFacts(g: Group, pkt: Packet, now: int, victim: Key)
    requires ValidSessions(g) && ValidFlows(g.flows, g.members)
    ensures var p := PickFor(g, pkt, now, victim);
            && p.group == g.(cancelled := p.group.cancelled, flows := p.group.flows)
            && ValidFlows(p.group.flows, g.members)
            && (p.id.Some? ==> p.id.value in g.members && HasCh(g, p.id.value) && IsFresh(g, p.id.value, now))
  {
    var live, key: Key := Live(g, now), FlowKey.Of(pkt);
    hide FlowKey.Of;
    if live == [] {
    } else if key in g.flows.aff && now <= g.flows.exp[key] && g.flows.aff[key] in live {
      RefreshValid(g.flows, g.members, key, now + FLOW_AFF_TTL);
      LiveIff(g, g.members, now, g.flows.aff[key]);
    } else {
      var f := if key in g.flows.aff then DropFlows(g.flows, {key}) else g.flows;
      var id := live[key % |live|];
      assert id in live;
      LiveIff(g, g.members, now, id);
      DropValid(g.flows, g.members, {key});
      ExpireValid(f, g.members, now, victim);
      PinValid(ExpireFlows(f, now, victim), g.members, key, id, now);
    }
  }

  ghost predicate Carries(out: Packet, pkt: Packet) {
    out == pkt || exists n :: out == Frame.FrameBytes(n, pkt)
  }

  /** What one downlink packet may do to the group. */
  ghost predicate DownEffect(g: Group, s: Sent, pkt: Packet) {
    && !s.panics
    && s.group.members == g.members && s.group.sess == g.sess
    && ValidFlows(s.group.flows, g.members)
    && Carries(s.out, pkt)
    && (if s.ok then exists id :: Grew(g, s.group, id, s.out) else s.group.queues == g.queues)
  }

  lemma StickyEffect(g: Group, pending: set<SessId>, pkt: Packet, now: int, later: int, victim: Key)
    requires ValidSessions(g) && ValidQueues(g, pending) && ValidFlows(g.flows, g.members)
    requires Sticky(g, FlowKey.Of(pkt), now)
    ensures var s := EnqueueDown(g, pkt, now, later, victim);
            && DownEffect(g, s, pkt) && s.out == pkt
            && s.group.flows.aff == g.flows.aff
            && (if HasRoom(g, g.flows.aff[FlowKey.Of(pkt)])
                then s.ok && Grew(g, s.group, g.flows.aff[FlowKey.Of(pkt)], pkt)
                else !s.ok)
  {
    var key: Key := FlowKey.Of(pkt);
    hide FlowKey.Of;
    var base := g.(flows := Flows(g.flows.aff, g.flows.exp[key := now + FLOW_AFF_TTL]));
    RefreshValid(g.flows, g.members, key, now + FLOW_AFF_TTL);
    SendToEffect(g, base, pending, g.flows.aff[key], pkt);
  }

  ghost predicate OnChunkPath(g: Group, pkt: Packet, now: int) {
    !Sticky(g, FlowKey.Of(pkt), now) && ChunkedOf(g, Live(g, now)) != []
  }

  lemma ChunkPathEffect(g: Group, pending: set<SessId>, pkt: Packet, now: int, later: int, victim: Key)
    requires ValidSessions(g) && ValidQueues(g, pending) && ValidFlows(g.flows, g.members)
    requires OnChunkPath(g, pkt, now)
    ensures var s := EnqueueDown(g, pkt, now, later, victim);
            && DownEffect(g, s, pkt)
            && (s.ok <==> exists id :: id in g.members && IsChunked(g, id) && IsFresh(g, id, now) && HasRoom(g, id))
  {
    hide FlowKey.Of;
    var chunked := ChunkedOf(g, Live(g, now));
    forall id ensures id in chunked <==> id in g.members && IsChunked(g, id) && HasCh(g, id) && IsFresh(g, id, now) {
      ChunkedIff(g, Live(g, now), id);
      LiveIff(g, g.members, now, id);
    }
    SendChunkedEffect(g, CancelStale(g, now), pending, chunked, pkt, now);
  }

  lemma SendFramedEffect(g: Group, base: Group, pending: set<SessId>, ids: seq<SessId>, pkt: Packet)
    requires ValidSessions(g) && ValidQueues(g, pending) && base.queues == g.queues && base.sess == g.sess
    requires ids != [] && forall id | id in ids :: HasCh(g, id)
    ensures var s := SendFramed(base, ids, pkt);
            SendEffect(g, base.(outSeq := s.group.outSeq, rr := s.group.rr), s) && s.out == Frame.FrameBytes(base.outSeq, pkt)
  {
    hide FramedSlot, Frame.FrameBytes;
    var id := ids[FramedSlot(base.rr, |ids|)];
    assert id in ids;
    SendToEffect(g, base.(outSeq := (base.outSeq + 1) % TWO_32, rr := (base.rr + 1) % TWO_32), pending, id,
                 Frame.FrameBytes(base.outSeq, pkt));
  }

  lemma FramedPathEffect(g: Group, pending: set<SessId>, pkt: Packet, now: int)
    requires ValidSessions(g) && ValidQueues(g, pending) && ValidFlows(g.flows, g.members)
    requires FramedOf(g, Live(g, now)) != []
    ensures DownEffect(g, SendFramed(CancelStale(g, now), FramedOf(g, Live(g, now)), pkt), pkt)
  {
    hide SendFramed, Frame.FrameBytes, Grew, ValidFlows, ValidQueues, ValidSessions;
    var ids := FramedOf(g, Live(g, now));
    forall id | id in ids ensures HasCh(g, id) {
      FramedIff(g, Live(g, now), id);
      LiveIff(g, g.members, now, id);
    }
    SendFramedEffect(g, CancelStale(g, now), pending, ids, pkt);
  }

  lemma PickPathEffect(g: Group, pending: set<SessId>, pkt: Packet, now: int, later: int, victim: Key)
    requires ValidSessions(g) && ValidQueues(g, pending) && ValidFlows(g.flows, g.members)
    ensures var p := PickFor(CancelStale(g, now), pkt, later, victim);
            DownEffect(g, match p.id case None => Sent(p.group, false, pkt, false)
                                     case Some(id) => SendTo(p.group, id, pkt), pkt)
  {
    var c := CancelStale(g, now);
    PickForFacts(c, pkt, later, victim);
    hide PickFor;
    var p := PickFor(c, pkt, later, victim);
    if p.id.Some? {
      SendToEffect(g, p.group, pending, p.id.value, pkt);
    }
  }

  /** A downlink packet is handed over once or not at all: `ok` exactly when one queue of a
      member grew by one element that carries the packet, and otherwise no queue changed.
      On the CHUNK1 path it fails exactly when every fresh chunked queue is full. */
  lemma EnqueueDownEffect(g: Group, pending: set<SessId>, pkt: Packet, now: int, later: int, victim: Key)
    requires ValidSessions(g) && ValidQueues(g, pending) && ValidFlows(g.flows, g.members)
    ensures var s := EnqueueDown(g, pkt, now, later, victim);
            && DownEffect(g, s, pkt)
            && (OnChunkPath(g, pkt, now) ==>
                  (s.ok <==> exists id :: id in g.members && IsChunked(g, id) && IsFresh(g, id, now) && HasRoom(g, id)))
  {
    hide FlowKey.Of, DownEffect, SendChunked, SendFramed, PickFor, LiveOf, ChunkedOf, FramedOf;
    if Sticky(g, FlowKey.Of(pkt), now) {
      StickyEffect(g, pending, pkt, now, later, victim);
    } else if OnChunkPath(g, pkt, now) {
      ChunkPathEffect(g, pending, pkt, now, later, victim);
    } else if FramedRecent(g, now) && FramedOf(g, Live(g, now)) != [] {
      FramedPathEffect(g, pending, pkt, now);
    } else {
      PickPathEffect(g, pending, pkt, now, later, victim);
    }
  }

  /** What carries an IPv4 downlink packet is the packet, or a frame that decodes to it. */
  lemma CarriesDecodes(out: Packet, pkt: Packet)
    requires Carries(out, pkt) && FlowKey.IsIPv4(pkt)
    ensures out == pkt || (Frame.Decode(out).Some? && Frame.Decode(out).value.1 == pkt)
  {
    if out != pkt {
      var n :| out == Frame.FrameBytes(n, pkt);
      Frame.RoundTrip(n, pkt);
    }
  }

  // ---------- Runs ----------

  datatype Event =
    | Join(id: SessId, chunked: bool, now: int)
    | Leave(id: SessId)                        // the locked part of remove
    | Close(id: SessId)                        // its close(ch) after unlocking
    | Uplink(id: SessId, pkt: Packet, now: int, victim: Key)
    | Touch(id: SessId, now: int)              // lastSeen.Store
    | FrameSession(id: SessId)                 // sess.framed.Store(true)
    | FrameGroup                               // group.framed.Store(true)
    | FrameSeen(now: int)                      // group.framedLastSeen.Store
    | Take(id: SessId)                         // the down writer receives from its queue
    | Downlink(pkt: Packet, now: int, later: int, victim: Key)
    | Reap(now: int)

  datatype History = Begin | Then(before: History, last: Event)

  // `pending`: queues a leaving relay holds and still has to close.
  datatype World = World(g: Group, pending: set<SessId>, panicked: bool)

  function CapOf(chunked: bool): nat {
    if chunked then 256 else 8192
  }

  /** Relays act only between their Join and their Leave; a step of another is no step. */
  ghost function Step(w: World, e: Event): World {
    var g := w.g;
    match e
    case Join(id, chunked, now) =>
      if id in g.sess || |g.members| >= MAX_SESSIONS then w
      else w.(g := Add(g, id, Session(chunked, false, 0, true), CapOf(chunked), now))
    case Leave(id) =>
      World(Remove(g, id), if HasCh(g, id) then w.pending + {id} else w.pending, w.panicked)
    case Close(id) =>
      if id !in w.pending then w
      else World(g.(queues := g.queues[id := QueueOf(g, id).(closed := true)]), w.pending - {id},
                 w.panicked || QueueOf(g, id).closed)
    case Uplink(id, pkt, now, victim) =>
      if id in g.members then w.(g := NoteUplink(g, id, pkt, now, victim)) else w
    case Touch(id, now) =>
      if id in g.members && id in g.sess then w.(g := g.(sess := g.sess[id := g.sess[id].(lastSeen := now)])) else w
    case FrameSession(id) =>
      if id in g.members && id in g.sess then w.(g := g.(sess := g.sess[id := g.sess[id].(framed := true)])) else w
    case FrameGroup => w.(g := g.(framed := true))
    case FrameSeen(now) => w.(g := g.(framedLastSeen := now))
    case Take(id) =>
      if id in g.queues && g.queues[id].items != [] then
        w.(g := g.(queues := g.queues[id := g.queues[id].(items := g.queues[id].items[1..])]))
      else w
    case Downlink(pkt, now, later, victim) =>
      var s := EnqueueDown(g, pkt, now, later, victim);
      World(s.group, w.pending, w.panicked || s.panics)
    case Reap(now) => w.(g := CancelStale(g, now))
  }

  ghost function Run(h: History): World {
    match h
    case Begin => World(EMPTY, {}, false)
    case Then(h', e) => Step(Run(h'), e)
  }

  ghost predicate Valid(w: World) {
    && ValidSessions(w.g)
    && ValidQueues(w.g, w.pending)
    && ValidFlows(w.g.flows, w.g.members)
    && !w.panicked
  }

  lemma AddSessions(g: Group, id: SessId, s: Session, cap: nat, now: int)
    requires ValidSessions(g) && id !in g.sess && |g.members| < MAX_SESSIONS
    ensures ValidSessions(Add(g, id, s, cap, now))
  {
    var g' := Add(g, id, s, cap, now);
    assert g'.queues.Keys == g.queues.Keys + {id} && g'.sess.Keys == g.sess.Keys + {id};
    assert id !in g.members;
  }

  lemma AddValid(w: World, id: SessId, s: Session, cap: nat, now: int)
    requires Valid(w) && id !in w.g.sess && |w.g.members| < MAX_SESSIONS
    ensures Valid(w.(g := Add(w.g, id, s, cap, now)))
  {
    var g := w.g;
    AddSessions(g, id, s, cap, now);
    AddQueues(g, w.pending, id, s, cap, now);
    MoreMembers(g.flows, g.members, id);
    hide ValidSessions, ValidQueues, ValidFlows;
  }

  lemma AddQueues(g: Group, pending: set<SessId>, id: SessId, s: Session, cap: nat, now: int)
    requires ValidSessions(g) && ValidQueues(g, pending) && id !in g.sess
    ensures ValidQueues(Add(g, id, s, cap, now), pending)
  {
    hide NoRepeats;
    assert id !in g.queues;
  }

  lemma MoreMembers(f: Flows, members: seq<SessId>, id: SessId)
    requires ValidFlows(f, members)
    ensures ValidFlows(f, members + [id])
  {
    forall k | k in f.aff ensures f.aff[k] in members + [id] {
      assert f.aff[k] in members;
    }
  }

  lemma {:induction false} WithoutNoRepeats(ids: seq<SessId>, id: SessId)
    requires NoRepeats(ids)
    ensures NoRepeats(Without(ids, id)) && id !in Without(ids, id)
  {
    if ids != [] {
      var rest := ids[1..];
      TailNoRepeats(ids);
      if ids[0] != id {
        WithoutNoRepeats(rest, id);
        WithoutIff(rest, id, ids[0]);
        HeadNoRepeats(ids[0], Without(rest, id));
      }
    }
  }

  lemma TailNoRepeats(ids: seq<SessId>)
    requires ids != [] && NoRepeats(ids)
    ensures NoRepeats(ids[1..]) && ids[0] !in ids[1..]
  {
    forall i, j | 0 <= i < j < |ids| - 1 ensures ids[1..][i] != ids[1..][j] {
      assert ids[1..][i] == ids[i + 1] && ids[1..][j] == ids[j + 1];
    }
  }

  lemma HeadNoRepeats(x: SessId, ids: seq<SessId>)
    requires NoRepeats(ids) && x !in ids
    ensures NoRepeats([x] + ids)
  {
    var s := [x] + ids;
    forall i, j | 0 <= i < j < |s| ensures s[i] != s[j] {
      assert s[j] == ids[j - 1] && (i > 0 ==> s[i] == ids[i - 1]);
    }
  }

  lemma RemoveValid(w: World, id: SessId)
    requires Valid(w)
    ensures Valid(Step(w, Leave(id)))
  {
    var g, g' := w.g, Remove(w.g, id);
    WithoutNoRepeats(g.members, id);
    RemoveFlowsValid(g.flows, g.members, id);
    forall x ensures (x != id ==> (x in g'.members <==> x in g.members)) && (x in g'.members ==> x in g.members)
      && |g'.members| <= |g.members|
    {
      WithoutIff(g.members, id, x);
    }
    assert g'.sess.Keys == g.sess.Keys;
  }

  lemma UplinkValid(w: World, id: SessId, pkt: Packet, now: int, victim: Key)
    requires Valid(w) && id in w.g.members
    ensures Valid(w.(g := NoteUplink(w.g, id, pkt, now, victim)))
  {
    hide FlowKey.Of, ExpireFlows, NoRepeats, PinFlow;
    ExpireValid(w.g.flows, w.g.members, now, victim);
    PinValid(ExpireFlows(w.g.flows, now, victim), w.g.members, FlowKey.Of(pkt), id, now);
  }

  lemma DownlinkValid(w: World, pkt: Packet, now: int, later: int, victim: Key)
    requires Valid(w)
    ensures Valid(Step(w, Downlink(pkt, now, later, victim)))
  {
    hide EnqueueDown, OnChunkPath, Grew, Carries;
    EnqueueDownEffect(w.g, w.pending, pkt, now, later, victim);
    var s := EnqueueDown(w.g, pkt, now, later, victim);
    if s.ok {
      var id :| Grew(w.g, s.group, id, s.out);
      GrewValid(w.g, s.group, w.pending, id, s.out);
    }
  }

  lemma GrewValid(g: Group, g': Group, pending: set<SessId>, id: SessId, out: Packet)
    requires ValidSessions(g) && ValidQueues(g, pending) && Grew(g, g', id, out)
    requires g'.members == g.members && g'.sess == g.sess
    ensures ValidSessions(g') && ValidQueues(g', pending)
  {
    assert g'.queues.Keys == g.queues.Keys;
  }

  lemma StepValid(w: World, e: Event)
    requires Valid(w)
    ensures Valid(Step(w, e))
  {
    match e
    case Join(id, chunked, now) =>
      if id !in w.g.sess && |w.g.members| < MAX_SESSIONS {
        AddValid(w, id, Session(chunked, false, 0, true), CapOf(chunked), now);
      }
    case Leave(id) => RemoveValid(w, id);
    case Close(id) => CloseValid(w, id);
    case Uplink(id, pkt, now, victim) =>
      if id in w.g.members {
        UplinkValid(w, id, pkt, now, victim);
      }
    case Touch(id, now) => SessionValid(w, id, now);
    case FrameSession(id) => SessionValid(w, id, 0);
    case Take(id) => TakeValid(w, id);
    case Downlink(pkt, now, later, victim) => DownlinkValid(w, pkt, now, later, victim);
    case FrameGroup =>
    case FrameSeen(_) =>
    case Reap(_) =>
  }

  lemma CloseValid(w: World, id: SessId)
    requires Valid(w)
    ensures Valid(Step(w, Close(id)))
  {
    if id in w.pending {
      assert Step(w, Close(id)).g.queues.Keys == w.g.queues.Keys;
    }
  }

  lemma SessionValid(w: World, id: SessId, now: int)
    requires Valid(w)
    ensures Valid(Step(w, Touch(id, now))) && Valid(Step(w, FrameSession(id)))
  {
    if id in w.g.members {
      assert Step(w, Touch(id, now)).g.sess.Keys == w.g.sess.Keys;
      assert Step(w, FrameSession(id)).g.sess.Keys == w.g.sess.Keys;
    }
  }

  lemma TakeValid(w: World, id: SessId)
    requires Valid(w)
    ensures Valid(Step(w, Take(id)))
  {
    hide NoRepeats, ValidFlows;
    if id in w.g.queues {
      assert Step(w, Take(id)).g.queues.Keys == w.g.queues.Keys;
    }
  }

  /** In every interleaving: no packet is sent to a closed queue and no queue is closed
      twice; the two affinity maps have the same keys, every flow is pinned to a current
      member, the table never exceeds FLOW_AFF_MAX flows nor the group MAX_SESSIONS. */
  lemma {:induction false} RunSafe(h: History)
    ensures Valid(Run(h))
  {
    if h.Then? {
      RunSafe(h.before);
      StepValid(Run(h.before), h.last);
    }
  }
}
