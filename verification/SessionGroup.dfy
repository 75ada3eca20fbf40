// All relay sessions of one device share one tunnel address. The group keeps the
// sessions, pins flows to them, and spreads downlink packets over their queues.
// Sessions are referred to by identity (the Go pointers); their rows and queues live in
// tables of the group. This module says what each locked step does to the state.
module SessionGroup {
  import opened Basics
  import FlowKey
  import Frame

  type Key = FlowKey.Key
  type SessId = nat

  const FLOW_AFF_TTL := 180 * SECOND
  const FLOW_AFF_MAX := 8192
  const MP_CHUNK_PACKETS := 16
  const FRAMED_MODE_TTL := 10 * SECOND
  const MAX_SESSIONS := 27
  const CHUNK_MAX_DWELL := 15 * MILLISECOND
  const FRESH_TTL := 25 * SECOND

  // `hasCh` is downCh != nil.
  datatype Session = Session(chunked: bool, framed: bool, lastSeen: int, hasCh: bool)
  datatype Queue = Queue(items: seq<Packet>, cap: nat, closed: bool)
  datatype Flows = Flows(aff: map<Key, SessId>, exp: map<Key, int>)
  datatype Chunk = Chunk(index: nat, count: nat, startedAt: Option<int>)
  datatype Group = Group(
    members: seq<SessId>,
    sess: map<SessId, Session>,
    queues: map<SessId, Queue>,
    cancelled: set<SessId>,
    flows: Flows,
    framed: bool,
    framedLastSeen: int,
    outSeq: Uint32,
    rr: Uint32,
    chunk: Chunk)

  const EMPTY := Group([], map[], map[], {}, Flows(map[], map[]), false, 0, 0, 0, Chunk(0, 0, None))

  // ---------- The flow table ----------

  function PinFlow(f: Flows, key: Key, id: SessId, now: int): Flows {
    Flows(f.aff[key := id], f.exp[key := now + FLOW_AFF_TTL])
  }

  function DropFlows(f: Flows, keys: set<Key>): Flows {
    Flows(f.aff - keys, f.exp - keys)
  }

  ghost function Expired(f: Flows, now: int): set<Key> {
    set k | k in f.exp && now > f.exp[k]
  }

  /** Which flow a map iteration meets first is not determined: `victim` says, if it is there. */
  ghost function Evicted(keys: set<Key>, victim: Key): (k: Key)
    requires keys != {}
    ensures k in keys
  {
    if victim in keys then victim else Choose(keys)
  }

  /** Only a full table is cleaned: expired flows go, and if it is still full one more goes. */
  ghost function ExpireFlows(f: Flows, now: int, victim: Key): Flows {
    if |f.aff| < FLOW_AFF_MAX then f
    else
      var g := DropFlows(f, Expired(f, now));
      if |g.aff| >= FLOW_AFF_MAX then
        assert |g.aff.Keys| == |g.aff|;
        DropFlows(g, {Evicted(g.aff.Keys, victim)})
      else g
  }

  // ---------- Sessions ----------

  predicate HasCh(g: Group, id: SessId) {
    id in g.sess && g.sess[id].hasCh
  }

  predicate IsFresh(g: Group, id: SessId, now: int) {
    id in g.sess && g.sess[id].lastSeen >= now - FRESH_TTL
  }

  predicate IsChunked(g: Group, id: SessId) {
    id in g.sess && g.sess[id].chunked
  }

  predicate IsFramed(g: Group, id: SessId) {
    id in g.sess && g.sess[id].framed
  }

  /** The sessions of `ids` that can take downlink now, in order. */
  function LiveOf(g: Group, ids: seq<SessId>, now: int): seq<SessId> {
    if ids == [] then []
    else
      var front, id := LiveOf(g, ids[..|ids| - 1], now), ids[|ids| - 1];
      if HasCh(g, id) && IsFresh(g, id, now) then front + [id] else front
  }

  function Live(g: Group, now: int): seq<SessId> {
    LiveOf(g, g.members, now)
  }

  function StaleIn(g: Group, ids: seq<SessId>, now: int): set<SessId> {
    set id | id in ids && HasCh(g, id) && !IsFresh(g, id, now)
  }

  /** Looking for live sessions cancels the stale ones. */
  function CancelStale(g: Group, now: int): Group {
    g.(cancelled := g.cancelled + StaleIn(g, g.members, now))
  }

  function ChunkedOf(g: Group, ids: seq<SessId>): seq<SessId> {
    if ids == [] then []
    else
      var front, id := ChunkedOf(g, ids[..|ids| - 1]), ids[|ids| - 1];
      if IsChunked(g, id) then front + [id] else front
  }

  function FramedOf(g: Group, ids: seq<SessId>): seq<SessId> {
    if ids == [] then []
    else
      var front, id := FramedOf(g, ids[..|ids| - 1]), ids[|ids| - 1];
      if IsFramed(g, id) then front + [id] else front
  }

  // ---------- Queues ----------

  function QueueOf(g: Group, id: SessId): Queue {
    if id in g.queues then g.queues[id] else Queue([], 0, false)
  }

  predicate HasRoom(g: Group, id: SessId) {
    |QueueOf(g, id).items| < QueueOf(g, id).cap
  }

  function Append(g: Group, id: SessId, out: Packet): Group {
    g.(queues := g.queues[id := QueueOf(g, id).(items := QueueOf(g, id).items + [out])])
  }

  // What a send to a queue does; a send to a closed channel panics.
  datatype Sent = Sent(group: Group, ok: bool, out: Packet, panics: bool)

  function TrySend(g: Group, id: SessId, out: Packet): Sent {
    if QueueOf(g, id).closed then Sent(g, false, out, true)
    else if HasRoom(g, id) then Sent(Append(g, id, out), true, out, false)
    else Sent(g, false, out, false)
  }

  // ---------- Membership ----------

  function Add(g: Group, id: SessId, s: Session, cap: nat, now: int): Group {
    var seen := if s.lastSeen == 0 then now else s.lastSeen;
    g.(members := g.members + [id], sess := g.sess[id := s.(lastSeen := seen, hasCh := true)],
       queues := g.queues[id := Queue([], cap, false)])
  }

  function Without(ids: seq<SessId>, id: SessId): seq<SessId> {
    if ids == [] then []
    else if ids[0] == id then ids[1..]
    else [ids[0]] + Without(ids[1..], id)
  }

  function FlowsOf(f: Flows, id: SessId): set<Key> {
    set k | k in f.aff && f.aff[k] == id
  }

  /** The locked part of remove; the queue itself is closed after the lock is released. */
  function Remove(g: Group, id: SessId): Group {
    g.(members := Without(g.members, id),
       flows := DropFlows(g.flows, FlowsOf(g.flows, id)),
       sess := if id in g.sess then g.sess[id := g.sess[id].(hasCh := false)] else g.sess)
  }

  // ---------- Uplink and downlink ----------

  ghost function NoteUplink(g: Group, id: SessId, pkt: Packet, now: int, victim: Key): Group {
    if |pkt| < 20 then g
    else g.(flows := PinFlow(ExpireFlows(g.flows, now, victim), FlowKey.Of(pkt), id, now))
  }

  datatype Picked = Picked(group: Group, id: Option<SessId>)

  ghost function PickFor(g: Group, pkt: Packet, now: int, victim: Key): Picked {
    var live, key := Live(g, now), FlowKey.Of(pkt);
    var c := CancelStale(g, now);
    if live == [] then Picked(c, None)
    else if key in g.flows.aff && key in g.flows.exp && now <= g.flows.exp[key] && g.flows.aff[key] in live then
      Picked(c.(flows := Flows(g.flows.aff, g.flows.exp[key := now + FLOW_AFF_TTL])), Some(g.flows.aff[key]))
    else
      var f := if key in g.flows.aff then DropFlows(g.flows, {key}) else g.flows;
      var id := live[key % |live|];
      Picked(c.(flows := PinFlow(ExpireFlows(f, now, victim), key, id, now)), Some(id))
  }

  function ChunkSizeFor(size: nat): nat {
    if size > 1100 then 64 else if size >= 701 then 24 else if size >= 301 then 8 else if size >= 101 then 3 else 1
  }

  /** The turn of the scheduler at `now`: starts, or moves on after CHUNK_MAX_DWELL. */
  function Turn(c: Chunk, n: nat, now: int): Chunk
    requires n > 0
  {
    var t := if c.startedAt.None? then c.(startedAt := Some(now))
             else if now - c.startedAt.value >= CHUNK_MAX_DWELL then Chunk((c.index + 1) % n, 0, Some(now))
             else c;
    if t.index >= n then t.(index := 0) else t
  }

  /** The first of ids[start], ids[start+1], ... (cyclically) whose queue has room. */
  function FirstRoom(g: Group, ids: seq<SessId>, start: nat, i: nat): (r: Option<nat>)
    requires ids != []
    ensures r.Some? ==> r.value < |ids|
    decreases |ids| - i
  {
    if i >= |ids| then None
    else
      var idx := (start + i) % |ids|;
      if HasCh(g, ids[idx]) && HasRoom(g, ids[idx]) then Some(idx) else FirstRoom(g, ids, start, i + 1)
  }

  function Counted(c: Chunk, idx: nat, n: nat, size: nat, now: int): Chunk
    requires n > 0
  {
    if c.count + 1 >= ChunkSizeFor(size) then Chunk((idx + 1) % n, 0, Some(now))
    else Chunk(idx, c.count + 1, c.startedAt)
  }

  function SendChunked(g: Group, ids: seq<SessId>, pkt: Packet, now: int): Sent
    requires ids != []
  {
    var t := Turn(g.chunk, |ids|, now);
    var g1 := g.(chunk := t);
    match FirstRoom(g1, ids, t.index, 0)
    case None => Sent(g1, false, pkt, false)
    case Some(idx) => TrySend(g1.(chunk := Counted(t, idx, |ids|, |pkt|, now)), ids[idx], pkt)
  }

  /** The flow is pinned to a session that takes plain packets, the pin has not expired and
      the session is fresh. (A missing expiry reads as 0.) */
  predicate Sticky(g: Group, key: Key, now: int) {
    && key in g.flows.aff && key in g.flows.exp
    && !IsFramed(g, g.flows.aff[key]) && !IsChunked(g, g.flows.aff[key])
    && g.flows.exp[key] >= now && IsFresh(g, g.flows.aff[key], now)
  }

  predicate FramedRecent(g: Group, now: int) {
    g.framed && now - g.framedLastSeen <= FRAMED_MODE_TTL
  }

  function SendTo(g: Group, id: SessId, out: Packet): Sent {
    if HasCh(g, id) then TrySend(g, id, out) else Sent(g, false, out, false)
  }

  /** Multipath moves to the next session every MP_CHUNK_PACKETS packets. */
  function FramedSlot(rr: Uint32, n: nat): (i: nat)
    requires n > 0
    ensures i < n
  {
    rr / MP_CHUNK_PACKETS % n
  }

  function SendFramed(g: Group, ids: seq<SessId>, pkt: Packet): Sent
    requires ids != []
  {
    var out := Frame.FrameBytes(g.outSeq, pkt);
    SendTo(g.(outSeq := (g.outSeq + 1) % TWO_32, rr := (g.rr + 1) % TWO_32),
           ids[FramedSlot(g.rr, |ids|)], out)
  }

  /** `later` is the clock reading of pickForLocked. */
  ghost function EnqueueDown(g: Group, pkt: Packet, now: int, later: int, victim: Key): Sent {
    var key := FlowKey.Of(pkt);
    if Sticky(g, key, now) then
      var id := g.flows.aff[key];
      SendTo(g.(flows := Flows(g.flows.aff, g.flows.exp[key := now + FLOW_AFF_TTL])), id, pkt)
    else
      var c := CancelStale(g, now);
      var chunked := ChunkedOf(g, Live(g, now));
      if chunked != [] then SendChunked(c, chunked, pkt, now)
      else
        var framed := FramedOf(g, Live(g, now));
        if FramedRecent(g, now) && framed != [] then SendFramed(c, framed, pkt)
        else
          var p := PickFor(c, pkt, later, victim);
          match p.id
          case None => Sent(p.group, false, pkt, false)
          case Some(id) => SendTo(p.group, id, pkt)
  }
}
