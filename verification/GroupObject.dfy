// rawSessionGroup itself: the object whose methods run under its lock, each proved to
// take exactly the step SessionGroup describes.
module GroupObject {
  import opened Basics
  import opened SessionGroup
  import FlowKey
  import Frame
  import GroupRun

  class RawSessionGroup {
    var members: seq<SessId>
    var sess: map<SessId, Session>
    var queues: map<SessId, Queue>
    var cancelled: set<SessId>
    var flowAff: map<Key, SessId>
    var flowExp: map<Key, int>
    var framed: bool
    var framedLastSeen: int
    var outSeq: Uint32
    var rr: Uint32
    var chunkIndex: nat
    var chunkCount: nat
    var chunkStartedAt: Option<int>

    ghost function Abs(): Group
      reads this
    {
      Group(members, sess, queues, cancelled, Flows(flowAff, flowExp), framed, framedLastSeen, outSeq, rr,
            Chunk(chunkIndex, chunkCount, chunkStartedAt))
    }

    constructor ()
      ensures Abs() == EMPTY
    {
      members, sess, queues, cancelled := [], map[], map[], {};
      flowAff, flowExp := map[], map[];
      framed, framedLastSeen, outSeq, rr := false, 0, 0, 0;
      chunkIndex, chunkCount, chunkStartedAt := 0, 0, None;
    }

    method TryAdd(id: SessId, s: Session, cap: nat, limit: nat, now: int) returns (ok: bool)
      modifies this
      ensures ok <==> limit == 0 || |old(members)| < limit
      ensures Abs() == if ok then Add(old(Abs()), id, s, cap, now) else old(Abs())
    {
      if limit > 0 && |members| >= limit {
        return false;
      }
      var seen := if s.lastSeen == 0 then now else s.lastSeen;
      sess := sess[id := s.(lastSeen := seen, hasCh := true)];
      queues := queues[id := Queue([], cap, false)];
      members := members + [id];
      ok := true;
    }

    /** `ch`: the caller holds a queue that it has to close. */
    method Remove(id: SessId) returns (empty: bool, ch: bool)
      modifies this`members, this`sess, this`flowAff, this`flowExp
      ensures Abs() == SessionGroup.Remove(old(Abs()), id)
      ensures empty <==> members == []
      ensures ch <==> HasCh(old(Abs()), id)
    {
      RemoveMember(id);
      RemoveFlows(id);
      ch := id in sess && sess[id].hasCh;
      if id in sess {
        sess := sess[id := sess[id].(hasCh := false)];
      }
      empty := |members| == 0;
    }

    method RemoveMember(id: SessId)
      modifies this`members
      ensures members == Without(old(members), id)
    {
      var i := 0;
      while i < |members|
        invariant i <= |members| && members == old(members) && id !in members[..i]
      {
        if members[i] == id {
          WithoutAt(members, id, i);
          members := members[..i] + members[i + 1..];
          return;
        }
        i := i + 1;
      }
      WithoutAbsent(members, id);
    }

    method RemoveFlows(id: SessId)
      modifies this`flowAff, this`flowExp
      ensures Flows(flowAff, flowExp) == old(var f := Flows(flowAff, flowExp); DropFlows(f, FlowsOf(f, id)))
    {
      ghost var f := Flows(flowAff, flowExp);
      ghost var gone: set<Key> := {};
      var todo := flowAff.Keys;
      while todo != {}
        invariant Flows(flowAff, flowExp) == DropFlows(f, gone)
        invariant todo <= f.aff.Keys && gone == FlowsOf(f, id) - todo && todo !! gone
      {
        var k: Key := AnyOf(todo);
        todo := todo - {k};
        if flowAff[k] == id {
          DropOneMore(f, gone, k);
          flowAff, flowExp := flowAff - {k}, flowExp - {k};
          gone := gone + {k};
        }
      }
      assert gone == FlowsOf(f, id);
    }

    method LiveSessionsLocked(now: int) returns (live: seq<SessId>)
      modifies this`cancelled
      ensures live == Live(old(Abs()), now) && Abs() == CancelStale(old(Abs()), now)
    {
      ghost var g := Abs();
      live := [];
      var cutoff := now - FRESH_TTL;
      for i := 0 to |members|
        invariant live == LiveOf(g, members[..i], now)
        invariant cancelled == g.cancelled + StaleIn(g, members[..i], now)
      {
        var id := members[i];
        assert members[..i + 1] == members[..i] + [id];
        if id in sess && sess[id].hasCh {
          if sess[id].lastSeen < cutoff {
            cancelled := cancelled + {id};
          } else {
            live := live + [id];
          }
        }
        assert members[..i + 1][..i] == members[..i];
      }
      assert members[..|members|] == members;
    }

    method ExpireFlowsLocked(now: int) returns (ghost victim: Key)
      modifies this`flowAff, this`flowExp
      ensures Flows(flowAff, flowExp) == ExpireFlows(old(Flows(flowAff, flowExp)), now, victim)
    {
      victim := 0;
      if |flowAff| < FLOW_AFF_MAX {
        return;
      }
      DropExpired(now);
      if |flowAff| >= FLOW_AFF_MAX {
        assert |flowAff.Keys| == |flowAff|;
        var k: Key := AnyOf(flowAff.Keys);
        victim := k;
        flowAff, flowExp := flowAff - {k}, flowExp - {k};
      }
    }

    method DropExpired(now: int)
      modifies this`flowAff, this`flowExp
      ensures Flows(flowAff, flowExp) == old(var f := Flows(flowAff, flowExp); DropFlows(f, Expired(f, now)))
    {
      ghost var f := Flows(flowAff, flowExp);
      ghost var gone: set<Key> := {};
      var todo := flowExp.Keys;
      while todo != {}
        invariant Flows(flowAff, flowExp) == DropFlows(f, gone)
        invariant todo <= f.exp.Keys && gone == Expired(f, now) - todo && todo !! gone
      {
        var k: Key := AnyOf(todo);
        todo := todo - {k};
        if now > flowExp[k] {
          DropOneMore(f, gone, k);
          flowAff, flowExp := flowAff - {k}, flowExp - {k};
          gone := gone + {k};
        }
      }
      assert gone == Expired(f, now);
    }

    method NoteUplink(id: SessId, pkt: Packet, now: int) returns (ghost victim: Key)
      modifies this`flowAff, this`flowExp
      ensures Abs() == SessionGroup.NoteUplink(old(Abs()), id, pkt, now, victim)
    {
      victim := 0;
      if |pkt| < 20 {
        return;
      }
      hide FlowKey.Of, ExpireFlows;
      var key := FlowKey.Of(pkt);
      victim := ExpireFlowsLocked(now);
      flowAff := flowAff[key := id];
      flowExp := flowExp[key := now + FLOW_AFF_TTL];
    }

    method PickForLocked(pkt: Packet, now: int) returns (id: Option<SessId>, ghost victim: Key)
      modifies this`cancelled, this`flowAff, this`flowExp
      ensures Picked(Abs(), id) == PickFor(old(Abs()), pkt, now, victim)
    {
      hide FlowKey.Of, ExpireFlows, LiveOf, StaleIn;
      victim := 0;
      var live := LiveSessionsLocked(now);
      var n := |live|;
      if n == 0 {
        return None, 0;
      }
      var key: Key := FlowKey.Of(pkt);
      if key in flowAff {
        var s := flowAff[key];
        if key in flowExp && now <= flowExp[key] {
          if s in live {
            flowExp := flowExp[key := now + FLOW_AFF_TTL];
            return Some(s), 0;
          }
        }
        flowAff, flowExp := flowAff - {key}, flowExp - {key};
      }
      var picked := live[key % n];
      victim := ExpireFlowsLocked(now);
      flowAff, flowExp := flowAff[key := picked], flowExp[key := now + FLOW_AFF_TTL];
      id := Some(picked);
    }

    /** select { case downCh <- out: default: } of a queue that is not nil. */
    method TrySend(id: SessId, out: Packet) returns (ok: bool)
      requires id in queues && !queues[id].closed
      modifies this`queues
      ensures Sent(Abs(), ok, out, false) == SessionGroup.TrySend(old(Abs()), id, out)
    {
      if |queues[id].items| < queues[id].cap {
        queues := queues[id := queues[id].(items := queues[id].items + [out])];
        ok := true;
      } else {
        ok := false;
      }
    }

    method SendTo(id: SessId, out: Packet) returns (ok: bool)
      requires HasCh(Abs(), id) ==> id in queues && !queues[id].closed
      modifies this`queues
      ensures Sent(Abs(), ok, out, false) == SessionGroup.SendTo(old(Abs()), id, out)
    {
      if !(id in sess && sess[id].hasCh) {
        return false;
      }
      ok := TrySend(id, out);
    }

    /** The CHUNK1 scheduler: stay on one session for a chunk, skip full queues. */
    method SendChunked(ids: seq<SessId>, pkt: Packet, now: int) returns (ok: bool)
      requires ids != []
      requires forall id | id in ids :: id in queues && !queues[id].closed
      modifies this`queues, this`chunkIndex, this`chunkCount, this`chunkStartedAt
      ensures Sent(Abs(), ok, pkt, false) == SessionGroup.SendChunked(old(Abs()), ids, pkt, now)
    {
      var n := |ids|;
      TakeTurn(n, now);
      var start := chunkIndex;
      ghost var g1 := Abs();
      var i := 0;
      while i < n
        invariant i <= n && FirstRoom(g1, ids, start, i) == FirstRoom(g1, ids, start, 0)
        invariant Abs() == g1
      {
        var idx := (start + i) % n;
        var candidate := ids[idx];
        assert candidate in ids;
        if candidate in sess && sess[candidate].hasCh && |queues[candidate].items| < queues[candidate].cap {
          Count(idx, n, |pkt|, now);
          ok := TrySend(candidate, pkt);
          return;
        }
        i := i + 1;
      }
      ok := false;
    }

    method SendFramed(ids: seq<SessId>, pkt: Packet) returns (ok: bool, out: Packet)
      requires ids != []
      requires forall id | HasCh(Abs(), id) :: id in queues && !queues[id].closed
      modifies this`queues, this`outSeq, this`rr
      ensures Sent(Abs(), ok, out, false) == SessionGroup.SendFramed(old(Abs()), ids, pkt)
    {
      var number := outSeq;
      outSeq := (outSeq + 1) % TWO_32;
      var buf := Frame.Encode(number, pkt);
      out := buf[..];
      var slot := FramedSlot(rr, |ids|);
      rr := (rr + 1) % TWO_32;
      ok := SendTo(ids[slot], out);
    }

    method TakeTurn(n: nat, now: int)
      requires n > 0
      modifies this`chunkIndex, this`chunkCount, this`chunkStartedAt
      ensures Chunk(chunkIndex, chunkCount, chunkStartedAt) == Turn(old(Chunk(chunkIndex, chunkCount, chunkStartedAt)), n, now)
    {
      if chunkStartedAt.None? {
        chunkStartedAt := Some(now);
      } else if now - chunkStartedAt.value >= CHUNK_MAX_DWELL {
        chunkIndex, chunkCount, chunkStartedAt := (chunkIndex + 1) % n, 0, Some(now);
      }
      if chunkIndex >= n {
        chunkIndex := 0;
      }
    }

    method Count(idx: nat, n: nat, size: nat, now: int)
      requires n > 0
      modifies this`chunkIndex, this`chunkCount, this`chunkStartedAt
      ensures Chunk(chunkIndex, chunkCount, chunkStartedAt)
                == Counted(old(Chunk(chunkIndex, chunkCount, chunkStartedAt)), idx, n, size, now)
    {
      chunkIndex := idx;
      chunkCount := chunkCount + 1;
      if chunkCount >= ChunkSizeFor(size) {
        chunkIndex, chunkCount, chunkStartedAt := (idx + 1) % n, 0, Some(now);
      }
    }

    method Chunked(live: seq<SessId>) returns (ids: seq<SessId>)
      ensures ids == ChunkedOf(Abs(), live)
    {
      ids := [];
      for i := 0 to |live|
        invariant ids == ChunkedOf(Abs(), live[..i])
      {
        assert live[..i + 1][..i] == live[..i];
        if live[i] in sess && sess[live[i]].chunked {
          ids := ids + [live[i]];
        }
      }
      assert live[..|live|] == live;
    }

    method Framed(live: seq<SessId>) returns (ids: seq<SessId>)
      ensures ids == FramedOf(Abs(), live)
    {
      ids := [];
      for i := 0 to |live|
        invariant ids == FramedOf(Abs(), live[..i])
      {
        assert live[..i + 1][..i] == live[..i];
        if live[i] in sess && sess[live[i]].framed {
          ids := ids + [live[i]];
        }
      }
      assert live[..|live|] == live;
    }

    /** `now` is the reading at the top, `later` the one of pickForLocked. The queues that
        sessions refer to are open: GroupRun.RunSafe shows this of every run. */
    method EnqueueDown(pkt: Packet, now: int, later: int) returns (ok: bool, out: Packet, ghost victim: Key)
      requires forall id | HasCh(Abs(), id) :: id in queues && !queues[id].closed
      modifies this
      ensures Sent(Abs(), ok, out, false) == SessionGroup.EnqueueDown(old(Abs()), pkt, now, later, victim)
    {
      hide FlowKey.Of;
      victim := 0;
      out := pkt;
      var key: Key := FlowKey.Of(pkt);
      if key in flowAff && key in flowExp {
        var affinity := flowAff[key];
        if !(affinity in sess && sess[affinity].framed) && !(affinity in sess && sess[affinity].chunked)
           && flowExp[key] >= now && affinity in sess && sess[affinity].lastSeen >= now - FRESH_TTL {
          flowExp := flowExp[key := now + FLOW_AFF_TTL];
          ok := SendTo(affinity, pkt);
          return;
        }
      }
      ok, out, victim := EnqueueUnpinned(pkt, now, later);
    }

    method EnqueueUnpinned(pkt: Packet, now: int, later: int) returns (ok: bool, out: Packet, ghost victim: Key)
      requires forall id | HasCh(Abs(), id) :: id in queues && !queues[id].closed
      requires !Sticky(Abs(), FlowKey.Of(pkt), now)
      modifies this
      ensures Sent(Abs(), ok, out, false) == SessionGroup.EnqueueDown(old(Abs()), pkt, now, later, victim)
    {
      hide FlowKey.Of, PickFor, SessionGroup.SendChunked, SessionGroup.SendFramed, LiveOf, StaleIn;
      ghost var g := Abs();
      victim := 0;
      out := pkt;
      var live := LiveSessionsLocked(now);
      var chunked := Chunked(live);
      ChunkedSame(g, Abs(), live);
      if |chunked| > 0 {
        HaveQueues(g, now, chunked);
        ok := SendChunked(chunked, pkt, now);
        return;
      }
      if framed && now - framedLastSeen <= FRAMED_MODE_TTL {
        var framedSessions := Framed(live);
        FramedSame(g, Abs(), live);
        if |framedSessions| > 0 {
          ok, out := SendFramed(framedSessions, pkt);
          return;
        }
      }
      var picked;
      picked, victim := PickForLocked(pkt, later);
      if picked.None? {
        return false, pkt, victim;
      }
      ok := SendTo(picked.value, pkt);
    }
  }

  lemma {:induction false} WithoutAt(ids: seq<SessId>, id: SessId, i: nat)
    requires i < |ids| && ids[i] == id && id !in ids[..i]
    ensures Without(ids, id) == ids[..i] + ids[i + 1..]
  {
    if i > 0 {
      assert ids[..i][0] == ids[0];
      assert ids[1..][..i - 1] == ids[1..i] && ids[..i][1..] == ids[1..i];
      WithoutAt(ids[1..], id, i - 1);
      assert ids[1..][i..] == ids[i + 1..];
    }
  }

  lemma {:induction false} WithoutAbsent(ids: seq<SessId>, id: SessId)
    requires id !in ids
    ensures Without(ids, id) == ids
  {
    if ids != [] {
      WithoutAbsent(ids[1..], id);
    }
  }

  lemma DropOneMore(f: Flows, gone: set<Key>, k: Key)
    ensures DropFlows(DropFlows(f, gone), {k}) == DropFlows(f, gone + {k})
  {
    assert f.aff - gone - {k} == f.aff - (gone + {k});
    assert f.exp - gone - {k} == f.exp - (gone + {k});
  }

  lemma {:induction false} ChunkedSame(g: Group, g': Group, ids: seq<SessId>)
    requires g.sess == g'.sess
    ensures ChunkedOf(g, ids) == ChunkedOf(g', ids)
  {
    if ids != [] {
      ChunkedSame(g, g', ids[..|ids| - 1]);
    }
  }

  lemma {:induction false} FramedSame(g: Group, g': Group, ids: seq<SessId>)
    requires g.sess == g'.sess
    ensures FramedOf(g, ids) == FramedOf(g', ids)
  {
    if ids != [] {
      FramedSame(g, g', ids[..|ids| - 1]);
    }
  }

  lemma HaveQueues(g: Group, now: int, chunked: seq<SessId>)
    requires forall id | HasCh(g, id) :: id in g.queues && !g.queues[id].closed
    requires chunked == ChunkedOf(g, Live(g, now))
    ensures forall id | id in chunked :: id in g.queues && !g.queues[id].closed
  {
    forall id | id in chunked ensures HasCh(g, id) {
      GroupRun.ChunkedIff(g, Live(g, now), id);
      GroupRun.LiveIff(g, g.members, now, id);
    }
  }
}
