// Downlink follows uplink: replies go back over the session that last carried the flow.
module GroupFollows {
  import opened Basics
  import opened SessionGroup
  import opened GroupRun
  import FlowKey

  /** Step e leaves flow `key` with session s: s does not leave, no other session carries
      the flow, the full-table cleaning does not take it, and a downlink packet of the flow
      itself finds s fresh and the pin unexpired. */
  ghost predicate Keeps(w: World, e: Event, s: SessId, key: Key) {
    match e
    case Leave(id) => id != s
    case Uplink(id, pkt, _, _) =>
      key in Step(w, e).g.flows.aff && (id in w.g.members && |pkt| >= 20 && FlowKey.Of(pkt) == key ==> id == s)
    case Downlink(pkt, _, later, _) =>
      if FlowKey.Of(pkt) == key then key in w.g.flows.exp && later <= w.g.flows.exp[key] && IsFresh(w.g, s, later)
      else key in Step(w, e).g.flows.aff
    case _ => true
  }

  /** Session s was the last to carry flow `key` up, and every later step kept the flow. */
  ghost predicate Pinned(h: History, s: SessId, key: Key) {
    match h
    case Begin => false
    case Then(h', e) =>
      || (e.Uplink? && e.id == s && s in Run(h').g.members && |e.pkt| >= 20 && FlowKey.Of(e.pkt) == key)
      || (Pinned(h', s, key) && Keeps(Run(h'), e, s, key))
  }

  lemma ExpireKeepsTargets(f: Flows, now: int, victim: Key, k: Key)
    ensures k in ExpireFlows(f, now, victim).aff ==> k in f.aff && ExpireFlows(f, now, victim).aff[k] == f.aff[k]
  {
  }

  lemma PickKeepsOthers(g: Group, pkt: Packet, now: int, victim: Key, key: Key)
    requires FlowKey.Of(pkt) != key && key in PickFor(g, pkt, now, victim).group.flows.aff
    ensures key in g.flows.aff && PickFor(g, pkt, now, victim).group.flows.aff[key] == g.flows.aff[key]
  {
    var key': Key := FlowKey.Of(pkt);
    hide FlowKey.Of, ExpireFlows;
    ExpireKeepsTargets(if key' in g.flows.aff then DropFlows(g.flows, {key'}) else g.flows, now, victim, key);
  }

  lemma PickKeepsOwn(g: Group, pkt: Packet, now: int, victim: Key, s: SessId)
    requires ValidSessions(g) && ValidFlows(g.flows, g.members)
    requires var key: Key := FlowKey.Of(pkt);
             key in g.flows.aff && g.flows.aff[key] == s && now <= g.flows.exp[key] && IsFresh(g, s, now)
    ensures var p := PickFor(g, pkt, now, victim); p.group.flows.aff == g.flows.aff && p.id == Some(s)
  {
    hide FlowKey.Of, ExpireFlows;
    LiveIff(g, g.members, now, s);
  }

  lemma EnqueueFlows(g: Group, pkt: Packet, now: int, later: int, victim: Key)
    ensures var f := EnqueueDown(g, pkt, now, later, victim).group.flows;
            f.aff == g.flows.aff || f == PickFor(CancelStale(g, now), pkt, later, victim).group.flows
  {
    hide FlowKey.Of, PickFor, LiveOf, ChunkedOf, FramedOf, FirstRoom, Turn, Counted, FramedSlot;
  }

  lemma DownlinkFlows(w: World, e: Event)
    requires e.Downlink?
    ensures Step(w, e).g.flows == EnqueueDown(w.g, e.pkt, e.now, e.later, e.victim).group.flows
  {
    hide EnqueueDown;
  }

  /** Cancelling stale sessions touches neither members nor flows. */
  lemma PinnedIsFresh(w: World, e: Event, s: SessId, key: Key)
    requires Valid(w) && e.Downlink? && Keeps(w, e, s, key) && FlowKey.Of(e.pkt) == key
    ensures var c := CancelStale(w.g, e.now);
            && ValidSessions(c) && ValidFlows(c.flows, c.members) && c.flows == w.g.flows
            && key in c.flows.exp && e.later <= c.flows.exp[key] && IsFresh(c, s, e.later)
  {
    hide FlowKey.Of, EnqueueDown, ValidQueues, StaleIn;
  }

  lemma DownlinkKeeps(w: World, e: Event, s: SessId, key: Key)
    requires Valid(w) && e.Downlink? && Keeps(w, e, s, key)
    requires key in w.g.flows.aff && w.g.flows.aff[key] == s
    ensures var f := Step(w, e).g.flows; key in f.aff && f.aff[key] == s
  {
    hide FlowKey.Of, PickFor, EnqueueDown, ValidQueues, LiveOf, StaleIn;
    var c := CancelStale(w.g, e.now);
    var picked := PickFor(c, e.pkt, e.later, e.victim).group.flows;
    EnqueueFlows(w.g, e.pkt, e.now, e.later, e.victim);
    DownlinkFlows(w, e);
    if Step(w, e).g.flows.aff != w.g.flows.aff {
      if FlowKey.Of(e.pkt) == key {
        PinnedIsFresh(w, e, s, key);
        hide Valid, Keeps, Step;
        PickKeepsOwn(c, e.pkt, e.later, e.victim, s);
      } else {
        assert key in Step(w, e).g.flows.aff;
        hide Valid, Keeps, Step;
        PickKeepsOthers(c, e.pkt, e.later, e.victim, key);
      }
    }
  }

  lemma UplinkKeeps(w: World, e: Event, s: SessId, key: Key)
    requires e.Uplink? && Keeps(w, e, s, key) && key in w.g.flows.aff && w.g.flows.aff[key] == s
    ensures var f := Step(w, e).g.flows; key in f.aff && f.aff[key] == s
  {
    hide FlowKey.Of, ExpireFlows;
    ExpireKeepsTargets(w.g.flows, e.now, e.victim, key);
  }

  lemma StepKeeps(w: World, e: Event, s: SessId, key: Key)
    requires Valid(w) && Keeps(w, e, s, key) && key in w.g.flows.aff && w.g.flows.aff[key] == s
    ensures var f := Step(w, e).g.flows; key in f.aff && f.aff[key] == s
  {
    hide FlowKey.Of, EnqueueDown, ExpireFlows, Valid;
    if e.Downlink? {
      hide Step, Keeps;
      DownlinkKeeps(w, e, s, key);
    } else if e.Uplink? {
      hide Step, Keeps;
      UplinkKeeps(w, e, s, key);
    }
  }

  lemma {:induction false} PinnedTarget(h: History, s: SessId, key: Key)
    requires Pinned(h, s, key)
    ensures var f := Run(h).g.flows; key in f.aff && f.aff[key] == s
  {
    hide FlowKey.Of;
    var e := h.last;
    if e.Uplink? && e.id == s && s in Run(h.before).g.members && |e.pkt| >= 20 && FlowKey.Of(e.pkt) == key {
    } else {
      PinnedTarget(h.before, s, key);
      RunSafe(h.before);
      StepKeeps(Run(h.before), e, s, key);
    }
  }

  /** A reply goes to the session that last carried its flow up, and to no other queue,
      as long as the flow was kept since and that session takes plain packets, is fresh and
      its pin unexpired; only a full queue of that very session loses it. The pin is renewed. */
  lemma DownlinkFollowsUplink(h: History, s: SessId, request: Packet, reply: Packet, now: int, later: int, victim: Key)
    requires FlowKey.IsReply(reply, request) && Pinned(h, s, FlowKey.Of(request))
    requires var g := Run(h).g;
             && !IsFramed(g, s) && !IsChunked(g, s) && IsFresh(g, s, now)
             && FlowKey.Of(request) in g.flows.exp && now <= g.flows.exp[FlowKey.Of(request)]
    ensures var g := Run(h).g;
            var g' := Run(Then(h, Downlink(reply, now, later, victim))).g;
            && s in g.members && s in g.queues
            && g'.queues == (if HasRoom(g, s) then g.queues[s := g.queues[s].(items := g.queues[s].items + [reply])]
                             else g.queues)
            && g'.flows == PinFlow(g.flows, FlowKey.Of(request), s, now)
            && g'.flows.exp[FlowKey.Of(request)] == now + 180 * SECOND
  {
    var key: Key := FlowKey.Of(request);
    FlowKey.ReplySharesKey(reply, request);
    PinnedTarget(h, s, key);
    RunSafe(h);
    RunThen(h, Downlink(reply, now, later, victim));
    hide FlowKey.Of, Run, Pinned, FlowKey.IsReply, Valid, Step;
    StickyStep(Run(h), s, reply, now, later, victim);
  }

  /** An uplink packet pins its flow for 180 s to the session that carried it. */
  lemma UplinkPins(w: World, s: SessId, pkt: Packet, now: int, victim: Key)
    requires s in w.g.members && |pkt| >= 20
    ensures var f, key := Step(w, Uplink(s, pkt, now, victim)).g.flows, FlowKey.Of(pkt);
            key in f.aff && f.aff[key] == s && key in f.exp && f.exp[key] == now + 180 * SECOND
  {
    UplinkStep(w, s, pkt, now, victim);
    hide FlowKey.Of, Step, ExpireFlows;
  }

  lemma StickyStep(w: World, s: SessId, pkt: Packet, now: int, later: int, victim: Key)
    requires Valid(w) && FlowKey.Of(pkt) in w.g.flows.aff && w.g.flows.aff[FlowKey.Of(pkt)] == s
    requires Sticky(w.g, FlowKey.Of(pkt), now)
    ensures var g, g' := w.g, Step(w, Downlink(pkt, now, later, victim)).g;
            && s in g.members && s in g.queues
            && g'.queues == (if HasRoom(g, s) then g.queues[s := g.queues[s].(items := g.queues[s].items + [pkt])]
                             else g.queues)
            && g'.flows == PinFlow(g.flows, FlowKey.Of(pkt), s, now)
  {
    StickyIs(w.g, pkt, now, later, victim);
    hide FlowKey.Of, EnqueueDown, Sticky, NoRepeats;
    assert w.g.flows.aff[FlowKey.Of(pkt) := s] == w.g.flows.aff;
    assert s in w.g.members && HasCh(w.g, s) && s in w.g.queues;
    hide ValidFlows, ValidSessions;
    assert !w.g.queues[s].closed;
  }

  lemma StickyIs(g: Group, pkt: Packet, now: int, later: int, victim: Key)
    requires Sticky(g, FlowKey.Of(pkt), now)
    ensures EnqueueDown(g, pkt, now, later, victim)
              == SendTo(g.(flows := Flows(g.flows.aff, g.flows.exp[FlowKey.Of(pkt) := now + FLOW_AFF_TTL])),
                        g.flows.aff[FlowKey.Of(pkt)], pkt)
  {
    hide FlowKey.Of, SendTo;
  }

  lemma RunThen(h: History, e: Event)
    ensures Run(Then(h, e)) == Step(Run(h), e)
  {
  }

  // ---------- Another conversation of the same hosts ----------

  lemma UplinkOfAnother(g: Group, id: SessId, pkt: Packet, now: int, victim: Key, key: Key)
    requires |g.flows.aff| < FLOW_AFF_MAX && FlowKey.Of(pkt) != key && key in g.flows.aff
    ensures var f := NoteUplink(g, id, pkt, now, victim).flows;
            && key in f.aff && f.aff[key] == g.flows.aff[key]
            && (key in f.exp <==> key in g.flows.exp) && (key in f.exp ==> f.exp[key] == g.flows.exp[key])
  {
    hide FlowKey.Of;
  }

  lemma UplinkStep(w: World, id: SessId, pkt: Packet, now: int, victim: Key)
    ensures Step(w, Uplink(id, pkt, now, victim)).g
              == if id in w.g.members then NoteUplink(w.g, id, pkt, now, victim) else w.g
  {
    hide NoteUplink;
  }

  /** Another connection between the same two hosts, over whatever session, leaves the pin of
      the first alone, target and expiry, as long as the flow table is not full. */
  lemma OtherConversationKeepsPin(h: History, s: SessId, mine: Packet, id: SessId, other: Packet, now: int, victim: Key)
    requires Pinned(h, s, FlowKey.Of(mine)) && FlowKey.SameHosts(mine, other) && !FlowKey.SamePorts(mine, other)
    requires |Run(h).g.flows.aff| < FLOW_AFF_MAX
    ensures var h' := Then(h, Uplink(id, other, now, victim));
            var exp, exp' := Run(h).g.flows.exp, Run(h').g.flows.exp;
            var key: Key := FlowKey.Of(mine);
            && Pinned(h', s, key)
            && (key in exp' <==> key in exp) && (key in exp' ==> exp'[key] == exp[key])
  {
    var key: Key := FlowKey.Of(mine);
    var e := Uplink(id, other, now, victim);
    FlowKey.ConversationsToldApart(mine, other);
    PinnedTarget(h, s, key);
    RunThen(h, e);
    UplinkStep(Run(h), id, other, now, victim);
    hide FlowKey.Of, FlowKey.SameHosts, FlowKey.SamePorts, FlowKey.HasPorts, Run, Step, NoteUplink;
    UplinkOfAnother(Run(h).g, id, other, now, victim, key);
    assert Keeps(Run(h), e, s, key);
  }

  // ---------- What cleaning a full table costs ----------

  lemma CleanedAff(f: Flows, now: int, victim: Key, k: Key)
    requires f.aff.Keys == f.exp.Keys && k in f.exp && now <= f.exp[k]
    ensures var g := DropFlows(f, Expired(f, now));
            k in g.aff && (k !in ExpireFlows(f, now, victim).aff ==> |g.aff| >= FLOW_AFF_MAX && k == Evicted(g.aff.Keys, victim))
  {
  }

  lemma FewerThanFull(f: Flows, now: int, old': Key)
    requires f.aff.Keys == f.exp.Keys && |f.aff| <= FLOW_AFF_MAX && old' in f.exp && now > f.exp[old']
    ensures |DropFlows(f, Expired(f, now)).aff| < FLOW_AFF_MAX
  {
    var g := DropFlows(f, Expired(f, now));
    assert g.aff.Keys == f.aff.Keys - Expired(f, now);
    assert |g.aff| == |g.aff.Keys| && |f.aff| == |f.aff.Keys|;
    assert old' in Expired(f, now) && old' in f.aff.Keys;
    CardinalityOfDifference(f.aff.Keys, Expired(f, now));
  }

  /** Cleaning never takes two unexpired flows, and takes none if the table is not full or holds an
      expired one. */
  lemma CleaningSpares(f: Flows, members: seq<SessId>, now: int, victim: Key, k: Key, other: Key)
    requires ValidFlows(f, members) && k in f.exp && now <= f.exp[k] && other in f.exp && other != k
    ensures var g := ExpireFlows(f, now, victim);
            k in g.aff || (|f.aff| == 8192 && now <= f.exp[other] && other in g.aff)
  {
    CleanedAff(f, now, victim, k);
    if now <= f.exp[other] {
      CleanedAff(f, now, victim, other);
    } else {
      FewerThanFull(f, now, other);
    }
    hide Expired, DropFlows, Evicted;
  }
}
