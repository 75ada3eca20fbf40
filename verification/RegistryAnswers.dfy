// What a relay is answered at each gate, exactly: a slot, a place in its group, a place among
// its device's sessions.
module RegistryAnswers {
  import opened Basics
  import opened Registry

  predicate Barred(s: State, id: string, cap: int) {
    id == "" || (cap > 0 && Sessions(s.online, id) >= cap)
  }

  lemma EnterStep(s: State, i: nat, cap: int)
    requires i < |s.relays| && s.relays[i].pc.Joined?
    ensures PcOf(Step(s, Enter(i, cap)), i)
              == if Barred(s, s.relays[i].identity, cap) then Left(s.relays[i].pc.g) else Entered(s.relays[i].pc.g)
  {
    hide Sessions;
  }

  lemma WgEnterStep(s: State, i: nat, cap: int)
    requires i < |s.relays| && s.relays[i].pc.Waiting?
    ensures PcOf(Step(s, WgEnter(i, cap)), i) == if Barred(s, s.relays[i].identity, cap) then Finished else OnWg
  {
    hide Sessions;
  }

  /** Entering presence is refused exactly to a session without an id and at the cap, counting the
      device's RAW and WireGuard sessions that have entered and not left. */
  lemma EnterAnswered(l: Log, i: nat, cap: int)
    requires WellFormed(l) && i < |Run(l).relays|
    ensures var s := Run(l);
            var id := s.relays[i].identity;
            var refused := id == "" || (cap > 0 && Count(s.relays, Online(id)) >= cap);
            && (s.relays[i].pc.Joined? ==>
                  PcOf(Step(s, Enter(i, cap)), i) == if refused then Left(s.relays[i].pc.g) else Entered(s.relays[i].pc.g))
            && (s.relays[i].pc.Waiting? ==> PcOf(Step(s, WgEnter(i, cap)), i) == if refused then Finished else OnWg)
  {
    hide Run, Count, WellFormed, Step, PcOf, Sessions;
    PresenceCounts(l);
    var s := Run(l);
    assert Sessions(s.online, s.relays[i].identity) == Count(s.relays, Online(s.relays[i].identity));
    if s.relays[i].pc.Joined? {
      EnterStep(s, i, cap);
    } else if s.relays[i].pc.Waiting? {
      WgEnterStep(s, i, cap);
    }
  }

  /** tryAdd refuses exactly when the fetched group already has 27 sessions; otherwise the relay is
      its last session, and the group is the registered one of the address. */
  lemma JoinAnswered(l: Log, i: nat)
    requires WellFormed(l) && i < |Run(l).relays| && Run(l).relays[i].pc.Fetched?
    ensures var s, s' := Run(l), Step(Run(l), TryAdd(i));
            var g := s.relays[i].pc.g;
            && g < |s.groups| == |s'.groups| && s.groups[g].ip == s.relays[i].ip
            && (if |s.groups[g].sessions| >= 27
                then PcOf(s', i) == Removed && s'.groups == s.groups && s'.byIp == s.byIp
                else && PcOf(s', i) == Joined(g) && s'.groups[g].sessions == s.groups[g].sessions + [i]
                     && s.relays[i].ip in s'.byIp && s'.byIp[s.relays[i].ip] == g
                     && forall h | 0 <= h < |s.groups| && h != g :: s'.groups[h] == s.groups[h])
  {
    RegistryClean(l);
    assert GroupOf(Run(l).relays[i].pc) >= 0;
    hide Run, WellFormed, EmptyIsPending;
  }

  /** A relay fetches the registered group of its address, or a new empty one if there is none. */
  lemma FetchAnswered(l: Log, i: nat)
    requires WellFormed(l) && i < |Run(l).relays| && Run(l).relays[i].pc.Admitted?
    ensures var s, s' := Run(l), Step(Run(l), Fetch(i));
            var ip := s.relays[i].ip;
            && ip in s'.byIp && PcOf(s', i) == Fetched(s'.byIp[ip]) && s'.byIp[ip] < |s'.groups|
            && (ip in s.byIp ==> s'.byIp == s.byIp && s'.groups == s.groups)
            && (ip !in s.byIp ==> s'.byIp[ip] == |s.groups| && s'.groups == s.groups + [Group(ip, [])])
  {
    RegistryClean(l);
    hide Run, WellFormed, EmptyIsPending;
  }
}
