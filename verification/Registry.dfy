// Admission of RAW relays, the registry of session groups by tunnel address, and presence
// counts. Every relay runs its own goroutine; each step below is one atomic operation or
// one critical section of it, and the steps of all relays interleave freely.
module Registry {
  import opened Basics

  const MAX_SESSIONS_GLOBAL := 512
  const MAX_SESSIONS_PER_IDENTITY := 27

  // Where a relay is: `Refusing` has counted itself past the limit and not yet counted itself
  // out; `Fetched` holds the group it got from the registry; `Joined` is a member of it;
  // `Entered` is also counted in presence; `Removed` has still to give its slot back.
  // `OnWg` is a WireGuard session, which shares only the presence counts.
  datatype Pc =
    | Waiting | Refusing | Admitted | Fetched(g: nat) | Joined(g: nat) | Entered(g: nat) | Left(g: nat) | Removed
    | OnWg | Finished

  datatype Relay = Relay(ip: string, identity: string, pc: Pc)

  datatype Group = Group(ip: string, sessions: seq<int>)

  // Groups are pointers: `groups[g]` is the object, `byIp` the registry.
  datatype State = State(active: int, relays: seq<Relay>, groups: seq<Group>, byIp: map<string, nat>,
                         online: map<string, int>)

  datatype Event =
    | Start(i: nat) | Undo(i: nat) | Fetch(i: nat) | TryAdd(i: nat) | Enter(i: nat, cap: int) | Leave(i: nat)
    | Remove(i: nat) | Finish(i: nat) | WgEnter(i: nat, cap: int) | WgLeave(i: nat)
  datatype Log = Begin(relays: seq<Relay>) | Then(before: Log, last: Event)

  function PcOf(s: State, i: nat): Pc {
    if i < |s.relays| then s.relays[i].pc else Finished
  }

  function Move(s: State, i: nat, pc: Pc): State
    requires i < |s.relays|
  {
    s.(relays := s.relays[i := s.relays[i].(pc := pc)])
  }

  // ---------- Presence ----------

  function Sessions(online: map<string, int>, id: string): int {
    if id in online then online[id] else 0
  }

  /** userSessionEnter: None when the device is at the cap (0: no cap). */
  function EnterOnline(online: map<string, int>, id: string, cap: int): Option<map<string, int>> {
    if id == "" || (cap > 0 && Sessions(online, id) >= cap) then None
    else Some(online[id := Sessions(online, id) + 1])
  }

  function LeaveOnline(online: map<string, int>, id: string): map<string, int> {
    if id == "" || id !in online then online
    else if online[id] - 1 > 0 then online[id := online[id] - 1]
    else online - {id}
  }

  class OnlineUsers {
    var sessions: map<string, int>

    constructor ()
      ensures sessions == map[]
    {
      sessions := map[];
    }

    method UserSessionEnter(id: string, cap: int) returns (ok: bool)
      modifies this
      ensures ok <==> EnterOnline(old(sessions), id, cap).Some?
      ensures ok ==> sessions == EnterOnline(old(sessions), id, cap).value
      ensures !ok ==> forall d :: Sessions(sessions, d) == Sessions(old(sessions), d)
    {
      if id == "" {
        return false;
      }
      if id !in sessions {
        sessions := sessions[id := 0];
      }
      if cap > 0 && sessions[id] >= cap {
        return false;
      }
      sessions := sessions[id := sessions[id] + 1];
      ok := true;
    }

    method UserSessionLeave(id: string)
      modifies this
      ensures sessions == LeaveOnline(old(sessions), id)
    {
      if id == "" || id !in sessions {
        return;
      }
      sessions := sessions[id := sessions[id] - 1];
      if sessions[id] > 0 {
        return;
      }
      sessions := sessions - {id};
    }
  }

  // ---------- Groups ----------

  function Without(sessions: seq<int>, i: int): seq<int> {
    if sessions == [] then [] else if sessions[0] == i then sessions[1..] else [sessions[0]] + Without(sessions[1..], i)
  }

  /** Only relay i moves, and neither the slot counter nor presence is touched. */
  predicate OnlyMoves(s: State, s': State, i: nat) {
    && i < |s.relays| == |s'.relays| && s'.active == s.active && s'.online == s.online
    && s'.relays == s.relays[i := s.relays[i].(pc := s'.relays[i].pc)]
  }

  function LoadOrStore(s: State, i: nat): (s': State)
    requires i < |s.relays|
    ensures OnlyMoves(s, s', i) && s'.relays[i].pc.Fetched?
  {
    var ip := s.relays[i].ip;
    if ip in s.byIp then Move(s, i, Fetched(s.byIp[ip]))
    else Move(s.(groups := s.groups + [Group(ip, [])], byIp := s.byIp[ip := |s.groups|]), i, Fetched(|s.groups|))
  }

  function Add(s: State, i: nat, g: nat): (s': State)
    requires i < |s.relays| && s.relays[i].pc.Fetched?
    ensures OnlyMoves(s, s', i)
    ensures s'.relays[i].pc.Fetched? || s'.relays[i].pc.Removed? || s'.relays[i].pc.Joined?
  {
    if g >= |s.groups| then s
    else if |s.groups[g].sessions| >= MAX_SESSIONS_PER_IDENTITY then Move(s, i, Removed)
    else
      var ip := s.groups[g].ip;
      Move(s.(groups := s.groups[g := Group(ip, s.groups[g].sessions + [i])],
              byIp := if ip != "" then s.byIp[ip := g] else s.byIp), i, Joined(g))
  }

  function Drop(s: State, i: nat, g: nat): (s': State)
    requires i < |s.relays| && s.relays[i].pc.Left?
    ensures OnlyMoves(s, s', i) && (s'.relays[i].pc.Left? || s'.relays[i].pc.Removed?)
  {
    if g >= |s.groups| then s
    else
      var ip, rest := s.groups[g].ip, Without(s.groups[g].sessions, i);
      Move(s.(groups := s.groups[g := Group(ip, rest)],
              byIp := if rest == [] && ip != "" && ip in s.byIp && s.byIp[ip] == g then s.byIp - {ip} else s.byIp),
           i, Removed)
  }

  // ---------- Steps ----------

  function Step(s: State, e: Event): State {
    if e.i >= |s.relays| then s
    else
      var r := s.relays[e.i];
      match e
      case Start(i) =>
        if !r.pc.Waiting? then s
        else Move(s.(active := s.active + 1), i, if s.active + 1 > MAX_SESSIONS_GLOBAL then Refusing else Admitted)
      case Undo(i) => if r.pc.Refusing? then Move(s.(active := s.active - 1), i, Finished) else s
      case Fetch(i) => if r.pc.Admitted? then LoadOrStore(s, i) else s
      case TryAdd(i) => if r.pc.Fetched? then Add(s, i, r.pc.g) else s
      case Enter(i, cap) =>
        if !r.pc.Joined? then s
        else
          var next := EnterOnline(s.online, r.identity, cap);
          if next.Some? then Move(s.(online := next.value), i, Entered(r.pc.g)) else Move(s, i, Left(r.pc.g))
      case Leave(i) =>
        if r.pc.Entered? then Move(s.(online := LeaveOnline(s.online, r.identity)), i, Left(r.pc.g)) else s
      case Remove(i) => if r.pc.Left? then Drop(s, i, r.pc.g) else s
      case Finish(i) => if r.pc.Removed? then Move(s.(active := s.active - 1), i, Finished) else s
      case WgEnter(i, cap) =>
        if !r.pc.Waiting? then s
        else
          var next := EnterOnline(s.online, r.identity, cap);
          if next.Some? then Move(s.(online := next.value), i, OnWg) else Move(s, i, Finished)
      case WgLeave(i) =>
        if r.pc.OnWg? then Move(s.(online := LeaveOnline(s.online, r.identity)), i, Finished) else s
  }

  /** Any number of relays, none of them started. Relays without an address are turned away
      before this point. */
  ghost predicate Fresh(relays: seq<Relay>) {
    forall i | 0 <= i < |relays| :: relays[i].pc == Waiting && relays[i].ip != ""
  }

  ghost predicate WellFormed(l: Log) {
    if l.Begin? then Fresh(l.relays) else WellFormed(l.before)
  }

  function Run(l: Log): State {
    match l
    case Begin(relays) => State(0, relays, [], map[], map[])
    case Then(before, e) => Step(Run(before), e)
  }

  // ---------- Counting relays ----------

  datatype Kind = Holding | Bouncing | Online(identity: string)

  predicate Is(r: Relay, k: Kind) {
    match k
    case Holding => r.pc.Admitted? || r.pc.Fetched? || r.pc.Joined? || r.pc.Entered? || r.pc.Left? || r.pc.Removed?
    case Bouncing => r.pc.Refusing?
    case Online(id) => (r.pc.Entered? || r.pc.OnWg?) && r.identity == id
  }

  function One(r: Relay, k: Kind): (n: int)
    ensures 0 <= n <= 1
  {
    if Is(r, k) then 1 else 0
  }

  function Count(relays: seq<Relay>, k: Kind): nat {
    if relays == [] then 0 else One(relays[0], k) + Count(relays[1..], k)
  }

  lemma {:induction false} CountUpdate(relays: seq<Relay>, i: nat, r: Relay, k: Kind)
    requires i < |relays|
    ensures Count(relays[i := r], k) == Count(relays, k) - One(relays[i], k) + One(r, k)
  {
    if i == 0 {
      assert relays[i := r][1..] == relays[1..];
    } else {
      assert relays[i := r][1..] == relays[1..][i - 1 := r];
      CountUpdate(relays[1..], i - 1, r, k);
    }
  }

  lemma {:induction false} CountNone(relays: seq<Relay>, k: Kind)
    requires Fresh(relays)
    ensures Count(relays, k) == 0
  {
    if relays != [] {
      CountNone(relays[1..], k);
    }
  }

  /** Every step moves at most its own relay. */
  lemma StepMoves(s: State, e: Event, k: Kind)
    ensures var s' := Step(s, e);
            && |s'.relays| == |s.relays|
            && (forall j | 0 <= j < |s.relays| ::
                  s'.relays[j].ip == s.relays[j].ip && s'.relays[j].identity == s.relays[j].identity)
            && (forall j | 0 <= j < |s.relays| && j != e.i :: s'.relays[j] == s.relays[j])
            && (if e.i < |s.relays|
                then Count(s'.relays, k) == Count(s.relays, k) - One(s.relays[e.i], k) + One(s'.relays[e.i], k)
                else s' == s)
  {
    StepMovesOne(s, e);
    hide Step, Is;
    if e.i < |s.relays| {
      CountUpdate(s.relays, e.i, Step(s, e).relays[e.i], k);
    }
  }

  lemma StepMovesOne(s: State, e: Event)
    ensures var s' := Step(s, e);
            if e.i < |s.relays|
            then
              && |s'.relays| == |s.relays| && s'.relays == s.relays[e.i := s'.relays[e.i]]
              && s'.relays[e.i].ip == s.relays[e.i].ip && s'.relays[e.i].identity == s.relays[e.i].identity
            else s' == s
  {
    hide EnterOnline, LeaveOnline, LoadOrStore, Add, Drop;
  }

  // ---------- Slots: at most 512 relays admitted ----------

  ghost predicate SlotsOk(s: State) {
    && s.active == Count(s.relays, Holding) + Count(s.relays, Bouncing)
    && Count(s.relays, Holding) <= MAX_SESSIONS_GLOBAL
  }

  lemma SlotsStep(s: State, e: Event)
    requires SlotsOk(s)
    ensures SlotsOk(Step(s, e))
  {
    StepMoves(s, e, Holding);
    StepMoves(s, e, Bouncing);
    StepSlots(s, e);
    hide Count, Step, One;
  }

  /** How a step moves the counter, seen from its own relay. */
  lemma StepSlots(s: State, e: Event)
    ensures var s' := Step(s, e);
            if e.i < |s.relays|
            then
              && |s'.relays| == |s.relays|
              && s'.active - s.active == One(s'.relays[e.i], Holding) + One(s'.relays[e.i], Bouncing)
                                         - One(s.relays[e.i], Holding) - One(s.relays[e.i], Bouncing)
              && (One(s.relays[e.i], Holding) < One(s'.relays[e.i], Holding) ==> s.active < MAX_SESSIONS_GLOBAL)
            else s' == s
  {
    hide EnterOnline, LeaveOnline, LoadOrStore, Add, Drop;
  }

  /** The counter is the number of relays holding a slot plus those bouncing off the limit, and
      never more than 512 hold one. A relay is turned away exactly if holders and bouncing
      relays together already fill the limit. */
  lemma {:induction false} AdmittedWithinLimit(l: Log)
    requires WellFormed(l)
    ensures SlotsOk(Run(l))
    ensures forall i: nat | i < |Run(l).relays| && PcOf(Run(l), i) == Waiting ::
              Step(Run(l), Start(i)).relays[i].pc.Refusing?
              <==> Count(Run(l).relays, Holding) + Count(Run(l).relays, Bouncing) >= MAX_SESSIONS_GLOBAL
  {
    if l.Begin? {
      CountNone(l.relays, Holding);
      CountNone(l.relays, Bouncing);
    } else {
      AdmittedWithinLimit(l.before);
      SlotsStep(Run(l.before), l.last);
    }
    hide Count, WellFormed, Run;
  }

  // ---------- Presence: counts are the sessions entered and not left ----------

  ghost predicate PresenceOk(s: State) {
    forall id :: Sessions(s.online, id) == Count(s.relays, Online(id))
  }

  lemma EnterCounts(online: map<string, int>, id: string, cap: int, other: string)
    ensures var next := EnterOnline(online, id, cap);
            next.Some? ==>
              && Sessions(next.value, other) == Sessions(online, other) + (if other == id then 1 else 0)
              && (cap > 0 ==> Sessions(next.value, id) <= cap)
  {
  }

  lemma LeaveCounts(online: map<string, int>, id: string, other: string)
    requires id != "" && Sessions(online, id) > 0
    ensures Sessions(LeaveOnline(online, id), other) == Sessions(online, other) - if other == id then 1 else 0
  {
  }

  lemma {:induction false} OneIsCounted(relays: seq<Relay>, i: nat, k: Kind)
    requires i < |relays| && Is(relays[i], k)
    ensures Count(relays, k) >= 1
  {
    if i > 0 {
      OneIsCounted(relays[1..], i - 1, k);
    }
  }

  ghost predicate NamedOnline(s: State) {
    forall i | 0 <= i < |s.relays| && (s.relays[i].pc.Entered? || s.relays[i].pc.OnWg?) :: s.relays[i].identity != ""
  }

  lemma NamedStep(s: State, e: Event)
    requires NamedOnline(s)
    ensures NamedOnline(Step(s, e))
  {
    StepMovesOne(s, e);
    if e.i < |s.relays| {
      NamedOwn(s, e);
    }
    hide Step;
  }

  lemma NamedOwn(s: State, e: Event)
    requires NamedOnline(s) && e.i < |s.relays| && e.i < |Step(s, e).relays|
    ensures var r := Step(s, e).relays[e.i]; r.pc.Entered? || r.pc.OnWg? ==> r.identity != ""
  {
    hide LeaveOnline, LoadOrStore, Add, Drop;
  }

  /** How a step moves one device's count, seen from its own relay; a count that rises stays
      within the cap. */
  ghost predicate PresenceMoves(s: State, s': State, e: Event, id: string)
    requires e.i < |s.relays|
  {
    && e.i < |s'.relays|
    && Sessions(s'.online, id) - Sessions(s.online, id)
       == One(s'.relays[e.i], Online(id)) - One(s.relays[e.i], Online(id))
    && (Sessions(s'.online, id) > Sessions(s.online, id) ==>
          (e.Enter? || e.WgEnter?) && (e.cap > 0 ==> Sessions(s'.online, id) <= e.cap))
  }

  lemma EnterMoves(s: State, e: Event, id: string)
    requires e.i < |s.relays| && (e.Enter? || e.WgEnter?)
    ensures PresenceMoves(s, Step(s, e), e, id)
  {
    var r := s.relays[e.i];
    EnterCounts(s.online, r.identity, e.cap, id);
    EnterCounts(s.online, r.identity, e.cap, r.identity);
    hide EnterOnline, Sessions;
  }

  lemma LeaveMoves(s: State, e: Event, id: string)
    requires PresenceOk(s) && NamedOnline(s) && e.i < |s.relays| && (e.Leave? || e.WgLeave?)
    ensures PresenceMoves(s, Step(s, e), e, id)
  {
    var r := s.relays[e.i];
    if r.pc.Entered? || r.pc.OnWg? {
      OneIsCounted(s.relays, e.i, Online(r.identity));
      assert Sessions(s.online, r.identity) == Count(s.relays, Online(r.identity));
      LeaveCounts(s.online, r.identity, id);
    }
    hide LeaveOnline, Sessions, Count, PresenceOk;
  }

  lemma OtherMoves(s: State, e: Event, id: string)
    requires e.i < |s.relays| && !e.Enter? && !e.WgEnter? && !e.Leave? && !e.WgLeave?
    ensures PresenceMoves(s, Step(s, e), e, id)
  {
    hide LoadOrStore, Add, Drop, Sessions;
  }

  lemma StepPresence(s: State, e: Event, id: string)
    requires PresenceOk(s) && NamedOnline(s) && e.i < |s.relays|
    ensures PresenceMoves(s, Step(s, e), e, id)
  {
    if e.Enter? || e.WgEnter? {
      EnterMoves(s, e, id);
    } else if e.Leave? || e.WgLeave? {
      LeaveMoves(s, e, id);
    } else {
      OtherMoves(s, e, id);
    }
    hide Step, PresenceMoves;
  }

  lemma PresenceStep(s: State, e: Event, id: string)
    requires PresenceOk(s) && NamedOnline(s)
    ensures Sessions(Step(s, e).online, id) == Count(Step(s, e).relays, Online(id))
  {
    StepMoves(s, e, Online(id));
    if e.i < |s.relays| {
      StepPresence(s, e, id);
    }
    hide Step, Count, Sessions, One;
  }

  /** For every device the count is the number of its sessions that have entered and not left,
      RAW and WireGuard together. */
  lemma {:induction false} PresenceCounts(l: Log)
    requires WellFormed(l)
    ensures PresenceOk(Run(l)) && NamedOnline(Run(l))
  {
    hide Count;
    if l.Begin? {
      forall id
        ensures Sessions(Run(l).online, id) == Count(l.relays, Online(id))
      {
        CountNone(l.relays, Online(id));
      }
    } else {
      PresenceCounts(l.before);
      NamedStep(Run(l.before), l.last);
      forall id
        ensures Sessions(Run(l).online, id) == Count(Run(l).relays, Online(id))
      {
        PresenceStep(Run(l.before), l.last, id);
      }
    }
  }

  /** Every cap read from the configuration during the run was set and at most m. */
  ghost predicate CapsWithin(l: Log, m: int) {
    l.Then? ==> CapsWithin(l.before, m) && (l.last.Enter? || l.last.WgEnter? ==> 0 < l.last.cap <= m)
  }

  lemma {:induction false} PresenceWithinCap(l: Log, m: int, id: string)
    requires WellFormed(l) && CapsWithin(l, m) && m >= 0
    ensures Count(Run(l).relays, Online(id)) == Sessions(Run(l).online, id) <= m
  {
    PresenceCounts(l);
    if l.Then? {
      PresenceWithinCap(l.before, m, id);
      PresenceCounts(l.before);
      var s := Run(l.before);
      if l.last.i < |s.relays| {
        StepPresence(s, l.last, id);
      }
    }
    hide Step, Sessions, Count, NamedOnline;
  }

  // ---------- The registry ----------

  /** Some relay holds group g and has not yet tried to join it. */
  ghost predicate Pending(s: State, g: nat) {
    exists i :: 0 <= i < |s.relays| && s.relays[i].pc == Fetched(g)
  }

  /** The group a relay holds on to, or -1. */
  function GroupOf(pc: Pc): int {
    match pc
    case Fetched(g) => g
    case Joined(g) => g
    case Entered(g) => g
    case Left(g) => g
    case _ => -1
  }

  ghost predicate GroupsOk(s: State) {
    && (forall g | 0 <= g < |s.groups| :: s.groups[g].ip != "" && |s.groups[g].sessions| <= MAX_SESSIONS_PER_IDENTITY)
    && (forall i | 0 <= i < |s.relays| ::
          && s.relays[i].ip != "" && GroupOf(s.relays[i].pc) < |s.groups|
          && (GroupOf(s.relays[i].pc) >= 0 ==> s.groups[GroupOf(s.relays[i].pc)].ip == s.relays[i].ip))
    && (forall ip | ip in s.byIp :: s.byIp[ip] < |s.groups| && s.groups[s.byIp[ip]].ip == ip)
  }

  ghost predicate EmptyIsPending(s: State) {
    forall ip | ip in s.byIp && s.byIp[ip] < |s.groups| && s.groups[s.byIp[ip]].sessions == [] :: Pending(s, s.byIp[ip])
  }

  lemma {:induction false} WithoutShorter(sessions: seq<int>, i: int)
    ensures |Without(sessions, i)| <= |sessions|
  {
    if sessions != [] {
      WithoutShorter(sessions[1..], i);
    }
  }

  /** A pending relay stays pending through another relay's step. */
  lemma PendingKept(s: State, e: Event, g: nat)
    requires Pending(s, g)
    requires e.i < |s.relays| && s.relays[e.i].pc != Fetched(g)
    ensures Pending(Step(s, e), g)
  {
    var i :| 0 <= i < |s.relays| && s.relays[i].pc == Fetched(g);
    StepMovesOne(s, e);
    hide Step;
    assert Step(s, e).relays[i].pc == Fetched(g);
  }

  lemma FetchKeeps(s: State, i: nat)
    requires GroupsOk(s) && EmptyIsPending(s) && i < |s.relays| && s.relays[i].pc.Admitted?
    ensures GroupsOk(LoadOrStore(s, i)) && EmptyIsPending(LoadOrStore(s, i))
  {
    var s' := LoadOrStore(s, i);
    assert s' == Step(s, Fetch(i));
    FetchKeepsGroups(s, i);
    forall ip | ip in s'.byIp && s'.byIp[ip] < |s'.groups| && s'.groups[s'.byIp[ip]].sessions == []
      ensures Pending(s', s'.byIp[ip])
    {
      if ip == s.relays[i].ip {
        assert s'.relays[i].pc == Fetched(s'.byIp[ip]);
      } else {
        PendingKept(s, Fetch(i), s.byIp[ip]);
      }
    }
    hide GroupsOk;
  }

  lemma FetchKeepsGroups(s: State, i: nat)
    requires GroupsOk(s) && i < |s.relays|
    ensures GroupsOk(LoadOrStore(s, i))
  {
  }

  lemma AddKeeps(s: State, i: nat)
    requires GroupsOk(s) && EmptyIsPending(s) && i < |s.relays| && s.relays[i].pc.Fetched?
    ensures var s' := Add(s, i, s.relays[i].pc.g); GroupsOk(s') && EmptyIsPending(s')
  {
    var g: nat := s.relays[i].pc.g;
    assert GroupOf(s.relays[i].pc) == g;
    var s' := Add(s, i, g);
    assert s' == Step(s, TryAdd(i));
    forall ip | ip in s'.byIp && s'.byIp[ip] < |s'.groups| && s'.groups[s'.byIp[ip]].sessions == []
      ensures Pending(s', s'.byIp[ip])
    {
      PendingKept(s, TryAdd(i), s.byIp[ip]);
    }
  }

  lemma DropKeeps(s: State, i: nat)
    requires GroupsOk(s) && EmptyIsPending(s) && i < |s.relays| && s.relays[i].pc.Left?
    ensures var s' := Drop(s, i, s.relays[i].pc.g); GroupsOk(s') && EmptyIsPending(s')
  {
    var g: nat := s.relays[i].pc.g;
    assert GroupOf(s.relays[i].pc) == g;
    WithoutShorter(s.groups[g].sessions, i);
    hide Without;
    var s' := Drop(s, i, g);
    assert s' == Step(s, Remove(i));
    forall ip | ip in s'.byIp && s'.byIp[ip] < |s'.groups| && s'.groups[s'.byIp[ip]].sessions == []
      ensures Pending(s', s'.byIp[ip])
    {
      PendingKept(s, Remove(i), s.byIp[ip]);
    }
  }

  /** The other steps leave groups and registry alone, and no relay starts or stops waiting to
      join. */
  lemma QuietStep(s: State, e: Event)
    requires e.i < |s.relays|
    requires !(e.Fetch? && s.relays[e.i].pc.Admitted?) && !(e.TryAdd? && s.relays[e.i].pc.Fetched?)
    requires !(e.Remove? && s.relays[e.i].pc.Left?)
    ensures var s' := Step(s, e);
            && s'.groups == s.groups && s'.byIp == s.byIp && e.i < |s'.relays|
            && (s'.relays[e.i] != s.relays[e.i] ==>
                  && !s.relays[e.i].pc.Fetched? && !s'.relays[e.i].pc.Fetched?
                  && GroupOf(s'.relays[e.i].pc) == GroupOf(s.relays[e.i].pc))
  {
    hide EnterOnline, LeaveOnline, LoadOrStore, Add, Drop;
  }

  lemma QuietKeeps(s: State, e: Event)
    requires GroupsOk(s) && EmptyIsPending(s) && e.i < |s.relays|
    requires !(e.Fetch? && s.relays[e.i].pc.Admitted?) && !(e.TryAdd? && s.relays[e.i].pc.Fetched?)
    requires !(e.Remove? && s.relays[e.i].pc.Left?)
    ensures GroupsOk(Step(s, e)) && EmptyIsPending(Step(s, e))
  {
    QuietStep(s, e);
    StepMovesOne(s, e);
    var s' := Step(s, e);
    hide Step;
    if s'.relays[e.i] == s.relays[e.i] {
      assert s'.relays == s.relays;
    }
    forall ip | ip in s'.byIp && s'.byIp[ip] < |s'.groups| && s'.groups[s'.byIp[ip]].sessions == []
      ensures Pending(s', s'.byIp[ip])
    {
      if s'.relays != s.relays {
        PendingKept(s, e, s.byIp[ip]);
      }
    }
  }

  lemma RegistryStep(s: State, e: Event)
    requires GroupsOk(s) && EmptyIsPending(s)
    ensures GroupsOk(Step(s, e)) && EmptyIsPending(Step(s, e))
  {
    if e.i < |s.relays| {
      if e.Fetch? && s.relays[e.i].pc.Admitted? {
        FetchKeeps(s, e.i);
      } else if e.TryAdd? && s.relays[e.i].pc.Fetched? {
        AddKeeps(s, e.i);
      } else if e.Remove? && s.relays[e.i].pc.Left? {
        DropKeeps(s, e.i);
      } else {
        QuietKeeps(s, e);
      }
    }
    hide GroupsOk, EmptyIsPending, LoadOrStore, Add, Drop, EnterOnline, LeaveOnline;
  }

  /** No group exceeds 27 sessions, and an empty group is registered only while some relay that
      fetched it has not yet run tryAdd: nothing empty is left behind. */
  lemma {:induction false} RegistryClean(l: Log)
    requires WellFormed(l)
    ensures GroupsOk(Run(l)) && EmptyIsPending(Run(l))
  {
    if l.Then? {
      RegistryClean(l.before);
      RegistryStep(Run(l.before), l.last);
      hide GroupsOk, EmptyIsPending, Step;
    }
  }

  // ---------- Who is in a group ----------

  predicate Member(pc: Pc, g: nat) {
    !pc.Fetched? && GroupOf(pc) == g
  }

  ghost predicate NoRepeats(sessions: seq<int>) {
    forall a, b | 0 <= a < b < |sessions| :: sessions[a] != sessions[b]
  }

  ghost predicate MembersOk(s: State) {
    forall g | 0 <= g < |s.groups| ::
      && NoRepeats(s.groups[g].sessions)
      && forall i :: i in s.groups[g].sessions <==> 0 <= i < |s.relays| && Member(s.relays[i].pc, g)
  }

  lemma {:induction false} WithoutMembers(sessions: seq<int>, i: int)
    requires NoRepeats(sessions)
    ensures NoRepeats(Without(sessions, i))
    ensures forall j :: j in Without(sessions, i) <==> j in sessions && j != i
  {
    if sessions != [] {
      var rest := sessions[1..];
      assert forall j :: j in sessions <==> j == sessions[0] || j in rest;
      WithoutMembers(rest, i);
      if sessions[0] != i {
        assert sessions[0] !in rest;
        var w := Without(rest, i);
        assert forall j :: j in [sessions[0]] + w <==> j == sessions[0] || j in w;
      }
    }
  }

  lemma AddMembers(s: State, i: nat)
    requires GroupsOk(s) && MembersOk(s) && i < |s.relays| && s.relays[i].pc.Fetched?
    ensures MembersOk(Add(s, i, s.relays[i].pc.g))
  {
    var g: nat := s.relays[i].pc.g;
    assert GroupOf(s.relays[i].pc) == g;
    var s' := Add(s, i, g);
    assert !Member(s.relays[i].pc, g);
  }

  lemma DropMembers(s: State, i: nat)
    requires GroupsOk(s) && MembersOk(s) && i < |s.relays| && s.relays[i].pc.Left?
    ensures MembersOk(Drop(s, i, s.relays[i].pc.g))
  {
    var g: nat := s.relays[i].pc.g;
    assert GroupOf(s.relays[i].pc) == g;
    WithoutMembers(s.groups[g].sessions, i);
    hide Without;
  }

  lemma FetchMembers(s: State, i: nat)
    requires GroupsOk(s) && MembersOk(s) && i < |s.relays| && s.relays[i].pc.Admitted?
    ensures MembersOk(LoadOrStore(s, i))
  {
    var s' := LoadOrStore(s, i);
    if |s'.groups| > |s.groups| {
      forall j | 0 <= j < |s.relays|
        ensures !Member(s'.relays[j].pc, |s.groups|)
      {
        assert GroupOf(s.relays[j].pc) < |s.groups|;
      }
    }
  }

  lemma QuietMembers(s: State, e: Event)
    requires MembersOk(s) && e.i < |s.relays|
    requires !(e.Fetch? && s.relays[e.i].pc.Admitted?) && !(e.TryAdd? && s.relays[e.i].pc.Fetched?)
    requires !(e.Remove? && s.relays[e.i].pc.Left?)
    ensures MembersOk(Step(s, e))
  {
    QuietStep(s, e);
    StepMovesOne(s, e);
    hide Step, GroupOf;
  }

  lemma MembersStep(s: State, e: Event)
    requires GroupsOk(s) && MembersOk(s)
    ensures MembersOk(Step(s, e))
  {
    if e.i < |s.relays| {
      if e.Fetch? && s.relays[e.i].pc.Admitted? {
        FetchMembers(s, e.i);
      } else if e.TryAdd? && s.relays[e.i].pc.Fetched? {
        AddMembers(s, e.i);
      } else if e.Remove? && s.relays[e.i].pc.Left? {
        DropMembers(s, e.i);
      } else {
        QuietMembers(s, e);
      }
    }
    hide GroupsOk, MembersOk, LoadOrStore, Add, Drop, EnterOnline, LeaveOnline;
  }

  /** A group's sessions are exactly the relays that joined it and have not been removed, each
      listed once. */
  lemma {:induction false} MembersExact(l: Log)
    requires WellFormed(l)
    ensures MembersOk(Run(l))
  {
    if l.Then? {
      MembersExact(l.before);
      RegistryClean(l.before);
      MembersStep(Run(l.before), l.last);
      hide GroupsOk, EmptyIsPending, MembersOk, Step;
    }
  }

  // ---------- One group per address ----------

  /** Every group with sessions is the one registered for its address, so downlink packets
      find it; in particular an address has at most one such group. */
  ghost predicate SingleGroup(s: State) {
    forall g | 0 <= g < |s.groups| && s.groups[g].sessions != [] ::
      s.groups[g].ip in s.byIp && s.byIp[s.groups[g].ip] == g
  }

  /** The relay about to join does not push another group with sessions out of the registry. */
  ghost predicate NotDisplacing(s: State, i: nat) {
    i < |s.relays| && s.relays[i].pc.Fetched? && s.relays[i].ip in s.byIp ==>
      var registered := s.byIp[s.relays[i].ip];
      registered != s.relays[i].pc.g && registered < |s.groups| ==> s.groups[registered].sessions == []
  }

  /** Exactly when tryAdd keeps one group per address. */
  lemma JoinKeepsSingleGroup(s: State, i: nat)
    requires GroupsOk(s) && SingleGroup(s) && i < |s.relays| && s.relays[i].pc.Fetched?
    ensures SingleGroup(Step(s, TryAdd(i))) <==> NotDisplacing(s, i)
  {
    var r := s.relays[i];
    var g: nat := r.pc.g;
    assert GroupOf(r.pc) == g;
    var s' := Step(s, TryAdd(i));
    if !NotDisplacing(s, i) {
      var other := s.byIp[r.ip];
      assert s.groups[other].ip == r.ip;
      assert s.groups[g].sessions == [];
      assert s'.groups[other] == s.groups[other];
    }
  }

  /** Fetched and joined in one go, nothing is displaced. */
  lemma AtOnceNotDisplacing(s: State, i: nat)
    requires i < |s.relays| && s.relays[i].pc.Admitted?
    ensures NotDisplacing(Step(s, Fetch(i)), i)
  {
  }

  /** No join of the run displaces a group with sessions. */
  ghost predicate Undisturbed(l: Log) {
    l.Then? ==> Undisturbed(l.before) && (l.last.TryAdd? ==> NotDisplacing(Run(l.before), l.last.i))
  }

  lemma {:induction false} SingleGroupKept(l: Log)
    requires WellFormed(l) && Undisturbed(l)
    ensures SingleGroup(Run(l))
  {
    if l.Then? {
      SingleGroupKept(l.before);
      RegistryClean(l.before);
      SingleGroupStep(Run(l.before), l.last);
      hide GroupsOk, EmptyIsPending, SingleGroup, Step;
    }
  }

  lemma SingleGroupStep(s: State, e: Event)
    requires GroupsOk(s) && SingleGroup(s) && (e.TryAdd? ==> NotDisplacing(s, e.i))
    ensures SingleGroup(Step(s, e))
  {
    if e.i < |s.relays| {
      if e.Fetch? && s.relays[e.i].pc.Admitted? {
        hide EnterOnline, LeaveOnline, Add, Drop;
      } else if e.TryAdd? && s.relays[e.i].pc.Fetched? {
        JoinKeepsSingleGroup(s, e.i);
        hide SingleGroup;
      } else if e.Remove? && s.relays[e.i].pc.Left? {
        DropKeepsSingleGroup(s, e.i);
        hide SingleGroup, Drop;
      } else {
        QuietStep(s, e);
        hide Step;
      }
    }
  }

  lemma DropKeepsSingleGroup(s: State, i: nat)
    requires GroupsOk(s) && SingleGroup(s) && i < |s.relays| && s.relays[i].pc.Left?
    ensures SingleGroup(Drop(s, i, s.relays[i].pc.g))
  {
    var g: nat := s.relays[i].pc.g;
    WithoutShorter(s.groups[g].sessions, i);
    hide Without;
  }

  /** A relay that has just fetched a group joins it before anything else happens. */
  ghost predicate JoinsAtOnce(l: Log) {
    l.Then? ==> JoinsAtOnce(l.before) && (JustFetched(l.before) ==> l.last == TryAdd(l.before.last.i))
  }

  ghost predicate JustFetched(l: Log) {
    l.Then? && l.last.Fetch? && PcOf(Run(l.before), l.last.i).Admitted?
  }

  lemma FetchedBy(s: State, e: Event, i: nat)
    requires GroupsOk(s) && i < |s.relays|
    ensures i < |Step(s, e).relays|
    ensures Step(s, e).relays[i].pc.Fetched? ==>
              || (s.relays[i].pc.Fetched? && e != TryAdd(i))
              || (e == Fetch(i) && s.relays[i].pc.Admitted?)
  {
    StepMovesOne(s, e);
    if e == TryAdd(i) && s.relays[i].pc.Fetched? {
      assert GroupOf(s.relays[i].pc) < |s.groups|;
    } else if e.i < |s.relays| && !(e.Fetch? && s.relays[e.i].pc.Admitted?) && !(e.Remove? && s.relays[e.i].pc.Left?)
              && !(e.TryAdd? && s.relays[e.i].pc.Fetched?) {
      QuietStep(s, e);
    }
    hide EnterOnline, LeaveOnline, GroupsOk;
  }

  /** Only the relay that fetched last can hold a group it has not joined. */
  lemma {:induction false} FetchedIsLast(l: Log, i: nat)
    requires WellFormed(l) && JoinsAtOnce(l)
    ensures i < |Run(l).relays| && Run(l).relays[i].pc.Fetched? ==> JustFetched(l) && l.last == Fetch(i)
  {
    if l.Then? {
      FetchedIsLast(l.before, i);
      RegistryClean(l.before);
      StepMovesOne(Run(l.before), l.last);
      hide Step, GroupsOk, EmptyIsPending;
      if i < |Run(l.before).relays| {
        FetchedBy(Run(l.before), l.last, i);
      }
    }
  }

  /** Taken as one step, fetching and joining keep one group with sessions per address in every
      run. */
  lemma {:induction false} AtOnceUndisturbed(l: Log)
    requires WellFormed(l) && JoinsAtOnce(l)
    ensures Undisturbed(l)
  {
    if l.Then? {
      AtOnceUndisturbed(l.before);
      if l.last.TryAdd? && PcOf(Run(l.before), l.last.i).Fetched? {
        FetchedIsLast(l.before, l.last.i);
        var k := l.before.before;
        hide Step, NotDisplacing;
        AtOnceNotDisplacing(Run(k), l.last.i);
      }
    }
  }

  lemma SingleGroupAtOnce(l: Log)
    requires WellFormed(l) && JoinsAtOnce(l)
    ensures SingleGroup(Run(l))
  {
    AtOnceUndisturbed(l);
    SingleGroupKept(l);
  }

  // ---------- The race that leaves two ----------

  function Three(active: int, ip: string, id: string, a: Pc, b: Pc, c: Pc, groups: seq<Group>, byIp: map<string, nat>,
                 online: map<string, int>): State {
    State(active, [Relay(ip, id, a), Relay(ip, id, b), Relay(ip, id, c)], groups, byIp, online)
  }

  ghost predicate Reaches(l: Log, s: State) {
    WellFormed(l) && Run(l) == s
  }

  lemma ThreeSteps(l: Log, s: State, e: Event, s1: State, f: Event, s2: State, g: Event, s3: State)
    requires Reaches(l, s) && Step(s, e) == s1 && Step(s1, f) == s2 && Step(s2, g) == s3
    ensures Reaches(Then(Then(Then(l, e), f), g), s3)
  {
    hide Step;
    assert Reaches(Then(l, e), s1);
    assert Reaches(Then(Then(l, e), f), s2);
  }

  /** Relay 1 has joined alone. */
  lemma OneJoins(ip: string, id: string) returns (l: Log)
    requires ip != ""
    ensures Reaches(l, Three(1, ip, id, Waiting, Joined(0), Waiting, [Group(ip, [1])], map[ip := 0], map[]))
  {
    l := Begin([Relay(ip, id, Waiting), Relay(ip, id, Waiting), Relay(ip, id, Waiting)]);
    hide EnterOnline, LeaveOnline, Drop;
    assert map[ip := 0][ip := 0] == map[ip := 0] && [] + [1] == [1];
    ThreeSteps(l, Three(0, ip, id, Waiting, Waiting, Waiting, [], map[], map[]),
               Start(1), Three(1, ip, id, Waiting, Admitted, Waiting, [], map[], map[]),
               Fetch(1), Three(1, ip, id, Waiting, Fetched(0), Waiting, [Group(ip, [])], map[ip := 0], map[]),
               TryAdd(1), Three(1, ip, id, Waiting, Joined(0), Waiting, [Group(ip, [1])], map[ip := 0], map[]));
    l := Then(Then(Then(l, Start(1)), Fetch(1)), TryAdd(1));
  }

  /** Relay 0 fetches the same group; relay 1 enters presence. */
  lemma ZeroFetches(ip: string, id: string) returns (l: Log)
    requires ip != "" && id != ""
    ensures Reaches(l, Three(2, ip, id, Fetched(0), Entered(0), Waiting, [Group(ip, [1])], map[ip := 0], map[id := 1]))
  {
    l := OneJoins(ip, id);
    hide LeaveOnline, Drop, Add, Run, WellFormed;
    ThreeSteps(l, Three(1, ip, id, Waiting, Joined(0), Waiting, [Group(ip, [1])], map[ip := 0], map[]),
               Start(0), Three(2, ip, id, Admitted, Joined(0), Waiting, [Group(ip, [1])], map[ip := 0], map[]),
               Fetch(0), Three(2, ip, id, Fetched(0), Joined(0), Waiting, [Group(ip, [1])], map[ip := 0], map[]),
               Enter(1, 0), Three(2, ip, id, Fetched(0), Entered(0), Waiting, [Group(ip, [1])], map[ip := 0], map[id := 1]));
    l := Then(Then(Then(l, Start(0)), Fetch(0)), Enter(1, 0));
  }

  /** Relay 1 leaves, its empty group is unregistered, and relay 2 starts. */
  lemma OneLeaves(ip: string, id: string) returns (l: Log)
    requires ip != "" && id != ""
    ensures Reaches(l, Three(3, ip, id, Fetched(0), Removed, Admitted, [Group(ip, [])], map[], map[]))
  {
    l := ZeroFetches(ip, id);
    hide EnterOnline, Add, LoadOrStore, Run, WellFormed;
    assert map[id := 1] - {id} == map[] && map[ip := 0] - {ip} == map[] && Without([1], 1) == [];
    ThreeSteps(l, Three(2, ip, id, Fetched(0), Entered(0), Waiting, [Group(ip, [1])], map[ip := 0], map[id := 1]),
               Leave(1), Three(2, ip, id, Fetched(0), Left(0), Waiting, [Group(ip, [1])], map[ip := 0], map[]),
               Remove(1), Three(2, ip, id, Fetched(0), Removed, Waiting, [Group(ip, [])], map[], map[]),
               Start(2), Three(3, ip, id, Fetched(0), Removed, Admitted, [Group(ip, [])], map[], map[]));
    l := Then(Then(Then(l, Leave(1)), Remove(1)), Start(2));
  }

  /** Without that condition two groups with sessions can share one address: relay 0 has
      fetched the group that relay 1 then leaves empty, relay 2 registers a new one, and relay
      0's late tryAdd takes the registration away from it. */
  lemma TwoGroups(ip: string, id: string) returns (l: Log)
    requires ip != "" && id != ""
    ensures WellFormed(l) && Run(l).groups == [Group(ip, [0]), Group(ip, [2])] && Run(l).byIp == map[ip := 0]
  {
    hide EnterOnline, LeaveOnline, Drop, Run, WellFormed;
    l := OneLeaves(ip, id);
    assert map[ip := 1][ip := 1] == map[ip := 1] && map[ip := 1][ip := 0] == map[ip := 0];
    assert [] + [2] == [2] && [] + [0] == [0];
    ThreeSteps(l, Three(3, ip, id, Fetched(0), Removed, Admitted, [Group(ip, [])], map[], map[]),
               Fetch(2),
               Three(3, ip, id, Fetched(0), Removed, Fetched(1), [Group(ip, []), Group(ip, [])], map[ip := 1], map[]),
               TryAdd(2),
               Three(3, ip, id, Fetched(0), Removed, Joined(1), [Group(ip, []), Group(ip, [2])], map[ip := 1], map[]),
               TryAdd(0),
               Three(3, ip, id, Joined(0), Removed, Joined(1), [Group(ip, [0]), Group(ip, [2])], map[ip := 0], map[]));
    l := Then(Then(Then(l, Fetch(2)), TryAdd(2)), TryAdd(0));
  }
}
