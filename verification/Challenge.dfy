// One-time challenges of the direct RAW port. A consumer first loads and checks an entry and
// takes it out in a second step, so several consumers can pass the checks for one entry.
module Challenge {
  import opened Basics
  import opened Text

  const TTL := 30 * SECOND

  datatype Entry = Entry(exp: int, remote: string)

  // One call of consumeRawDirectChallenge: `Outdated` found the entry expired and has still to
  // delete it; `Cleared` passed the checks at time `at` and has still to take the entry out.
  datatype Consumer =
    | Calling
    | Outdated(chal: string)
    | Cleared(chal: string, from: string, at: int)
    | Accepted(chal: string, from: string, at: int)
    | Rejected

  datatype State = State(table: map<string, Entry>, consumers: seq<Consumer>)

  datatype Event =
    | Issue(chal: string, remote: string, now: int)
    | Check(i: nat, chal: string, from: string, now: int) | Discard(i: nat) | Take(i: nat)
  datatype Log = Begin(consumers: nat) | Then(before: Log, last: Event)

  /** The verdict of the checks on the loaded entry. */
  function Verdict(table: map<string, Entry>, chal: string, from: string, now: int): Consumer {
    if from == "" || chal !in table || table[chal].remote != from then Rejected
    else if table[chal].exp < now then Outdated(chal)
    else Cleared(chal, from, now)
  }

  function Step(s: State, e: Event): State {
    if e.Issue? then s.(table := s.table[e.chal := Entry(e.now + TTL, e.remote)])
    else if e.i >= |s.consumers| then s
    else
      var c := s.consumers[e.i];
      match e
      case Check(i, chal, from, now) =>
        if c.Calling? then s.(consumers := s.consumers[i := Verdict(s.table, chal, from, now)]) else s
      case Discard(i) =>
        if c.Outdated? then State(s.table - {c.chal}, s.consumers[i := Rejected]) else s
      case Take(i) =>
        if !c.Cleared? then s
        else if c.chal in s.table then State(s.table - {c.chal}, s.consumers[i := Accepted(c.chal, c.from, c.at)])
        else s.(consumers := s.consumers[i := Rejected])
  }

  function Run(l: Log): State {
    match l
    case Begin(n) => State(map[], seq(n, _ => Calling))
    case Then(before, e) => Step(Run(before), e)
  }

  // ---------- The request ----------

  /** A part that begins with `CHAL=` in any letter case. No other letters have these capitals. */
  predicate IsChal(part: string) {
    && |part| >= 5 && (part[0] == 'C' || part[0] == 'c') && (part[1] == 'H' || part[1] == 'h')
    && (part[2] == 'A' || part[2] == 'a') && (part[3] == 'L' || part[3] == 'l') && part[4] == '='
  }

  /** The challenge in the first such part; later ones do not count. */
  function ChalIn(parts: seq<string>): Option<string> {
    if parts == [] then None
    else if IsChal(Trim(parts[0])) then Some(Trim(Trim(parts[0])[5..]))
    else ChalIn(parts[1..])
  }

  function ChalOf(request: string): Option<string> {
    ChalIn(Split(Trim(request), '|'))
  }

  /** A request that carries the challenge in one part of its own, without white space around
      it and before any other such part, is understood. */
  lemma {:induction false} ChalFound(before: seq<string>, chal: string, rest: seq<string>)
    requires forall i | 0 <= i < |before| :: OnePart(before[i], '|') && !IsChal(Trim(before[i]))
    requires forall i | 0 <= i < |rest| :: OnePart(rest[i], '|')
    requires OnePart(chal, '|') && chal != "" && Trimmed(chal)
    requires Trimmed(Join(before + ["CHAL=" + chal] + rest, '|'))
    ensures ChalOf(Join(before + ["CHAL=" + chal] + rest, '|')) == Some(chal)
  {
    var parts := before + ["CHAL=" + chal] + rest;
    TrimIff(Join(parts, '|'));
    forall i | 0 <= i < |parts|
      ensures OnePart(parts[i], '|')
    {
    }
    SplitJoin(parts, '|');
    FirstChal(before, chal, rest);
    hide Split, Join, Trim, ChalIn;
  }

  lemma {:induction false} FirstChal(before: seq<string>, chal: string, rest: seq<string>)
    requires forall i | 0 <= i < |before| :: !IsChal(Trim(before[i]))
    requires chal != "" && Trimmed(chal)
    ensures ChalIn(before + ["CHAL=" + chal] + rest) == Some(chal)
  {
    var parts := before + ["CHAL=" + chal] + rest;
    if before == [] {
      var part := "CHAL=" + chal;
      assert parts[0] == part && part[5..] == chal;
      TrimIff(part);
      TrimIff(chal);
    } else {
      assert parts[1..] == before[1..] + ["CHAL=" + chal] + rest;
      FirstChal(before[1..], chal, rest);
    }
  }

  // ---------- The same, one call at a time ----------

  class DirectChallenges {
    var table: map<string, Entry>

    constructor ()
      ensures table == map[]
    {
      table := map[];
    }

    method IssueRawDirectChallenge(chal: string, remote: string, now: int)
      modifies this
      ensures table == old(table)[chal := Entry(now + TTL, remote)]
    {
      table := table[chal := Entry(now + TTL, remote)];
    }

    /** An undisturbed call: accepted exactly from the right address in time, and the entry
        gone after that or after expiry. A request without a challenge is refused. */
    method ConsumeRawDirectChallenge(request: string, from: string, now: int) returns (ok: bool)
      modifies this
      ensures var chal := ChalOf(request);
              if chal.None? then !ok && table == old(table)
              else
                var v := Verdict(old(table), chal.value, from, now);
                (ok <==> v.Cleared?) && table == if v.Rejected? then old(table) else old(table) - {chal.value}
    {
      if from == "" {
        return false;
      }
      var parts := Split(Trim(request), '|');
      hide Split, Trim, IsChal;
      for i := 0 to |parts|
        invariant ChalOf(request) == ChalIn(parts[i..]) && table == old(table)
      {
        assert parts[i..][0] == parts[i] && parts[i..][1..] == parts[i + 1..];
        var part := Trim(parts[i]);
        if !IsChal(part) {
          continue;
        }
        IsChalLength(part);
        var chal := Trim(part[5..]);
        if chal !in table {
          return false;
        }
        var entry := table[chal];
        if entry.remote != from {
          return false;
        }
        if entry.exp < now {
          table := table - {chal};
          return false;
        }
        table := table - {chal};
        return true;
      }
      ok := false;
    }
  }

  lemma IsChalLength(part: string)
    requires IsChal(part)
    ensures |part| >= 5
  {
  }

  // ---------- Accepted at most once ----------

  function IssuedTimes(l: Log, chal: string): nat {
    match l
    case Begin(_) => 0
    case Then(before, e) => IssuedTimes(before, chal) + if e.Issue? && e.chal == chal then 1 else 0
  }

  function One(c: Consumer, chal: string): int {
    if c.Accepted? && c.chal == chal then 1 else 0
  }

  function AcceptedTimes(cs: seq<Consumer>, chal: string): nat {
    if cs == [] then 0 else One(cs[0], chal) + AcceptedTimes(cs[1..], chal)
  }

  lemma {:induction false} AcceptedUpdate(cs: seq<Consumer>, i: nat, c: Consumer, chal: string)
    requires i < |cs|
    ensures AcceptedTimes(cs[i := c], chal) == AcceptedTimes(cs, chal) - One(cs[i], chal) + One(c, chal)
  {
    if i == 0 {
      assert cs[i := c][1..] == cs[1..];
    } else {
      assert cs[i := c][1..] == cs[1..][i - 1 := c];
      AcceptedUpdate(cs[1..], i - 1, c, chal);
    }
  }

  lemma {:induction false} NoneAccepted(n: nat, chal: string)
    ensures AcceptedTimes(seq(n, _ => Calling), chal) == 0
  {
    if n > 0 {
      assert seq(n, _ => Calling)[1..] == seq(n - 1, _ => Calling);
      NoneAccepted(n - 1, chal);
    }
  }

  function Open(s: State, chal: string): int {
    if chal in s.table then 1 else 0
  }

  lemma StepCounts(s: State, e: Event, chal: string)
    ensures var s' := Step(s, e);
            AcceptedTimes(s'.consumers, chal) + Open(s', chal)
            <= AcceptedTimes(s.consumers, chal) + Open(s, chal) + if e.Issue? && e.chal == chal then 1 else 0
  {
    if !e.Issue? && e.i < |s.consumers| {
      OwnConsumer(s, e, chal);
      AcceptedUpdate(s.consumers, e.i, Step(s, e).consumers[e.i], chal);
      hide Step, AcceptedTimes;
    }
  }

  /** A consumer is newly accepted only by taking the entry out of the table. */
  lemma OwnConsumer(s: State, e: Event, chal: string)
    requires !e.Issue? && e.i < |s.consumers|
    ensures var s' := Step(s, e);
            && |s'.consumers| == |s.consumers| && s'.consumers == s.consumers[e.i := s'.consumers[e.i]]
            && One(s'.consumers[e.i], chal) + Open(s', chal) <= One(s.consumers[e.i], chal) + Open(s, chal)
  {
  }

  /** In every interleaving a challenge is accepted at most as often as it was issued: once, as
      challenges are 128 random bits. */
  lemma {:induction false} AcceptedAtMostOnce(l: Log, chal: string)
    ensures AcceptedTimes(Run(l).consumers, chal) + Open(Run(l), chal) <= IssuedTimes(l, chal)
  {
    match l
    case Begin(n) => NoneAccepted(n, chal);
    case Then(before, e) =>
      AcceptedAtMostOnce(before, chal);
      StepCounts(Run(before), e, chal);
      hide Step, AcceptedTimes;
  }

  // ---------- Only from its address, and in time ----------

  /** `chal` was issued to address `to`, with expiry `exp`. */
  ghost predicate WasIssued(l: Log, chal: string, to: string, exp: int) {
    l.Then? && (WasIssued(l.before, chal, to, exp) || l.last == Issue(chal, to, exp - TTL))
  }

  /** `chal` was issued to `from`, and at time `at` it had not expired. */
  ghost predicate Entitled(l: Log, chal: string, from: string, at: int) {
    from != "" && exists exp :: WasIssued(l, chal, from, exp) && at <= exp
  }

  ghost predicate Justified(l: Log, c: Consumer) {
    c.Cleared? || c.Accepted? ==> Entitled(l, c.chal, c.from, c.at)
  }

  ghost predicate TableIssued(l: Log, table: map<string, Entry>) {
    forall chal | chal in table :: WasIssued(l, chal, table[chal].remote, table[chal].exp)
  }

  lemma {:induction false} OnlyOwnerInTime(l: Log)
    ensures TableIssued(l, Run(l).table)
    ensures forall i | 0 <= i < |Run(l).consumers| :: Justified(l, Run(l).consumers[i])
  {
    if l.Then? {
      OnlyOwnerInTime(l.before);
      var s, s' := Run(l.before), Run(l);
      assert TableIssued(l, s'.table) by {
        TableStep(l);
      }
      forall i | 0 <= i < |s'.consumers|
        ensures Justified(l, s'.consumers[i])
      {
        ConsumerStep(l, i);
      }
      hide Step, Run;
    }
  }

  lemma TableStep(l: Log)
    requires l.Then? && TableIssued(l.before, Run(l.before).table)
    ensures TableIssued(l, Run(l).table)
  {
  }

  lemma EntitledBy(l: Log, chal: string, from: string, at: int, exp: int)
    requires WasIssued(l, chal, from, exp) && from != "" && at <= exp
    ensures Entitled(l, chal, from, at)
  {
  }

  lemma EntitledLater(l: Log, chal: string, from: string, at: int)
    requires l.Then? && Entitled(l.before, chal, from, at)
    ensures Entitled(l, chal, from, at)
  {
    var exp :| WasIssued(l.before, chal, from, exp) && at <= exp;
    EntitledBy(l, chal, from, at, exp);
  }

  /** c' claims what c claims. */
  predicate SameClaim(c: Consumer, c': Consumer) {
    (c.Cleared? || c.Accepted?) && (c'.Cleared? || c'.Accepted?) && c.chal == c'.chal && c.from == c'.from && c.at == c'.at
  }

  /** A claim was there before the step, or has just passed the checks on an entry. */
  lemma ClaimStep(s: State, e: Event, i: nat)
    requires i < |Step(s, e).consumers|
    ensures var c := Step(s, e).consumers[i];
            && i < |s.consumers|
            && (c.Cleared? || c.Accepted? ==>
                  || SameClaim(s.consumers[i], c)
                  || (&& c.from != "" && c.chal in s.table && s.table[c.chal].remote == c.from
                      && c.at <= s.table[c.chal].exp))
  {
  }

  lemma ConsumerStep(l: Log, i: nat)
    requires l.Then? && TableIssued(l.before, Run(l.before).table)
    requires forall j | 0 <= j < |Run(l.before).consumers| :: Justified(l.before, Run(l.before).consumers[j])
    requires i < |Run(l).consumers|
    ensures Justified(l, Run(l).consumers[i])
  {
    var s, c := Run(l.before), Run(l).consumers[i];
    ClaimStep(s, l.last, i);
    hide Run, Step, Entitled;
    if c.Cleared? || c.Accepted? {
      if SameClaim(s.consumers[i], c) {
        assert Justified(l.before, s.consumers[i]);
        EntitledLater(l, c.chal, c.from, c.at);
      } else {
        EntitledBy(l.before, c.chal, c.from, c.at, s.table[c.chal].exp);
        EntitledLater(l, c.chal, c.from, c.at);
      }
    }
  }

  // ---------- Attempts from elsewhere ----------

  /** Every call for `chal` comes from another address than `owner`, to whom alone it was
      issued. */
  ghost predicate ForeignOnly(l: Log, chal: string, owner: string) {
    l.Then? ==>
      && ForeignOnly(l.before, chal, owner)
      && (l.last.Check? && l.last.chal == chal ==> l.last.from != owner)
      && (l.last.Issue? && l.last.chal == chal ==> l.last.remote == owner)
  }

  function LastExpiry(l: Log, chal: string): Option<int> {
    match l
    case Begin(_) => None
    case Then(before, e) => if e.Issue? && e.chal == chal then Some(e.now + TTL) else LastExpiry(before, chal)
  }

  ghost predicate Untouched(s: State, chal: string, owner: string, exp: Option<int>) {
    && (chal in s.table <==> exp.Some?) && (exp.Some? ==> s.table[chal] == Entry(exp.value, owner))
    && forall i | 0 <= i < |s.consumers| ::
         !((s.consumers[i].Cleared? || s.consumers[i].Outdated?) && s.consumers[i].chal == chal)
  }

  lemma {:induction false} ForeignHarmless(l: Log, chal: string, owner: string)
    requires ForeignOnly(l, chal, owner)
    ensures Untouched(Run(l), chal, owner, LastExpiry(l, chal))
  {
    if l.Then? {
      ForeignHarmless(l.before, chal, owner);
      UntouchedStep(Run(l.before), l.last, chal, owner, LastExpiry(l.before, chal));
      hide Step, Untouched;
    }
  }

  lemma UntouchedStep(s: State, e: Event, chal: string, owner: string, exp: Option<int>)
    requires Untouched(s, chal, owner, exp)
    requires e.Check? && e.chal == chal ==> e.from != owner
    requires e.Issue? && e.chal == chal ==> e.remote == owner
    ensures Untouched(Step(s, e), chal, owner, if e.Issue? && e.chal == chal then Some(e.now + TTL) else exp)
  {
  }

  /** However many attempts were made from other addresses, and however they interleave: the
      owner's call is still accepted, up to and including the instant of expiry. */
  lemma ForeignLeavesUsable(l: Log, chal: string, owner: string, i: nat, now: int)
    requires ForeignOnly(l, chal, owner) && owner != "" && LastExpiry(l, chal).Some?
    requires i < |Run(l).consumers| && Run(l).consumers[i].Calling?
    ensures var m := Then(Then(l, Check(i, chal, owner, now)), Take(i));
            && i < |Run(m).consumers|
            && Run(m).consumers[i] == if now <= LastExpiry(l, chal).value then Accepted(chal, owner, now) else Outdated(chal)
  {
    ForeignHarmless(l, chal, owner);
    var m1 := Then(l, Check(i, chal, owner, now));
    assert Run(m1).table == Run(l).table;
  }
}
