// RAW traffic: every session counts its bytes, several flushers swap the counters out and
// bill them to one account, while WireGuard readings charge the same account.
module RawBilling {
  import opened Basics
  import opened Billing

  // ---------- The locked part of a flush ----------

  // `ok` false ends the session.
  datatype Outcome = Outcome(account: Account, refusedUp: nat, refusedDown: nat, ok: bool)

  /** `known`: the password resolves to a user. */
  function Billed(a: Account, up: nat, down: nat, known: bool, expired: bool): Outcome {
    if !known then Outcome(a, up, down, true)
    else if expired || a.deactivated || Exceeded(a) then Outcome(a, up, down, false)
    else
      var u := if up > 0 then AddTraffic(a, up, false, expired) else Added(a, true);
      var d := if down > 0 then AddTraffic(u.account, down, true, expired) else Added(u.account, true);
      Outcome(d.account, if u.ok then 0 else up, if d.ok then 0 else down, u.ok && d.ok)
  }

  /** From the account's fields alone: everything is refused for an unknown, expired, deactivated
      or full account; otherwise the upload is billed, and the download too unless the upload has
      just filled the account. The flag is set exactly when the account is full then. */
  lemma BilledExactly(a: Account, up: nat, down: nat, known: bool, expired: bool)
    ensures var o := Billed(a, up, down, known, expired);
            var barred := !known || expired || a.deactivated || (a.limit > 0 && a.up + a.down >= a.limit);
            var filled := up > 0 && a.limit > 0 && a.up + a.down + up >= a.limit;
            && o.refusedUp == (if barred then up else 0)
            && o.refusedDown == (if barred || filled then down else 0)
            && o.account.up == a.up + up - o.refusedUp && o.account.down == a.down + down - o.refusedDown
            && o.account.limit == a.limit
            && (barred ==> o.account == a)
            && (!barred ==> (o.account.deactivated <==> a.limit > 0 && o.account.up + o.account.down >= a.limit))
            && (o.ok <==> !known || (!barred && (down > 0 ==> !filled)))
  {
  }

  /** One session's counters and the account they are billed to; one undisturbed flush. */
  class RawSession {
    var up: nat
    var down: nat
    const entry: PasswordEntry

    constructor (entry: PasswordEntry)
      ensures up == 0 && down == 0 && this.entry == entry
    {
      up, down, this.entry := 0, 0, entry;
    }

    method Count(sent: nat, received: nat)
      modifies this`up, this`down
      ensures up == old(up) + sent && down == old(down) + received
    {
      up, down := up + sent, down + received;
    }

    method FlushRaw(known: bool, expired: bool) returns (ok: bool)
      modifies this`up, this`down, entry`up, entry`down, entry`deactivated
      ensures up == 0 && down == 0
      ensures var o := Billed(old(entry.Abs()), old(up), old(down), known, expired); entry.Abs() == o.account && ok == o.ok
    {
      var u := up;
      up := 0;
      var d := down;
      down := 0;
      if !known {
        return true;
      }
      if expired || entry.deactivated || (entry.limit > 0 && entry.up + entry.down >= entry.limit) {
        return false;
      }
      ok := true;
      if u > 0 {
        var added, flush := entry.AddTrafficLocked(u, false, expired);
        ok := added;
      }
      if d > 0 {
        var added, flush := entry.AddTrafficLocked(d, true, expired);
        ok := ok && added;
      }
    }
  }

  // ---------- Many sessions and flushers ----------

  // Where one flusher is: it has swapped out the upload counter of a session, then the
  // download counter, and bills both under the lock.
  datatype Phase = Idle | HasUp(session: nat, up: nat) | HasBoth(up: nat, down: nat)

  // All RAW sessions of one user, with their counters not yet swapped out, any number of
  // flushers, and the account they share. `refused...`: bytes swapped out that no account took.
  datatype Raw = Raw(up: seq<nat>, down: seq<nat>, flushers: seq<Phase>, account: Account, refusedUp: nat, refusedDown: nat)

  // `Bill`: the locked part. `WgReading`: a WireGuard reading offers bytes to the same account.
  datatype RawEvent =
    | Carry(s: nat, up: nat, down: nat) | WgReading(rx: nat, tx: nat, known: bool, expired: bool)
    | SwapUp(f: nat, s: nat) | SwapDown(f: nat) | Bill(f: nat, known: bool, expired: bool)
  datatype RawLog = Start(sessions: nat, flushers: nat, account: Account) | More(before: RawLog, last: RawEvent)

  function Flushed(r: Raw, up: nat, down: nat, known: bool, expired: bool): Raw {
    var o := Billed(r.account, up, down, known, expired);
    r.(account := o.account, refusedUp := r.refusedUp + o.refusedUp, refusedDown := r.refusedDown + o.refusedDown)
  }

  function RawStep(r: Raw, e: RawEvent): Raw {
    match e
    case Carry(s, up, down) =>
      if s < |r.up| && s < |r.down| then r.(up := r.up[s := r.up[s] + up], down := r.down[s := r.down[s] + down]) else r
    case WgReading(rx, tx, known, expired) => Flushed(r, rx, tx, known, expired)
    case SwapUp(f, s) =>
      if f < |r.flushers| && r.flushers[f].Idle? && s < |r.up| then
        r.(up := r.up[s := 0], flushers := r.flushers[f := HasUp(s, r.up[s])])
      else r
    case SwapDown(f) => if f < |r.flushers| && r.flushers[f].HasUp? then TakeDown(r, f, r.flushers[f]) else r
    case Bill(f, known, expired) =>
      if f < |r.flushers| && r.flushers[f].HasBoth? then
        Flushed(r.(flushers := r.flushers[f := Idle]), r.flushers[f].up, r.flushers[f].down, known, expired)
      else r
  }

  function TakeDown(r: Raw, f: nat, p: Phase): Raw
    requires f < |r.flushers| && p.HasUp?
  {
    if p.session < |r.down| then
      r.(down := r.down[p.session := 0], flushers := r.flushers[f := HasBoth(p.up, r.down[p.session])])
    else r
  }

  function RawRun(l: RawLog): Raw {
    match l
    case Start(n, k, account) => Raw(seq(n, _ => 0), seq(n, _ => 0), seq(k, _ => Idle), account, 0, 0)
    case More(before, e) => RawStep(RawRun(before), e)
  }

  /** The bytes one event brings in. */
  function BroughtUp(r: Raw, e: RawEvent): nat {
    match e
    case Carry(s, up, _) => if s < |r.up| && s < |r.down| then up else 0
    case WgReading(rx, _, _, _) => rx
    case _ => 0
  }

  function BroughtDown(r: Raw, e: RawEvent): nat {
    match e
    case Carry(s, _, down) => if s < |r.up| && s < |r.down| then down else 0
    case WgReading(_, tx, _, _) => tx
    case _ => 0
  }

  function CarriedUp(l: RawLog): nat {
    if l.Start? then 0 else CarriedUp(l.before) + BroughtUp(RawRun(l.before), l.last)
  }

  function CarriedDown(l: RawLog): nat {
    if l.Start? then 0 else CarriedDown(l.before) + BroughtDown(RawRun(l.before), l.last)
  }

  function Opening(l: RawLog): Account {
    if l.Start? then l.account else Opening(l.before)
  }

  function UpOf(p: Phase): nat {
    if p.Idle? then 0 else p.up
  }

  function DownOf(p: Phase): nat {
    if p.HasBoth? then p.down else 0
  }

  /** What the flushers have in hand. */
  function UpInHand(fs: seq<Phase>): nat {
    if fs == [] then 0 else UpOf(fs[0]) + UpInHand(fs[1..])
  }

  function DownInHand(fs: seq<Phase>): nat {
    if fs == [] then 0 else DownOf(fs[0]) + DownInHand(fs[1..])
  }

  lemma {:induction false} InHandUpdate(fs: seq<Phase>, f: nat, p: Phase)
    requires f < |fs|
    ensures UpInHand(fs[f := p]) == UpInHand(fs) - UpOf(fs[f]) + UpOf(p)
    ensures DownInHand(fs[f := p]) == DownInHand(fs) - DownOf(fs[f]) + DownOf(p)
  {
    hide UpOf, DownOf;
    if f == 0 {
      assert fs[f := p][1..] == fs[1..];
    } else {
      assert fs[f := p][1..] == fs[1..][f - 1 := p];
      InHandUpdate(fs[1..], f - 1, p);
    }
  }

  lemma {:induction false} IdleHoldNothing(n: nat)
    ensures var fs := seq(n, _ => Idle); UpInHand(fs) == 0 && DownInHand(fs) == 0
  {
    if n > 0 {
      assert seq(n, _ => Idle)[1..] == seq(n - 1, _ => Idle);
      IdleHoldNothing(n - 1);
    }
  }

  function AllOf(xs: seq<nat>): nat {
    if xs == [] then 0 else xs[0] + AllOf(xs[1..])
  }

  lemma {:induction false} AllOfUpdate(xs: seq<nat>, i: nat, x: nat)
    requires i < |xs|
    ensures AllOf(xs[i := x]) == AllOf(xs) - xs[i] + x
  {
    if i == 0 {
      assert xs[i := x][1..] == xs[1..];
    } else {
      assert xs[i := x][1..] == xs[1..][i - 1 := x];
      AllOfUpdate(xs[1..], i - 1, x);
    }
  }

  lemma {:induction false} ZerosAreNothing(n: nat)
    ensures AllOf(seq(n, _ => 0)) == 0
  {
    if n > 0 {
      assert seq(n, _ => 0)[1..] == seq(n - 1, _ => 0);
      ZerosAreNothing(n - 1);
    }
  }

  /** Carried but not yet offered to the account. */
  function UpWaiting(r: Raw): nat {
    AllOf(r.up) + UpInHand(r.flushers)
  }

  function DownWaiting(r: Raw): nat {
    AllOf(r.down) + DownInHand(r.flushers)
  }

  /** Every byte is in one place: in a session's counter, in the hand of one flusher, billed once
      in its direction, or refused once, in every interleaving of any number of sessions and
      flushers and of WireGuard readings for the same account. */
  lemma {:induction false} RawBytesConserved(l: RawLog)
    ensures var r := RawRun(l);
            && CarriedUp(l) + Opening(l).up == UpWaiting(r) + r.account.up + r.refusedUp
            && CarriedDown(l) + Opening(l).down == DownWaiting(r) + r.account.down + r.refusedDown
  {
    match l
    case Start(n, k, _) =>
      ZerosAreNothing(n);
      IdleHoldNothing(k);
    case More(before, e) =>
      RawBytesConserved(before);
      StepConserves(RawRun(before), e);
      hide RawStep, BroughtUp, BroughtDown, UpWaiting, DownWaiting;
  }

  lemma StepConserves(r: Raw, e: RawEvent)
    ensures var r' := RawStep(r, e);
            && UpWaiting(r') + r'.account.up + r'.refusedUp == UpWaiting(r) + r.account.up + r.refusedUp + BroughtUp(r, e)
            && DownWaiting(r') + r'.account.down + r'.refusedDown
               == DownWaiting(r) + r.account.down + r.refusedDown + BroughtDown(r, e)
  {
    hide AllOf, UpInHand, DownInHand, Flushed;
    match e
    case Carry(s, up, down) =>
      if s < |r.up| && s < |r.down| {
        AllOfUpdate(r.up, s, r.up[s] + up);
        AllOfUpdate(r.down, s, r.down[s] + down);
      }
    case WgReading(rx, tx, known, expired) => FlushedConserves(r, rx, tx, known, expired);
    case SwapUp(f, s) =>
      if f < |r.flushers| && s < |r.up| {
        AllOfUpdate(r.up, s, 0);
        InHandUpdate(r.flushers, f, HasUp(s, r.up[s]));
      }
    case SwapDown(f) =>
      if f < |r.flushers| && r.flushers[f].HasUp? && r.flushers[f].session < |r.down| {
        AllOfUpdate(r.down, r.flushers[f].session, 0);
        InHandUpdate(r.flushers, f, HasBoth(r.flushers[f].up, r.down[r.flushers[f].session]));
      }
    case Bill(f, known, expired) =>
      if f < |r.flushers| && r.flushers[f].HasBoth? {
        InHandUpdate(r.flushers, f, Idle);
        FlushedConserves(r.(flushers := r.flushers[f := Idle]), r.flushers[f].up, r.flushers[f].down, known, expired);
      }
  }

  lemma FlushedConserves(r: Raw, up: nat, down: nat, known: bool, expired: bool)
    ensures var r' := Flushed(r, up, down, known, expired);
            && r'.account.up + r'.refusedUp == r.account.up + r.refusedUp + up
            && r'.account.down + r'.refusedDown == r.account.down + r.refusedDown + down
            && r' == r.(account := r'.account, refusedUp := r'.refusedUp, refusedDown := r'.refusedDown)
  {
    BilledExactly(r.account, up, down, known, expired);
    hide Billed;
  }

  /** So no byte is billed twice: the account never rises by more than was carried. */
  lemma RawNeverOverBilled(l: RawLog)
    ensures RawRun(l).account.up <= Opening(l).up + CarriedUp(l) && RawRun(l).account.down <= Opening(l).down + CarriedDown(l)
  {
    RawBytesConserved(l);
    hide RawRun, CarriedUp, CarriedDown, Opening;
  }

  // ---------- Nothing is kept from an open account ----------

  /** Whenever bytes are offered, the user is known and has not expired. */
  predicate KnownThroughout(l: RawLog) {
    l.More? ==> KnownThroughout(l.before) && (l.last.Bill? || l.last.WgReading? ==> l.last.known && !l.last.expired)
  }

  predicate Open(a: Account) {
    !a.deactivated && (a.limit > 0 ==> a.up + a.down < a.limit)
  }

  lemma FlushedOpen(r: Raw, up: nat, down: nat)
    requires Open(Flushed(r, up, down, true, false).account)
    ensures var r' := Flushed(r, up, down, true, false);
            Open(r.account) && r'.refusedUp == r.refusedUp && r'.refusedDown == r.refusedDown
  {
    BilledExactly(r.account, up, down, true, false);
    hide Billed;
  }

  lemma StepOpen(r: Raw, e: RawEvent)
    requires Open(RawStep(r, e).account) && (e.Bill? || e.WgReading? ==> e.known && !e.expired)
    ensures var r' := RawStep(r, e); Open(r.account) && r'.refusedUp == r.refusedUp && r'.refusedDown == r.refusedDown
  {
    hide Flushed, Open;
    if e.WgReading? {
      FlushedOpen(r, e.rx, e.tx);
    } else if e.Bill? && e.f < |r.flushers| && r.flushers[e.f].HasBoth? {
      FlushedOpen(r.(flushers := r.flushers[e.f := Idle]), r.flushers[e.f].up, r.flushers[e.f].down);
    }
  }

  lemma {:induction false} RawNothingRefused(l: RawLog)
    requires KnownThroughout(l) && Open(RawRun(l).account)
    ensures RawRun(l).refusedUp == 0 && RawRun(l).refusedDown == 0
  {
    hide RawStep, Open;
    if l.More? {
      StepOpen(RawRun(l.before), l.last);
      RawNothingRefused(l.before);
    }
  }

  /** A known, unexpired user who ends active and below the quota, or has none, is billed in each
      direction exactly what its sessions carried and its readings offered, less what still waits
      in counters and in the flushers' hands. */
  lemma RawBilledExactly(l: RawLog)
    requires KnownThroughout(l) && Open(RawRun(l).account)
    ensures var r := RawRun(l);
            && r.account.up == Opening(l).up + CarriedUp(l) - UpWaiting(r)
            && r.account.down == Opening(l).down + CarriedDown(l) - DownWaiting(r)
  {
    RawBytesConserved(l);
    RawNothingRefused(l);
    hide RawRun, CarriedUp, CarriedDown, Opening, Open, KnownThroughout;
  }

  /** And in any run, bytes are refused only by a locked part that finds the user unknown or expired,
      or leaves the account deactivated or full. */
  lemma RefusedOnlyWhen(r: Raw, e: RawEvent)
    requires var r' := RawStep(r, e); r'.refusedUp != r.refusedUp || r'.refusedDown != r.refusedDown
    ensures (e.Bill? || e.WgReading?) && (!e.known || e.expired || !Open(RawStep(r, e).account))
  {
    hide Flushed, Open;
    if e.WgReading? {
      FlushedRefuses(r, e.rx, e.tx, e.known, e.expired);
    } else if e.Bill? && e.f < |r.flushers| && r.flushers[e.f].HasBoth? {
      FlushedRefuses(r.(flushers := r.flushers[e.f := Idle]), r.flushers[e.f].up, r.flushers[e.f].down, e.known, e.expired);
    }
  }

  lemma FlushedRefuses(r: Raw, up: nat, down: nat, known: bool, expired: bool)
    requires var r' := Flushed(r, up, down, known, expired); r'.refusedUp != r.refusedUp || r'.refusedDown != r.refusedDown
    ensures !known || expired || !Open(Flushed(r, up, down, known, expired).account)
  {
    BilledExactly(r.account, up, down, known, expired);
    hide Billed;
  }
}
