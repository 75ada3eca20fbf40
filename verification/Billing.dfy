// Accounting: a quota, and deltas of resettable WireGuard counters.
module Billing {
  import opened Basics

  // ---------- One account and its quota ----------

  // A limit of 0 or less means none.
  datatype Account = Account(up: nat, down: nat, limit: int, deactivated: bool)

  function Used(a: Account): nat {
    a.up + a.down
  }

  predicate Exceeded(a: Account) {
    a.limit > 0 && Used(a) >= a.limit
  }

  datatype Added = Added(account: Account, ok: bool)

  /** addTrafficLocked for a known user; `expired` is the clock's verdict. */
  function AddTraffic(a: Account, bytes: nat, isDownload: bool, expired: bool): Added {
    if expired || a.deactivated || Exceeded(a) then Added(a, false)
    else
      var b := if isDownload then a.(down := a.down + bytes) else a.(up := a.up + bytes);
      Added(if Exceeded(b) then b.(deactivated := true) else b, true)
  }

  class PasswordEntry {
    var up: nat
    var down: nat
    var limit: int
    var deactivated: bool

    ghost function Abs(): Account
      reads this
    {
      Account(up, down, limit, deactivated)
    }

    constructor (a: Account)
      ensures Abs() == a
    {
      up, down, limit, deactivated := a.up, a.down, a.limit, a.deactivated;
    }

    /** `flush`: the quota was just crossed and the counters have to be saved. */
    method AddTrafficLocked(bytes: nat, isDownload: bool, expired: bool) returns (ok: bool, flush: bool)
      modifies this`up, this`down, this`deactivated
      ensures Added(Abs(), ok) == AddTraffic(old(Abs()), bytes, isDownload, expired)
      ensures flush <==> ok && Exceeded(Abs())
    {
      if expired || deactivated || (limit > 0 && up + down >= limit) {
        return false, false;
      }
      if isDownload {
        down := down + bytes;
      } else {
        up := up + bytes;
      }
      flush := limit > 0 && up + down >= limit;
      if flush {
        deactivated := true;
      }
      ok := true;
    }
  }

  datatype Add = Add(bytes: nat, isDownload: bool, expired: bool)
  datatype Adds = NoAdds | ThenAdd(before: Adds, last: Add)

  function RunAdds(a: Account, adds: Adds): Account {
    match adds
    case NoAdds => a
    case ThenAdd(before, x) => AddTraffic(RunAdds(a, before), x.bytes, x.isDownload, x.expired).account
  }

  /** `prefix` is an initial part of `adds`. */
  ghost predicate Extends(adds: Adds, prefix: Adds) {
    adds == prefix || (adds.ThenAdd? && Extends(adds.before, prefix))
  }

  lemma {:induction false} RunKeepsLimit(a: Account, adds: Adds)
    ensures RunAdds(a, adds).limit == a.limit
  {
    if adds.ThenAdd? {
      RunKeepsLimit(a, adds.before);
    }
  }

  /** A user below its limit stays below it, or crossed it by one accepted increment and has
      been deactivated with exactly that total since: nothing is added past the crossing. */
  lemma {:induction false} QuotaCrossedOnce(a: Account, adds: Adds) returns (crossing: Adds)
    requires a.limit > 0 && Used(a) < a.limit
    ensures var r := RunAdds(a, adds);
            Used(r) < a.limit ||
            (&& r.deactivated && Extends(adds, crossing) && crossing.ThenAdd?
             && Used(RunAdds(a, crossing.before)) < a.limit
             && Used(r) == Used(RunAdds(a, crossing.before)) + crossing.last.bytes)
  {
    crossing := adds;
    if adds.ThenAdd? {
      RunKeepsLimit(a, adds.before);
      var earlier := QuotaCrossedOnce(a, adds.before);
      if Used(RunAdds(a, adds.before)) >= a.limit {
        crossing := earlier;
      }
    }
  }

  // ---------- WireGuard readings ----------

  datatype Counters = Counters(rx: int, tx: int)

  /** The counters did not go back since `last`; otherwise the peer was reset. */
  predicate Continues(last: Option<Counters>, cur: Counters) {
    last.Some? && cur.rx >= last.value.rx && cur.tx >= last.value.tx
  }

  /** What one reading makes the server bill, given the reading before it. */
  function DeltaRx(last: Option<Counters>, cur: Counters): (d: nat) {
    if Continues(last, cur) then cur.rx - last.value.rx else 0
  }

  function DeltaTx(last: Option<Counters>, cur: Counters): (d: nat) {
    if Continues(last, cur) then cur.tx - last.value.tx else 0
  }

  // One peer: its kernel counters, the bytes it really moved, the last reading, and what
  // was offered for billing since the first reading.
  datatype Peer = Peer(counter: Counters, movedRx: int, movedTx: int, last: Option<Counters>, offeredRx: int, offeredTx: int)

  // `Reset`: the peer was removed and added again, its counters start over. `Read(false)`:
  // the device has no password just now, the reading is skipped.
  datatype PeerEvent = Move(rx: nat, tx: nat) | Reset | Read(owned: bool)
  datatype PeerLog = Fresh | Next(before: PeerLog, last: PeerEvent)

  function PeerStep(p: Peer, e: PeerEvent): Peer {
    match e
    case Move(rx, tx) =>
      p.(counter := Counters(p.counter.rx + rx, p.counter.tx + tx), movedRx := p.movedRx + rx, movedTx := p.movedTx + tx)
    case Reset => p.(counter := Counters(0, 0))
    case Read(owned) =>
      if owned then
        p.(last := Some(p.counter), offeredRx := p.offeredRx + DeltaRx(p.last, p.counter),
           offeredTx := p.offeredTx + DeltaTx(p.last, p.counter))
      else p
  }

  function PeerRun(l: PeerLog): Peer {
    match l
    case Fresh => Peer(Counters(0, 0), 0, 0, None, 0, 0)
    case Next(before, e) => PeerStep(PeerRun(before), e)
  }

  predicate Resets(l: PeerLog) {
    l.Next? && (l.last.Reset? || Resets(l.before))
  }

  function LastRx(p: Peer): int {
    if p.last.Some? then p.last.value.rx else 0
  }

  function LastTx(p: Peer): int {
    if p.last.Some? then p.last.value.tx else 0
  }

  lemma {:induction false} PeerInvariant(l: PeerLog)
    ensures var p := PeerRun(l);
            && p.offeredRx <= p.movedRx && p.offeredTx <= p.movedTx
            && 0 <= p.counter.rx <= p.movedRx && 0 <= p.counter.tx <= p.movedTx
            && 0 <= LastRx(p) && 0 <= LastTx(p)
            && p.offeredRx + p.counter.rx <= p.movedRx + LastRx(p)
            && p.offeredTx + p.counter.tx <= p.movedTx + LastTx(p)
  {
    if l.Next? {
      PeerInvariant(l.before);
    }
  }

  /** The counters when the device was first read while owned. */
  function FirstRead(l: PeerLog): Option<Counters> {
    match l
    case Fresh => None
    case Next(before, e) => FirstAfter(PeerRun(before), FirstRead(before), e)
  }

  /** Without resets: the counter is what moved, and all between two readings was offered. */
  ghost predicate Exact(p: Peer, first: Option<Counters>) {
    && p.counter.rx == p.movedRx && p.counter.tx == p.movedTx
    && (p.last.Some? <==> first.Some?)
    && (p.last.Some? ==>
          && LastRx(p) <= p.movedRx && LastRx(p) == first.value.rx + p.offeredRx
          && LastTx(p) <= p.movedTx && LastTx(p) == first.value.tx + p.offeredTx)
    && (p.last.None? ==> p.offeredRx == 0 && p.offeredTx == 0)
  }

  lemma {:induction false} ExactWithoutResets(l: PeerLog)
    requires !Resets(l)
    ensures Exact(PeerRun(l), FirstRead(l))
  {
    if l.Next? {
      ExactWithoutResets(l.before);
      ExactStep(PeerRun(l.before), FirstRead(l.before), l.last);
      hide PeerStep, Exact;
    }
  }

  /** The first owned reading, when `e` follows a history whose first one was `first`. */
  function FirstAfter(p: Peer, first: Option<Counters>, e: PeerEvent): Option<Counters> {
    if first.Some? then first else if e.Read? && e.owned then Some(p.counter) else None
  }

  lemma ExactStep(p: Peer, first: Option<Counters>, e: PeerEvent)
    requires Exact(p, first) && !e.Reset?
    ensures Exact(PeerStep(p, e), FirstAfter(p, first, e))
  {
  }

  /** Under arbitrary counter resets, what is offered for billing never exceeds what was
      moved; without resets every byte between the first and the last reading is offered. */
  lemma NeverOverBilled(l: PeerLog)
    ensures var p := PeerRun(l); p.offeredRx <= p.movedRx && p.offeredTx <= p.movedTx
    ensures var p := PeerRun(l);
            !Resets(l) && p.last.Some? ==>
              && FirstRead(l).Some?
              && p.offeredRx == LastRx(p) - FirstRead(l).value.rx
              && p.offeredTx == LastTx(p) - FirstRead(l).value.tx
  {
    PeerInvariant(l);
    if !Resets(l) {
      ExactWithoutResets(l);
    }
  }

  /** Readings are handed to a goroutine per tick: bytes offered when they are processed in
      this order. */
  function OfferedFor(last: Option<Counters>, readings: seq<Counters>): int
    decreases |readings|
  {
    if readings == [] then 0
    else DeltaRx(last, readings[0]) + DeltaTx(last, readings[0]) + OfferedFor(Some(readings[0]), readings[1..])
  }

  function Sum(c: Counters): int {
    c.rx + c.tx
  }

  /** The order matters: two readings of a growing counter processed the wrong way round
      bill the bytes between them a second time, whatever the values. */
  lemma SwappedReadingsOverBill(a: Counters, b: Counters, c: Counters, d: Counters)
    requires Continues(Some(a), b) && Continues(Some(b), c) && Continues(Some(c), d)
    requires b.rx < c.rx || b.tx < c.tx
    ensures OfferedFor(Some(a), [b, c, d]) == Sum(d) - Sum(a)
    ensures OfferedFor(Some(a), [c, b, d]) == Sum(d) - Sum(a) + (Sum(c) - Sum(b))
  {
    ThreeReadings(a, b, c, d);
    ThreeReadings(a, c, b, d);
    hide OfferedFor;
  }

  lemma ThreeReadings(a: Counters, x: Counters, y: Counters, z: Counters)
    ensures OfferedFor(Some(a), [x, y, z])
              == DeltaRx(Some(a), x) + DeltaTx(Some(a), x) + DeltaRx(Some(x), y) + DeltaTx(Some(x), y)
                 + DeltaRx(Some(y), z) + DeltaTx(Some(y), z)
  {
    assert [x, y, z][1..] == [y, z] && [y, z][1..] == [z] && [z][1..] == [];
    hide DeltaRx, DeltaTx;
    assert OfferedFor(Some(z), []) == 0;
    assert OfferedFor(Some(y), [z]) == DeltaRx(Some(y), z) + DeltaTx(Some(y), z);
  }

  // ---------- Readings processed in any order ----------

  function Up(from: int, to: int): int {
    if to > from then to - from else 0
  }

  function LastOf(a: int, s: seq<int>): int {
    if s == [] then a else s[|s| - 1]
  }

  /** The sum of all rises from `a` on. */
  function Climb(a: int, s: seq<int>): int {
    if s == [] then 0
    else Climb(a, s[..|s| - 1]) + Up(LastOf(a, s[..|s| - 1]), s[|s| - 1])
  }

  function Peak(a: int, s: seq<int>): int {
    if s == [] then a
    else
      var p := Peak(a, s[..|s| - 1]);
      if s[|s| - 1] > p then s[|s| - 1] else p
  }

  lemma {:induction false} PeakIsMax(a: int, s: seq<int>)
    ensures var p := Peak(a, s);
            a <= p && (forall i | 0 <= i < |s| :: s[i] <= p) && (p == a || exists i :: 0 <= i < |s| && s[i] == p)
  {
    if s != [] {
      var before := s[..|s| - 1];
      PeakIsMax(a, before);
      assert forall i | 0 <= i < |before| :: before[i] == s[i];
    }
  }

  ghost predicate Descends(s: seq<int>) {
    exists i :: DescendsAt(s, i)
  }

  predicate DescendsAt(s: seq<int>, i: int) {
    0 < i < |s| && s[i] < s[i - 1]
  }

  predicate RisesAt(s: seq<int>, j: int) {
    0 < j < |s| && s[j - 1] < s[j]
  }

  /** A strict rise somewhere after a strict descent. */
  ghost predicate Rebounds(s: seq<int>) {
    exists i, j :: DescendsAt(s, i) && RisesAt(s, j) && i < j
  }

  /** What one more element changes. */
  lemma ReboundStep(s: seq<int>)
    requires s != []
    ensures var before := s[..|s| - 1];
            && (Rebounds(s) <==> Rebounds(before) || (Descends(before) && RisesAt(s, |s| - 1)))
            && (Descends(s) <==> Descends(before) || DescendsAt(s, |s| - 1))
  {
    var before := s[..|s| - 1];
    assert forall i | i < |before| :: DescendsAt(before, i) == DescendsAt(s, i) && RisesAt(before, i) == RisesAt(s, i);
    if Rebounds(before) {
      var i, j :| DescendsAt(before, i) && RisesAt(before, j) && i < j;
      assert DescendsAt(s, i) && RisesAt(s, j);
    } else if Descends(before) && RisesAt(s, |s| - 1) {
      var i :| DescendsAt(before, i);
      assert DescendsAt(s, i);
    }
    if Descends(before) {
      var i :| DescendsAt(before, i);
      assert DescendsAt(s, i);
    }
  }

  lemma {:induction false} ClimbExact(a: int, s: seq<int>)
    requires forall i | 0 <= i < |s| :: s[i] >= a
    ensures LastOf(a, s) <= Peak(a, s)
    ensures Climb(a, s) >= Peak(a, s) - a
    ensures Climb(a, s) == Peak(a, s) - a <==> !Rebounds(s)
    ensures !Rebounds(s) ==> (Descends(s) <==> LastOf(a, s) < Peak(a, s))
  {
    if s != [] {
      var before := s[..|s| - 1];
      ClimbExact(a, before);
      ReboundStep(s);
      assert before != [] ==> LastOf(a, before) == s[|s| - 2];
      hide Rebounds, Descends;
    } else {
      assert !Descends(s) && !Rebounds(s);
    }
  }

  function Sums(xs: seq<Counters>): (s: seq<int>)
    ensures |s| == |xs| && forall i | 0 <= i < |s| :: s[i] == Sum(xs[i])
  {
    seq(|xs|, i requires 0 <= i < |xs| => Sum(xs[i]))
  }

  predicate Ordered(a: Counters, b: Counters) {
    Continues(Some(a), b) || Continues(Some(b), a)
  }

  /** Readings of one peer whose counters did not start over since `a`: any two are ordered. */
  ghost predicate OneGrowth(a: Counters, xs: seq<Counters>) {
    && (forall i | 0 <= i < |xs| :: Continues(Some(a), xs[i]))
    && forall i, j | 0 <= i < j < |xs| :: Ordered(xs[i], xs[j])
  }

  lemma {:induction false} OfferedAppend(last: Option<Counters>, xs: seq<Counters>, z: Counters)
    ensures var l := if xs == [] then last else Some(xs[|xs| - 1]);
            OfferedFor(last, xs + [z]) == OfferedFor(last, xs) + DeltaRx(l, z) + DeltaTx(l, z)
    decreases |xs|
  {
    hide DeltaRx, DeltaTx;
    if xs == [] {
      assert xs + [z] == [z];
      assert OfferedFor(Some(z), []) == 0;
    } else {
      assert (xs + [z])[1..] == xs[1..] + [z];
      OfferedAppend(Some(xs[0]), xs[1..], z);
    }
  }

  lemma {:induction false} OfferedIsClimb(a: Counters, xs: seq<Counters>)
    requires OneGrowth(a, xs)
    ensures OfferedFor(Some(a), xs) == Climb(Sum(a), Sums(xs))
    decreases |xs|
  {
    if xs != [] {
      var before, z := xs[..|xs| - 1], xs[|xs| - 1];
      OfferedIsClimb(a, before);
      OfferedAppend(Some(a), before, z);
      assert before + [z] == xs && Sums(xs)[..|xs| - 1] == Sums(before);
      var l := if before == [] then a else before[|before| - 1];
      assert Ordered(l, z) && LastOf(Sum(a), Sums(before)) == Sum(l);
      OrderedDelta(l, z);
      hide OfferedFor, OneGrowth, Ordered, DeltaRx, DeltaTx;
    }
  }

  lemma OrderedDelta(l: Counters, z: Counters)
    requires Ordered(l, z)
    ensures DeltaRx(Some(l), z) + DeltaTx(Some(l), z) == Up(Sum(l), Sum(z))
  {
  }

  /** In whatever order the readings since `a` are processed, at least what was moved up to the
      highest one is offered, and exactly that if and only if no strict rise follows a strict
      descent. */
  lemma OfferedInAnyOrder(a: Counters, xs: seq<Counters>)
    requires OneGrowth(a, xs)
    ensures OfferedFor(Some(a), xs) >= Peak(Sum(a), Sums(xs)) - Sum(a)
    ensures OfferedFor(Some(a), xs) == Peak(Sum(a), Sums(xs)) - Sum(a) <==> !Rebounds(Sums(xs))
  {
    OfferedIsClimb(a, xs);
    ClimbExact(Sum(a), Sums(xs));
    hide OfferedFor, Climb, Peak, Rebounds;
  }

  // ---------- The reading loop over all peers ----------

  // A peer's device, the password it resolves to ("" for none), its counters, and whether
  // that user has expired.
  datatype Reading = Reading(device: string, pass: string, cur: Counters, expired: bool)

  datatype Books = Books(last: map<string, Counters>, accounts: map<string, Account>)

  function Find(m: map<string, Counters>, k: string): Option<Counters> {
    if k in m then Some(m[k]) else None
  }

  function Charge(a: Account, rx: nat, tx: nat, expired: bool): Account {
    var b := if rx > 0 then AddTraffic(a, rx, false, expired).account else a;
    if tx > 0 then AddTraffic(b, tx, true, expired).account else b
  }

  function SyncOne(b: Books, r: Reading): Books {
    if r.pass == "" then b
    else
      var l := Find(b.last, r.device);
      Books(b.last[r.device := r.cur],
            if r.pass in b.accounts
            then b.accounts[r.pass := Charge(b.accounts[r.pass], DeltaRx(l, r.cur), DeltaTx(l, r.cur), r.expired)]
            else b.accounts)
  }

  function SyncAll(b: Books, readings: seq<Reading>): Books {
    if readings == [] then b
    else SyncOne(SyncAll(b, readings[..|readings| - 1]), readings[|readings| - 1])
  }

  class WgTraffic {
    var last: map<string, Counters>
    var accounts: map<string, Account>

    constructor (accounts: map<string, Account>)
      ensures last == map[] && this.accounts == accounts
    {
      last, this.accounts := map[], accounts;
    }

    method SyncTrafficFromPeerInfos(peers: seq<Reading>)
      modifies this
      ensures Books(last, accounts) == SyncAll(old(Books(last, accounts)), peers)
    {
      ghost var b := Books(last, accounts);
      for i := 0 to |peers|
        invariant Books(last, accounts) == SyncAll(b, peers[..i])
      {
        assert peers[..i + 1][..i] == peers[..i];
        SyncPeer(peers[i]);
      }
      assert peers[..|peers|] == peers;
    }

    method SyncPeer(r: Reading)
      modifies this
      ensures Books(last, accounts) == SyncOne(old(Books(last, accounts)), r)
    {
      if r.pass == "" {
        return;
      }
      var hadPrev := r.device in last;
      var prev := if hadPrev then last[r.device] else r.cur;
      last := last[r.device := r.cur];
      if !hadPrev || r.cur.rx < prev.rx || r.cur.tx < prev.tx {
        assert r.pass in accounts ==> accounts[r.pass := accounts[r.pass]] == accounts;
        return;
      }
      var dRx, dTx := r.cur.rx - prev.rx, r.cur.tx - prev.tx;
      if r.pass in accounts {
        var a := accounts[r.pass];
        if dRx > 0 {
          a := AddTraffic(a, dRx, false, r.expired).account;
        }
        if dTx > 0 {
          a := AddTraffic(a, dTx, true, r.expired).account;
        }
        accounts := accounts[r.pass := a];
      }
    }
  }

  /** What the readings of password p offer for billing, one delta per reading. */
  function OfferedTo(b: Books, readings: seq<Reading>, p: string): nat {
    if readings == [] then 0
    else
      var before, r := readings[..|readings| - 1], readings[|readings| - 1];
      var l := Find(SyncAll(b, before).last, r.device);
      OfferedTo(b, before, p) + if r.pass == p && p != "" then DeltaRx(l, r.cur) + DeltaTx(l, r.cur) else 0
  }

  /** Nothing of what the reading offers is refused. */
  predicate Accepted(b: Books, r: Reading) {
    var l := Find(b.last, r.device);
    r.pass == "" || Takes(b, r.pass, DeltaRx(l, r.cur), DeltaTx(l, r.cur), r.expired)
  }

  /** The user is known and has room: for the upload first, then for the download. */
  predicate Takes(b: Books, p: string, rx: nat, tx: nat, expired: bool) {
    if p !in b.accounts then rx + tx == 0
    else
      var a := b.accounts[p];
      var u := if rx > 0 then AddTraffic(a, rx, false, expired) else Added(a, true);
      u.ok && (tx > 0 ==> AddTraffic(u.account, tx, true, expired).ok)
  }

  predicate AllAccepted(b: Books, readings: seq<Reading>, p: string) {
    readings == [] ||
    (var before, r := readings[..|readings| - 1], readings[|readings| - 1];
     AllAccepted(b, before, p) && (r.pass == p ==> Accepted(SyncAll(b, before), r)))
  }

  lemma ChargeRise(b: Books, p: string, rx: nat, tx: nat, expired: bool)
    requires p in b.accounts
    ensures var a, c := b.accounts[p], Charge(b.accounts[p], rx, tx, expired);
            && Used(a) <= Used(c) <= Used(a) + rx + tx && c.limit == a.limit
            && (Used(c) == Used(a) + rx + tx <==> Takes(b, p, rx, tx, expired))
  {
  }

  /** The account of p rises by at most what its readings offer, whatever other devices and
      users are read in between, and by exactly that if and only if nothing was refused. */
  lemma {:induction false} AccountRise(b: Books, readings: seq<Reading>, p: string)
    requires p in b.accounts && p != ""
    ensures var a := SyncAll(b, readings).accounts;
            && p in a && Used(b.accounts[p]) <= Used(a[p]) <= Used(b.accounts[p]) + OfferedTo(b, readings, p)
            && (Used(a[p]) == Used(b.accounts[p]) + OfferedTo(b, readings, p) <==> AllAccepted(b, readings, p))
  {
    if readings != [] {
      var before, r := readings[..|readings| - 1], readings[|readings| - 1];
      AccountRise(b, before, p);
      if r.pass == p {
        var l := Find(SyncAll(b, before).last, r.device);
        ChargeRise(SyncAll(b, before), p, DeltaRx(l, r.cur), DeltaTx(l, r.cur), r.expired);
      }
      hide Charge, DeltaRx, DeltaTx, AddTraffic, Takes;
    }
  }

  /** The same by direction: what the device sent, the server received (rx), counts as upload. */
  function OfferedUp(b: Books, readings: seq<Reading>, p: string): nat {
    if readings == [] then 0
    else
      var before, r := readings[..|readings| - 1], readings[|readings| - 1];
      OfferedUp(b, before, p) +
      if r.pass == p && p != "" then DeltaRx(Find(SyncAll(b, before).last, r.device), r.cur) else 0
  }

  function OfferedDown(b: Books, readings: seq<Reading>, p: string): nat {
    if readings == [] then 0
    else
      var before, r := readings[..|readings| - 1], readings[|readings| - 1];
      OfferedDown(b, before, p) +
      if r.pass == p && p != "" then DeltaTx(Find(SyncAll(b, before).last, r.device), r.cur) else 0
  }

  lemma ChargeByDirection(a: Account, rx: nat, tx: nat, expired: bool)
    ensures var c := Charge(a, rx, tx, expired); a.up <= c.up <= a.up + rx && a.down <= c.down <= a.down + tx
  {
  }

  lemma {:induction false} RiseBounds(b: Books, readings: seq<Reading>, p: string)
    requires p in b.accounts && p != ""
    ensures var a := SyncAll(b, readings).accounts;
            && p in a && b.accounts[p].up <= a[p].up <= b.accounts[p].up + OfferedUp(b, readings, p)
            && b.accounts[p].down <= a[p].down <= b.accounts[p].down + OfferedDown(b, readings, p)
            && OfferedTo(b, readings, p) == OfferedUp(b, readings, p) + OfferedDown(b, readings, p)
  {
    if readings != [] {
      var before, r := readings[..|readings| - 1], readings[|readings| - 1];
      RiseBounds(b, before, p);
      var s := SyncAll(b, before);
      if r.pass == p {
        var l := Find(s.last, r.device);
        ChargeByDirection(s.accounts[p], DeltaRx(l, r.cur), DeltaTx(l, r.cur), r.expired);
      }
      hide Charge, DeltaRx, DeltaTx;
    }
  }

  /** Uploads rise by what was received and downloads by what was sent, both in full if and only
      if nothing was refused, and never by more. */
  lemma RiseByDirection(b: Books, readings: seq<Reading>, p: string)
    requires p in b.accounts && p != ""
    ensures var a := SyncAll(b, readings).accounts;
            var up, down := b.accounts[p].up + OfferedUp(b, readings, p), b.accounts[p].down + OfferedDown(b, readings, p);
            && p in a && a[p].up <= up && a[p].down <= down
            && (a[p].up == up && a[p].down == down <==> AllAccepted(b, readings, p))
  {
    AccountRise(b, readings, p);
    RiseBounds(b, readings, p);
    hide SyncAll, AllAccepted, OfferedUp, OfferedDown, OfferedTo;
  }

  lemma OneCharge(a: Account, rx: nat, tx: nat, expired: bool)
    ensures var c := Charge(a, rx, tx, expired);
            && (!expired && !c.deactivated && !Exceeded(c) ==>
                  !a.deactivated && !Exceeded(a) && Used(c) == Used(a) + rx + tx)
  {
  }

  /** A guard that needs no look inside: nothing is refused to a user who has not expired and
      ends below the quota, with or without one. */
  lemma {:induction false} NothingRefused(b: Books, readings: seq<Reading>, p: string)
    requires p in b.accounts && p != "" && forall i | 0 <= i < |readings| :: !readings[i].expired
    requires var a := SyncAll(b, readings).accounts; p in a && !a[p].deactivated && !Exceeded(a[p])
    ensures AllAccepted(b, readings, p)
  {
    if readings != [] {
      var before, r := readings[..|readings| - 1], readings[|readings| - 1];
      var s := SyncAll(b, before);
      AccountRise(b, before, p);
      if r.pass == p {
        var l := Find(s.last, r.device);
        OneCharge(s.accounts[p], DeltaRx(l, r.cur), DeltaTx(l, r.cur), r.expired);
        ChargeRise(s, p, DeltaRx(l, r.cur), DeltaTx(l, r.cur), r.expired);
      }
      hide Charge, DeltaRx, DeltaTx, AddTraffic, Takes, Exceeded, Used, OfferedTo;
      NothingRefused(b, before, p);
    }
  }

  // ---------- The whole server: many devices, many users, one reading after another ----------

  datatype WgEvent =
    | WgMove(device: string, rx: nat, tx: nat) | WgReset(device: string)
    | WgRead(device: string, pass: string, expired: bool)
  datatype WgLog = Opened(accounts: map<string, Account>) | WgThen(before: WgLog, last: WgEvent)

  /** The events of one device. A reading counts as one only while the device has a password. */
  function LogOf(l: WgLog, d: string): PeerLog {
    if l.Opened? then Fresh
    else if l.last.device != d then LogOf(l.before, d)
    else
      match l.last
      case WgMove(_, rx, tx) => Next(LogOf(l.before, d), Move(rx, tx))
      case WgReset(_) => Next(LogOf(l.before, d), Reset)
      case WgRead(_, pass, _) => Next(LogOf(l.before, d), Read(pass != ""))
  }

  function ReadingAt(l: WgLog, e: WgEvent): Reading
    requires e.WgRead?
  {
    Reading(e.device, e.pass, PeerRun(LogOf(l, e.device)).counter, e.expired)
  }

  function BooksAt(l: WgLog): Books {
    match l
    case Opened(accounts) => Books(map[], accounts)
    case WgThen(before, e) => if e.WgRead? then SyncOne(BooksAt(before), ReadingAt(before, e)) else BooksAt(before)
  }

  function UsedBy(b: Books, p: string): int {
    if p in b.accounts then Used(b.accounts[p]) else 0
  }

  /** What readings of device d added to anyone's account. */
  function BilledFor(l: WgLog, d: string): int {
    if l.Opened? then 0
    else
      BilledFor(l.before, d) +
      if l.last.WgRead? && l.last.device == d
      then UsedBy(BooksAt(l), l.last.pass) - UsedBy(BooksAt(l.before), l.last.pass) else 0
  }

  lemma {:induction false} LastReadingKept(l: WgLog, d: string)
    ensures Find(BooksAt(l).last, d) == PeerRun(LogOf(l, d)).last
  {
    if l.WgThen? {
      LastReadingKept(l.before, d);
      hide DeltaRx, DeltaTx, Charge;
    }
  }

  /** A reading touches no account but that of the device's own password. */
  lemma ReadingIsPrivate(b: Books, r: Reading, p: string)
    requires p != r.pass
    ensures UsedBy(SyncOne(b, r), p) == UsedBy(b, p)
  {
    hide Charge;
  }

  lemma ReadingRise(b: Books, r: Reading)
    ensures var l := Find(b.last, r.device);
            var rise := UsedBy(SyncOne(b, r), r.pass) - UsedBy(b, r.pass);
            var offered := if r.pass == "" then 0 else DeltaRx(l, r.cur) + DeltaTx(l, r.cur);
            0 <= rise <= offered && (rise == offered <==> Accepted(b, r))
  {
    var l := Find(b.last, r.device);
    if r.pass != "" && r.pass in b.accounts {
      ChargeRise(b, r.pass, DeltaRx(l, r.cur), DeltaTx(l, r.cur), r.expired);
    }
    hide Charge, DeltaRx, DeltaTx, AddTraffic;
  }

  /** No reading of device d was refused, in full or in part. */
  predicate NoneRefused(l: WgLog, d: string) {
    l.WgThen? ==>
      && NoneRefused(l.before, d)
      && (l.last.WgRead? && l.last.device == d ==> Accepted(BooksAt(l.before), ReadingAt(l.before, l.last)))
  }

  /** Whatever the other devices and users do, whoever owns the device, and however often its
      counters start over: no byte is billed that the device has not moved. */
  lemma DeviceNeverOverBilled(l: WgLog, d: string)
    ensures var p := PeerRun(LogOf(l, d)); 0 <= BilledFor(l, d) <= p.movedRx + p.movedTx
  {
    BilledIsOffered(l, d);
    PeerInvariant(LogOf(l, d));
  }

  /** And without resets everything between the first and the last reading is billed, if and
      only if nothing was refused. */
  lemma DeviceBilledExactly(l: WgLog, d: string)
    requires !Resets(LogOf(l, d)) && PeerRun(LogOf(l, d)).last.Some?
    ensures var p, first := PeerRun(LogOf(l, d)), FirstRead(LogOf(l, d));
            && first.Some?
            && (BilledFor(l, d) == (LastRx(p) - first.value.rx) + (LastTx(p) - first.value.tx) <==> NoneRefused(l, d))
  {
    BilledIsOffered(l, d);
    NeverOverBilled(LogOf(l, d));
    hide BilledFor, NoneRefused, PeerRun, FirstRead;
  }

  lemma {:induction false} BilledIsOffered(l: WgLog, d: string)
    ensures var p := PeerRun(LogOf(l, d));
            && 0 <= BilledFor(l, d) <= p.offeredRx + p.offeredTx
            && (BilledFor(l, d) == p.offeredRx + p.offeredTx <==> NoneRefused(l, d))
  {
    if l.WgThen? {
      BilledIsOffered(l.before, d);
      if l.last.device == d && l.last.WgRead? {
        LastReadingKept(l.before, d);
        ReadingRise(BooksAt(l.before), ReadingAt(l.before, l.last));
      }
      hide SyncOne, Find, DeltaRx, DeltaTx, Accepted;
    }
  }
}
