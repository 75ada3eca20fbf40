// Where the users_rev protocol does undo a traffic reset: for every thing the code takes for
// granted, a failing run from every state of a family, and the exact condition on the
// revisions.
module UsersRevLimits {
  import opened Traffic
  import opened UsersRev

  // ---------- Runs ----------

  /** `m` goes on after `h` with disciplined steps. */
  ghost predicate Follows(m: History, h: History) {
    m == h || (m.Then? && Follows(m.before, h) && Disciplined(Run(m.before), m.last))
  }

  /** After h and then step e, no disciplined continuation ever undoes a reset. */
  ghost predicate SafeAfter(h: History, e: Event) {
    forall m | Follows(m, Then(h, e)) :: ResetsHold(Run(m))
  }

  lemma {:induction false} FollowsDisciplined(m: History, h: History)
    requires DisciplinedRun(h) && Follows(m, h)
    ensures DisciplinedRun(m)
  {
    if m != h {
      FollowsDisciplined(m.before, h);
    }
  }

  lemma SafeIfDisciplined(h: History, e: Event)
    requires DisciplinedRun(h) && Disciplined(Run(h), e)
    ensures SafeAfter(h, e)
  {
    forall m | Follows(m, Then(h, e))
      ensures ResetsHold(Run(m))
    {
      FollowsDisciplined(m, Then(h, e));
      ResetNeverUndone(m);
    }
  }

  lemma Extend(h: History, e: Event)
    ensures Run(Then(h, e)) == Step(Run(h), e)
    ensures DisciplinedRun(Then(h, e)) <==> DisciplinedRun(h) && Disciplined(Run(h), e)
  {
  }

  /** Steps that no guard speaks of. */
  predicate Unguarded(e: Event) {
    match e
    case Install(_) | Tail | OwnUpsert(_) | OwnSave | OwnRemember(_) | Upsert(_) => false
    case Flush(readable) => readable
    case _ => true
  }

  lemma ExtendFreely(h: History, e: Event)
    requires Unguarded(e)
    ensures Run(Then(h, e)) == Step(Run(h), e)
    ensures DisciplinedRun(h) ==> DisciplinedRun(Then(h, e))
    ensures Follows(h, h) && forall l :: Follows(h, l) ==> Follows(Then(h, e), l)
  {
  }

  // ---------- An undone reset ----------

  /** The disk counts more bytes than were accounted to p since its last reset. */
  ghost predicate Undone(w: World, p: Pass) {
    p in w.disk.rows && !AtMost(w.disk.rows[p], AccountedTo(w.book, p))
  }

  lemma UndoneBreaks(w: World, p: Pass)
    requires Undone(w, p)
    ensures !ResetsHold(w)
  {
  }

  /** p was reset and nothing was accounted to it since; nobody holds the lock. */
  predicate Zeroed(w: World, p: Pass) {
    p != "" && p in w.disk.rows && AccountedTo(w.book, p) == ZERO && w.lock.Free?
  }

  predicate Uses(m: map<Pass, Row>, p: Pass) {
    p in m && !AtMost(m[p], ZERO)
  }

  /** The server accounts one byte to p, which makes its counters dirty, and flushes them. */
  function Flushing(h: History, p: Pass): History {
    Then(Then(h, Account(p, 1, 0)), Flush(true))
  }

  lemma FlushUndoes(w: World, readable: bool, p: Pass)
    requires Zeroed(w, p) && Uses(w.srv.mem, p) && (!readable || w.disk.rev <= w.srv.applied)
    ensures Undone(Step(Step(w, Account(p, 1, 0)), Flush(readable)), p)
  {
  }

  lemma FlushingUndoes(h: History, p: Pass)
    requires Zeroed(Run(h), p) && Uses(Run(h).srv.mem, p) && Run(h).disk.rev <= Run(h).srv.applied
    ensures Undone(Run(Flushing(h, p)), p)
    ensures Follows(Flushing(h, p), h)
  {
    hide Run, Undone, Zeroed, Uses, Step;
    FlushUndoes(Run(h), true, p);
    ExtendFreely(h, Account(p, 1, 0));
    ExtendFreely(Then(h, Account(p, 1, 0)), Flush(true));
  }

  lemma UnsafeFlushing(h: History, e: Event, p: Pass)
    requires Zeroed(Run(Then(h, e)), p) && Uses(Run(Then(h, e)).srv.mem, p)
    requires Run(Then(h, e)).disk.rev <= Run(Then(h, e)).srv.applied
    ensures !SafeAfter(h, e)
  {
    FlushingUndoes(Then(h, e), p);
    hide Run, Follows, Undone, ResetsHold;
    UndoneBreaks(Run(Flushing(Then(h, e), p)), p);
  }

  // ---------- The effect of single steps ----------

  lemma ResetEffect(w: World, p: Pass)
    requires p != "" && p in w.disk.rows
    ensures var w' := Step(w, Reset(p));
            && w' == w.(disk := w'.disk, book := w'.book) && w'.disk.rev == w.disk.rev + 1
            && p in w'.disk.rows && AtMost(w'.disk.rows[p], ZERO) && AccountedTo(w'.book, p) == ZERO
            && ResetAt(w'.book, p) == w.disk.rev + 1
  {
  }

  lemma SyncEffect(w: World)
    requires w.lock.Free? && w.srv.applied < w.disk.rev
    ensures Step(Step(w, SyncRead), SyncInstall)
            == w.(srv := Server(w.disk.rows, w.disk.rev, w.srv.dirty, w.disk.rev))
  {
  }

  lemma OwnPatchEffect(w: World)
    requires w.lock.Free?
    ensures var seen := if w.srv.seen == w.disk.rev then w.disk.rev + 1 else w.srv.seen;
            Step(w, OwnPatch) == w.(disk := Disk(w.disk.rev + 1, w.disk.rows), srv := w.srv.(seen := seen),
                                    lock := Committed(w.disk.rev + 1))
  {
  }

  lemma RememberEffect(w: World)
    requires w.lock.Committed?
    ensures Step(w, OwnRemember(true)) == w.(srv := w.srv.(applied := NatMax(w.srv.applied, w.disk.rev)), lock := Free)
  {
  }

  lemma InstallEffect(w: World)
    requires w.reload.Loaded? && w.lock.Free?
    ensures var w' := Step(w, Install(true));
            && w'.srv.mem == w.reload.incoming && w'.srv.applied == w.srv.applied && w'.lock.Free?
            && w'.book == w.book && w'.disk.rev == w.disk.rev && w'.disk.rows.Keys == w.disk.rows.Keys
            && (|| w'.disk.rows == w.disk.rows
                || (w.srv.applied >= w.disk.rev && w'.disk.rows == Flushed(w.disk.rows, w.reload.incoming)))
  {
  }

  function Edits(h: History, k: nat): History {
    if k == 0 then h else Then(Edits(h, k - 1), Edit)
  }

  lemma {:induction false} EditsRun(h: History, k: nat)
    ensures Run(Edits(h, k)) == Run(h).(disk := Disk(Run(h).disk.rev + k, Run(h).disk.rows))
    ensures DisciplinedRun(h) ==> DisciplinedRun(Edits(h, k))
  {
    if k > 0 {
      EditsRun(h, k - 1);
      ExtendFreely(Edits(h, k - 1), Edit);
      hide DisciplinedRun, Run, LockedStep, ReloadStep, HolderStep;
    }
  }

  /** The panel resets p and makes edits until the disk stands at revision `rev`. */
  function ResetUpTo(h: History, p: Pass, k: nat): History {
    Edits(Then(h, Reset(p)), k)
  }

  lemma ResetUpToRun(h: History, p: Pass, k: nat)
    requires p != "" && p in Run(h).disk.rows
    ensures var w, w' := Run(h), Run(ResetUpTo(h, p, k));
            && w' == w.(disk := w'.disk, book := w'.book) && w'.disk.rev == w.disk.rev + 1 + k
            && p in w'.disk.rows && AccountedTo(w'.book, p) == ZERO && ResetAt(w'.book, p) == w.disk.rev + 1
    ensures DisciplinedRun(h) ==> DisciplinedRun(ResetUpTo(h, p, k))
  {
    ResetEffect(Run(h), p);
    ExtendFreely(h, Reset(p));
    EditsRun(Then(h, Reset(p)), k);
    hide DisciplinedRun, Run, Step, Edits;
  }

  // ---------- Freshly loaded servers ----------

  lemma BeginState(rows: map<Pass, Row>, rev: nat)
    ensures var h := Begin(rows, rev, 0);
            && DisciplinedRun(h)
            && Run(h) == World(Disk(rev, rows), Server(rows, rev, false, rev), Idle, Free, NoCopy, Book(rows, map[]))
  {
  }

  function Used(p: Pass): map<Pass, Row> {
    map[p := ZERO.(up := 1)]
  }

  /** A server in sync at revision `seen` with used bytes of p, then the panel goes on to `rev`. */
  lemma FallenBehind(p: Pass, seen: nat, rev: nat) returns (h: History)
    requires p != "" && seen < rev
    ensures DisciplinedRun(h) && Zeroed(Run(h), p) && Uses(Run(h).srv.mem, p)
    ensures Run(h).srv.seen == seen && Run(h).srv.applied == seen && Run(h).disk.rev == rev && Run(h).reload.Idle?
  {
    BeginState(Used(p), seen);
    var l := Begin(Used(p), seen, 0);
    ResetUpToRun(l, p, rev - seen - 1);
    h := ResetUpTo(l, p, rev - seen - 1);
    hide Run, DisciplinedRun, ResetUpTo;
  }

  function Snapshot(rows: map<Pass, Row>, rev: nat): History {
    Then(Then(Then(Begin(rows, rev, 0), ReadRev(true)), Decide), Snap)
  }

  /** The states of the reload runs below exist: each is reached by a disciplined run from any
      database at any revision. */
  lemma SnappedReachable(rows: map<Pass, Row>, rev: nat)
    ensures var h := Snapshot(rows, rev);
            && DisciplinedRun(h) && Run(h).reload == Snapped(rev, rows, rev) && Run(h).lock.Free?
            && Run(h).disk == Disk(rev, rows) && Run(h).srv == Server(rows, rev, false, rev)
  {
    var h := Begin(rows, rev, 0);
    BeginState(rows, rev);
    hide Run, DisciplinedRun, PanelStep, LockedStep, HolderStep;
    ExtendFreely(h, ReadRev(true));
    ExtendFreely(Then(h, ReadRev(true)), Decide);
    ExtendFreely(Then(Then(h, ReadRev(true)), Decide), Snap);
  }

  lemma LoadedReachable(rows: map<Pass, Row>, rev: nat)
    ensures var h := Then(Then(Then(Then(Begin(rows, rev, 0), Edit), ReadRev(true)), Decide), Load);
            && DisciplinedRun(h) && Run(h).reload == Loaded(rev + 1, true, rows, rev + 1) && Run(h).lock.Free?
            && Run(h).disk == Disk(rev + 1, rows) && Run(h).srv.applied == rev
  {
    var h := Begin(rows, rev, 0);
    BeginState(rows, rev);
    hide Run, DisciplinedRun, LockedStep, HolderStep;
    var h1 := Then(h, Edit);
    ExtendFreely(h, Edit);
    ExtendFreely(h1, ReadRev(true));
    ExtendFreely(Then(h1, ReadRev(true)), Decide);
    ExtendFreely(Then(Then(h1, ReadRev(true)), Decide), Load);
  }

  lemma InstalledReachable(rows: map<Pass, Row>, rev: nat)
    ensures var h := Then(Then(Then(Then(Then(Begin(rows, rev, 0), ReadRev(false)), Decide), Snap), Load), Install(true));
            && DisciplinedRun(h) && Run(h).reload == Installed(0) && Run(h).lock.Free?
            && Run(h).disk == Disk(rev, rows) && Run(h).srv == Server(rows, rev, false, rev)
  {
    var h := Begin(rows, rev, 0);
    BeginState(rows, rev);
    hide Run, DisciplinedRun, PanelStep, LockedStep, HolderStep;
    ExtendFreely(h, ReadRev(false));
    ExtendFreely(Then(h, ReadRev(false)), Decide);
    InstallFrom(Then(Then(h, ReadRev(false)), Decide), rows, rev);
  }

  lemma InstallFrom(h: History, rows: map<Pass, Row>, rev: nat)
    requires var w := Run(h);
             && DisciplinedRun(h) && w.reload == Decided(0, false) && w.lock.Free?
             && w.disk == Disk(rev, rows) && w.srv == Server(rows, rev, false, rev)
    ensures var h' := Then(Then(Then(h, Snap), Load), Install(true));
            && DisciplinedRun(h') && Run(h').reload == Installed(0) && Run(h').lock.Free?
            && Run(h').disk == Disk(rev, rows) && Run(h').srv == Server(rows, rev, false, rev)
  {
    hide Run, DisciplinedRun, PanelStep, LockedStep, HolderStep;
    var h3 := Then(h, Snap);
    ExtendFreely(h, Snap);
    assert Run(h3) == Run(h).(reload := Snapped(0, rows, rev));
    ExtendFreely(h3, Load);
    assert Merged(rows, rows) == rows;
    assert Run(Then(h3, Load)) == Run(h).(reload := Loaded(0, false, rows, rev));
    hide ReloadStep;
    InstallClean(Run(Then(h3, Load)));
    Extend(Then(h3, Load), Install(true));
  }

  lemma InstallClean(w: World)
    requires w.reload.Loaded? && w.lock.Free? && !w.srv.dirty
    ensures Step(w, Install(true))
            == w.(srv := w.srv.(mem := w.reload.incoming, seen := w.reload.seen), reload := Installed(w.reload.d))
  {
  }

  // ---------- A reload that installs old data ----------

  /** Installing whatever a reload holds, and then flushing, keeps the resets exactly when
      the disk is ahead of the server (so the flush is fenced) or no counter in the data
      exceeds what was accounted to its user. */
  lemma InstallExact(w: World)
    requires Valid(w) && w.reload.Loaded? && w.lock.Free?
    ensures ResetsHold(Step(Step(w, Install(true)), Flush(true))) <==>
              || w.srv.applied < w.disk.rev
              || forall p | p in w.disk.rows && p in w.reload.incoming && p != "" ::
                   AtMost(w.reload.incoming[p], AccountedTo(w.book, p))
  {
    var w1 := Step(w, Install(true));
    var w2 := Step(w1, Flush(true));
    InstallEffect(w);
    hide InstallStep;
    if w.srv.applied == w.disk.rev {
      FlushedTwice(w.disk.rows, w.reload.incoming);
      assert w2.disk.rows == Flushed(w.disk.rows, w.reload.incoming);
    }
  }

  lemma FlushedTwice(rows: map<Pass, Row>, m: map<Pass, Row>)
    ensures Flushed(Flushed(rows, m), m) == Flushed(rows, m)
  {
  }

  /** The failing family: if that undoes a reset, then that user was reset after the data in
      hand was read, and the server had already applied the reset when it installed the data. */
  lemma UndoneOnlyPastTheGuard(w: World) returns (p: Pass)
    requires Valid(w) && w.reload.Loaded? && w.lock.Free?
    requires !ResetsHold(Step(Step(w, Install(true)), Flush(true)))
    ensures !Disciplined(w, Install(true))
    ensures w.reload.seen < ResetAt(w.book, p) <= w.srv.applied == w.disk.rev
    ensures p in w.reload.incoming && !AtMost(w.reload.incoming[p], AccountedTo(w.book, p))
  {
    InstallExact(w);
    p :| p in w.disk.rows && p in w.reload.incoming && p != "" && !AtMost(w.reload.incoming[p], AccountedTo(w.book, p));
  }

  lemma InstallUndoes(h: History, p: Pass)
    requires Zeroed(Run(h), p) && Run(h).reload.Loaded? && Uses(Run(h).reload.incoming, p)
    requires Run(h).disk.rev <= Run(h).srv.applied
    ensures Undone(Run(Flushing(Then(h, Install(true)), p)), p) && !SafeAfter(h, Install(true))
  {
    InstallEffect(Run(h));
    Extend(h, Install(true));
    hide Run, DisciplinedRun, Step, Uses, Undone, SafeAfter;
    FlushingUndoes(Then(h, Install(true)), p);
    UnsafeFlushing(h, Install(true), p);
  }

  /** The panel resets p and a sync applies the reset. */
  function ResetAndSync(h: History, p: Pass): History {
    Then(Then(Then(h, Reset(p)), SyncRead), SyncInstall)
  }

  lemma ResetAndSyncRun(h: History, p: Pass)
    requires p != "" && p in Run(h).disk.rows && Run(h).lock.Free? && Run(h).srv.applied <= Run(h).disk.rev
    ensures DisciplinedRun(h) ==> DisciplinedRun(ResetAndSync(h, p))
    ensures var w, w' := Run(h), Run(ResetAndSync(h, p));
            && w' == w.(disk := w'.disk, srv := w'.srv, book := w'.book) && Zeroed(w', p)
            && w'.srv.applied == w'.disk.rev == w.disk.rev + 1
  {
    ResetEffect(Run(h), p);
    SyncEffect(Step(Run(h), Reset(p)));
    hide Run, DisciplinedRun, Step, AtMost, AccountedTo;
    var h1 := Then(h, Reset(p));
    ExtendFreely(h, Reset(p));
    ExtendFreely(h1, SyncRead);
    ExtendFreely(Then(h1, SyncRead), SyncInstall);
  }

  lemma NotPastDisk(h: History)
    requires DisciplinedRun(h)
    ensures Run(h).srv.applied <= Run(h).disk.rev && Run(h).srv.seen <= Run(h).disk.rev
  {
    RunValid(h);
    hide Run, DisciplinedRun;
  }

  /** A reload that merges holds a snapshot in which p has used bytes. */
  ghost predicate HoldsSnapshot(h: History, p: Pass) {
    var w := Run(h);
    && DisciplinedRun(h) && w.reload.Snapped? && w.lock.Free? && p != "" && p in w.disk.rows && Uses(w.reload.snap, p)
  }

  /** Whenever a merging reload holds a snapshot in which p has used bytes: let the panel
      reset p, a sync apply the reset, and the reload load, install, and the server flush. Each
      step but the installation is disciplined, and the reset is undone. */
  lemma StaleSnapshotUndoesReset(h: History, p: Pass)
    requires HoldsSnapshot(h, p)
    ensures var h' := Then(ResetAndSync(h, p), Load);
            && DisciplinedRun(h') && Undone(Run(Flushing(Then(h', Install(true)), p)), p)
            && !SafeAfter(h', Install(true))
    ensures var w := Run(Then(ResetAndSync(h, p), Load));
            && w.lock.Free? && w.reload.Loaded? && Run(h).reload.Snapped? && w.reload.seen == Run(h).reload.seen
            && w.srv.applied == w.disk.rev == Run(h).disk.rev + 1
  {
    NotPastDisk(h);
    ResetAndSyncRun(h, p);
    hide Run, DisciplinedRun, ResetAndSync, Undone, SafeAfter, Flushing;
    var l := ResetAndSync(h, p);
    LoadMerges(Run(l), p);
    ExtendFreely(l, Load);
    hide Step, Uses;
    InstallUndoes(Then(l, Load), p);
  }

  lemma LoadMerges(w: World, p: Pass)
    requires w.reload.Snapped? && p in w.disk.rows && Uses(w.reload.snap, p)
    ensures var w' := Step(w, Load);
            && w' == w.(reload := w'.reload) && w'.reload.Loaded? && w'.reload.seen == w.reload.seen
            && Uses(w'.reload.incoming, p)
  {
  }

  /** The same with a reload that trusts the disk and has loaded p's row before the reset. */
  lemma StaleLoadUndoesReset(h: History, p: Pass)
    requires var w := Run(h);
             && w.reload.Loaded? && w.lock.Free? && p != "" && p in w.disk.rows && DisciplinedRun(h)
             && Uses(w.reload.incoming, p)
    ensures var h' := ResetAndSync(h, p);
            && DisciplinedRun(h') && Undone(Run(Flushing(Then(h', Install(true)), p)), p)
            && !SafeAfter(h', Install(true))
  {
    NotPastDisk(h);
    ResetAndSyncRun(h, p);
    hide Run, DisciplinedRun, ResetAndSync, Undone, SafeAfter, Flushing, Uses;
    InstallUndoes(ResetAndSync(h, p), p);
  }

  /** A disciplined run ends with a reload about to install data that reflects the resets up to
      revision `seen`. */
  ghost predicate InstallAt(h: History, seen: nat, applied: nat, rev: nat) {
    var w := Run(h);
    && DisciplinedRun(h) && w.lock.Free? && w.reload.Loaded? && w.reload.seen == seen
    && w.srv.applied == applied && w.disk.rev == rev
  }

  /** The guard is exact, on the revisions alone: installing is safe for the rest of every run
      with these revisions if and only if the disk is ahead of the server or the data reflects
      all resets on the disk. */
  lemma InstallGuardExact(seen: nat, applied: nat, rev: nat)
    requires seen <= rev && applied <= rev
    ensures (forall h | InstallAt(h, seen, applied, rev) :: SafeAfter(h, Install(true))) <==> applied < rev || seen == rev
  {
    if applied < rev || seen == rev {
      forall h | InstallAt(h, seen, applied, rev)
        ensures SafeAfter(h, Install(true))
      {
        SafeIfDisciplined(h, Install(true));
      }
    } else {
      var h := UnsafeInstall(seen, rev);
      assert InstallAt(h, seen, applied, rev) && !SafeAfter(h, Install(true));
    }
    hide SafeAfter;
  }

  lemma HeldSnapshot(seen: nat, rev: nat, p: Pass) returns (l: History)
    requires seen < rev && p != ""
    ensures HoldsSnapshot(l, p) && Run(l).reload.seen == seen && Run(l).disk.rev == rev - 1
  {
    SnappedReachable(Used(p), seen);
    EditsRun(Snapshot(Used(p), seen), rev - seen - 1);
    l := Edits(Snapshot(Used(p), seen), rev - seen - 1);
    hide DisciplinedRun, Run, Snapshot, Edits;
  }

  lemma UnsafeInstall(seen: nat, rev: nat) returns (h: History)
    requires seen < rev
    ensures InstallAt(h, seen, rev, rev) && !SafeAfter(h, Install(true))
  {
    var p := "user";
    var l := HeldSnapshot(seen, rev, p);
    hide HoldsSnapshot, DisciplinedRun, Run, ResetAndSync, Undone, SafeAfter;
    StaleSnapshotUndoesReset(l, p);
    h := Then(ResetAndSync(l, p), Load);
  }

  // ---------- A reload that remembers what it has not applied ----------

  /** A reload that began at revision 0, or could not read it, remembers whatever revision it
      finds at its end, and so takes a reset in between for applied. */
  lemma TailAtRevisionZeroUndoesReset(h: History, p: Pass)
    requires var w := Run(h);
             && w.reload == Installed(0) && w.lock.Free? && p != "" && p in w.disk.rows && DisciplinedRun(h)
             && Uses(w.srv.mem, p)
    ensures var h' := Then(Then(h, Reset(p)), ReadTail(true));
            DisciplinedRun(h') && Undone(Run(Flushing(Then(h', Tail), p)), p)
  {
    ResetEffect(Run(h), p);
    var h1 := Then(h, Reset(p));
    ExtendFreely(h, Reset(p));
    ReadTailEffect(Run(h1));
    hide Run, DisciplinedRun, Undone, Flushing, Step, Uses, AtMost;
    ExtendFreely(h1, ReadTail(true));
    TailUndoes(Then(h1, ReadTail(true)), p);
  }

  lemma ReadTailEffect(w: World)
    requires w.reload == Installed(0)
    ensures Step(w, ReadTail(true)) == w.(reload := TailRead(w.disk.rev))
  {
  }

  lemma TailEffect(w: World)
    requires w.reload == TailRead(w.disk.rev)
    ensures Step(w, Tail) == w.(reload := Idle, srv := w.srv.(applied := NatMax(w.srv.applied, w.disk.rev)))
  {
  }

  lemma TailUndoes(h: History, p: Pass)
    requires Zeroed(Run(h), p) && Uses(Run(h).srv.mem, p) && Run(h).reload == TailRead(Run(h).disk.rev)
    ensures Undone(Run(Flushing(Then(h, Tail), p)), p) && !SafeAfter(h, Tail)
  {
    TailEffect(Run(h));
    Extend(h, Tail);
    hide Run, DisciplinedRun, Undone, Flushing, Step, Uses, SafeAfter;
    FlushingUndoes(Then(h, Tail), p);
    UnsafeFlushing(h, Tail, p);
  }

  ghost predicate TailAt(h: History, v: nat, seen: nat, rev: nat) {
    DisciplinedRun(h) && Run(h).reload == TailRead(v) && Run(h).srv.seen == seen && Run(h).disk.rev == rev
  }

  /** Remembering revision v is safe exactly when it is not the disk's, or the server's counters
      reflect all resets on the disk. */
  lemma TailGuardExact(v: nat, seen: nat, rev: nat)
    requires v <= rev && seen <= rev
    ensures (forall h | TailAt(h, v, seen, rev) :: SafeAfter(h, Tail)) <==> v < rev || seen == rev
  {
    if v < rev || seen == rev {
      forall h | TailAt(h, v, seen, rev)
        ensures SafeAfter(h, Tail)
      {
        SafeIfDisciplined(h, Tail);
      }
    } else {
      var h := UnsafeTail(seen, rev);
      assert TailAt(h, v, seen, rev) && !SafeAfter(h, Tail);
    }
    hide SafeAfter;
  }

  /** The installed reload, then the panel resets p and goes on to `rev`. */
  lemma InstalledBehind(p: Pass, seen: nat, rev: nat) returns (h: History)
    requires p != "" && seen < rev
    ensures DisciplinedRun(h) && Zeroed(Run(h), p) && Uses(Run(h).srv.mem, p)
    ensures Run(h).reload == Installed(0) && Run(h).srv.seen == seen && Run(h).disk.rev == rev
  {
    hide Run, DisciplinedRun, ResetUpTo, Step;
    var rows := Used(p);
    var l := Then(Then(Then(Then(Then(Begin(rows, seen, 0), ReadRev(false)), Decide), Snap), Load), Install(true));
    InstalledReachable(rows, seen);
    ResetUpToRun(l, p, rev - seen - 1);
    h := ResetUpTo(l, p, rev - seen - 1);
  }

  lemma UnsafeTail(seen: nat, rev: nat) returns (h: History)
    requires seen < rev
    ensures TailAt(h, rev, seen, rev) && !SafeAfter(h, Tail)
  {
    hide Run, DisciplinedRun, SafeAfter, Step, Undone, Flushing, Uses;
    var p := "user";
    var l := InstalledBehind(p, seen, rev);
    ReadTailEffect(Run(l));
    h := Then(l, ReadTail(true));
    ExtendFreely(l, ReadTail(true));
    TailUndoes(h, p);
  }

  // ---------- The server's own writes ----------

  /** A write of the server's own that starts behind the disk remembers the reset as applied. */
  lemma OwnWriteBehindUndoesReset(h: History, p: Pass)
    requires var w := Run(h);
             && w.lock.Free? && p != "" && p in w.disk.rows && Uses(w.srv.mem, p)
    ensures Undone(Run(Flushing(Then(Then(Then(h, Reset(p)), OwnPatch), OwnRemember(true)), p)), p)
  {
    var h1 := Then(h, Reset(p));
    ResetEffect(Run(h), p);
    OwnPatchEffect(Step(Run(h), Reset(p)));
    Extend(h, Reset(p));
    Extend(h1, OwnPatch);
    hide Run, DisciplinedRun, Undone, Flushing, Step, Uses, AtMost;
    Remembers(Then(h1, OwnPatch), p);
  }

  lemma Remembers(h: History, p: Pass)
    requires var w := Run(h);
             && w.lock.Committed? && p != "" && p in w.disk.rows && AccountedTo(w.book, p) == ZERO && Uses(w.srv.mem, p)
    ensures Undone(Run(Flushing(Then(h, OwnRemember(true)), p)), p) && !SafeAfter(h, OwnRemember(true))
  {
    RememberEffect(Run(h));
    Extend(h, OwnRemember(true));
    hide Run, DisciplinedRun, Undone, Flushing, Step, Uses, SafeAfter, AccountedTo;
    FlushingUndoes(Then(h, OwnRemember(true)), p);
    UnsafeFlushing(h, OwnRemember(true), p);
  }

  /** Even one that starts in sync: it commits, the panel resets p, and the write then
      remembers the revision it finds, which is the reset's. Every step but the look at the
      revision is disciplined. */
  lemma OvertakenOwnWriteUndoesReset(h: History, p: Pass)
    requires var w := Run(h);
             && w.lock.Free? && w.srv.applied == w.disk.rev && DisciplinedRun(h)
             && p != "" && p in w.disk.rows && Uses(w.srv.mem, p)
    ensures var h' := Then(Then(h, OwnPatch), Reset(p));
            && DisciplinedRun(h') && !SafeAfter(h', OwnRemember(true))
            && Undone(Run(Flushing(Then(h', OwnRemember(true)), p)), p)
  {
    var h1 := Then(h, OwnPatch);
    OwnPatchEffect(Run(h));
    ResetEffect(Step(Run(h), OwnPatch), p);
    ExtendFreely(h, OwnPatch);
    ExtendFreely(h1, Reset(p));
    hide Run, DisciplinedRun, Undone, Flushing, Step, Uses, SafeAfter, AtMost;
    Remembers(Then(h1, Reset(p)), p);
  }

  /** The start of the overtaken write: every database freshly loaded. */
  lemma OvertakenReachable(rows: map<Pass, Row>, rev: nat, p: Pass)
    requires p != "" && Uses(rows, p)
    ensures var h := Then(Then(Begin(rows, rev, 0), OwnPatch), Reset(p));
            DisciplinedRun(h) && Undone(Run(Flushing(Then(h, OwnRemember(true)), p)), p)
  {
    BeginState(rows, rev);
    hide Run, DisciplinedRun, Undone, Flushing, SafeAfter;
    OvertakenOwnWriteUndoesReset(Begin(rows, rev, 0), p);
  }

  /** A write of the server's own has committed revision r, its counters reflect the resets up
      to `seen`, and the disk has gone on to `rev`. */
  ghost predicate RememberAt(h: History, r: nat, seen: nat, rev: nat) {
    DisciplinedRun(h) && Run(h).lock == Committed(r) && Run(h).srv.seen == seen && Run(h).disk.rev == rev
  }

  /** Looking at the revision is safe exactly when the counters reflect all resets on the disk:
      the write started so, and nothing was committed since. (A write that starts so raises
      `seen` along with the revision, so r - 1 cannot occur.) */
  lemma RememberGuardExact(r: nat, seen: nat, rev: nat)
    requires 1 <= r <= rev && (seen == r || seen + 2 <= r)
    ensures (forall h | RememberAt(h, r, seen, rev) :: SafeAfter(h, OwnRemember(true))) <==> seen == r == rev
  {
    if seen == r == rev {
      forall h | RememberAt(h, r, seen, rev)
        ensures SafeAfter(h, OwnRemember(true))
      {
        SafeIfDisciplined(h, OwnRemember(true));
      }
    } else {
      var h;
      if seen == r {
        h := OvertakenWrite(r, rev);
      } else {
        h := WriteBehind(r, seen, rev);
      }
      assert RememberAt(h, r, seen, rev) && !SafeAfter(h, OwnRemember(true));
    }
    hide SafeAfter;
  }

  lemma OvertakenWrite(r: nat, rev: nat) returns (h: History)
    requires 1 <= r < rev
    ensures RememberAt(h, r, r, rev) && !SafeAfter(h, OwnRemember(true))
  {
    var p := "user";
    var l := Begin(Used(p), r - 1, 0);
    BeginState(Used(p), r - 1);
    OwnPatchEffect(Run(l));
    ExtendFreely(l, OwnPatch);
    ResetUpToRun(Then(l, OwnPatch), p, rev - r - 1);
    hide Run, DisciplinedRun, ResetUpTo, SafeAfter, Step, AtMost;
    h := ResetUpTo(Then(l, OwnPatch), p, rev - r - 1);
    Remembers(h, p);
  }

  lemma WriteBehind(r: nat, seen: nat, rev: nat) returns (h: History)
    requires seen + 2 <= r <= rev
    ensures RememberAt(h, r, seen, rev) && !SafeAfter(h, OwnRemember(true))
  {
    hide Run, DisciplinedRun, Edits, SafeAfter, Step, Uses, AccountedTo;
    var p := "user";
    var l := FallenBehind(p, seen, r - 1);
    var l' := Then(l, OwnPatch);
    OwnPatchEffect(Run(l));
    ExtendFreely(l, OwnPatch);
    EditsRun(l', rev - r);
    h := Edits(l', rev - r);
    Remembers(h, p);
  }

  ghost predicate FreeAt(h: History, seen: nat, rev: nat) {
    DisciplinedRun(h) && Run(h).lock.Free? && Run(h).srv.seen == seen && Run(h).disk.rev == rev
  }

  /** Writing the server's counters to the disk, all of them or one user's, is safe exactly when
      they reflect all resets there. */
  lemma SaveGuardExact(e: Event, seen: nat, rev: nat)
    requires seen <= rev && (e.OwnSave? || (e.OwnUpsert? && e.p != ""))
    ensures (forall h | FreeAt(h, seen, rev) :: SafeAfter(h, e)) <==> seen == rev
  {
    if seen == rev {
      forall h | FreeAt(h, seen, rev)
        ensures SafeAfter(h, e)
      {
        SafeIfDisciplined(h, e);
      }
    } else {
      var p := if e.OwnUpsert? then e.p else "user";
      var h := FallenBehind(p, seen, rev);
      SaveUndoes(Run(h), e, p);
      Extend(h, e);
      UnsafeNow(h, e, p);
      assert FreeAt(h, seen, rev) && !SafeAfter(h, e);
    }
    hide SafeAfter;
  }

  lemma UnsafeNow(h: History, e: Event, p: Pass)
    requires Undone(Run(Then(h, e)), p)
    ensures !SafeAfter(h, e)
  {
    UndoneBreaks(Run(Then(h, e)), p);
    assert Follows(Then(h, e), Then(h, e));
    hide Run, ResetsHold, Undone;
  }

  lemma SaveUndoes(w: World, e: Event, p: Pass)
    requires Zeroed(w, p) && Uses(w.srv.mem, p) && (e.OwnSave? || e == OwnUpsert(p))
    ensures Undone(Step(w, e), p)
  {
  }

  // ---------- A flush without a fence ----------

  /** A flush that cannot read the revision is not fenced at all. */
  lemma UnreadableFlushUndoesReset(h: History, p: Pass)
    requires var w := Run(h);
             && w.lock.Free? && p != "" && p in w.disk.rows && Uses(w.srv.mem, p)
    ensures Undone(Run(Then(Then(Then(h, Reset(p)), Account(p, 1, 0)), Flush(false))), p)
  {
    ResetEffect(Run(h), p);
    var h1 := Then(h, Reset(p));
    Extend(h, Reset(p));
    hide Run, DisciplinedRun, Undone, Step, Uses, AtMost;
    UnfencedUndoes(h1, p);
  }

  lemma UnfencedUndoes(h: History, p: Pass)
    requires Zeroed(Run(h), p) && Uses(Run(h).srv.mem, p)
    ensures Undone(Run(Then(Then(h, Account(p, 1, 0)), Flush(false))), p)
  {
    hide Run, DisciplinedRun, Undone, Step, Uses, Zeroed;
    FlushUndoes(Run(h), false, p);
    Extend(h, Account(p, 1, 0));
    Extend(Then(h, Account(p, 1, 0)), Flush(false));
  }

  /** It is safe exactly when the server's counters reflect all resets on the disk. */
  lemma FlushGuardExact(seen: nat, rev: nat)
    requires seen <= rev
    ensures (forall h | FreeAt(h, seen, rev) :: SafeAfter(h, Flush(false))) <==> seen == rev
  {
    if seen == rev {
      forall h | FreeAt(h, seen, rev)
        ensures SafeAfter(h, Flush(false))
      {
        SafeIfDisciplined(h, Flush(false));
      }
    } else {
      var p := "user";
      var l := FallenBehind(p, seen, rev);
      var h := Then(l, Account(p, 1, 0));
      UnfencedUndoes(l, p);
      ExtendFreely(l, Account(p, 1, 0));
      UnsafeNow(h, Flush(false), p);
      AccountKeeps(Run(l), p);
      assert FreeAt(h, seen, rev) && !SafeAfter(h, Flush(false));
    }
    hide SafeAfter;
  }

  lemma AccountKeeps(w: World, p: Pass)
    ensures var w' := Step(w, Account(p, 1, 0));
            w'.lock == w.lock && w'.srv.seen == w.srv.seen && w'.disk == w.disk
  {
  }

  /** The UPDATE of a flush whose fence check was made earlier. */
  function LateUpdate(w: World): World {
    w.(disk := Disk(w.disk.rev, Flushed(w.disk.rows, w.srv.mem)))
  }

  /** If the fence check and the UPDATE were two steps, a reset between them would be undone. */
  lemma SplitFlushUndoesReset(w: World, p: Pass)
    requires p != "" && p in w.disk.rows && Uses(w.srv.mem, p)
    ensures Undone(LateUpdate(Step(w, Reset(p))), p)
  {
    ResetEffect(w, p);
  }

  // ---------- The panel writes a user back ----------

  /** A change of the main password that loaded used bytes of p before p is reset writes them
      back, with or without the merge in between. */
  lemma StaleCopyUndoesReset(h: History, p: Pass, merge: bool)
    requires var w := Run(h);
             && w.panel.Copied? && p != "" && p in w.disk.rows && Uses(w.panel.rows, p)
    ensures var h1 := Then(h, Reset(p));
            var h2 := if merge then Then(h1, Remerge) else h1;
            Undone(Run(Then(h2, Upsert(p))), p)
  {
    ResetEffect(Run(h), p);
    var h1 := Then(h, Reset(p));
    Extend(h, Reset(p));
    Extend(h1, Remerge);
    RemergeKeeps(Run(h1), p);
    hide Run, DisciplinedRun, Undone, AtMost, Uses;
    var h2 := if merge then Then(h1, Remerge) else h1;
    UpsertUndoes(Run(h2), p);
    Extend(h2, Upsert(p));
  }

  lemma RemergeKeeps(w: World, p: Pass)
    requires w.panel.Copied? && Uses(w.panel.rows, p)
    ensures var w' := Step(w, Remerge); w' == w.(panel := w'.panel) && w'.panel.Copied? && Uses(w'.panel.rows, p)
  {
  }

  lemma UpsertUndoes(w: World, p: Pass)
    requires w.panel.Copied? && p != "" && Uses(w.panel.rows, p) && AccountedTo(w.book, p) == ZERO
    ensures Undone(Step(w, Upsert(p)), p)
  {
  }

  ghost predicate UpsertAt(h: History, p: Pass, reset: nat, seen: nat) {
    DisciplinedRun(h) && Run(h).panel.Copied? && Run(h).panel.seen == seen && ResetAt(Run(h).book, p) == reset
  }

  /** Writing p back is safe exactly when p was last reset no later than it was loaded. */
  lemma UpsertGuardExact(p: Pass, reset: nat, seen: nat)
    requires p != ""
    ensures (forall h | UpsertAt(h, p, reset, seen) :: SafeAfter(h, Upsert(p))) <==> reset <= seen
  {
    if reset <= seen {
      forall h | UpsertAt(h, p, reset, seen)
        ensures SafeAfter(h, Upsert(p))
      {
        SafeIfDisciplined(h, Upsert(p));
      }
    } else {
      var h := StaleCopy(p, reset, seen);
      assert UpsertAt(h, p, reset, seen) && !SafeAfter(h, Upsert(p));
    }
    hide SafeAfter;
  }

  lemma StaleCopy(p: Pass, reset: nat, seen: nat) returns (h: History)
    requires p != "" && seen < reset
    ensures UpsertAt(h, p, reset, seen) && !SafeAfter(h, Upsert(p))
  {
    var l := Then(Begin(Used(p), seen, 0), Copy);
    BeginState(Used(p), seen);
    ExtendFreely(Begin(Used(p), seen, 0), Copy);
    EditsRun(l, reset - seen - 1);
    var l' := Edits(l, reset - seen - 1);
    h := Then(l', Reset(p));
    hide Run, DisciplinedRun, Edits, SafeAfter, ReloadStep, LockedStep, HolderStep;
    ResetEffect(Run(l'), p);
    ExtendFreely(l', Reset(p));
    Extend(h, Upsert(p));
    hide Step;
    UpsertUndoes(Run(h), p);
    UnsafeNow(h, Upsert(p), p);
  }
}
