// The users_rev protocol between the panel, the database and the running server: a
// revision counter fences traffic flushes and decides whether the disk or the memory is
// believed. One step is one transaction, one query, or what runs under the server's lock
// between two of them; steps interleave freely. The lock does not stop the panel. A step
// that queries the revision says whether that query succeeds (`readable`).
module UsersRev {
  import opened Traffic

  datatype Disk = Disk(rev: nat, rows: map<Pass, Row>)

  // `seen`, here and below, is for reasoning only: the newest revision whose resets the
  // counters are known to reflect.
  datatype Server = Server(mem: map<Pass, Row>, applied: nat, dirty: bool, seen: nat)

  // reloadDBFromDisk, one reload at a time.
  datatype Reload =
    | Idle
    | RevRead(d: nat)
    | Decided(d: nat, trust: bool)
    | Snapped(d: nat, snap: map<Pass, Row>, seen: nat)
    | Loaded(d: nat, trust: bool, incoming: map<Pass, Row>, seen: nat)
    | Installed(d: nat)
    | TailRead(rev: nat)

  // Who holds the server's lock from one step to the next: a sync from its revision read to
  // its end, a write of the server's own (committed as revision `rev`) until it has
  // remembered a revision.
  datatype Lock = Free | Syncing(rev: nat) | Committed(rev: nat)

  // A change of the main password loads the store, merges counters with a second load, and
  // writes the user back. One such change at a time.
  datatype Panel = NoCopy | Copied(rows: map<Pass, Row>, seen: nat)

  // For stating the property: bytes accounted to a user since its last reset (or creation),
  // and the revision of that reset.
  datatype Book = Book(accounted: map<Pass, Row>, resetAt: map<Pass, nat>)

  datatype World = World(disk: Disk, srv: Server, reload: Reload, lock: Lock, panel: Panel, book: Book)

  datatype Event =
    // the panel, each one transaction or load
    | Reset(p: Pass) | Create(p: Pass) | Delete(p: Pass) | Edit | Copy | Remerge | Upsert(p: Pass)
    // the server, under its lock
    | Ensure(p: Pass) | Account(p: Pass, up: nat, down: nat) | Flush(readable: bool)
    | OwnUpsert(p: Pass) | OwnSave | OwnPatch | OwnDelete(p: Pass) | OwnRemember(readable: bool)
    | SyncRead | SyncInstall
    // a reload; only Decide, Snap and Install take the lock
    | ReadRev(readable: bool) | Decide | Snap | Load | Install(readable: bool) | ReadTail(readable: bool) | Tail

  datatype History = Begin(rows: map<Pass, Row>, applied: nat, ahead: nat) | Then(before: History, last: Event)

  function NatMax(a: nat, b: nat): nat {
    if a > b then a else b
  }

  function AccountedTo(b: Book, p: Pass): Row {
    if p in b.accounted then b.accounted[p] else ZERO
  }

  function ResetAt(b: Book, p: Pass): nat {
    if p in b.resetAt then b.resetAt[p] else 0
  }

  // ---------- Steps ----------

  function Bump(d: Disk, rows: map<Pass, Row>): Disk {
    Disk(d.rev + 1, rows)
  }

  /** saveTrafficToSQLiteLocked: nothing is written while the disk is known to be ahead. (Its
      callers look at the dirty flag before they take the lock.) */
  function FlushStep(w: World, readable: bool): World {
    if readable && w.disk.rev > w.srv.applied then w
    else w.(disk := Disk(w.disk.rev, Flushed(w.disk.rows, w.srv.mem)), srv := w.srv.(dirty := false))
  }

  /** The transaction of a write of the server's own; it resets nothing. */
  function OwnCommit(w: World, mem: map<Pass, Row>, rows: map<Pass, Row>): World {
    w.(disk := Bump(w.disk, rows),
       srv := w.srv.(mem := mem, seen := if w.srv.seen == w.disk.rev then w.disk.rev + 1 else w.srv.seen),
       lock := Committed(w.disk.rev + 1))
  }

  function Remember(w: World, rev: nat): World {
    w.(srv := w.srv.(applied := NatMax(w.srv.applied, rev)))
  }

  function Forget(w: World, p: Pass, row: Row): World {
    w.(disk := Bump(w.disk, w.disk.rows[p := row]),
       book := Book(w.book.accounted[p := ZERO], w.book.resetAt[p := w.disk.rev + 1]))
  }

  function PanelStep(w: World, e: Event): World {
    match e
    case Reset(p) =>
      if p in w.disk.rows then Forget(w, p, w.disk.rows[p].(up := 0, down := 0, deactivated := false)) else w
    case Create(p) => if p in w.disk.rows then w else Forget(w, p, ZERO)
    case Delete(p) => w.(disk := Bump(w.disk, w.disk.rows - {p}))
    case Copy => w.(panel := Copied(w.disk.rows, w.disk.rev))
    case Remerge => if w.panel.Copied? then w.(panel := w.panel.(rows := Merged(w.panel.rows, w.disk.rows))) else w
    case Upsert(p) =>
      if w.panel.NoCopy? || p == "" || p !in w.panel.rows then w
      else w.(disk := Bump(w.disk, w.disk.rows[p := w.panel.rows[p]]), panel := NoCopy)
    case _ => w.(disk := Bump(w.disk, w.disk.rows))
  }

  function Add(r: Row, up: nat, down: nat): Row {
    r.(up := r.up + up, down := r.down + down)
  }

  function LockedStep(w: World, e: Event): World {
    var mem := w.srv.mem;
    match e
    case Ensure(p) => if p in mem then w else w.(srv := w.srv.(mem := mem[p := ZERO]))
    case Account(p, up, down) =>
      if p !in mem then w
      else w.(srv := w.srv.(mem := mem[p := Add(mem[p], up, down)], dirty := true),
              book := w.book.(accounted := w.book.accounted[p := Add(AccountedTo(w.book, p), up, down)]))
    case Flush(readable) => FlushStep(w, readable)
    case OwnUpsert(p) => if p in mem then OwnCommit(w, mem, w.disk.rows[p := mem[p]]) else w
    case OwnSave => OwnCommit(w, mem, mem)
    case OwnPatch => OwnCommit(w, mem, w.disk.rows)
    case OwnDelete(p) => OwnCommit(w, mem - {p}, w.disk.rows - {p})
    case _ => if w.disk.rev > w.srv.applied then w.(lock := Syncing(w.disk.rev)) else w
  }

  function InstallStep(w: World, readable: bool): World
    requires w.reload.Loaded?
  {
    var r := w.reload;
    var w1 := w.(srv := w.srv.(mem := r.incoming, seen := r.seen), reload := Installed(r.d));
    if !w.srv.dirty then w1
    else if r.trust then w1.(srv := w1.srv.(dirty := false))
    else FlushStep(w1, readable)
  }

  function ReloadStep(w: World, e: Event): World {
    match (w.reload, e)
    case (Idle, ReadRev(readable)) => w.(reload := RevRead(if readable then w.disk.rev else 0))
    case (RevRead(d), Decide) => w.(reload := Decided(d, d > w.srv.applied))
    case (Decided(d, false), Snap) => w.(reload := Snapped(d, w.srv.mem, w.srv.seen))
    case (Decided(d, true), Load) => w.(reload := Loaded(d, true, w.disk.rows, w.disk.rev))
    case (Snapped(d, snap, seen), Load) => w.(reload := Loaded(d, false, Merged(w.disk.rows, snap), seen))
    case (Loaded(_, _, _, _), Install(readable)) => InstallStep(w, readable)
    case (Installed(d), ReadTail(readable)) =>
      if d > 0 then w else w.(reload := if readable then TailRead(w.disk.rev) else Idle)
    case (Installed(d), Tail) => if d > 0 then Remember(w, d).(reload := Idle) else w
    case (TailRead(rev), Tail) => Remember(w, rev).(reload := Idle)
    case (_, _) => w
  }

  predicate ByPanel(e: Event) {
    e.Reset? || e.Create? || e.Delete? || e.Edit? || e.Copy? || e.Remerge? || e.Upsert?
  }

  predicate ByReload(e: Event) {
    e.ReadRev? || e.Decide? || e.Snap? || e.Load? || e.Install? || e.ReadTail? || e.Tail?
  }

  predicate ByHolder(e: Event) {
    e.SyncInstall? || e.OwnRemember?
  }

  predicate NeedsLock(e: Event) {
    !ByPanel(e) && !e.ReadRev? && !e.Load? && !e.ReadTail? && !e.Tail? && !ByHolder(e)
  }

  /** Whoever holds the lock goes on and releases it. */
  function HolderStep(w: World, e: Event): World {
    match (w.lock, e)
    case (Syncing(rev), SyncInstall) => Remember(w.(srv := w.srv.(mem := w.disk.rows, seen := w.disk.rev)), rev).(lock := Free)
    case (Committed(_), OwnRemember(readable)) => (if readable then Remember(w, w.disk.rev) else w).(lock := Free)
    case (_, _) => w
  }

  function Step(w: World, e: Event): World {
    if !w.lock.Free? && NeedsLock(e) then w
    else if ByPanel(e) then PanelStep(w, e)
    else if ByReload(e) then ReloadStep(w, e)
    else if ByHolder(e) then HolderStep(w, e)
    else LockedStep(w, e)
  }

  /** The server starts with the database loaded; what is there counts as accounted. */
  function Run(h: History): World {
    match h
    case Begin(rows, applied, ahead) =>
      World(Disk(applied + ahead, rows), Server(rows, applied, false, applied + ahead), Idle, Free, NoCopy, Book(rows, map[]))
    case Then(h', e) => Step(Run(h'), e)
  }

  // ---------- What keeps resets ----------

  /** What the code does not check itself, step by step. The server comes to believe itself in
      sync, or writes its counters unfenced, only while they reflect all resets on the disk; the
      panel writes a user back only if it was not reset since it was loaded. */
  predicate Disciplined(w: World, e: Event) {
    if !w.lock.Free? && NeedsLock(e) then true else
    match e
    case Install(readable) =>
      w.reload.Loaded? ==>
        && (w.srv.applied < w.disk.rev || w.reload.seen == w.disk.rev)
        && (readable || w.reload.seen == w.disk.rev || w.reload.trust || !w.srv.dirty)
    case Tail => w.reload.TailRead? ==> w.reload.rev < w.disk.rev || w.srv.seen == w.disk.rev
    case OwnUpsert(_) | OwnSave => w.srv.seen == w.disk.rev
    case OwnRemember(readable) => w.lock.Committed? && readable ==> w.srv.seen == w.disk.rev
    case Flush(readable) => readable || w.srv.seen == w.disk.rev
    case Upsert(p) => w.panel.Copied? ==> ResetAt(w.book, p) <= w.panel.seen
    case _ => true
  }

  ghost predicate DisciplinedRun(h: History) {
    h.Then? ==> DisciplinedRun(h.before) && Disciplined(Run(h.before), h.last)
  }

  predicate AtMost(a: Row, b: Row) {
    a.up <= b.up && a.down <= b.down
  }

  /** Counters never exceed what was accounted, for users not reset after revision `limit`. */
  ghost predicate Bounded(b: Book, m: map<Pass, Row>, limit: nat) {
    forall p | p in m && ResetAt(b, p) <= limit :: AtMost(m[p], AccountedTo(b, p))
  }

  /** The property: no counter on disk exceeds the bytes accounted since the last reset. */
  ghost predicate ResetsHold(w: World) {
    forall p | p in w.disk.rows :: AtMost(w.disk.rows[p], AccountedTo(w.book, p))
  }

  ghost predicate ValidReload(r: Reload, b: Book, srv: Server, rev: nat) {
    match r
    case Idle => true
    case RevRead(d) => d <= rev
    case Decided(d, trust) => d <= rev && (!trust ==> d <= srv.applied)
    case Snapped(d, snap, seen) => d <= srv.applied && seen <= rev && Bounded(b, snap, seen)
    case Loaded(d, trust, incoming, seen) =>
      seen <= rev && Bounded(b, incoming, seen) && (if trust then d <= seen else d <= srv.applied)
    case Installed(d) => d <= rev && (NatMax(srv.applied, d) == rev ==> srv.seen == rev)
    case TailRead(r) => r <= rev
  }

  ghost predicate ValidLock(l: Lock, rev: nat) {
    match l
    case Free => true
    case Syncing(r) => r <= rev
    case Committed(r) => r <= rev
  }

  ghost predicate ValidPanel(p: Panel, b: Book, rev: nat) {
    p.Copied? ==> p.seen <= rev && Bounded(b, p.rows, p.seen)
  }

  ghost predicate ValidBook(b: Book, rev: nat) {
    forall p | p in b.resetAt :: b.resetAt[p] <= rev
  }

  /** A server that believes itself in sync is. */
  ghost predicate ValidServer(srv: Server, b: Book, rev: nat) {
    && srv.applied <= rev && srv.seen <= rev && (srv.applied == rev ==> srv.seen == rev)
    && Bounded(b, srv.mem, srv.seen)
  }

  ghost predicate Valid(w: World) {
    && ValidBook(w.book, w.disk.rev)
    && ResetsHold(w)
    && ValidServer(w.srv, w.book, w.disk.rev)
    && ValidLock(w.lock, w.disk.rev)
    && ValidPanel(w.panel, w.book, w.disk.rev)
    && ValidReload(w.reload, w.book, w.srv, w.disk.rev)
  }

  /** A reset is newer than everything in hand, so no bound speaks of that user any more. */
  lemma ForgetBounded(b: Book, p: Pass, rev: nat, m: map<Pass, Row>, limit: nat)
    requires Bounded(b, m, limit) && limit <= rev
    ensures Bounded(Book(b.accounted[p := ZERO], b.resetAt[p := rev + 1]), m, limit)
  {
  }

  /** Nothing that was bounded at revision `rev` suffers from a newer reset. */
  lemma ForgetAll(w: World, p: Pass)
    requires Valid(w)
    ensures var b := Book(w.book.accounted[p := ZERO], w.book.resetAt[p := w.disk.rev + 1]);
            && ValidServer(w.srv, b, w.disk.rev + 1) && ValidPanel(w.panel, b, w.disk.rev + 1)
            && ValidReload(w.reload, b, w.srv, w.disk.rev + 1)
  {
    var rev := w.disk.rev;
    ForgetBounded(w.book, p, rev, w.srv.mem, w.srv.seen);
    if w.panel.Copied? {
      ForgetBounded(w.book, p, rev, w.panel.rows, w.panel.seen);
    }
    match w.reload
    case Snapped(_, snap, seen) => ForgetBounded(w.book, p, rev, snap, seen);
    case Loaded(_, _, incoming, seen) => ForgetBounded(w.book, p, rev, incoming, seen);
    case _ =>
    hide Bounded, ResetsHold;
  }

  lemma ForgetValid(w: World, p: Pass, row: Row)
    requires Valid(w) && AtMost(row, ZERO)
    ensures Valid(Forget(w, p, row))
  {
    ForgetAll(w, p);
    hide ValidReload, ValidServer, ValidPanel;
  }

  lemma UpsertValid(w: World, p: Pass)
    requires Valid(w) && Disciplined(w, Upsert(p))
    ensures Valid(PanelStep(w, Upsert(p)))
  {
    BumpValid(w);
    hide ValidReload, ValidServer;
  }

  /** Raising the revision without touching counters. */
  lemma BumpValid(w: World)
    requires Valid(w)
    ensures ValidServer(w.srv, w.book, w.disk.rev + 1) && ValidReload(w.reload, w.book, w.srv, w.disk.rev + 1)
    ensures ValidPanel(w.panel, w.book, w.disk.rev + 1) && ValidLock(w.lock, w.disk.rev + 1)
    ensures ValidBook(w.book, w.disk.rev + 1)
  {
    hide Bounded;
  }

  lemma MergedBounded(b: Book, rows: map<Pass, Row>, snap: map<Pass, Row>, limit: nat)
    requires Bounded(b, rows, limit) && Bounded(b, snap, limit)
    ensures Bounded(b, Merged(rows, snap), limit)
  {
  }

  lemma DiskBounded(w: World, limit: nat)
    requires ResetsHold(w)
    ensures Bounded(w.book, w.disk.rows, limit)
  {
  }

  lemma PanelValid(w: World, e: Event)
    requires Valid(w) && Disciplined(w, e) && ByPanel(e)
    ensures Valid(PanelStep(w, e))
  {
    if e.Reset? && e.p in w.disk.rows {
      ForgetValid(w, e.p, w.disk.rows[e.p].(up := 0, down := 0, deactivated := false));
    } else if e.Create? && e.p !in w.disk.rows {
      ForgetValid(w, e.p, ZERO);
    } else if e.Upsert? {
      UpsertValid(w, e.p);
    } else if e.Copy? {
      DiskBounded(w, w.disk.rev);
    } else if e.Remerge? && w.panel.Copied? {
      DiskBounded(w, w.panel.seen);
      MergedBounded(w.book, w.panel.rows, w.disk.rows, w.panel.seen);
    } else {
      BumpValid(w);
    }
    hide ValidReload, ValidServer, Bounded;
  }

  /** Counters that reflect all resets on the disk may be written there. */
  lemma FlushValid(w: World, readable: bool)
    requires Valid(w) && (readable || w.srv.seen == w.disk.rev)
    ensures Valid(FlushStep(w, readable))
  {
    hide ValidReload, ValidLock, ValidPanel;
    if w.srv.seen == w.disk.rev {
      forall p | p in w.disk.rows && p in w.srv.mem ensures ResetAt(w.book, p) <= w.srv.seen {
      }
    }
    FlushReload(w);
  }

  lemma FlushReload(w: World)
    requires ValidReload(w.reload, w.book, w.srv, w.disk.rev)
    ensures ValidReload(w.reload, w.book, w.srv.(dirty := false), w.disk.rev)
  {
  }

  lemma AccountBounded(b: Book, p: Pass, up: nat, down: nat, m: map<Pass, Row>, limit: nat)
    requires Bounded(b, m, limit)
    ensures var b' := b.(accounted := b.accounted[p := Add(AccountedTo(b, p), up, down)]);
            Bounded(b', m, limit) && (p in m ==> Bounded(b', m[p := Add(m[p], up, down)], limit))
  {
  }

  lemma AccountAll(w: World, p: Pass, up: nat, down: nat)
    requires Valid(w) && p in w.srv.mem
    ensures var b := w.book.(accounted := w.book.accounted[p := Add(AccountedTo(w.book, p), up, down)]);
            var srv := w.srv.(mem := w.srv.mem[p := Add(w.srv.mem[p], up, down)], dirty := true);
            ValidServer(srv, b, w.disk.rev) && ValidPanel(w.panel, b, w.disk.rev) && ValidReload(w.reload, b, srv, w.disk.rev)
  {
    AccountBounded(w.book, p, up, down, w.srv.mem, w.srv.seen);
    if w.panel.Copied? {
      AccountBounded(w.book, p, up, down, w.panel.rows, w.panel.seen);
    }
    match w.reload
    case Snapped(_, snap, seen) => AccountBounded(w.book, p, up, down, snap, seen);
    case Loaded(_, _, incoming, seen) => AccountBounded(w.book, p, up, down, incoming, seen);
    case _ =>
    hide Bounded, ResetsHold;
  }

  lemma AccountValid(w: World, p: Pass, up: nat, down: nat)
    requires Valid(w)
    ensures Valid(LockedStep(w, Account(p, up, down)))
  {
    if p in w.srv.mem {
      AccountAll(w, p, up, down);
      hide ValidReload, ValidServer, ValidPanel, Bounded;
    }
  }

  /** A write of the server's own, of counters that reflect all resets on the disk. */
  lemma OwnCommitValid(w: World, mem: map<Pass, Row>, rows: map<Pass, Row>)
    requires Valid(w)
    requires forall p | p in mem :: p in w.srv.mem && mem[p] == w.srv.mem[p]
    requires forall p | p in rows ::
               (w.srv.seen == w.disk.rev && p in mem && rows[p] == mem[p]) || (p in w.disk.rows && rows[p] == w.disk.rows[p])
    ensures Valid(OwnCommit(w, mem, rows))
  {
    BumpValid(w);
    OwnCommitReload(w, mem, rows);
    hide ValidReload;
    forall p | p in mem && w.srv.seen == w.disk.rev ensures AtMost(mem[p], AccountedTo(w.book, p)) {
      assert ResetAt(w.book, p) <= w.disk.rev;
    }
  }

  lemma OwnCommitReload(w: World, mem: map<Pass, Row>, rows: map<Pass, Row>)
    requires Valid(w)
    ensures var w' := OwnCommit(w, mem, rows); ValidReload(w'.reload, w'.book, w'.srv, w'.disk.rev)
  {
    hide Bounded, ResetsHold;
  }

  lemma LockedValid(w: World, e: Event)
    requires Valid(w) && w.lock.Free? && Disciplined(w, e) && !ByPanel(e) && !ByReload(e) && !ByHolder(e)
    ensures Valid(LockedStep(w, e))
  {
    if e.Account? {
      AccountValid(w, e.p, e.up, e.down);
    } else if e.Flush? {
      FlushValid(w, e.readable);
    } else if e.Ensure? {
      EnsureValid(w, e.p);
    } else if e.OwnUpsert? && e.p in w.srv.mem {
      OwnCommitValid(w, w.srv.mem, w.disk.rows[e.p := w.srv.mem[e.p]]);
    } else if e.OwnSave? {
      OwnCommitValid(w, w.srv.mem, w.srv.mem);
    } else if e.OwnPatch? {
      OwnCommitValid(w, w.srv.mem, w.disk.rows);
    } else if e.OwnDelete? {
      OwnCommitValid(w, w.srv.mem - {e.p}, w.disk.rows - {e.p});
    }
    hide ValidReload, ValidServer, ValidPanel, Bounded, OwnCommit;
  }

  lemma EnsureValid(w: World, p: Pass)
    requires Valid(w)
    ensures Valid(LockedStep(w, Ensure(p)))
  {
  }

  lemma HolderValid(w: World, e: Event)
    requires Valid(w) && Disciplined(w, e) && ByHolder(e)
    ensures Valid(HolderStep(w, e))
  {
  }

  lemma InstallValid(w: World, readable: bool)
    requires Valid(w) && w.lock.Free? && w.reload.Loaded? && Disciplined(w, Install(readable))
    ensures Valid(InstallStep(w, readable))
  {
    var r := w.reload;
    var w1 := w.(srv := w.srv.(mem := r.incoming, seen := r.seen), reload := Installed(r.d));
    assert Valid(w1);
    if w.srv.dirty && !r.trust {
      FlushValid(w1, readable);
    }
  }

  lemma ReloadValid(w: World, e: Event)
    requires Valid(w) && Disciplined(w, e) && ByReload(e) && (e.Install? ==> w.lock.Free?)
    ensures Valid(ReloadStep(w, e))
  {
    if w.reload.Loaded? && e.Install? {
      InstallValid(w, e.readable);
    } else if w.reload.Snapped? && e.Load? {
      DiskBounded(w, w.reload.seen);
      MergedBounded(w.book, w.disk.rows, w.reload.snap, w.reload.seen);
    } else if e.Load? {
      DiskBounded(w, w.disk.rev);
    }
  }

  lemma StepValid(w: World, e: Event)
    requires Valid(w) && Disciplined(w, e)
    ensures Valid(Step(w, e))
  {
    hide Valid, PanelStep, ReloadStep, LockedStep, HolderStep, Disciplined;
    if !w.lock.Free? && NeedsLock(e) {
    } else if ByPanel(e) {
      PanelValid(w, e);
    } else if ByReload(e) {
      ReloadValid(w, e);
    } else if ByHolder(e) {
      HolderValid(w, e);
    } else {
      LockedValid(w, e);
    }
  }

  lemma {:induction false} RunValid(h: History)
    requires DisciplinedRun(h)
    ensures Valid(Run(h))
  {
    if h.Then? {
      RunValid(h.before);
      StepValid(Run(h.before), h.last);
    }
  }

  /** A traffic reset is never undone: in every disciplined run of panel edits and resets,
      accounting, flushes, syncs and multi-step reloads, no counter on disk ever exceeds the
      bytes accounted to that user since its last reset. */
  lemma ResetNeverUndone(h: History)
    requires DisciplinedRun(h)
    ensures ResetsHold(Run(h))
  {
    RunValid(h);
  }
}
