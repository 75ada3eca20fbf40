// The other half of the users_rev protocol: no accounted byte is lost, except by the steps
// that replace the server's counters, and then exactly which. Bytes are counted from the log.
module UsersRevKeeps {
  import opened Traffic
  import opened UsersRev
  import UsersRevLimits

  /** The server takes the bytes: nobody else holds its lock and it knows the user. */
  predicate Takes(w: World, e: Event, p: Pass) {
    e.Account? && e.p == p && w.lock.Free? && p in w.srv.mem
  }

  /** Bytes accounted to p after `start`. */
  ghost function UpSince(h: History, start: History, p: Pass): nat
    decreases h
  {
    if h == start || h.Begin? then 0
    else UpSince(h.before, start, p) + if Takes(Run(h.before), h.last, p) then h.last.up else 0
  }

  ghost function DownSince(h: History, start: History, p: Pass): nat
    decreases h
  {
    if h == start || h.Begin? then 0
    else DownSince(h.before, start, p) + if Takes(Run(h.before), h.last, p) then h.last.down else 0
  }

  function Up(m: map<Pass, Row>, p: Pass): nat {
    if p in m then m[p].up else 0
  }

  function Down(m: map<Pass, Row>, p: Pass): nat {
    if p in m then m[p].down else 0
  }

  /** The steps that replace the server's counters of p by others or drop them. */
  predicate Replaces(w: World, e: Event, p: Pass) {
    || (e.SyncInstall? && w.lock.Syncing?)
    || (e.Install? && w.lock.Free? && w.reload.Loaded?)
    || (e.OwnDelete? && e.p == p && w.lock.Free?)
  }

  ghost predicate Undisturbed(h: History, start: History, p: Pass)
    decreases h
  {
    h == start || (h.Then? && Undisturbed(h.before, start, p) && !Replaces(Run(h.before), h.last, p))
  }

  // ---------- One step ----------

  lemma FlushKeepsMemory(w: World, readable: bool)
    ensures FlushStep(w, readable).srv.mem == w.srv.mem
  {
    hide Flushed;
  }

  lemma PanelKeepsServer(w: World, e: Event)
    ensures PanelStep(w, e).srv == w.srv && PanelStep(w, e).lock == w.lock
  {
    hide Merged;
  }

  lemma ReloadKeepsMemory(w: World, e: Event, p: Pass)
    requires !(e.Install? && w.reload.Loaded?)
    ensures ReloadStep(w, e).srv.mem == w.srv.mem
  {
    hide InstallStep, Merged;
  }

  lemma HolderKeepsMemory(w: World, e: Event, p: Pass)
    requires !Replaces(w, e, p)
    ensures HolderStep(w, e).srv.mem == w.srv.mem
  {
  }

  lemma LockedKeepsMemory(w: World, e: Event, p: Pass)
    requires w.lock.Free? && !Replaces(w, e, p) && !ByPanel(e) && !ByReload(e) && !ByHolder(e)
    ensures var m, m' := w.srv.mem, LockedStep(w, e).srv.mem;
            && (p in m ==> p in m')
            && Up(m', p) == Up(m, p) + (if e.Account? && e.p == p && p in m then e.up else 0)
            && Down(m', p) == Down(m, p) + (if e.Account? && e.p == p && p in m then e.down else 0)
  {
    hide FlushStep;
    if e.Flush? {
      FlushKeepsMemory(w, e.readable);
    }
  }

  lemma StepCounts(w: World, e: Event, p: Pass)
    requires !Replaces(w, e, p)
    ensures var m, m' := w.srv.mem, Step(w, e).srv.mem;
            && (p in m ==> p in m')
            && Up(m', p) == Up(m, p) + (if Takes(w, e, p) then e.up else 0)
            && Down(m', p) == Down(m, p) + (if Takes(w, e, p) then e.down else 0)
  {
    hide PanelStep, ReloadStep, HolderStep, LockedStep;
    if !w.lock.Free? && NeedsLock(e) {
    } else if ByPanel(e) {
      PanelKeepsServer(w, e);
    } else if ByReload(e) {
      ReloadKeepsMemory(w, e, p);
    } else if ByHolder(e) {
      HolderKeepsMemory(w, e, p);
    } else {
      LockedKeepsMemory(w, e, p);
    }
  }

  // ---------- Runs ----------

  /** Whatever the panel, reloads and syncs do meanwhile: as long as the server's counters of p are
      not replaced, they are what they were plus the bytes accounted since, in each direction. */
  lemma {:induction false} MemoryCounts(h: History, start: History, p: Pass)
    requires Undisturbed(h, start, p)
    ensures var m, m' := Run(start).srv.mem, Run(h).srv.mem;
            && (p in m ==> p in m')
            && Up(m', p) == Up(m, p) + UpSince(h, start, p)
            && Down(m', p) == Down(m, p) + DownSince(h, start, p)
    decreases h
  {
    hide Step, Takes, Replaces, Up, Down;
    if h != start {
      MemoryCounts(h.before, start, p);
      StepCounts(Run(h.before), h.last, p);
    }
  }

  /** A flush that is not held back brings both directions to the disk. */
  lemma FlushWrites(w: World, readable: bool, p: Pass)
    requires w.lock.Free? && !(readable && w.disk.rev > w.srv.applied)
    requires p in w.disk.rows && p in w.srv.mem && p != ""
    ensures var w' := Step(w, Flush(readable));
            p in w'.disk.rows && w'.disk.rows[p].up == w.srv.mem[p].up && w'.disk.rows[p].down == w.srv.mem[p].down
  {
  }

  /** Hence nothing accounted is missing on disk after such a flush. */
  lemma FlushedInFull(h: History, start: History, p: Pass, readable: bool)
    requires Undisturbed(h, start, p) && p in Run(start).srv.mem && p in Run(h).disk.rows && p != ""
    requires Run(h).lock.Free? && !(readable && Run(h).disk.rev > Run(h).srv.applied)
    ensures var m, rows := Run(start).srv.mem, Run(Then(h, Flush(readable))).disk.rows;
            && p in rows
            && rows[p].up == m[p].up + UpSince(h, start, p)
            && rows[p].down == m[p].down + DownSince(h, start, p)
  {
    hide Step, UpSince, DownSince, Run, Undisturbed;
    MemoryCounts(h, start, p);
    UsersRevLimits.Extend(h, Flush(readable));
    FlushWrites(Run(h), readable, p);
  }

  // ---------- The server alone ----------

  /** No panel steps, no reloads, revision reads succeed and p is not deleted. */
  ghost predicate Alone(h: History, p: Pass) {
    match h
    case Begin(rows, _, ahead) => ahead == 0 && p in rows
    case Then(h', e) =>
      Alone(h', p) && !ByPanel(e) && !ByReload(e) && (e.OwnRemember? ==> e.readable) && !(e.OwnDelete? && e.p == p)
  }

  /** The server knows the disk's revision, or is about to remember it. */
  predicate InSync(w: World, p: Pass) {
    && p in w.srv.mem && p in w.disk.rows && w.srv.applied <= w.disk.rev
    && match w.lock
       case Free => w.srv.applied == w.disk.rev
       case Syncing(_) => false
       case Committed(r) => r == w.disk.rev
  }

  lemma FlushInSync(w: World, readable: bool, p: Pass)
    requires InSync(w, p)
    ensures InSync(FlushStep(w, readable), p)
  {
  }

  lemma StaysInSync(w: World, e: Event, p: Pass)
    requires InSync(w, p) && !ByPanel(e) && !ByReload(e) && (e.OwnRemember? ==> e.readable) && !(e.OwnDelete? && e.p == p)
    ensures InSync(Step(w, e), p) && !Replaces(w, e, p)
  {
    hide FlushStep;
    if e.Flush? {
      FlushInSync(w, e.readable, p);
    }
  }

  function Opening(h: History): History {
    if h.Begin? then h else Opening(h.before)
  }

  lemma {:induction false} AloneInSync(h: History, p: Pass)
    requires Alone(h, p)
    ensures InSync(Run(h), p) && Undisturbed(h, Opening(h), p) && Opening(h).Begin?
  {
    hide Step, InSync, Replaces;
    if h.Then? {
      AloneInSync(h.before, p);
      OpeningIsStart(h);
      StaysInSync(Run(h.before), h.last, p);
    } else {
      BeginInSync(h, p);
    }
  }

  lemma BeginInSync(h: History, p: Pass)
    requires h.Begin? && Alone(h, p)
    ensures InSync(Run(h), p)
  {
  }

  lemma {:induction false} OpeningIsStart(h: History)
    ensures Opening(h).Begin? && (h.Then? ==> Opening(h) == Opening(h.before) && h != Opening(h))
  {
    if h.Then? {
      OpeningIsStart(h.before);
    }
  }

  /** Without the panel and reloads, from a server in sync: memory holds the opening row plus every
      byte accounted, in each direction, and after any flush the disk does too. */
  lemma NothingLostAlone(h: History, p: Pass, readable: bool)
    requires Alone(h, p) && Run(h).lock.Free? && p != ""
    ensures var start := Opening(h);
            var m, rows := Run(h).srv.mem, Run(Then(h, Flush(readable))).disk.rows;
            && start.Begin? && p in start.rows && p in m && p in rows
            && m[p].up == start.rows[p].up + UpSince(h, start, p)
            && m[p].down == start.rows[p].down + DownSince(h, start, p)
            && rows[p].up == m[p].up && rows[p].down == m[p].down
  {
    hide Step, UpSince, DownSince, Undisturbed;
    AloneInSync(h, p);
    MemoryCounts(h, Opening(h), p);
    OpeningRow(h, p);
    hide Run;
    UsersRevLimits.Extend(h, Flush(readable));
    FlushWrites(Run(h), readable, p);
  }

  lemma {:induction false} OpeningRow(h: History, p: Pass)
    requires Alone(h, p)
    ensures Opening(h).Begin? && p in Opening(h).rows && Run(Opening(h)).srv.mem == Opening(h).rows
  {
    if h.Then? {
      OpeningRow(h.before, p);
    }
  }

  // ---------- What the replacing steps discard ----------

  /** A sync believes the disk: of everything counted since `start` it keeps what the disk has. */
  lemma SyncDiscards(h: History, start: History, p: Pass)
    requires Undisturbed(h, start, p) && Run(h).lock.Syncing?
    ensures var m, rows, m' := Run(start).srv.mem, Run(h).disk.rows, Run(Then(h, SyncInstall)).srv.mem;
            && Up(Run(h).srv.mem, p) - Up(m', p) == Up(m, p) + UpSince(h, start, p) - Up(rows, p)
            && Down(Run(h).srv.mem, p) - Down(m', p) == Down(m, p) + DownSince(h, start, p) - Down(rows, p)
  {
    hide UpSince, DownSince, Run, Undisturbed, Up, Down;
    MemoryCounts(h, start, p);
    UsersRevLimits.Extend(h, SyncInstall);
  }

  /** Until it is installed, a reload keeps the snapshot it took and the data it merged it into. */
  predicate Carries(r: Reload, snap: map<Pass, Row>) {
    r.Loaded? || (r.Snapped? && r.snap == snap)
  }

  lemma StepCarries(w: World, e: Event, snap: map<Pass, Row>, p: Pass)
    requires Carries(w.reload, snap) && !Replaces(w, e, p)
    ensures Carries(Step(w, e).reload, snap)
    ensures w.reload.Loaded? ==> Step(w, e).reload == w.reload
  {
    hide Merged, Flushed;
  }

  lemma {:induction false} RunCarries(h: History, start: History, snap: map<Pass, Row>, p: Pass)
    requires Undisturbed(h, start, p) && Carries(Run(start).reload, snap)
    ensures Carries(Run(h).reload, snap)
    ensures Run(start).reload.Loaded? ==> Run(h).reload == Run(start).reload
    decreases h
  {
    hide Step, Carries, Replaces;
    if h != start {
      RunCarries(h.before, start, snap, p);
      StepCarries(Run(h.before), h.last, snap, p);
    }
  }

  lemma {:induction false} Longer(h: History, mid: History, start: History, p: Pass)
    requires Undisturbed(h, mid, p) && Undisturbed(mid, start, p)
    ensures Undisturbed(h, start, p)
    decreases h
  {
    hide Replaces, Run;
    if h != mid && h != start {
      Longer(h.before, mid, start, p);
    }
  }

  lemma SnapTaken(w: World)
    requires w.reload.Decided? && !w.reload.trust && w.lock.Free?
    ensures Step(w, Snap) == w.(reload := Snapped(w.reload.d, w.srv.mem, w.srv.seen))
  {
  }

  lemma LoadMerges(w: World, p: Pass)
    requires w.reload.Snapped? && p in w.disk.rows && p in w.reload.snap
    ensures var w' := Step(w, Load);
            && w' == w.(reload := w'.reload) && w'.reload.Loaded? && p in w'.reload.incoming
            && w'.reload.incoming[p].up == Max(w.disk.rows[p].up, w.reload.snap[p].up)
            && w'.reload.incoming[p].down == Max(w.disk.rows[p].down, w.reload.snap[p].down)
  {
  }

  lemma InstallReplaces(w: World, readable: bool)
    requires w.reload.Loaded? && w.lock.Free?
    ensures Step(w, Install(readable)).srv.mem == w.reload.incoming
  {
    hide Flushed;
  }

  /** A merging reload takes its snapshot at `start`, loads at `load` and installs at `h`. Per
      direction p then has the larger of its counter in the snapshot and its row at the load:
      what was accounted between snapshot and installation is not in it. */
  lemma MergingReload(h: History, load: History, start: History, p: Pass, readable: bool)
    requires Run(start).reload.Decided? && !Run(start).reload.trust && Run(start).lock.Free?
    requires Undisturbed(load, Then(start, Snap), p) && Run(load).reload.Snapped?
    requires Undisturbed(h, Then(load, Load), p) && Run(h).lock.Free?
    requires p in Run(start).srv.mem && p in Run(load).disk.rows
    ensures var old', rows := Run(start).srv.mem, Run(load).disk.rows;
            var m, m' := Run(h).srv.mem, Run(Then(h, Install(readable))).srv.mem;
            && p in m && p in m'
            && m[p].up == old'[p].up + UpSince(h, Then(start, Snap), p)
            && m[p].down == old'[p].down + DownSince(h, Then(start, Snap), p)
            && m'[p].up == Max(rows[p].up, old'[p].up)
            && m'[p].down == Max(rows[p].down, old'[p].down)
  {
    hide Step, UpSince, DownSince, Undisturbed, Carries, Run, Max, Replaces;
    ReloadLoads(load, start, p);
    Snapping(load, start, p);
    Longer(h, Then(load, Load), Then(start, Snap), p);
    MemoryCounts(h, Then(start, Snap), p);
    UsersRevLimits.Extend(start, Snap);
    SnapTaken(Run(start));
    LoadedStays(h, Then(load, Load), p);
    UsersRevLimits.Extend(h, Install(readable));
    InstallReplaces(Run(h), readable);
  }

  lemma LoadedStays(h: History, start: History, p: Pass)
    requires Undisturbed(h, start, p) && Run(start).reload.Loaded?
    ensures Run(h).reload == Run(start).reload
  {
    hide Run, Undisturbed;
    RunCarries(h, start, map[], p);
  }

  lemma Snapping(load: History, start: History, p: Pass)
    requires Undisturbed(load, Then(start, Snap), p)
    ensures Undisturbed(Then(load, Load), Then(start, Snap), p)
  {
    hide Run;
  }

  lemma ReloadLoads(load: History, start: History, p: Pass)
    requires Run(start).reload.Decided? && !Run(start).reload.trust && Run(start).lock.Free?
    requires Undisturbed(load, Then(start, Snap), p) && Run(load).reload.Snapped?
    requires p in Run(start).srv.mem && p in Run(load).disk.rows
    ensures var r := Run(Then(load, Load)).reload;
            && r.Loaded? && p in r.incoming
            && r.incoming[p].up == Max(Run(load).disk.rows[p].up, Run(start).srv.mem[p].up)
            && r.incoming[p].down == Max(Run(load).disk.rows[p].down, Run(start).srv.mem[p].down)
  {
    hide Step, Undisturbed, Run, Max;
    UsersRevLimits.Extend(start, Snap);
    SnapTaken(Run(start));
    RunCarries(load, Then(start, Snap), Run(start).srv.mem, p);
    UsersRevLimits.Extend(load, Load);
    LoadMerges(Run(load), p);
  }

  /** So it loses bytes of p exactly if some were accounted in between and the row on disk did not
      have them: the upload counter falls; likewise the download counter. */
  lemma MergingReloadLoses(h: History, load: History, start: History, p: Pass, readable: bool)
    requires Run(start).reload.Decided? && !Run(start).reload.trust && Run(start).lock.Free?
    requires Undisturbed(load, Then(start, Snap), p) && Run(load).reload.Snapped?
    requires Undisturbed(h, Then(load, Load), p) && Run(h).lock.Free?
    requires p in Run(start).srv.mem && p in Run(load).disk.rows
    ensures var m, m' := Run(h).srv.mem, Run(Then(h, Install(readable))).srv.mem;
            && (Up(m', p) < Up(m, p) <==> UpSince(h, Then(start, Snap), p) > 0 && Up(Run(load).disk.rows, p) < Up(m, p))
            && (Down(m', p) < Down(m, p) <==> DownSince(h, Then(start, Snap), p) > 0 && Down(Run(load).disk.rows, p) < Down(m, p))
  {
    hide Step, UpSince, DownSince, Undisturbed, Run;
    MergingReload(h, load, start, p, readable);
  }

  /** The input exists, with the panel idle and any database: what is accounted between the load and
      the installation of a reload is gone from memory and disk, though the run is disciplined. */
  lemma AccountedDuringReloadIsLost(rows: map<Pass, Row>, rev: nat, p: Pass, up: nat, down: nat)
    requires p in rows && p != ""
    ensures var loaded := Then(UsersRevLimits.Snapshot(rows, rev), Load);
            var h := Then(Then(loaded, Account(p, up, down)), Install(true));
            && DisciplinedRun(h) && Takes(Run(loaded), Account(p, up, down), p)
            && Run(loaded).srv.mem == rows && Run(h).srv.mem == rows
            && p in Run(h).disk.rows && Run(h).disk.rows[p].up == rows[p].up && Run(h).disk.rows[p].down == rows[p].down
  {
    var h0 := UsersRevLimits.Snapshot(rows, rev);
    var h1 := Then(h0, Load);
    var h2 := Then(h1, Account(p, up, down));
    UsersRevLimits.SnappedReachable(rows, rev);
    hide Run, DisciplinedRun, UsersRevLimits.Snapshot, Step, Merged;
    UsersRevLimits.Extend(h0, Load);
    UsersRevLimits.Extend(h1, Account(p, up, down));
    UsersRevLimits.Extend(h2, Install(true));
    LoadAgain(Run(h0), rows, rev);
    AccountLoaded(Run(h1), p, up, down);
    InstallRows(Run(h2), rows, rev, p);
  }

  lemma LoadAgain(w: World, rows: map<Pass, Row>, rev: nat)
    requires w.reload == Snapped(rev, rows, rev) && w.disk == Disk(rev, rows)
    ensures Step(w, Load) == w.(reload := Loaded(rev, false, rows, rev)) && Disciplined(w, Load)
  {
    assert Merged(rows, rows) == rows;
  }

  lemma AccountLoaded(w: World, p: Pass, up: nat, down: nat)
    requires p in w.srv.mem && w.lock.Free?
    ensures var w' := Step(w, Account(p, up, down));
            && w'.disk == w.disk && w'.reload == w.reload && w'.lock == w.lock
            && w'.srv.applied == w.srv.applied && w'.srv.dirty && Disciplined(w, Account(p, up, down))
  {
  }

  lemma InstallRows(w: World, rows: map<Pass, Row>, rev: nat, p: Pass)
    requires w.lock.Free? && w.reload == Loaded(rev, false, rows, rev) && w.srv.dirty
    requires w.disk == Disk(rev, rows) && w.srv.applied == rev && p in rows && p != ""
    ensures var w' := Step(w, Install(true));
            && Disciplined(w, Install(true)) && w'.srv.mem == rows && p in w'.disk.rows
            && w'.disk.rows[p].up == rows[p].up && w'.disk.rows[p].down == rows[p].down
  {
  }

  /** A reload that trusts the disk keeps what the disk had when it was loaded. */
  lemma TrustingReload(h: History, load: History, p: Pass, readable: bool)
    requires Run(load).reload.Decided? && Run(load).reload.trust
    requires Undisturbed(h, Then(load, Load), p) && Run(h).lock.Free?
    ensures var rows, m' := Run(load).disk.rows, Run(Then(h, Install(readable))).srv.mem;
            Up(m', p) == Up(rows, p) && Down(m', p) == Down(rows, p)
  {
    hide Step, Undisturbed, Run;
    UsersRevLimits.Extend(load, Load);
    TrustingLoad(Run(load));
    LoadedStays(h, Then(load, Load), p);
    UsersRevLimits.Extend(h, Install(readable));
    InstallReplaces(Run(h), readable);
  }

  lemma TrustingLoad(w: World)
    requires w.reload.Decided? && w.reload.trust
    ensures Step(w, Load).reload == Loaded(w.reload.d, true, w.disk.rows, w.disk.rev)
  {
  }

  predicate SameCounters(a: map<Pass, Row>, b: map<Pass, Row>, p: Pass) {
    Up(a, p) == Up(b, p) && Down(a, p) == Down(b, p)
  }

  lemma FlushRow(w: World, readable: bool, p: Pass)
    ensures var rows' := FlushStep(w, readable).disk.rows; SameCounters(rows', w.disk.rows, p) || SameCounters(rows', w.srv.mem, p)
  {
  }

  lemma PanelRow(w: World, e: Event, p: Pass)
    requires ByPanel(e)
    ensures SameCounters(PanelStep(w, e).disk.rows,
                         if Restarts(w, e, p) || (e.Delete? && e.p == p) then map[]
                         else if e.Upsert? && e.p == p && w.panel.Copied? && p in w.panel.rows && p != "" then w.panel.rows
                         else w.disk.rows, p)
  {
    hide Merged;
  }

  lemma ReloadRow(w: World, e: Event, p: Pass)
    ensures var w' := ReloadStep(w, e);
            SameCounters(w'.disk.rows, w.disk.rows, p) || SameCounters(w'.disk.rows, w'.srv.mem, p)
  {
    hide FlushStep, Merged, SameCounters;
    if w.reload.Loaded? && e.Install? {
      var w1 := w.(srv := w.srv.(mem := w.reload.incoming, seen := w.reload.seen), reload := Installed(w.reload.d));
      FlushRow(w1, e.readable, p);
      FlushKeepsMemory(w1, e.readable);
      SameItself(w.disk.rows, p);
    } else {
      SameItself(w.disk.rows, p);
    }
  }

  lemma SameItself(m: map<Pass, Row>, p: Pass)
    ensures SameCounters(m, m, p)
  {
  }

  lemma LockedRow(w: World, e: Event, p: Pass)
    requires w.lock.Free? && !ByPanel(e) && !ByReload(e) && !ByHolder(e)
    ensures var w' := LockedStep(w, e);
            SameCounters(w'.disk.rows, w.disk.rows, p) || SameCounters(w'.disk.rows, w'.srv.mem, p)
  {
    hide FlushStep;
    if e.Flush? {
      FlushRow(w, e.readable, p);
      FlushKeepsMemory(w, e.readable);
    }
  }

  /** Where the counters on disk come from: a panel reset or deletion, the copy a panel write took,
      or else they stay as they were or become the server's. */
  lemma DiskRowFrom(w: World, e: Event, p: Pass)
    ensures var w' := Step(w, e);
            || SameCounters(w'.disk.rows, w.disk.rows, p)
            || SameCounters(w'.disk.rows, w'.srv.mem, p)
            || ((Restarts(w, e, p) || (e.Delete? && e.p == p)) && SameCounters(w'.disk.rows, map[], p))
            || (e.Upsert? && e.p == p && w.panel.Copied? && SameCounters(w'.disk.rows, w.panel.rows, p))
  {
    hide PanelStep, ReloadStep, LockedStep, SameCounters;
    SameItself(w.disk.rows, p);
    if !w.lock.Free? && NeedsLock(e) {
    } else if ByPanel(e) {
      PanelRow(w, e, p);
    } else if ByReload(e) {
      ReloadRow(w, e, p);
    } else if !ByHolder(e) {
      LockedRow(w, e, p);
    }
  }

  /** What the panel leaves on disk: a reset zeroes, a deletion removes. */
  lemma PanelWrites(w: World, p: Pass)
    ensures p in w.disk.rows ==>
              var rows' := Step(w, Reset(p)).disk.rows;
              p in rows' && rows'[p].up == 0 && rows'[p].down == 0 && !rows'[p].deactivated
    ensures p !in Step(w, Delete(p)).disk.rows && p in Step(w, Create(p)).disk.rows
  {
    hide LockedStep, ReloadStep, HolderStep;
  }

  /** And the server: an own write that carries counters writes them, a deletion removes them. */
  lemma OwnWrites(w: World, p: Pass)
    requires w.lock.Free? && p in w.srv.mem
    ensures p in Step(w, OwnUpsert(p)).disk.rows && Step(w, OwnUpsert(p)).disk.rows[p] == w.srv.mem[p]
    ensures Step(w, OwnSave).disk.rows == w.srv.mem
    ensures p !in Step(w, OwnDelete(p)).disk.rows && p !in Step(w, OwnDelete(p)).srv.mem
  {
    hide PanelStep, ReloadStep, HolderStep;
  }

  /** A sync begins exactly if the disk is ahead, and then takes over what is on disk, whatever the
      panel does in between. */
  lemma SyncCatchesUp(w: World, w': World)
    requires w.lock.Free?
    ensures Step(w, SyncRead).lock.Syncing? <==> w.disk.rev > w.srv.applied
    ensures w'.lock == Syncing(w.disk.rev) ==>
              var s := Step(w', SyncInstall);
              s.srv.mem == w'.disk.rows && s.srv.applied >= w.disk.rev && s.lock.Free?
  {
  }

  // ---------- Since the last reset ----------

  predicate Restarts(w: World, e: Event, p: Pass) {
    (e.Reset? && e.p == p && p in w.disk.rows) || (e.Create? && e.p == p && p !in w.disk.rows)
  }

  /** Bytes accounted to p since it was last reset or created, what the server began with included. */
  ghost function UpSinceReset(h: History, p: Pass): nat {
    match h
    case Begin(rows, _, _) => Up(rows, p)
    case Then(h', e) => if Restarts(Run(h'), e, p) then 0 else UpSinceReset(h', p) + if Takes(Run(h'), e, p) then e.up else 0
  }

  ghost function DownSinceReset(h: History, p: Pass): nat {
    match h
    case Begin(rows, _, _) => Down(rows, p)
    case Then(h', e) => if Restarts(Run(h'), e, p) then 0 else DownSinceReset(h', p) + if Takes(Run(h'), e, p) then e.down else 0
  }

  lemma PanelBook(w: World, e: Event, p: Pass)
    requires ByPanel(e)
    ensures AccountedTo(PanelStep(w, e).book, p) == if Restarts(w, e, p) then ZERO else AccountedTo(w.book, p)
  {
    hide Merged;
  }

  lemma ReloadBook(w: World, e: Event)
    ensures ReloadStep(w, e).book == w.book
  {
    hide Merged, Flushed;
  }

  lemma LockedBook(w: World, e: Event, p: Pass)
    requires w.lock.Free?
    ensures var b, b' := AccountedTo(w.book, p), AccountedTo(LockedStep(w, e).book, p);
            && b'.up == b.up + (if Takes(w, e, p) then e.up else 0)
            && b'.down == b.down + (if Takes(w, e, p) then e.down else 0)
  {
    hide Flushed;
  }

  lemma StepBook(w: World, e: Event, p: Pass)
    ensures var b, b' := AccountedTo(w.book, p), AccountedTo(Step(w, e).book, p);
            && b'.up == (if Restarts(w, e, p) then 0 else b.up + (if Takes(w, e, p) then e.up else 0))
            && b'.down == (if Restarts(w, e, p) then 0 else b.down + (if Takes(w, e, p) then e.down else 0))
  {
    hide PanelStep, ReloadStep, LockedStep, AccountedTo;
    if !w.lock.Free? && NeedsLock(e) {
    } else if ByPanel(e) {
      PanelBook(w, e, p);
    } else if ByReload(e) {
      ReloadBook(w, e);
    } else if ByHolder(e) {
    } else {
      LockedBook(w, e, p);
    }
  }

  lemma {:induction false} BookIsLog(h: History, p: Pass)
    ensures var b := AccountedTo(Run(h).book, p); b.up == UpSinceReset(h, p) && b.down == DownSinceReset(h, p)
  {
    hide Step, Takes, Restarts;
    if h.Then? {
      BookIsLog(h.before, p);
      StepBook(Run(h.before), h.last, p);
    }
  }

  /** The property of ResetNeverUndone said of the log: in every disciplined run no counter on disk
      exceeds, in its direction, the bytes accounted since the last reset. */
  lemma DiskWithinLog(h: History, p: Pass)
    requires DisciplinedRun(h) && p in Run(h).disk.rows
    ensures Run(h).disk.rows[p].up <= UpSinceReset(h, p) && Run(h).disk.rows[p].down <= DownSinceReset(h, p)
  {
    hide DisciplinedRun, Run, UpSinceReset, DownSinceReset, AccountedTo;
    ResetNeverUndone(h);
    BookIsLog(h, p);
  }
}
