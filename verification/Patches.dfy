// Cheap patches of single rows, and the proof that each does what loading the whole
// store, editing it in memory and writing it all back would do.
module Patches {
  import opened Basics
  import opened Text
  import opened Store

  datatype Error = PasswordRequired | UserNotFound
  datatype Result<+T> = Ok(value: T) | Err(error: Error)

  // ---------- What the patches do to the tables ----------

  /** The device ids to delete: trimmed, blanks skipped. */
  function DeviceSet(ids: seq<string>): set<string> {
    set i | 0 <= i < |ids| && Trim(ids[i]) != "" :: Trim(ids[i])
  }

  function CleanIdsOf(ids: seq<string>): seq<string> {
    Cleaned(ids, {})
  }

  function PatchedBindings(t: Tables, password: string, deviceIds: seq<string>, removed: seq<string>): Result<Tables> {
    var p, ids := Trim(password), CleanIdsOf(deviceIds);
    if p == "" then Err(PasswordRequired)
    else Ok(Bumped(t.(bindings := Bind(t.bindings, p, ids),
                      users := if p in t.users then t.users[p := t.users[p].(deviceId := Head(ids))] else t.users,
                      devices := t.devices - DeviceSet(removed))))
  }

  function UserDeleted(t: Tables, password: string, deviceIds: seq<string>): Result<Tables> {
    var p := Trim(password);
    if p == "" then Err(PasswordRequired)
    else Ok(Bumped(t.(bindings := t.bindings - {p}, users := t.users - {p}, devices := t.devices - DeviceSet(deviceIds))))
  }

  /** An empty password is ignored, an unknown one still raises the revision. */
  function DeactivatedSet(t: Tables, password: string, deactivated: bool): Tables {
    var p := Trim(password);
    if p == "" then t
    else Bumped(if p in t.users then t.(users := t.users[p := t.users[p].(isDeactivated := if deactivated then 1 else 0)]) else t)
  }

  function TrafficReset(t: Tables, password: string): Result<Tables> {
    var p := Trim(password);
    if p == "" then Err(PasswordRequired)
    else if p !in t.users then Err(UserNotFound)
    else Ok(Bumped(t.(users := t.users[p := t.users[p].(upBytes := 0, downBytes := 0, isDeactivated := 0)])))
  }

  // ---------- The patch procedures ----------

  method DeleteDevices(db: PanelDb, ids: seq<string>)
    modifies db`devices
    ensures db.devices == old(db.devices) - DeviceSet(ids)
  {
    var seen: set<string> := {};
    for i := 0 to |ids|
      invariant seen == DeviceSet(ids[..i]) && db.devices == old(db.devices) - seen
    {
      var did := Trim(ids[i]);
      DeviceSetStep(ids, i);
      if did == "" || did in seen {
        continue;
      }
      seen := seen + {did};
      db.devices := db.devices - {did};
    }
    assert ids[..|ids|] == ids;
  }

  lemma DeviceSetStep(ids: seq<string>, i: nat)
    requires i < |ids|
    ensures DeviceSet(ids[..i + 1]) == DeviceSet(ids[..i]) + if Trim(ids[i]) == "" then {} else {Trim(ids[i])}
  {
    var a, b := ids[..i + 1], ids[..i];
    forall x ensures x in DeviceSet(a) <==> x in DeviceSet(b) || (x != "" && x == Trim(ids[i])) {
      if x in DeviceSet(a) {
        var j :| 0 <= j < |a| && Trim(a[j]) != "" && Trim(a[j]) == x;
        assert j == i || a[j] == b[j];
      }
      if x in DeviceSet(b) {
        var j :| 0 <= j < |b| && Trim(b[j]) != "" && Trim(b[j]) == x;
        assert a[j] == b[j];
      }
      assert a[i] == ids[i];
    }
  }

  method PatchUserDeviceBindings(db: PanelDb, password: string, deviceIds: seq<string>, removed: seq<string>)
    returns (r: Result<()>)
    modifies db
    ensures match PatchedBindings(old(db.Abs()), password, deviceIds, removed)
            case Err(e) => r == Err(e) && db.Abs() == old(db.Abs())
            case Ok(t) => r == Ok(()) && db.Abs() == t
  {
    var p := Trim(password);
    if p == "" {
      return Err(PasswordRequired);
    }
    var ids := CleanIds(deviceIds);
    ghost var before := db.bindings;
    db.bindings := db.bindings - {p};
    db.InsertBindings(p, ids);
    assert db.bindings == Bind(before, p, ids);
    if p in db.users {
      db.users := db.users[p := db.users[p].(deviceId := Head(ids))];
    }
    DeleteDevices(db, removed);
    db.BumpUsersRev();
    r := Ok(());
  }

  method DeleteUser(db: PanelDb, password: string, deviceIds: seq<string>) returns (r: Result<()>)
    modifies db
    ensures match UserDeleted(old(db.Abs()), password, deviceIds)
            case Err(e) => r == Err(e) && db.Abs() == old(db.Abs())
            case Ok(t) => r == Ok(()) && db.Abs() == t
  {
    var p := Trim(password);
    if p == "" {
      return Err(PasswordRequired);
    }
    db.bindings := db.bindings - {p};
    db.users := db.users - {p};
    DeleteDevices(db, deviceIds);
    db.BumpUsersRev();
    r := Ok(());
  }

  method SetUserDeactivated(db: PanelDb, password: string, deactivated: bool)
    modifies db
    ensures db.Abs() == DeactivatedSet(old(db.Abs()), password, deactivated)
  {
    var p := Trim(password);
    if p == "" {
      return;
    }
    if p in db.users {
      db.users := db.users[p := db.users[p].(isDeactivated := if deactivated then 1 else 0)];
    }
    db.BumpUsersRev();
  }

  method ResetUserTraffic(db: PanelDb, password: string) returns (r: Result<()>)
    modifies db
    ensures match TrafficReset(old(db.Abs()), password)
            case Err(e) => r == Err(e) && db.Abs() == old(db.Abs())
            case Ok(t) => r == Ok(()) && db.Abs() == t
  {
    var p := Trim(password);
    if p == "" {
      return Err(PasswordRequired);
    }
    if p !in db.users {
      return Err(UserNotFound);
    }
    db.users := db.users[p := db.users[p].(upBytes := 0, downBytes := 0, isDeactivated := 0)];
    db.BumpUsersRev();
    r := Ok(());
  }

  // ---------- The same edits in memory ----------

  function EditBindings(s: Store, p: string, deviceIds: seq<string>, removed: seq<string>): Store {
    s.(users := if p in s.users then s.users[p := s.users[p].(deviceId := "", deviceIds := deviceIds)] else s.users,
       devices := s.devices - DeviceSet(removed))
  }

  function EditDelete(s: Store, p: string, deviceIds: seq<string>): Store {
    s.(users := s.users - {p}, devices := s.devices - DeviceSet(deviceIds))
  }

  function EditDeactivated(s: Store, p: string, deactivated: bool): Store {
    s.(users := if p in s.users then s.users[p := s.users[p].(isDeactivated := deactivated)] else s.users)
  }

  function EditReset(s: Store, p: string): Store {
    s.(users := if p in s.users
                then s.users[p := s.users[p].(upBytes := 0, downBytes := 0, isDeactivated := false)]
                else s.users)
  }

  // ---------- What a rewrite does to one user ----------

  lemma {:induction false} IdsOfNumbered(ids: seq<string>, from: int)
    ensures Ids(ByOrder(Numbered(ids, from))) == ids && ByOrder(Numbered(ids, from)) == Numbered(ids, from)
  {
    if ids != [] {
      IdsOfNumbered(ids[1..], from + 1);
    }
  }

  /** A sub id survives a whole-store rewrite: trimming leaves it, or leaves nothing and the
      stored one is kept. */
  predicate SubIdStable(subId: string, preserve: bool) {
    Trimmed(subId) || (preserve && Trim(subId) == "")
  }

  lemma SavedSubIdIff(t: Tables, p: string, preserve: bool)
    requires p in t.users
    ensures SavedSubId(t, p, t.users[p].subId, preserve) == t.users[p].subId <==> SubIdStable(t.users[p].subId, preserve)
  {
    TrimIff(t.users[p].subId);
  }

  /** What loading gives for user p after the store with user u for p was saved. */
  function Resaved(t: Tables, u: User, p: string, main: string, preserve: bool): User {
    MainUnlimited(Normalized(u), p, main).(subId := SavedSubId(t, p, u.subId, preserve), wbRoom := "")
  }

  lemma LoadAfterSave(t: Tables, s: Store, preserve: bool, p: string)
    requires p in s.users
    ensures LoadedUser(Saved(t, s, preserve), p) == Resaved(t, s.users[p], p, s.mainPassword, preserve)
  {
    var t' := Saved(t, s, preserve);
    var n := Normalized(s.users[p]);
    BoundIdsSaved(t, s, preserve, p);
    hide Saved, Normalized;
    SavedFields(t, s, preserve, p);
    RenormalizeSaved(s.users[p], t'.users[p], p, s.mainPassword);
  }

  lemma BoundIdsSaved(t: Tables, s: Store, preserve: bool, p: string)
    requires p in s.users
    ensures BoundIds(Saved(t, s, preserve), p) == Normalized(s.users[p]).deviceIds
  {
    IdsOfNumbered(Normalized(s.users[p]).deviceIds, 0);
    hide Normalized, Numbered;
  }

  lemma SavedFields(t: Tables, s: Store, preserve: bool, p: string)
    requires p in s.users
    ensures var t' := Saved(t, s, preserve);
            p in t'.users && t'.users[p] == SavedRow(t, s.users[p], p, s.mainPassword, preserve) && MainOf(t') == s.mainPassword
  {
    hide SavedRow, Normalized;
  }

  lemma RenormalizeSaved(u: User, row: UserRow, p: string, main: string)
    requires var n := MainUnlimited(Normalized(u), p, main);
             && row.deviceId == n.deviceId && row.maxDevices == n.maxDevices && row.downBytes == n.downBytes
             && row.upBytes == n.upBytes && (row.isDeactivated != 0 <==> n.isDeactivated) && row.profile == n.profile
    ensures MainUnlimited(Normalized(UserOf(row, Normalized(u).deviceIds)), p, main)
              == MainUnlimited(Normalized(u), p, main).(subId := row.subId, wbRoom := "")
  {
    CleanedIdempotent(WithLegacy(u.deviceId, u.deviceIds));
    hide Cleaned, WithLegacy;
  }

  /** Normalizing a loaded user again changes nothing. */
  lemma LoadedStable(t: Tables, p: string)
    requires p in t.users
    ensures var u := LoadedUser(t, p);
            MainUnlimited(Normalized(u), p, MainOf(t)) == u && u.subId == t.users[p].subId && u.wbRoom == ""
  {
    var raw := UserOf(t.users[p], BoundIds(t, p));
    CleanedIdempotent(WithLegacy(raw.deviceId, raw.deviceIds));
    hide Cleaned, WithLegacy, BoundIds;
  }

  // ---------- Patch against rewrite ----------

  /** All sub ids still in the table survive a rewrite. */
  ghost predicate SubIdsStable(t: Tables, preserve: bool) {
    forall p | p in t.users :: SubIdStable(t.users[p].subId, preserve)
  }

  /** The patched row of p loads as the edited user would after normalizing, sub id untouched. */
  ghost predicate UserAgrees(t: Tables, t': Tables, s: Store, p: string) {
    && p in t.users && p in s.users && p in t'.users
    && s.users[p].subId == t.users[p].subId && t'.users[p].subId == t.users[p].subId
    && LoadedUser(t', p) == MainUnlimited(Normalized(s.users[p]), p, s.mainPassword).(subId := t.users[p].subId, wbRoom := "")
  }

  ghost predicate PatchAgrees(t: Tables, t': Tables, s: Store) {
    && t'.global == Bumped(t).global
    && s.mainPassword == MainOf(t') && s.adminId == Loaded(t').adminId && s.botToken == Loaded(t').botToken
    && s.devices == Loaded(t').devices && IdsMatch(s)
    && t'.users.Keys == s.users.Keys
    && forall p | p in s.users :: UserAgrees(t, t', s, p)
  }

  lemma UserRefines(t: Tables, t': Tables, s: Store, preserve: bool, p: string)
    requires UserAgrees(t, t', s, p)
    ensures LoadedUser(t', p) == LoadedUser(Saved(t, s, preserve), p) <==> SubIdStable(t'.users[p].subId, preserve)
  {
    LoadAfterSave(t, s, preserve, p);
    SavedSubIdIff(t, p, preserve);
    hide LoadedUser, SavedSubId, SubIdStable, Normalized, MainUnlimited;
  }

  ghost predicate IdsMatch(s: Store) {
    forall id | id in s.devices :: s.devices[id].deviceId == id
  }

  lemma SavedRest(t: Tables, s: Store, preserve: bool)
    requires IdsMatch(s)
    ensures var l := Loaded(Saved(t, s, preserve));
            && l.mainPassword == s.mainPassword && l.adminId == s.adminId && l.botToken == s.botToken
            && l.devices == s.devices && l.users.Keys == s.users.Keys
  {
    hide SavedRow, LoadedUser, Normalized;
  }

  lemma UserRefinesLoaded(t: Tables, t': Tables, s: Store, preserve: bool, p: string)
    requires UserAgrees(t, t', s, p)
    ensures var a, b := Loaded(t').users, Loaded(Saved(t, s, preserve)).users;
            p in a && p in b && (a[p] == b[p] <==> SubIdStable(t'.users[p].subId, preserve))
  {
    UserRefines(t, t', s, preserve, p);
    LoadedAt(t', p);
    SavedHas(t, s, preserve, p);
    LoadedAt(Saved(t, s, preserve), p);
    hide Loaded, Saved, LoadedUser, SubIdStable, UserAgrees;
  }

  lemma StoresEqualIff(a: Store, b: Store, good: set<string>)
    requires a.mainPassword == b.mainPassword && a.adminId == b.adminId && a.botToken == b.botToken
    requires a.devices == b.devices && a.users.Keys == b.users.Keys
    requires forall p | p in a.users :: a.users[p] == b.users[p] <==> p in good
    ensures a == b <==> a.users.Keys <= good
  {
    if a.users.Keys <= good {
      assert a.users == b.users;
    }
  }

  /** A patch that agrees with the edit refines the rewrite exactly when the sub ids survive it. */
  lemma Refines(t: Tables, t': Tables, s: Store, preserve: bool)
    requires PatchAgrees(t, t', s)
    ensures Loaded(t') == Loaded(Saved(t, s, preserve)) <==> SubIdsStable(t', preserve)
  {
    SavedRest(t, s, preserve);
    LoadedRest(t');
    var a, b := Loaded(t'), Loaded(Saved(t, s, preserve));
    var good := set p | p in t'.users && SubIdStable(t'.users[p].subId, preserve);
    hide Loaded, Saved, UserAgrees, SubIdStable, Bumped;
    forall p | p in a.users ensures a.users[p] == b.users[p] <==> p in good {
      UserRefinesLoaded(t, t', s, preserve, p);
    }
    StoresEqualIff(a, b, good);
  }

  lemma LoadedAt(t: Tables, p: string)
    requires p in t.users
    ensures p in Loaded(t).users && Loaded(t).users[p] == LoadedUser(t, p)
  {
    hide LoadedUser;
  }

  lemma LoadedRest(t: Tables)
    ensures Loaded(t).users.Keys == t.users.Keys && Loaded(t).mainPassword == MainOf(t)
  {
    hide LoadedUser;
  }

  lemma SavedHas(t: Tables, s: Store, preserve: bool, p: string)
    requires p in s.users
    ensures p in Saved(t, s, preserve).users
  {
    hide SavedRow, Normalized;
  }

  /** A row that the patch left alone loads as before, and so as the unedited user. */
  lemma UntouchedAgrees(t: Tables, t': Tables, s: Store, p: string)
    requires p in t.users && p in t'.users && t'.users[p] == t.users[p] && BoundIds(t', p) == BoundIds(t, p)
    requires MainOf(t') == MainOf(t) == s.mainPassword && p in s.users && s.users[p] == LoadedUser(t, p)
    ensures UserAgrees(t, t', s, p)
  {
    LoadedStable(t, p);
    hide Normalized, BoundIds;
  }

  lemma FlagAgrees(t: Tables, t': Tables, s: Store, p: string, row: UserRow)
    requires p in t.users && p in t'.users && t'.users[p] == row && BoundIds(t', p) == BoundIds(t, p)
    requires row == t.users[p].(isDeactivated := row.isDeactivated, upBytes := row.upBytes, downBytes := row.downBytes)
    requires MainOf(t') == MainOf(t) == s.mainPassword && p in s.users
    requires s.users[p] == LoadedUser(t, p).(isDeactivated := row.isDeactivated != 0,
                                             upBytes := row.upBytes, downBytes := row.downBytes)
    ensures UserAgrees(t, t', s, p)
  {
    LoadedStable(t, p);
    hide Cleaned, WithLegacy, BoundIds;
  }

  lemma BindingsAgree(t: Tables, t': Tables, s: Store, p: string, deviceIds: seq<string>)
    requires var ids := CleanIdsOf(deviceIds);
             && p in t.users && p in t'.users && t'.users[p] == t.users[p].(deviceId := Head(ids)) && BoundIds(t', p) == ids
    requires MainOf(t') == MainOf(t) == s.mainPassword && p in s.users
    requires s.users[p] == LoadedUser(t, p).(deviceId := "", deviceIds := deviceIds)
    ensures UserAgrees(t, t', s, p)
  {
    CleanedIdempotent(deviceIds);
    LoadedStable(t, p);
    LoadedMax(t, p);
    hide Cleaned, BoundIds;
  }

  lemma LoadedMax(t: Tables, p: string)
    requires p in t.users
    ensures LoadedUser(t, p) == MainUnlimited(UserOf(t.users[p], LoadedUser(t, p).deviceIds).(
                                  deviceId := LoadedUser(t, p).deviceId, maxDevices := ClampMax(t.users[p].maxDevices)), p, MainOf(t))
  {
    hide Cleaned, WithLegacy, BoundIds;
  }

  lemma BoundIdsSame(t: Tables, t': Tables, p: string)
    requires (p in t.bindings <==> p in t'.bindings) && (p in t.bindings ==> t.bindings[p] == t'.bindings[p])
    ensures BoundIds(t, p) == BoundIds(t', p)
  {
  }

  lemma SameGlobals(t: Tables, t': Tables)
    requires t'.global == Bumped(t).global
    ensures MainOf(t) == MainOf(t') == Loaded(t).mainPassword
    ensures Loaded(t).adminId == Loaded(t').adminId && Loaded(t).botToken == Loaded(t').botToken
  {
    hide LoadedUser;
  }

  lemma SavedGlobal(t: Tables, s: Store, preserve: bool)
    requires t.global.Some?
    requires s.mainPassword == Loaded(t).mainPassword && s.adminId == Loaded(t).adminId && s.botToken == Loaded(t).botToken
    ensures Saved(t, s, preserve).global == Bumped(t).global
  {
    hide LoadedUser, SavedRow, Normalized;
  }

  lemma DevicesMatch(t: Tables, t': Tables, removed: set<string>)
    requires t'.devices == t.devices - removed
    ensures Loaded(t').devices == Loaded(t).devices - removed
  {
    hide LoadedUser;
  }

  lemma LoadedIdsMatch(t: Tables)
    ensures IdsMatch(Loaded(t))
  {
    hide LoadedUser;
  }

  /** Everything but the users, for an edit of loaded tables. */
  lemma Assemble(t: Tables, t': Tables, s: Store, removed: set<string>, preserve: bool)
    requires t.global.Some? && t'.global == Bumped(t).global && t'.devices == t.devices - removed
    requires s == Loaded(t).(users := s.users, devices := Loaded(t).devices - removed)
    requires t'.users.Keys == s.users.Keys && forall p | p in s.users :: UserAgrees(t, t', s, p)
    ensures Loaded(t') == Loaded(Saved(t, s, preserve)) <==> SubIdsStable(t', preserve)
    ensures Saved(t, s, preserve).global == t'.global
  {
    SameGlobals(t, t');
    DevicesMatch(t, t', removed);
    LoadedIdsMatch(t);
    SavedGlobal(t, s, preserve);
    hide Loaded, Saved, UserAgrees, SubIdsStable, Bumped, MainOf;
    Refines(t, t', s, preserve);
  }

  // ---------- The four refinements ----------

  /** What agreement needs to know of patched tables and edited store besides user p. */
  ghost predicate Shape(t: Tables, t': Tables, s: Store, removed: set<string>) {
    && t'.global == Bumped(t).global && t'.devices == t.devices - removed
    && s == Loaded(t).(users := s.users, devices := Loaded(t).devices - removed)
    && t'.users.Keys == s.users.Keys && t'.users.Keys <= t.users.Keys
  }

  /** User q is as before in both, and so are its bindings. */
  ghost predicate Same(t: Tables, t': Tables, s: Store, q: string) {
    && q in t.users && q in t'.users && t'.users[q] == t.users[q]
    && q in s.users && q in Loaded(t).users && s.users[q] == Loaded(t).users[q]
    && (q in t.bindings <==> q in t'.bindings) && (q in t.bindings ==> t.bindings[q] == t'.bindings[q])
  }

  lemma SameAgrees(t: Tables, t': Tables, s: Store, removed: set<string>, q: string)
    requires Shape(t, t', s, removed) && Same(t, t', s, q) && q in t.users
    ensures UserAgrees(t, t', s, q)
  {
    SameGlobals(t, t');
    BoundIdsSame(t, t', q);
    LoadedAt(t, q);
    hide UserAgrees, BoundIds, MainOf, Loaded, LoadedUser, Bumped;
    UntouchedAgrees(t, t', s, q);
  }

  lemma ShapeRefines(t: Tables, t': Tables, s: Store, removed: set<string>, p: string, preserve: bool)
    requires t.global.Some? && Shape(t, t', s, removed)
    requires p in s.users ==> UserAgrees(t, t', s, p)
    requires forall q | q in s.users && q != p :: Same(t, t', s, q)
    ensures Loaded(t') == Loaded(Saved(t, s, preserve)) <==> SubIdsStable(t', preserve)
    ensures Saved(t, s, preserve).global == t'.global
  {
    forall q | q in s.users ensures UserAgrees(t, t', s, q) {
      hide UserAgrees, Same;
      if q != p {
        SameAgrees(t, t', s, removed, q);
      }
    }
    hide Loaded, Saved, UserAgrees, SubIdsStable, Bumped, Same;
    Assemble(t, t', s, removed, preserve);
  }

  lemma DeactivatedShape(t: Tables, password: string, deactivated: bool)
    requires Trim(password) != "" && Trim(password) in t.users
    ensures var t', s := DeactivatedSet(t, password, deactivated), EditDeactivated(Loaded(t), Trim(password), deactivated);
            && Shape(t, t', s, {})
            && (forall q | q in s.users && q != Trim(password) :: Same(t, t', s, q))
  {
    LoadedRest(t);
    hide Trim, Loaded;
    assert Loaded(t).devices - {} == Loaded(t).devices && t.devices - {} == t.devices;
  }

  lemma DeactivatedUser(t: Tables, password: string, deactivated: bool)
    requires Trim(password) != "" && Trim(password) in t.users
    ensures UserAgrees(t, DeactivatedSet(t, password, deactivated), EditDeactivated(Loaded(t), Trim(password), deactivated),
                       Trim(password))
  {
    hide Trim, LoadedUser, UserAgrees, BoundIds, MainOf, Loaded;
    var p := Trim(password);
    var t', s := DeactivatedSet(t, password, deactivated), EditDeactivated(Loaded(t), p, deactivated);
    SameGlobals(t, t');
    BoundIdsSame(t, t', p);
    LoadedAt(t, p);
    LoadedCounters(t, p);
    FlagAgrees(t, t', s, p, t'.users[p]);
  }

  lemma LoadedCounters(t: Tables, p: string)
    requires p in t.users
    ensures LoadedUser(t, p).upBytes == t.users[p].upBytes && LoadedUser(t, p).downBytes == t.users[p].downBytes
  {
  }

  /** SetUserDeactivated: patch = load, edit, save, for every database with that user,
      exactly when every sub id survives a rewrite; the revision goes up by one either way. */
  lemma SetUserDeactivatedRefines(t: Tables, password: string, deactivated: bool, preserve: bool)
    requires t.global.Some? && Trim(password) != "" && Trim(password) in t.users
    ensures var t' := DeactivatedSet(t, password, deactivated);
            var t'' := Saved(t, EditDeactivated(Loaded(t), Trim(password), deactivated), preserve);
            && (Loaded(t') == Loaded(t'') <==> SubIdsStable(t', preserve))
            && t'.global == t''.global == Bumped(t).global
  {
    var p := Trim(password);
    DeactivatedShape(t, password, deactivated);
    DeactivatedUser(t, password, deactivated);
    var t', s := DeactivatedSet(t, password, deactivated), EditDeactivated(Loaded(t), p, deactivated);
    hide Trim, Loaded, Saved, SubIdsStable, UserAgrees, Same, DeactivatedSet, EditDeactivated, Bumped;
    ShapeRefines(t, t', s, {}, p, preserve);
  }

  lemma ResetShape(t: Tables, password: string)
    requires TrafficReset(t, password).Ok?
    ensures var t', s := TrafficReset(t, password).value, EditReset(Loaded(t), Trim(password));
            && Shape(t, t', s, {})
            && (forall q | q in s.users && q != Trim(password) :: Same(t, t', s, q))
  {
    LoadedRest(t);
    hide Trim, Loaded;
    assert Loaded(t).devices - {} == Loaded(t).devices && t.devices - {} == t.devices;
  }

  lemma ResetUser(t: Tables, password: string)
    requires TrafficReset(t, password).Ok?
    ensures UserAgrees(t, TrafficReset(t, password).value, EditReset(Loaded(t), Trim(password)), Trim(password))
  {
    hide Trim, LoadedUser, UserAgrees, BoundIds, MainOf, Loaded;
    var p := Trim(password);
    var t', s := TrafficReset(t, password).value, EditReset(Loaded(t), p);
    SameGlobals(t, t');
    BoundIdsSame(t, t', p);
    LoadedAt(t, p);
    FlagAgrees(t, t', s, p, t'.users[p]);
  }

  /** ResetUserTraffic: the same; it succeeds exactly when the user exists. */
  lemma ResetUserTrafficRefines(t: Tables, password: string, preserve: bool)
    requires t.global.Some? && Trim(password) != ""
    ensures TrafficReset(t, password).Ok? <==> Trim(password) in t.users
    ensures var t'' := Saved(t, EditReset(Loaded(t), Trim(password)), preserve);
            TrafficReset(t, password).Ok? ==>
              && (Loaded(TrafficReset(t, password).value) == Loaded(t'')
                  <==> SubIdsStable(TrafficReset(t, password).value, preserve))
              && TrafficReset(t, password).value.global == t''.global == Bumped(t).global
  {
    var p := Trim(password);
    if p in t.users {
      var t', s := TrafficReset(t, password).value, EditReset(Loaded(t), p);
      ResetShape(t, password);
      ResetUser(t, password);
      hide Trim, Loaded, Saved, SubIdsStable, UserAgrees, Same, TrafficReset, EditReset, Bumped;
      ShapeRefines(t, t', s, {}, p, preserve);
    }
  }

  lemma DeletedShape(t: Tables, password: string, deviceIds: seq<string>)
    requires UserDeleted(t, password, deviceIds).Ok?
    ensures var t', s := UserDeleted(t, password, deviceIds).value, EditDelete(Loaded(t), Trim(password), deviceIds);
            && Shape(t, t', s, DeviceSet(deviceIds)) && Trim(password) !in s.users
            && (forall q | q in s.users && q != Trim(password) :: Same(t, t', s, q))
  {
    LoadedRest(t);
    hide Trim, Loaded, DeviceSet;
  }

  /** DeleteUser with its devices: the same, whether or not the user exists. */
  lemma DeleteUserRefines(t: Tables, password: string, deviceIds: seq<string>, preserve: bool)
    requires t.global.Some? && Trim(password) != ""
    ensures var t'' := Saved(t, EditDelete(Loaded(t), Trim(password), deviceIds), preserve);
            && UserDeleted(t, password, deviceIds).Ok?
            && var t' := UserDeleted(t, password, deviceIds).value;
            && (Loaded(t') == Loaded(t'') <==> SubIdsStable(t', preserve))
            && t'.global == t''.global == Bumped(t).global
  {
    var p := Trim(password);
    var t', s := UserDeleted(t, password, deviceIds).value, EditDelete(Loaded(t), p, deviceIds);
    DeletedShape(t, password, deviceIds);
    hide Trim, Loaded, Saved, SubIdsStable, UserAgrees, Same, UserDeleted, EditDelete, Bumped, DeviceSet;
    ShapeRefines(t, t', s, DeviceSet(deviceIds), p, preserve);
  }

  lemma BoundIdsPatched(t: Tables, password: string, deviceIds: seq<string>, removed: seq<string>)
    requires PatchedBindings(t, password, deviceIds, removed).Ok?
    ensures BoundIds(PatchedBindings(t, password, deviceIds, removed).value, Trim(password)) == CleanIdsOf(deviceIds)
  {
    IdsOfNumbered(CleanIdsOf(deviceIds), 0);
    hide Trim, CleanIdsOf, Numbered, DeviceSet;
  }

  lemma PatchedShape(t: Tables, password: string, deviceIds: seq<string>, removed: seq<string>)
    requires PatchedBindings(t, password, deviceIds, removed).Ok? && Trim(password) in t.users
    ensures var t' := PatchedBindings(t, password, deviceIds, removed).value;
            var s := EditBindings(Loaded(t), Trim(password), deviceIds, removed);
            && Shape(t, t', s, DeviceSet(removed))
            && (forall q | q in s.users && q != Trim(password) :: Same(t, t', s, q))
  {
    LoadedRest(t);
    hide Trim, Loaded, DeviceSet, CleanIdsOf, Numbered;
  }

  lemma PatchedUser(t: Tables, password: string, deviceIds: seq<string>, removed: seq<string>)
    requires PatchedBindings(t, password, deviceIds, removed).Ok? && Trim(password) in t.users
    ensures UserAgrees(t, PatchedBindings(t, password, deviceIds, removed).value,
                       EditBindings(Loaded(t), Trim(password), deviceIds, removed), Trim(password))
  {
    hide Trim, LoadedUser, UserAgrees, MainOf, Loaded, DeviceSet, CleanIdsOf, Bind, BoundIds;
    var p := Trim(password);
    var t' := PatchedBindings(t, password, deviceIds, removed).value;
    var s := EditBindings(Loaded(t), p, deviceIds, removed);
    SameGlobals(t, t');
    LoadedAt(t, p);
    BoundIdsPatched(t, password, deviceIds, removed);
    BindingsAgree(t, t', s, p, deviceIds);
  }

  /** PatchUserDeviceBindings: the same, for any device lists. */
  lemma PatchUserDeviceBindingsRefines(t: Tables, password: string, deviceIds: seq<string>, removed: seq<string>, preserve: bool)
    requires t.global.Some? && Trim(password) != "" && Trim(password) in t.users
    ensures var t'' := Saved(t, EditBindings(Loaded(t), Trim(password), deviceIds, removed), preserve);
            && PatchedBindings(t, password, deviceIds, removed).Ok?
            && var t' := PatchedBindings(t, password, deviceIds, removed).value;
            && (Loaded(t') == Loaded(t'') <==> SubIdsStable(t', preserve))
            && t'.global == t''.global == Bumped(t).global
  {
    var p := Trim(password);
    var t' := PatchedBindings(t, password, deviceIds, removed).value;
    var s := EditBindings(Loaded(t), p, deviceIds, removed);
    PatchedShape(t, password, deviceIds, removed);
    PatchedUser(t, password, deviceIds, removed);
    hide Trim, Loaded, Saved, SubIdsStable, UserAgrees, Same, PatchedBindings, EditBindings, Bumped, DeviceSet;
    ShapeRefines(t, t', s, DeviceSet(removed), p, preserve);
  }
}
