// What each row patch does to the store that is loaded from the tables, said of its fields.
module PatchEffects {
  import opened Basics
  import opened Text
  import opened Store
  import opened Patches

  /** The revision of a global row went up by one, the rest of the row is the same. */
  predicate RevRaised(t: Tables, t': Tables) {
    t.global.Some? && t'.global == Some(t.global.value.(usersRev := t.global.value.usersRev + 1))
  }

  lemma BumpRaises(t: Tables)
    requires t.global.Some?
    ensures RevRaised(t, Bumped(t))
  {
  }

  /** Listed for removal: some id of the list is this one but for white space. */
  ghost predicate Listed(ids: seq<string>, id: string) {
    id != "" && exists raw :: raw in ids && Trim(raw) == id
  }

  lemma DeviceSetIff(ids: seq<string>, id: string)
    ensures id in DeviceSet(ids) <==> Listed(ids, id)
  {
    hide Trim;
    if id in DeviceSet(ids) {
      var i :| 0 <= i < |ids| && Trim(ids[i]) != "" && Trim(ids[i]) == id;
      assert ids[i] in ids;
    }
    if Listed(ids, id) {
      var raw :| raw in ids && Trim(raw) == id;
      var i :| 0 <= i < |ids| && ids[i] == raw;
    }
  }

  /** A user whose row, bindings and main password are as before loads as before. */
  lemma LoadsSame(t: Tables, t': Tables, q: string)
    requires q in t.users && q in t'.users && t'.users[q] == t.users[q] && MainOf(t') == MainOf(t)
    requires (q in t.bindings <==> q in t'.bindings) && (q in t.bindings ==> t.bindings[q] == t'.bindings[q])
    ensures LoadedUser(t', q) == LoadedUser(t, q)
  {
    BoundIdsSame(t, t', q);
    hide BoundIds, Normalized;
  }

  /** Every user but p loads as before, or is gone. */
  ghost predicate OthersSame(t: Tables, t': Tables, p: string) {
    && (forall q | q in Loaded(t').users :: q in Loaded(t).users)
    && (forall q | q in Loaded(t).users && q != p :: q in Loaded(t').users && Loaded(t').users[q] == Loaded(t).users[q])
    && Loaded(t').mainPassword == Loaded(t).mainPassword
    && Loaded(t').adminId == Loaded(t).adminId && Loaded(t').botToken == Loaded(t).botToken
  }

  lemma OthersLoadSame(t: Tables, t': Tables, p: string)
    requires t'.global == Bumped(t).global && t'.users.Keys <= t.users.Keys
    requires forall q | q in t.users && q != p ::
               && q in t'.users && t'.users[q] == t.users[q] && (q in t.bindings <==> q in t'.bindings)
               && (q in t.bindings ==> t.bindings[q] == t'.bindings[q])
    ensures OthersSame(t, t', p)
  {
    SameGlobals(t, t');
    LoadedRest(t);
    LoadedRest(t');
    hide Loaded, LoadedUser, Bumped, MainOf, BoundIds;
    forall q | q in Loaded(t).users && q != p ensures q in Loaded(t').users && Loaded(t').users[q] == Loaded(t).users[q] {
      LoadsSame(t, t', q);
      LoadedAt(t, q);
      LoadedAt(t', q);
    }
  }

  lemma FlagLoads(t: Tables, t': Tables, p: string)
    requires p in t.users && p in t'.users && MainOf(t') == MainOf(t) && t'.bindings == t.bindings
    requires t'.users[p] == t.users[p].(isDeactivated := t'.users[p].isDeactivated, upBytes := t'.users[p].upBytes,
                                        downBytes := t'.users[p].downBytes)
    ensures LoadedUser(t', p) == LoadedUser(t, p).(isDeactivated := t'.users[p].isDeactivated != 0,
                                                   upBytes := t'.users[p].upBytes, downBytes := t'.users[p].downBytes)
  {
    BoundIdsSame(t, t', p);
    hide BoundIds, Cleaned, WithLegacy;
  }

  lemma FlagTables(t: Tables, row: UserRow, p: string)
    requires t.global.Some? && p in t.users
    ensures var t' := Bumped(t.(users := t.users[p := row]));
            && t'.global == Bumped(t).global && RevRaised(t, t')
            && t'.users == t.users[p := row] && t'.bindings == t.bindings && t'.devices == t.devices
  {
  }

  /** One row got new counters and a new flag. */
  lemma FlagRest(t: Tables, t': Tables, p: string)
    requires t.global.Some? && p in t.users && p in t'.users && t' == Bumped(t.(users := t.users[p := t'.users[p]]))
    ensures OthersSame(t, t', p) && Loaded(t').devices == Loaded(t).devices && RevRaised(t, t')
  {
    hide Loaded, OthersSame, RevRaised, Bumped;
    FlagTables(t, t'.users[p], p);
    OthersLoadSame(t, t', p);
    DevicesMatch(t, t', {});
    assert t.devices - {} == t.devices && Loaded(t).devices - {} == Loaded(t).devices;
  }

  lemma FlagUser(t: Tables, t': Tables, p: string)
    requires t.global.Some? && p in t.users && p in t'.users && t' == Bumped(t.(users := t.users[p := t'.users[p]]))
    requires t'.users[p] == t.users[p].(isDeactivated := t'.users[p].isDeactivated, upBytes := t'.users[p].upBytes,
                                        downBytes := t'.users[p].downBytes)
    ensures p in Loaded(t).users && p in Loaded(t').users
    ensures Loaded(t').users[p] == Loaded(t).users[p].(isDeactivated := t'.users[p].isDeactivated != 0,
                                                       upBytes := t'.users[p].upBytes, downBytes := t'.users[p].downBytes)
  {
    SameGlobals(t, t');
    hide Loaded, LoadedUser, MainOf;
    FlagLoads(t, t', p);
    LoadedAt(t, p);
    LoadedAt(t', p);
  }

  /** Resetting a user's traffic zeroes its counters and its flag, nothing else. */
  lemma ResetUserTrafficEffect(t: Tables, password: string)
    requires t.global.Some? && TrafficReset(t, password).Ok?
    ensures var t', p := TrafficReset(t, password).value, Trim(password);
            && p in Loaded(t).users && p in Loaded(t').users
            && Loaded(t').users[p] == Loaded(t).users[p].(upBytes := 0, downBytes := 0, isDeactivated := false)
            && OthersSame(t, t', p) && Loaded(t').devices == Loaded(t).devices && RevRaised(t, t')
  {
    hide Trim, Loaded, OthersSame, RevRaised;
    FlagRest(t, TrafficReset(t, password).value, Trim(password));
    FlagUser(t, TrafficReset(t, password).value, Trim(password));
  }

  /** Setting the deactivation flag sets that flag, nothing else. */
  lemma SetUserDeactivatedEffect(t: Tables, password: string, deactivated: bool)
    requires t.global.Some? && Trim(password) != "" && Trim(password) in t.users
    ensures var t', p := DeactivatedSet(t, password, deactivated), Trim(password);
            && p in Loaded(t).users && p in Loaded(t').users
            && Loaded(t').users[p] == Loaded(t).users[p].(isDeactivated := deactivated)
            && OthersSame(t, t', p) && Loaded(t').devices == Loaded(t).devices && RevRaised(t, t')
  {
    var p := Trim(password);
    hide Trim, Loaded, OthersSame, RevRaised, LoadedUser;
    FlagRest(t, DeactivatedSet(t, password, deactivated), p);
    FlagUser(t, DeactivatedSet(t, password, deactivated), p);
    LoadedAt(t, p);
    LoadedCounters(t, p);
  }

  lemma DeletedTables(t: Tables, password: string, deviceIds: seq<string>)
    requires t.global.Some? && UserDeleted(t, password, deviceIds).Ok?
    ensures var t', p := UserDeleted(t, password, deviceIds).value, Trim(password);
            && t'.global == Bumped(t).global && RevRaised(t, t')
            && t'.users == t.users - {p} && t'.bindings == t.bindings - {p} && t'.devices == t.devices - DeviceSet(deviceIds)
  {
    hide Trim, DeviceSet;
  }

  lemma DeletedRest(t: Tables, password: string, deviceIds: seq<string>)
    requires t.global.Some? && UserDeleted(t, password, deviceIds).Ok?
    ensures var t', p := UserDeleted(t, password, deviceIds).value, Trim(password);
            && p !in Loaded(t').users && p !in t'.bindings && OthersSame(t, t', p) && RevRaised(t, t')
            && Loaded(t').devices == Loaded(t).devices - DeviceSet(deviceIds)
  {
    hide Trim, Loaded, OthersSame, DeviceSet, RevRaised, UserDeleted, Bumped;
    var p := Trim(password);
    var t' := UserDeleted(t, password, deviceIds).value;
    DeletedTables(t, password, deviceIds);
    OthersLoadSame(t, t', p);
    LoadedRest(t');
    DevicesMatch(t, t', DeviceSet(deviceIds));
  }

  /** Deleting a user removes the user and exactly the listed devices. */
  lemma DeleteUserEffect(t: Tables, password: string, deviceIds: seq<string>, id: string)
    requires t.global.Some? && UserDeleted(t, password, deviceIds).Ok?
    ensures var t', p := UserDeleted(t, password, deviceIds).value, Trim(password);
            && p !in Loaded(t').users && p !in t'.bindings && OthersSame(t, t', p) && RevRaised(t, t')
            && (id in Loaded(t').devices <==> id in Loaded(t).devices && !Listed(deviceIds, id))
            && (id in Loaded(t').devices ==> Loaded(t').devices[id] == Loaded(t).devices[id])
  {
    hide Trim, Loaded, OthersSame, Listed, DeviceSet, RevRaised, UserDeleted;
    DeviceSetIff(deviceIds, id);
    DeletedRest(t, password, deviceIds);
  }

  lemma BoundUser(t: Tables, password: string, deviceIds: seq<string>, removed: seq<string>)
    requires PatchedBindings(t, password, deviceIds, removed).Ok? && Trim(password) in t.users
    ensures var t', p := PatchedBindings(t, password, deviceIds, removed).value, Trim(password);
            && p in Loaded(t).users && p in Loaded(t').users
            && Loaded(t').users[p]
               == Loaded(t).users[p].(deviceIds := CleanIdsOf(deviceIds), deviceId := Head(CleanIdsOf(deviceIds)))
  {
    var p := Trim(password);
    var t' := PatchedBindings(t, password, deviceIds, removed).value;
    hide Trim, Loaded, LoadedUser, BoundIds, MainOf, DeviceSet, CleanIdsOf, Head, Bind;
    SameGlobals(t, t');
    BoundIdsPatched(t, password, deviceIds, removed);
    BindingsLoad(t, t', p, deviceIds);
    LoadedAt(t, p);
    LoadedAt(t', p);
  }

  lemma BoundRest(t: Tables, password: string, deviceIds: seq<string>, removed: seq<string>)
    requires t.global.Some? && PatchedBindings(t, password, deviceIds, removed).Ok? && Trim(password) in t.users
    ensures var t' := PatchedBindings(t, password, deviceIds, removed).value;
            && OthersSame(t, t', Trim(password)) && RevRaised(t, t')
            && Loaded(t').devices == Loaded(t).devices - DeviceSet(removed)
  {
    var t' := PatchedBindings(t, password, deviceIds, removed).value;
    BumpRaises(t);
    hide Trim, Loaded, OthersSame, DeviceSet, CleanIdsOf, Head, RevRaised;
    OthersLoadSame(t, t', Trim(password));
    DevicesMatch(t, t', DeviceSet(removed));
  }

  /** Patching a user's bindings: it then holds exactly the given ids, trimmed and not blank, and
      the listed devices are gone; nothing else changes. */
  lemma PatchUserDeviceBindingsEffect(t: Tables, password: string, deviceIds: seq<string>, removed: seq<string>, id: string)
    requires t.global.Some? && PatchedBindings(t, password, deviceIds, removed).Ok? && Trim(password) in t.users
    ensures var t', p := PatchedBindings(t, password, deviceIds, removed).value, Trim(password);
            && p in Loaded(t).users && p in Loaded(t').users
            && var u, u' := Loaded(t).users[p], Loaded(t').users[p];
            && (id in u'.deviceIds <==> Listed(deviceIds, id))
            && u' == u.(deviceIds := u'.deviceIds, deviceId := if u'.deviceIds == [] then "" else u'.deviceIds[0])
            && OthersSame(t, t', p) && RevRaised(t, t')
            && (id in Loaded(t').devices <==> id in Loaded(t).devices && !Listed(removed, id))
            && (id in Loaded(t').devices ==> Loaded(t').devices[id] == Loaded(t).devices[id])
  {
    hide Trim, Loaded, OthersSame, RevRaised, DeviceSet, CleanIdsOf, Cleaned, PatchedBindings;
    BoundUser(t, password, deviceIds, removed);
    BoundRest(t, password, deviceIds, removed);
    DeviceSetIff(removed, id);
    CleanedIff(deviceIds, {}, id);
    CleanIdsAre(deviceIds);
  }

  lemma CleanIdsAre(ids: seq<string>)
    ensures CleanIdsOf(ids) == Cleaned(ids, {})
  {
  }

  lemma BindingsLoad(t: Tables, t': Tables, p: string, deviceIds: seq<string>)
    requires p in t.users && p in t'.users && MainOf(t') == MainOf(t)
    requires var ids := CleanIdsOf(deviceIds);
             t'.users[p] == t.users[p].(deviceId := Head(ids)) && BoundIds(t', p) == ids
    ensures var ids := CleanIdsOf(deviceIds); LoadedUser(t', p) == LoadedUser(t, p).(deviceIds := ids, deviceId := Head(ids))
  {
    CleanedIdempotent(deviceIds);
    hide Cleaned, BoundIds;
  }
}
