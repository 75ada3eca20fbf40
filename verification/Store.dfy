// The user store: the tables of panel.db, the store loaded from them, and how a whole
// store is written back.
module Store {
  import opened Basics
  import opened Text

  const DEFAULT_MAX_DEVICES := 1
  const MAX_DEVICES_LIMIT := 20

  // The columns that are only copied back and forth.
  datatype Profile = Profile(expiresAt: int, totalBytes: int, maxDownMBps: real, maxUpMBps: real,
                             comment: string, ports: string, vkHash: string, lastSeenAt: int)

  datatype User = User(deviceId: string, deviceIds: seq<string>, maxDevices: int, downBytes: int, upBytes: int,
                       isDeactivated: bool, subId: string, wbRoom: string, profile: Profile)

  datatype Device = Device(deviceId: string, ip: string, privKey: string, pubKey: string)

  datatype Store = Store(mainPassword: string, adminId: string, botToken: string,
                         users: map<string, User>, devices: map<string, Device>)

  // ---------- Tables ----------

  datatype GlobalRow = GlobalRow(mainPassword: string, adminId: string, botToken: string, usersRev: int)

  datatype UserRow = UserRow(deviceId: string, maxDevices: int, downBytes: int, upBytes: int,
                             isDeactivated: int, subId: string, profile: Profile)

  datatype Binding = Binding(deviceId: string, sortOrder: int)

  datatype DeviceRow = DeviceRow(ip: string, privKey: string, pubKey: string)

  // wdtt_user_devices is kept by its first key column; a password without rows has no entry.
  datatype Tables = Tables(global: Option<GlobalRow>, users: map<string, UserRow>,
                           bindings: map<string, seq<Binding>>, devices: map<string, DeviceRow>)

  // ---------- NormalizeUser ----------

  function WithLegacy(deviceId: string, ids: seq<string>): seq<string> {
    if deviceId != "" && deviceId !in ids then [deviceId] + ids else ids
  }

  /** Trimmed, without blanks and without repetitions of `seen` or each other. */
  function Cleaned(ids: seq<string>, seen: set<string>): seq<string> {
    if ids == [] then []
    else
      var id := Trim(ids[0]);
      if id == "" || id in seen then Cleaned(ids[1..], seen) else [id] + Cleaned(ids[1..], seen + {id})
  }

  function Head(ids: seq<string>): string {
    if ids == [] then "" else ids[0]
  }

  function ClampMax(n: int): int {
    if n <= 0 then DEFAULT_MAX_DEVICES else if n > MAX_DEVICES_LIMIT then MAX_DEVICES_LIMIT else n
  }

  function Normalized(u: User): User {
    var ids := Cleaned(WithLegacy(u.deviceId, u.deviceIds), {});
    u.(deviceIds := ids, deviceId := Head(ids), maxDevices := ClampMax(u.maxDevices))
  }

  method NormalizeUser(u: User) returns (n: User)
    ensures n == Normalized(u)
  {
    n := u;
    if n.deviceId != "" {
      var found := false;
      for i := 0 to |n.deviceIds|
        invariant found <==> n.deviceId in n.deviceIds[..i]
      {
        if n.deviceIds[i] == n.deviceId {
          found := true;
        }
      }
      assert n.deviceIds[..|n.deviceIds|] == n.deviceIds;
      if !found {
        n := n.(deviceIds := [n.deviceId] + n.deviceIds);
      }
    }
    var cleaned := CleanIds(n.deviceIds);
    n := n.(deviceIds := cleaned, deviceId := if |cleaned| > 0 then cleaned[0] else "");
    if n.maxDevices <= 0 {
      n := n.(maxDevices := DEFAULT_MAX_DEVICES);
    }
    if n.maxDevices > MAX_DEVICES_LIMIT {
      n := n.(maxDevices := MAX_DEVICES_LIMIT);
    }
  }

  method CleanIds(ids: seq<string>) returns (cleaned: seq<string>)
    ensures cleaned == Cleaned(ids, {})
  {
    cleaned := [];
    var seen: set<string> := {};
    for i := 0 to |ids|
      invariant cleaned + Cleaned(ids[i..], seen) == Cleaned(ids, {})
    {
      var id := Trim(ids[i]);
      assert ids[i..][0] == ids[i] && ids[i..][1..] == ids[i + 1..];
      if id == "" || id in seen {
        continue;
      }
      assert cleaned + ([id] + Cleaned(ids[i + 1..], seen + {id})) == (cleaned + [id]) + Cleaned(ids[i + 1..], seen + {id});
      seen := seen + {id};
      cleaned := cleaned + [id];
    }
  }

  /** What a normalized list looks like. */
  ghost predicate CleanList(ids: seq<string>, seen: set<string>) {
    ids != [] ==> ids[0] != "" && Trimmed(ids[0]) && ids[0] !in seen && CleanList(ids[1..], seen + {ids[0]})
  }

  lemma {:induction false} CleanedIsClean(ids: seq<string>, seen: set<string>)
    ensures CleanList(Cleaned(ids, seen), seen)
  {
    if ids != [] {
      var id := Trim(ids[0]);
      TrimIsTrimmed(ids[0]);
      if id == "" || id in seen {
        CleanedIsClean(ids[1..], seen);
      } else {
        CleanedIsClean(ids[1..], seen + {id});
        assert ([id] + Cleaned(ids[1..], seen + {id}))[1..] == Cleaned(ids[1..], seen + {id});
      }
    }
  }

  lemma {:induction false} CleanListKept(ids: seq<string>, seen: set<string>)
    requires CleanList(ids, seen)
    ensures Cleaned(ids, seen) == ids
  {
    if ids != [] {
      TrimIff(ids[0]);
      CleanListKept(ids[1..], seen + {ids[0]});
    }
  }

  lemma CleanedIdempotent(ids: seq<string>)
    ensures var c := Cleaned(ids, {}); Cleaned(WithLegacy(Head(c), c), {}) == c && Cleaned(WithLegacy("", c), {}) == c
  {
    CleanedIsClean(ids, {});
    CleanListKept(Cleaned(ids, {}), {});
  }

  /** Normalizing twice changes nothing more. */
  lemma NormalizedIdempotent(u: User)
    ensures Normalized(Normalized(u)) == Normalized(u)
  {
    CleanedIdempotent(WithLegacy(u.deviceId, u.deviceIds));
  }

  lemma {:induction false} CleanedIff(ids: seq<string>, seen: set<string>, d: string)
    ensures d in Cleaned(ids, seen) <==> d != "" && d !in seen && exists raw :: raw in ids && Trim(raw) == d
  {
    if ids != [] {
      var id := Trim(ids[0]);
      assert ids == [ids[0]] + ids[1..];
      hide Trim;
      if id == "" || id in seen {
        CleanedIff(ids[1..], seen, d);
      } else {
        CleanedIff(ids[1..], seen + {id}, d);
      }
    }
  }

  /** A normal entry has exactly the trimmed, non-blank ids of its list and its legacy field, and
      between 1 and 20 slots, the given number if it lies there. */
  lemma NormalizedKeeps(u: User, d: string)
    ensures var n := Normalized(u);
            && (d in n.deviceIds <==> d != "" && exists raw :: (raw == u.deviceId || raw in u.deviceIds) && Trim(raw) == d)
            && 1 <= n.maxDevices <= 20 && (1 <= u.maxDevices <= 20 ==> n.maxDevices == u.maxDevices)
            && n == u.(deviceIds := n.deviceIds, deviceId := n.deviceId, maxDevices := n.maxDevices)
  {
    CleanedIff(WithLegacy(u.deviceId, u.deviceIds), {}, d);
    assert Trim("") == "";
    hide Trim, Cleaned;
  }

  // ---------- Loading ----------

  /** ORDER BY sort_order, ties in table order. */
  function InsertByOrder(b: Binding, sorted: seq<Binding>): seq<Binding> {
    if sorted == [] || b.sortOrder <= sorted[0].sortOrder then [b] + sorted
    else [sorted[0]] + InsertByOrder(b, sorted[1..])
  }

  function ByOrder(rows: seq<Binding>): seq<Binding> {
    if rows == [] then [] else InsertByOrder(rows[0], ByOrder(rows[1..]))
  }

  predicate Sorted(rows: seq<Binding>) {
    forall i, j | 0 <= i < j < |rows| :: rows[i].sortOrder <= rows[j].sortOrder
  }

  lemma {:induction false} InsertedOnce(b: Binding, sorted: seq<Binding>)
    ensures multiset(InsertByOrder(b, sorted)) == multiset{b} + multiset(sorted)
  {
    if sorted != [] {
      InsertedOnce(b, sorted[1..]);
      assert sorted == [sorted[0]] + sorted[1..];
    }
  }

  predicate AllAfter(order: int, rows: seq<Binding>) {
    forall i | 0 <= i < |rows| :: order <= rows[i].sortOrder
  }

  lemma SortedCons(b: Binding, rows: seq<Binding>)
    requires Sorted(rows) && AllAfter(b.sortOrder, rows)
    ensures Sorted([b] + rows)
  {
  }

  lemma SortedTail(rows: seq<Binding>)
    requires Sorted(rows) && rows != []
    ensures Sorted(rows[1..]) && AllAfter(rows[0].sortOrder, rows) && AllAfter(rows[0].sortOrder, rows[1..])
  {
  }

  lemma {:induction false} InsertedSorted(b: Binding, sorted: seq<Binding>, order: int)
    requires Sorted(sorted) && AllAfter(order, sorted) && order <= b.sortOrder
    ensures Sorted(InsertByOrder(b, sorted)) && AllAfter(order, InsertByOrder(b, sorted))
  {
    if sorted != [] {
      SortedTail(sorted);
      if b.sortOrder <= sorted[0].sortOrder {
        SortedCons(b, sorted);
      } else {
        InsertedSorted(b, sorted[1..], sorted[0].sortOrder);
        SortedCons(sorted[0], InsertByOrder(b, sorted[1..]));
      }
      hide Sorted;
    }
  }

  lemma {:induction false} Smallest(rows: seq<Binding>) returns (order: int)
    ensures AllAfter(order, rows)
  {
    order := 0;
    if rows != [] {
      order := Smallest(rows[1..]);
      if rows[0].sortOrder < order {
        order := rows[0].sortOrder;
      }
      assert rows == [rows[0]] + rows[1..];
    }
  }

  lemma FromFirst(order: int, b: Binding, rows: seq<Binding>)
    requires AllAfter(order, [b] + rows)
    ensures order <= b.sortOrder && AllAfter(order, rows)
  {
    assert ([b] + rows)[0] == b && ([b] + rows)[1..] == rows;
  }

  lemma InsertSorts(b: Binding, sorted: seq<Binding>)
    requires Sorted(sorted)
    ensures Sorted(InsertByOrder(b, sorted))
  {
    hide Sorted, AllAfter, InsertByOrder;
    var order := Smallest([b] + sorted);
    FromFirst(order, b, sorted);
    InsertedSorted(b, sorted, order);
  }

  lemma {:induction false} ByOrderSorted(rows: seq<Binding>)
    ensures Sorted(ByOrder(rows))
  {
    if rows != [] {
      ByOrderSorted(rows[1..]);
      InsertSorts(rows[0], ByOrder(rows[1..]));
      hide Sorted, InsertByOrder;
    }
  }

  lemma {:induction false} ByOrderOnce(rows: seq<Binding>)
    ensures multiset(ByOrder(rows)) == multiset(rows)
  {
    hide InsertByOrder;
    if rows != [] {
      ByOrderOnce(rows[1..]);
      InsertedOnce(rows[0], ByOrder(rows[1..]));
      assert rows == [rows[0]] + rows[1..];
    }
  }

  /** The bindings of a user are read in their order, each once. */
  lemma ByOrderSorts(rows: seq<Binding>)
    ensures var r := ByOrder(rows);
            multiset(r) == multiset(rows) && forall i, j | 0 <= i < j < |r| :: r[i].sortOrder <= r[j].sortOrder
  {
    hide ByOrder;
    ByOrderSorted(rows);
    ByOrderOnce(rows);
  }

  function Ids(rows: seq<Binding>): seq<string> {
    if rows == [] then [] else [rows[0].deviceId] + Ids(rows[1..])
  }

  function BoundIds(t: Tables, password: string): seq<string> {
    if password in t.bindings then Ids(ByOrder(t.bindings[password])) else []
  }

  function UserOf(row: UserRow, ids: seq<string>): User {
    User(row.deviceId, ids, row.maxDevices, row.downBytes, row.upBytes, row.isDeactivated != 0, row.subId, "", row.profile)
  }

  /** The owner's row has no device limit. */
  function MainUnlimited(u: User, password: string, main: string): User {
    if password == main then u.(maxDevices := 0) else u
  }

  function MainOf(t: Tables): string {
    if t.global.Some? then t.global.value.mainPassword else ""
  }

  function LoadedUser(t: Tables, password: string): User
    requires password in t.users
  {
    MainUnlimited(Normalized(UserOf(t.users[password], BoundIds(t, password))), password, MainOf(t))
  }

  function Loaded(t: Tables): Store {
    Store(MainOf(t),
          if t.global.Some? then t.global.value.adminId else "",
          if t.global.Some? then t.global.value.botToken else "",
          map p | p in t.users :: LoadedUser(t, p),
          map id | id in t.devices :: Device(id, t.devices[id].ip, t.devices[id].privKey, t.devices[id].pubKey))
  }

  // ---------- Saving ----------

  function Bumped(t: Tables): Tables {
    if t.global.Some? then t.(global := Some(t.global.value.(usersRev := t.global.value.usersRev + 1))) else t
  }

  function Numbered(ids: seq<string>, from: int): seq<Binding> {
    if ids == [] then [] else [Binding(ids[0], from)] + Numbered(ids[1..], from + 1)
  }

  function Bind(bindings: map<string, seq<Binding>>, password: string, ids: seq<string>): map<string, seq<Binding>> {
    if ids == [] then bindings - {password} else bindings[password := Numbered(ids, 0)]
  }

  function SavedSubId(t: Tables, password: string, subId: string, preserve: bool): string {
    var trimmed := Trim(subId);
    if trimmed == "" && preserve && password in t.users then t.users[password].subId else trimmed
  }

  function SavedRow(t: Tables, u: User, password: string, main: string, preserve: bool): UserRow {
    var n := MainUnlimited(Normalized(u), password, main);
    UserRow(n.deviceId, n.maxDevices, n.downBytes, n.upBytes, if n.isDeactivated then 1 else 0,
            SavedSubId(t, password, u.subId, preserve), n.profile)
  }

  /** SaveStore: every user, binding and device row is replaced, the revision is raised. */
  function Saved(t: Tables, s: Store, preserve: bool): Tables {
    Tables(Some(GlobalRow(s.mainPassword, s.adminId, s.botToken, (if t.global.Some? then t.global.value.usersRev else 0) + 1)),
           map p | p in s.users :: SavedRow(t, s.users[p], p, s.mainPassword, preserve),
           map p | p in s.users && Normalized(s.users[p]).deviceIds != [] :: Numbered(Normalized(s.users[p]).deviceIds, 0),
           map id | id in s.devices :: DeviceRow(s.devices[id].ip, s.devices[id].privKey, s.devices[id].pubKey))
  }

  // ---------- The database object ----------

  class PanelDb {
    var global: Option<GlobalRow>
    var users: map<string, UserRow>
    var bindings: map<string, seq<Binding>>
    var devices: map<string, DeviceRow>

    function Abs(): Tables
      reads this
    {
      Tables(global, users, bindings, devices)
    }

    constructor (t: Tables)
      ensures Abs() == t
    {
      global, users, bindings, devices := t.global, t.users, t.bindings, t.devices;
    }

    method LoadStore() returns (s: Store)
      ensures s == Loaded(Abs())
    {
      s := Store("", "", "", map[], map[]);
      if global.Some? {
        s := s.(mainPassword := global.value.mainPassword, adminId := global.value.adminId, botToken := global.value.botToken);
      }
      var loaded := LoadUsers(s.mainPassword);
      var devs: map<string, Device> := map[];
      var todo := devices.Keys;
      while todo != {}
        invariant todo <= devices.Keys && devs.Keys == devices.Keys - todo
        invariant forall id | id in devs :: devs[id] == Device(id, devices[id].ip, devices[id].privKey, devices[id].pubKey)
      {
        var id := AnyOf(todo);
        todo := todo - {id};
        devs := devs[id := Device(id, devices[id].ip, devices[id].privKey, devices[id].pubKey)];
      }
      s := s.(users := loaded, devices := devs);
      assert s.devices == Loaded(Abs()).devices;
    }

    method LoadUsers(main: string) returns (loaded: map<string, User>)
      requires main == MainOf(Abs())
      ensures loaded == Loaded(Abs()).users
    {
      loaded := map[];
      var todo := users.Keys;
      while todo != {}
        invariant todo <= users.Keys && loaded.Keys == users.Keys - todo
        invariant forall p | p in loaded :: loaded[p] == LoadedUser(Abs(), p)
      {
        hide Normalized;
        var pass := AnyOf(todo);
        todo := todo - {pass};
        var u := UserOf(users[pass], if pass in bindings then Ids(ByOrder(bindings[pass])) else []);
        u := NormalizeUser(u);
        if pass == main {
          u := u.(maxDevices := 0);
        }
        loaded := loaded[pass := u];
      }
    }

    /** Every row is deleted and written again; users and devices in any order. The caller's
        users are normalized in place: `after` is what they are then. */
    method SaveStore(src: Store, preserve: bool) returns (after: map<string, User>)
      modifies this
      ensures Abs() == Saved(old(Abs()), src, preserve)
      ensures after == map p | p in src.users :: MainUnlimited(Normalized(src.users[p]), p, src.mainPassword)
    {
      ghost var t := Abs();
      var rev := if global.Some? then global.value.usersRev else 0;
      global := Some(GlobalRow(src.mainPassword, src.adminId, src.botToken, rev));
      BumpUsersRev();
      var existing := users;
      users, bindings, devices := map[], map[], map[];
      after := SaveUsers(t, src, existing, preserve);
      var todo := src.devices.Keys;
      while todo != {}
        invariant todo <= src.devices.Keys && devices.Keys == src.devices.Keys - todo
        invariant forall id | id in devices ::
          devices[id] == DeviceRow(src.devices[id].ip, src.devices[id].privKey, src.devices[id].pubKey)
        invariant global == Saved(t, src, preserve).global && users == Saved(t, src, preserve).users
        invariant bindings == Saved(t, src, preserve).bindings
      {
        hide Saved;
        var id := AnyOf(todo);
        todo := todo - {id};
        devices := devices[id := DeviceRow(src.devices[id].ip, src.devices[id].privKey, src.devices[id].pubKey)];
      }
      assert devices == Saved(t, src, preserve).devices;
    }

    method BumpUsersRev()
      modifies this`global
      ensures Abs() == Bumped(old(Abs()))
    {
      if global.Some? {
        global := Some(global.value.(usersRev := global.value.usersRev + 1));
      }
    }

    method SaveUsers(ghost t: Tables, src: Store, existing: map<string, UserRow>, preserve: bool)
      returns (after: map<string, User>)
      requires users == map[] && bindings == map[] && existing == t.users
      modifies this`users, this`bindings
      ensures users == Saved(t, src, preserve).users && bindings == Saved(t, src, preserve).bindings
      ensures after == map p | p in src.users :: MainUnlimited(Normalized(src.users[p]), p, src.mainPassword)
    {
      after := map[];
      hide Normalized, SavedRow, Numbered, Bind, BoundAs;
      var todo := src.users.Keys;
      while todo != {}
        invariant todo <= src.users.Keys && users.Keys == src.users.Keys - todo
        invariant forall p | p in users :: users[p] == SavedRow(t, src.users[p], p, src.mainPassword, preserve)
        invariant after.Keys == users.Keys
        invariant forall p | p in after :: after[p] == MainUnlimited(Normalized(src.users[p]), p, src.mainPassword)
        invariant forall p | p in bindings :: p in users
        invariant forall p | p in users :: BoundAs(bindings, p, Normalized(src.users[p]).deviceIds)
      {
        var pass := AnyOf(todo);
        todo := todo - {pass};
        ghost var before := bindings;
        var u := SaveUser(t, pass, src.users[pass], src.mainPassword, existing, preserve);
        after := after[pass := u];
        BindEffect(before, pass, Normalized(src.users[pass]).deviceIds, pass);
        forall p | p in users ensures BoundAs(bindings, p, Normalized(src.users[p]).deviceIds) {
          BindEffect(before, pass, Normalized(src.users[pass]).deviceIds, p);
        }
      }
      BoundEverywhere(bindings, t, src, preserve);
      assert users == Saved(t, src, preserve).users;
    }

    method SaveUser(ghost t: Tables, pass: string, user: User, main: string, existing: map<string, UserRow>, preserve: bool)
      returns (u: User)
      requires existing == t.users && pass !in bindings
      modifies this`users, this`bindings
      ensures users == old(users)[pass := SavedRow(t, user, pass, main, preserve)]
      ensures bindings == Bind(old(bindings), pass, Normalized(user).deviceIds)
      ensures u == MainUnlimited(Normalized(user), pass, main)
    {
      u := NormalizeUser(user);
      if pass == main {
        u := u.(maxDevices := 0);
      }
      var subId := Trim(u.subId);
      if subId == "" && preserve {
        subId := if pass in existing then existing[pass].subId else "";
      }
      users := users[pass := UserRow(u.deviceId, u.maxDevices, u.downBytes, u.upBytes, if u.isDeactivated then 1 else 0,
                                     subId, u.profile)];
      InsertBindings(pass, u.deviceIds);
    }

    /** One INSERT per device id, numbered from 0, for a password that has no rows. */
    method InsertBindings(pass: string, ids: seq<string>)
      requires pass !in bindings
      modifies this`bindings
      ensures bindings == Bind(old(bindings), pass, ids)
    {
      for i := 0 to |ids|
        invariant bindings == Bind(old(bindings), pass, ids[..i])
      {
        assert ids[..i + 1] == ids[..i] + [ids[i]];
        NumberedAppend(ids[..i], ids[i], 0);
        var rows := if pass in bindings then bindings[pass] else [];
        bindings := bindings[pass := rows + [Binding(ids[i], i)]];
      }
      assert ids[..|ids|] == ids;
    }
  }

  ghost predicate BoundAs(bindings: map<string, seq<Binding>>, p: string, ids: seq<string>) {
    (p in bindings <==> ids != []) && (p in bindings ==> bindings[p] == Numbered(ids, 0))
  }

  lemma BindEffect(bindings: map<string, seq<Binding>>, pass: string, ids: seq<string>, p: string)
    requires pass !in bindings
    ensures var b := Bind(bindings, pass, ids);
            && (p != pass ==> (p in b <==> p in bindings) && (p in b ==> b[p] == bindings[p]))
            && BoundAs(b, pass, ids)
            && (forall q | q in b :: q in bindings || q == pass)
            && (p != pass ==> forall ids' :: BoundAs(bindings, p, ids') ==> BoundAs(b, p, ids'))
  {
  }

  lemma BoundEverywhere(bindings: map<string, seq<Binding>>, t: Tables, s: Store, preserve: bool)
    requires forall p | p in bindings :: p in s.users
    requires forall p | p in s.users :: BoundAs(bindings, p, Normalized(s.users[p]).deviceIds)
    ensures bindings == Saved(t, s, preserve).bindings
  {
    hide Normalized, Numbered;
    var b := Saved(t, s, preserve).bindings;
    forall p ensures p in bindings <==> p in b {
      assert p in s.users ==> BoundAs(bindings, p, Normalized(s.users[p]).deviceIds);
    }
  }

  lemma {:induction false} NumberedAppend(ids: seq<string>, id: string, from: int)
    ensures Numbered(ids + [id], from) == Numbered(ids, from) + [Binding(id, from + |ids|)]
  {
    if ids == [] {
      assert ids + [id] == [id];
    } else {
      assert (ids + [id])[1..] == ids[1..] + [id];
      NumberedAppend(ids[1..], id, from + 1);
    }
  }
}
