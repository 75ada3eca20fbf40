// Which password a device belongs to: one owner per device under slot limits, whatever
// order the password map is iterated in. An entry is kept under its password (the Go
// pointers); passwords with a nil entry count as absent.
module Devices {
  import opened Basics
  import opened Text
  import opened Store

  type Entries = map<string, User>

  // ---------- Ownership ----------

  /** The device ids of p's entry as every operation sees them. */
  function DevicesOf(m: Entries, p: string): seq<string> {
    if p in m then Normalized(m[p]).deviceIds else []
  }

  predicate Holds(m: Entries, p: string, did: string) {
    did in DevicesOf(m, p)
  }

  /** The entry's fields already have their normal form. */
  ghost predicate CleanEntry(u: User) {
    CleanList(u.deviceIds, {}) && u.deviceId == Head(u.deviceIds)
  }

  /** Every entry is in normal form and no device is in two entries. */
  ghost predicate Owned(m: Entries) {
    && (forall p | p in m :: CleanEntry(m[p]))
    && (forall p, q, d | p in m && q in m && d in m[p].deviceIds && d in m[q].deviceIds :: p == q)
  }

  lemma CleanEntryNormal(u: User)
    requires CleanEntry(u)
    ensures Normalized(u) == u.(maxDevices := ClampMax(u.maxDevices))
  {
    CleanListKept(u.deviceIds, {});
  }

  lemma NormalIsClean(u: User)
    ensures CleanEntry(Normalized(u))
  {
    CleanedIsClean(WithLegacy(u.deviceId, u.deviceIds), {});
    hide Cleaned, WithLegacy;
  }

  lemma OwnedDevices(m: Entries, p: string)
    requires Owned(m) && p in m
    ensures DevicesOf(m, p) == m[p].deviceIds
  {
    CleanEntryNormal(m[p]);
    hide Normalized;
  }

  // ---------- Deduplication ----------

  // The owner chosen for each device.
  type Owners = map<string, string>

  /** Owners are holders, and the main password owns only what no other entry holds. */
  ghost predicate ValidOwners(m: Entries, main: string, o: Owners) {
    && (forall p, d | p in m && Holds(m, p, d) :: d in o)
    && (forall d | d in o :: o[d] in m && Holds(m, o[d], d))
    && (forall p, d | p in m && p != main && d in o && Holds(m, p, d) :: o[d] != main)
  }

  function KeepOwned(ids: seq<string>, o: Owners, p: string): seq<string> {
    if ids == [] then []
    else (if ids[0] in o && o[ids[0]] == p then [ids[0]] else []) + KeepOwned(ids[1..], o, p)
  }

  function Kept(u: User, o: Owners, p: string): User {
    var ids := KeepOwned(Normalized(u).deviceIds, o, p);
    Normalized(u).(deviceIds := ids, deviceId := Head(ids))
  }

  function Assigned(m: Entries, o: Owners): Entries {
    map p | p in m :: Kept(m[p], o, p)
  }

  lemma {:induction false} KeepOwnedIff(ids: seq<string>, o: Owners, p: string, d: string)
    ensures d in KeepOwned(ids, o, p) <==> d in ids && d in o && o[d] == p
  {
    if ids != [] {
      KeepOwnedIff(ids[1..], o, p, d);
      assert ids == [ids[0]] + ids[1..];
    }
  }

  lemma {:induction false} KeepOwnedClean(ids: seq<string>, o: Owners, p: string, seen: set<string>, seen': set<string>)
    requires CleanList(ids, seen) && seen' <= seen
    ensures CleanList(KeepOwned(ids, o, p), seen')
  {
    if ids != [] {
      var rest := KeepOwned(ids[1..], o, p);
      if ids[0] in o && o[ids[0]] == p {
        KeepOwnedClean(ids[1..], o, p, seen + {ids[0]}, seen' + {ids[0]});
        assert ([ids[0]] + rest)[1..] == rest;
      } else {
        KeepOwnedClean(ids[1..], o, p, seen + {ids[0]}, seen');
        assert [] + rest == rest;
      }
    }
  }

  lemma {:induction false} KeepOwnedAll(ids: seq<string>, o: Owners, p: string)
    requires forall d | d in ids :: d in o && o[d] == p
    ensures KeepOwned(ids, o, p) == ids
  {
    if ids != [] {
      assert ids == [ids[0]] + ids[1..];
      KeepOwnedAll(ids[1..], o, p);
    }
  }

  /** Lists stay in order: what is kept is the old list without what others own. */
  lemma {:induction false} KeepOwnedInOrder(ids: seq<string>, o: Owners, p: string, i: nat, j: nat) returns (a: nat, b: nat)
    requires i < j < |KeepOwned(ids, o, p)|
    ensures a < b < |ids| && ids[a] == KeepOwned(ids, o, p)[i] && ids[b] == KeepOwned(ids, o, p)[j]
  {
    if ids[0] in o && o[ids[0]] == p {
      if i == 0 {
        a := 0;
        b := KeepOwnedAt(ids[1..], o, p, j - 1);
        b := b + 1;
      } else {
        a, b := KeepOwnedInOrder(ids[1..], o, p, i - 1, j - 1);
        a, b := a + 1, b + 1;
      }
    } else {
      a, b := KeepOwnedInOrder(ids[1..], o, p, i, j);
      a, b := a + 1, b + 1;
    }
  }

  lemma {:induction false} KeepOwnedAt(ids: seq<string>, o: Owners, p: string, j: nat) returns (b: nat)
    requires j < |KeepOwned(ids, o, p)|
    ensures b < |ids| && ids[b] == KeepOwned(ids, o, p)[j]
  {
    if ids[0] in o && o[ids[0]] == p && j == 0 {
      b := 0;
    } else {
      b := KeepOwnedAt(ids[1..], o, p, if ids[0] in o && o[ids[0]] == p then j - 1 else j);
      b := b + 1;
    }
  }

  lemma AssignedIff(m: Entries, o: Owners, p: string, d: string)
    requires p in m
    ensures d in Assigned(m, o)[p].deviceIds <==> Holds(m, p, d) && d in o && o[d] == p
  {
    hide Normalized;
    KeepOwnedIff(Normalized(m[p]).deviceIds, o, p, d);
  }

  /** After deduplication, whatever owners the iteration orders led to, every entry is in
      normal form and no device is in two entries. */
  lemma DedupeOwned(m: Entries, o: Owners)
    ensures Owned(Assigned(m, o))
  {
    var m' := Assigned(m, o);
    hide Normalized, CleanList;
    forall p | p in m ensures CleanEntry(m'[p]) {
      NormalIsClean(m[p]);
      KeepOwnedClean(Normalized(m[p]).deviceIds, o, p, {}, {});
    }
    hide Assigned, CleanEntry, Holds;
    forall p, q, d | p in m' && q in m' && d in m'[p].deviceIds && d in m'[q].deviceIds ensures p == q {
      AssignedIff(m, o, p, d);
      AssignedIff(m, o, q, d);
    }
  }

  /** No device is lost: one that anybody held is now in the list of a former holder, its
      only one, and of the main password only if no other entry held it. */
  lemma DedupeKeepsDevice(m: Entries, main: string, o: Owners, p: string, d: string)
    requires ValidOwners(m, main, o) && p in m && Holds(m, p, d)
    ensures d in o && o[d] in m && Holds(m, o[d], d)
    ensures forall q | q in m :: d in Assigned(m, o)[q].deviceIds <==> q == o[d]
    ensures o[d] == main ==> forall q | q in m && q != main :: !Holds(m, q, d)
  {
    assert Assigned(m, o).Keys == m.Keys;
    hide Assigned, Holds;
    forall q | q in m ensures d in Assigned(m, o)[q].deviceIds <==> q == o[d] {
      AssignedIff(m, o, q, d);
    }
  }

  lemma OwnedKept(m: Entries, main: string, o: Owners)
    requires Owned(m) && ValidOwners(m, main, o)
    requires forall p | p in m :: m[p].maxDevices == ClampMax(m[p].maxDevices)
    ensures Assigned(m, o) == m
  {
    hide Normalized;
    forall p | p in m ensures Kept(m[p], o, p) == m[p] {
      CleanEntryNormal(m[p]);
      forall d | d in m[p].deviceIds ensures d in o && o[d] == p {
        OwnedDevices(m, p);
        assert Holds(m, p, d);
        OwnedDevices(m, o[d]);
      }
      KeepOwnedAll(m[p].deviceIds, o, p);
    }
  }

  /** Deduplicating again changes nothing, whatever the orders of both rounds. */
  lemma DedupeIdempotent(m: Entries, main: string, o: Owners, o': Owners)
    requires ValidOwners(Assigned(m, o), main, o')
    ensures Assigned(Assigned(m, o), o') == Assigned(m, o)
  {
    DedupeOwned(m, o);
    assert forall p | p in m :: Assigned(m, o)[p].maxDevices == ClampMax(m[p].maxDevices);
    hide Assigned;
    OwnedKept(Assigned(m, o), main, o');
  }

  // ---------- Binding and unbinding ----------

  function WithoutDevice(ids: seq<string>, did: string): seq<string> {
    if ids == [] then []
    else (if ids[0] == did then [] else [ids[0]]) + WithoutDevice(ids[1..], did)
  }

  /** removeDeviceFromEntry: normalizes the entry in any case. */
  function Removed(u: User, did: string): User {
    var n := Normalized(u);
    if did !in n.deviceIds then n
    else
      var ids := WithoutDevice(n.deviceIds, did);
      n.(deviceIds := ids, deviceId := Head(ids))
  }

  predicate IsMain(m: Entries, main: string, p: string) {
    main != "" && p == main && p in m
  }

  /** entryMaxDevices of a normalized entry. */
  function Limit(m: Entries, main: string, p: string): int
    requires p in m
  {
    if IsMain(m, main, p) then MAX_DEVICES_LIMIT * 100 else ClampMax(m[p].maxDevices)
  }

  datatype Bound = Bound(entries: Entries, ok: bool)

  function BindDevice(m: Entries, main: string, p: string, did: string): Bound {
    if p !in m || did == "" then Bound(m, false)
    else
      var n := Normalized(m[p]);
      if did in n.deviceIds then Bound(m[p := n], true)
      else if !IsMain(m, main, p) && |n.deviceIds| >= Limit(m, main, p) then Bound(m[p := n], false)
      else
        var ids := n.deviceIds + [did];
        Bound(map q | q in m :: if q == p then n.(deviceIds := ids, deviceId := Head(ids)) else Removed(m[q], did), true)
  }

  lemma {:induction false} WithoutDeviceIff(ids: seq<string>, did: string, d: string)
    ensures d in WithoutDevice(ids, did) <==> d in ids && d != did
    ensures |WithoutDevice(ids, did)| <= |ids|
  {
    if ids != [] {
      WithoutDeviceIff(ids[1..], did, d);
      assert ids == [ids[0]] + ids[1..];
    }
  }

  lemma {:induction false} WithoutDeviceClean(ids: seq<string>, did: string, seen: set<string>, seen': set<string>)
    requires CleanList(ids, seen) && seen' <= seen
    ensures CleanList(WithoutDevice(ids, did), seen')
  {
    if ids != [] {
      var rest := WithoutDevice(ids[1..], did);
      if ids[0] == did {
        WithoutDeviceClean(ids[1..], did, seen + {ids[0]}, seen');
        assert [] + rest == rest;
      } else {
        WithoutDeviceClean(ids[1..], did, seen + {ids[0]}, seen' + {ids[0]});
        assert ([ids[0]] + rest)[1..] == rest;
      }
    }
  }

  lemma {:induction false} CleanListAppend(ids: seq<string>, did: string, seen: set<string>)
    requires CleanList(ids, seen) && did !in ids && did !in seen && did != ""
    ensures CleanList(ids + [did], seen) <==> Trimmed(did)
  {
    if ids == [] {
      assert ids + [did] == [did] && [did][1..] == [];
    } else {
      assert ids == [ids[0]] + ids[1..];
      assert (ids + [did])[1..] == ids[1..] + [did];
      CleanListAppend(ids[1..], did, seen + {ids[0]});
    }
  }

  lemma RemovedFacts(u: User, did: string)
    ensures CleanEntry(Removed(u, did))
    ensures forall d :: d in Removed(u, did).deviceIds <==> d in Normalized(u).deviceIds && d != did
    ensures |Removed(u, did).deviceIds| <= |Normalized(u).deviceIds|
  {
    NormalIsClean(u);
    hide Normalized, CleanList;
    var ids := Normalized(u).deviceIds;
    forall d ensures d in Removed(u, did).deviceIds <==> d in ids && d != did {
      WithoutDeviceIff(ids, did, d);
    }
    WithoutDeviceClean(ids, did, {}, {});
    WithoutDeviceIff(ids, did, "");
  }

  /** Who holds what after a successful binding: the device moved to p, nothing else changed. */
  lemma BindMovesDevice(m: Entries, main: string, p: string, did: string, q: string, d: string)
    requires Owned(m) && BindDevice(m, main, p, did).ok && q in m
    ensures var m' := BindDevice(m, main, p, did).entries;
            q in m' && (d in m'[q].deviceIds <==> if d == did then q == p else d in m[q].deviceIds)
  {
    OwnedDevices(m, p);
    OwnedDevices(m, q);
    RemovedFacts(m[q], did);
    CleanEntryNormal(m[q]);
    hide Normalized, CleanList, CleanEntry, Removed, Limit, IsMain;
  }

  lemma BindClean(m: Entries, main: string, p: string, did: string, q: string)
    requires Owned(m) && q in m
    ensures var b := BindDevice(m, main, p, did);
            q in b.entries && (q != p || Trimmed(did) || did in m[p].deviceIds || !b.ok ==> CleanEntry(b.entries[q]))
    ensures var b := BindDevice(m, main, p, did);
            q == p && b.ok && !Trimmed(did) ==> !CleanEntry(b.entries[p])
  {
    RemovedFacts(m[q], did);
    CleanEntryNormal(m[q]);
    NormalIsClean(m[q]);
    if q == p && did != "" && did !in m[p].deviceIds {
      CleanListAppend(m[p].deviceIds, did, {});
    } else if q == p && did in m[p].deviceIds {
      CleanListTrimmed(m[p].deviceIds, {}, did);
    }
    hide Normalized, CleanList, Removed, Limit, IsMain, Trimmed;
  }

  lemma {:induction false} CleanListTrimmed(ids: seq<string>, seen: set<string>, d: string)
    requires CleanList(ids, seen) && d in ids
    ensures Trimmed(d) && d != ""
  {
    if ids[0] != d {
      assert ids == [ids[0]] + ids[1..];
      CleanListTrimmed(ids[1..], seen + {ids[0]}, d);
    }
  }

  /** Binding keeps every list in normal form, and one owner per device with it, exactly when the
      device id has no surrounding white space or the binding is refused. */
  lemma BindKeepsNormalForm(m: Entries, main: string, p: string, did: string)
    requires Owned(m) && p in m
    ensures var b := BindDevice(m, main, p, did); Owned(b.entries) <==> Trimmed(did) || !b.ok
  {
    var b := BindDevice(m, main, p, did);
    assert b.entries.Keys == m.Keys;
    hide CleanEntry, Trimmed, CleanList;
    forall q | q in m && (Trimmed(did) || !b.ok) ensures CleanEntry(b.entries[q]) {
      BindClean(m, main, p, did, q);
    }
    BindClean(m, main, p, did, p);
    forall q, r, d | q in m && r in m && d in b.entries[q].deviceIds && d in b.entries[r].deviceIds ensures q == r {
      if b.ok {
        BindMovesDevice(m, main, p, did, q, d);
        BindMovesDevice(m, main, p, did, r, d);
      } else {
        RefusedSame(m, main, p, did, q);
        RefusedSame(m, main, p, did, r);
      }
    }
    hide BindDevice;
  }

  lemma RefusedSame(m: Entries, main: string, p: string, did: string, q: string)
    requires Owned(m) && !BindDevice(m, main, p, did).ok && q in m
    ensures BindDevice(m, main, p, did).entries[q].deviceIds == m[q].deviceIds
  {
    CleanEntryNormal(m[q]);
    hide Normalized, CleanList, CleanEntry, Removed;
  }

  // ---------- One owner, as the next look at the entries sees it ----------

  /** No device is held by two entries. */
  ghost predicate OneOwner(m: Entries) {
    forall p, q, d | Holds(m, p, d) && Holds(m, q, d) :: p == q
  }

  lemma OwnedHasOneOwner(m: Entries)
    requires Owned(m)
    ensures OneOwner(m)
  {
    forall p, q, d | Holds(m, p, d) && Holds(m, q, d)
      ensures p == q
    {
      OwnedDevices(m, p);
      OwnedDevices(m, q);
    }
    hide DevicesOf, CleanEntry;
  }

  /** An id appended to a normal list is trimmed at the next look; it drops out if it then is
      blank or already there. */
  lemma {:induction false} CleanedAppend(ids: seq<string>, did: string, seen: set<string>)
    requires CleanList(ids, seen)
    ensures var t := Trim(did);
            Cleaned(ids + [did], seen) == if t == "" || t in seen || t in ids then ids else ids + [t]
  {
    if ids == [] {
      assert ids + [did] == [did] && [did][1..] == [];
      assert Cleaned([], seen) == [] && Cleaned([], seen + {Trim(did)}) == [];
    } else {
      TrimIff(ids[0]);
      assert ids == [ids[0]] + ids[1..];
      assert (ids + [did])[0] == ids[0] && (ids + [did])[1..] == ids[1..] + [did];
      CleanedAppend(ids[1..], did, seen + {ids[0]});
      hide Trim, Trimmed;
    }
  }

  /** The entry that a binding has extended, as the next look sees it. */
  lemma ExtendedDevices(u: User, ids: seq<string>, did: string)
    requires CleanList(ids, {}) && did != ""
    requires u.deviceIds == ids + [did] && u.deviceId == Head(ids + [did])
    ensures Normalized(u).deviceIds == if Trim(did) == "" || Trim(did) in ids then ids else ids + [Trim(did)]
  {
    CleanedAppend(ids, did, {});
    assert u.deviceId == (ids + [did])[0] && u.deviceId in ids + [did];
    hide Cleaned, CleanList, Trim;
  }

  /** Who holds what at the next look, after a device that was new to p was bound to it: p
      holds the trimmed id as well, the others whatever they had except the id itself. */
  lemma BindHolds(m: Entries, main: string, p: string, did: string, q: string, d: string)
    requires Owned(m) && BindDevice(m, main, p, did).ok && did !in m[p].deviceIds && q in m
    ensures var m' := BindDevice(m, main, p, did).entries;
            Holds(m', q, d) <==>
              if q == p then d in m[p].deviceIds || (d == Trim(did) && d != "") else d in m[q].deviceIds && d != did
  {
    var m' := BindDevice(m, main, p, did).entries;
    OwnedDevices(m, p);
    CleanEntryNormal(m[p]);
    RemovedFromOwned(m, q, did);
    if q == p {
      ExtendedDevices(m'[p], m[p].deviceIds, did);
    } else {
      CleanEntryNormal(Removed(m[q], did));
    }
    hide Normalized, CleanList, CleanEntry, Removed, Limit, IsMain, Trim;
  }

  /** The id that would collide: trimmed it is another entry's device. */
  ghost predicate TrimsToAnothers(m: Entries, p: string, did: string) {
    !Trimmed(did) && Trim(did) != "" && exists q :: q in m && q != p && Trim(did) in m[q].deviceIds
  }

  /** Binding keeps one owner per device exactly when the binding is refused or the id, trimmed,
      is not a device of another entry under a different spelling. */
  lemma BindKeepsOneOwner(m: Entries, main: string, p: string, did: string)
    requires Owned(m) && p in m
    ensures var b := BindDevice(m, main, p, did); OneOwner(b.entries) <==> !b.ok || !TrimsToAnothers(m, p, did)
  {
    var b := BindDevice(m, main, p, did);
    OwnedDevices(m, p);
    if !b.ok || Trimmed(did) {
      BindKeepsNormalForm(m, main, p, did);
      OwnedHasOneOwner(b.entries);
    } else if did in m[p].deviceIds {
      CleanListTrimmed(m[p].deviceIds, {}, did);
    } else if TrimsToAnothers(m, p, did) {
      var q :| q in m && q != p && Trim(did) in m[q].deviceIds;
      TwoHold(m, main, p, did, q);
    } else {
      UntrimmedOneOwner(m, main, p, did);
    }
    hide BindDevice, OneOwner, CleanEntry, CleanList, Trim, Trimmed, DevicesOf;
  }

  lemma TwoHold(m: Entries, main: string, p: string, did: string, q: string)
    requires Owned(m) && BindDevice(m, main, p, did).ok && did !in m[p].deviceIds && !Trimmed(did)
    requires q in m && q != p && Trim(did) in m[q].deviceIds && Trim(did) != ""
    ensures var m' := BindDevice(m, main, p, did).entries; Holds(m', p, Trim(did)) && Holds(m', q, Trim(did))
    ensures !OneOwner(BindDevice(m, main, p, did).entries)
  {
    TrimIff(did);
    BindHolds(m, main, p, did, p, Trim(did));
    BindHolds(m, main, p, did, q, Trim(did));
    hide BindDevice, Holds, Trim, Trimmed;
  }

  lemma UntrimmedOneOwner(m: Entries, main: string, p: string, did: string)
    requires Owned(m) && BindDevice(m, main, p, did).ok && did !in m[p].deviceIds
    requires Trim(did) == "" || forall q | q in m && q != p :: Trim(did) !in m[q].deviceIds
    ensures OneOwner(BindDevice(m, main, p, did).entries)
  {
    var m' := BindDevice(m, main, p, did).entries;
    assert m'.Keys == m.Keys;
    forall q, r, d | Holds(m', q, d) && Holds(m', r, d)
      ensures q == r
    {
      BindHolds(m, main, p, did, q, d);
      BindHolds(m, main, p, did, r, d);
      hide Trim, CleanEntry, BindDevice;
    }
  }

  function NewUser(ids: seq<string>): User {
    User(Head(ids), ids, 1, 0, 0, false, "", "", Profile(0, 0, 0.0, 0.0, "", "", "", 0))
  }

  /** The input exists: one user holds device d, another binds " " + d within its limit, and
      both hold d at the next look. */
  lemma SecondSpellingHasTwoOwners(d: string)
    requires Trimmed(d) && d != ""
    ensures var m: Entries := map["alice" := NewUser([d]), "bob" := NewUser([])];
            var b := BindDevice(m, "", "bob", " " + d);
            Owned(m) && b.ok && Holds(b.entries, "alice", d) && Holds(b.entries, "bob", d)
  {
    var m: Entries := map["alice" := NewUser([d]), "bob" := NewUser([])];
    var did := " " + d;
    assert [d][1..] == [] && CleanList([], {d}) && CleanList([d], {});
    assert CleanEntry(m["alice"]) && CleanEntry(m["bob"]);
    OwnedDevices(m, "bob");
    SpaceTrimmed(d);
    CleanEntryNormal(m["bob"]);
    assert BindDevice(m, "", "bob", did).ok by {
      hide Normalized;
    }
    TwoHold(m, "", "bob", did, "alice");
    hide BindDevice, Holds;
  }

  lemma SpaceTrimmed(d: string)
    requires Trimmed(d) && d != ""
    ensures Trim(" " + d) == d && !Trimmed(" " + d)
  {
    assert (" " + d)[0] == ' ' && (" " + d)[1..] == d;
    TrimIff(d);
    assert TrimLeft(d) == d;
  }

  /** Slots, from the entry's own maxDevices: 1 if that is not positive, at most 20. The main
      password is never refused; another entry refuses a device it does not have if and only if
      it has no slot left. Only p can grow, by one, and another entry than the main one never
      past its slots. */
  lemma BindRespectsLimit(m: Entries, main: string, p: string, did: string, q: string)
    requires p in m && q in m && did != ""
    ensures var b := BindDevice(m, main, p, did);
            var slots := if m[p].maxDevices <= 0 then 1 else if m[p].maxDevices > 20 then 20 else m[p].maxDevices;
            var isMain := main != "" && p == main;
            && (!b.ok <==> !isMain && !Holds(m, p, did) && |DevicesOf(m, p)| >= slots)
            && (q != p ==> b.entries[q] == m[q] || |b.entries[q].deviceIds| <= |DevicesOf(m, q)|)
            && |b.entries[p].deviceIds| == |DevicesOf(m, p)| + (if b.ok && !Holds(m, p, did) then 1 else 0)
            && (b.ok && !isMain && !Holds(m, p, did) ==> |b.entries[p].deviceIds| <= slots)
  {
    RemovedFacts(m[q], did);
    LimitIs(m, main, p);
    hide Normalized, Removed, Limit;
  }

  lemma LimitIs(m: Entries, main: string, p: string)
    requires p in m
    ensures main == "" || p != main ==>
              Limit(m, main, p) == if m[p].maxDevices <= 0 then 1 else if m[p].maxDevices > 20 then 20 else m[p].maxDevices
  {
  }

  function Unbound(m: Entries, keep: string, did: string): Entries {
    map q | q in m :: if q == keep then m[q] else Removed(m[q], did)
  }

  lemma RemovedFromOwned(m: Entries, q: string, did: string)
    requires Owned(m) && q in m
    ensures CleanEntry(Removed(m[q], did))
    ensures forall d :: d in Removed(m[q], did).deviceIds <==> d in m[q].deviceIds && d != did
  {
    RemovedFacts(m[q], did);
    CleanEntryNormal(m[q]);
    hide Normalized, CleanList, Removed;
  }

  /** Entries whose lists only shrink keep one owner per device. */
  lemma ShrunkOwned(m: Entries, m': Entries)
    requires Owned(m) && m'.Keys == m.Keys
    requires forall q | q in m' :: CleanEntry(m'[q])
    requires forall q, d | q in m' && d in m'[q].deviceIds :: d in m[q].deviceIds
    ensures Owned(m')
  {
    hide CleanEntry;
  }

  lemma UnbindKeepsOwned(m: Entries, keep: string, did: string)
    requires Owned(m)
    ensures Owned(Unbound(m, keep, did))
    ensures forall q, d | q in m && q != keep :: d in Unbound(m, keep, did)[q].deviceIds <==> d in m[q].deviceIds && d != did
  {
    forall q | q in m
      ensures CleanEntry(m[q]) && CleanEntry(Removed(m[q], did))
      ensures forall d :: d in Removed(m[q], did).deviceIds <==> d in m[q].deviceIds && d != did
    {
      RemovedFromOwned(m, q, did);
    }
    hide Removed, CleanEntry, Owned;
    ShrunkOwned(m, Unbound(m, keep, did));
  }

  /** Removing a device from one entry keeps one owner per device, and takes away just that. */
  lemma RemoveKeepsOwned(m: Entries, p: string, did: string)
    requires Owned(m) && p in m
    ensures var m' := m[p := Removed(m[p], did)];
            && Owned(m') && m'.Keys == m.Keys
            && forall q, d | q in m :: d in m'[q].deviceIds <==> d in m[q].deviceIds && !(q == p && d == did)
  {
    RemovedFromOwned(m, p, did);
    var m' := m[p := Removed(m[p], did)];
    assert forall q | q in m :: CleanEntry(m[q]);
    hide Removed, CleanEntry, Owned;
    ShrunkOwned(m, m');
  }

  // ---------- Which password a device bills to ----------

  /** What passwordForDeviceLocked may answer, for some iteration order: a holder that is not
      the main password; without any, the main password if it holds the device, else "". */
  predicate MayResolve(m: Entries, main: string, did: string, answer: string) {
    if did == "" then answer == ""
    else
      || (answer in m && answer != main && Holds(m, answer, did))
      || (answer == Fallback(m, main, did) && forall p | p in m && p != main :: !Holds(m, p, did))
  }

  function Fallback(m: Entries, main: string, did: string): string {
    if main in m && Holds(m, main, did) then main else ""
  }

  lemma FallbackIs(m: Entries, main: string, did: string)
    ensures Fallback(m, main, did) == if main in m && Holds(m, main, did) then main else ""
  {
    hide Holds;
  }

  lemma AnswerHolder(m: Entries, main: string, did: string, p: string)
    requires did != "" && p in m && p != main && Holds(m, p, did)
    ensures MayResolve(m, main, did, p)
  {
    hide Holds;
  }

  lemma AnswerFallback(m: Entries, main: string, did: string)
    requires did != "" && forall p | p in m && p != main :: !Holds(m, p, did)
    ensures MayResolve(m, main, did, Fallback(m, main, did))
  {
    hide Holds;
  }

  /** With one owner per device the answer does not depend on the order. */
  lemma ResolveOrderIndependent(m: Entries, main: string, did: string, a: string, b: string)
    requires Owned(m) && MayResolve(m, main, did, a) && MayResolve(m, main, did, b)
    ensures a == b
  {
    if did != "" && a in m && b in m {
      OwnedDevices(m, a);
      OwnedDevices(m, b);
    }
    hide DevicesOf, CleanEntry;
  }

  // ---------- The in-memory database ----------

  datatype Pick = Pick(pass: string, isMain: bool)

  class Database {
    var mainPassword: string
    var passwords: Entries

    constructor (mainPassword: string, passwords: Entries)
      ensures this.mainPassword == mainPassword && this.passwords == passwords
    {
      this.mainPassword, this.passwords := mainPassword, passwords;
    }

    method DedupeDeviceBindings() returns (ghost owners: Owners)
      modifies this`passwords
      ensures ValidOwners(old(passwords), mainPassword, owners)
      ensures passwords == Assigned(old(passwords), owners)
    {
      hide Normalized, ValidOwners, Kept;
      var chosen := ChooseOwners();
      owners := map d | d in chosen :: chosen[d].pass;
      KeepAll(old(passwords), chosen);
    }

    /** The second loop: every list keeps what its password was chosen for. */
    method KeepAll(ghost m: Entries, chosen: map<string, Pick>)
      requires passwords == map p | p in m :: Normalized(m[p])
      modifies this`passwords
      ensures passwords == Assigned(m, map d | d in chosen :: chosen[d].pass)
    {
      hide Normalized, KeepOwned;
      ghost var owners: Owners := map d | d in chosen :: chosen[d].pass;
      var todo := passwords.Keys;
      while todo != {}
        invariant todo <= m.Keys && passwords.Keys == m.Keys
        invariant forall p | p in m :: passwords[p] == if p in todo then Normalized(m[p]) else Kept(m[p], owners, p)
      {
        var pass := AnyOf(todo);
        todo := todo - {pass};
        var keep := KeepChosen(passwords[pass].deviceIds, chosen, pass);
        passwords := passwords[pass := passwords[pass].(deviceIds := keep, deviceId := if |keep| > 0 then keep[0] else "")];
      }
      assert passwords == Assigned(m, owners);
    }

    method KeepChosen(ids: seq<string>, chosen: map<string, Pick>, pass: string) returns (keep: seq<string>)
      ensures keep == KeepOwned(ids, map d | d in chosen :: chosen[d].pass, pass)
    {
      ghost var o: Owners := map d | d in chosen :: chosen[d].pass;
      keep := [];
      for i := 0 to |ids|
        invariant keep + KeepOwned(ids[i..], o, pass) == KeepOwned(ids, o, pass)
      {
        assert ids[i..][0] == ids[i] && ids[i..][1..] == ids[i + 1..];
        ghost var rest := KeepOwned(ids[i + 1..], o, pass);
        if ids[i] in chosen && chosen[ids[i]].pass == pass {
          assert keep + ([ids[i]] + rest) == keep + [ids[i]] + rest;
          keep := keep + [ids[i]];
        } else {
          assert [] + rest == rest;
        }
      }
    }

    /** The first loop: normalizes every entry and picks an owner for every device. */
    method ChooseOwners() returns (chosen: map<string, Pick>)
      modifies this`passwords
      ensures passwords == map p | p in old(passwords) :: Normalized(old(passwords)[p])
      ensures ValidOwners(old(passwords), mainPassword, map d | d in chosen :: chosen[d].pass)
    {
      hide Normalized, Picked;
      ghost var m := passwords;
      NonePicked(m, mainPassword);
      chosen := map[];
      var todo := passwords.Keys;
      assert m.Keys - todo == {};
      while todo != {}
        invariant todo <= m.Keys && passwords.Keys == m.Keys
        invariant forall p | p in m :: passwords[p] == if p in todo then m[p] else Normalized(m[p])
        invariant Picked(m, mainPassword, chosen, m.Keys - todo)
        decreases todo
      {
        var pass := AnyOf(todo);
        DevicesAre(m, pass);
        var u := NormalizeUser(passwords[pass]);
        passwords := passwords[pass := u];
        chosen := ChooseFor(m, pass, u.deviceIds, chosen, m.Keys - todo);
        assert m.Keys - (todo - {pass}) == (m.Keys - todo) + {pass};
        todo := todo - {pass};
      }
      assert m.Keys - {} == m.Keys;
      PickedAll(m, mainPassword, chosen);
    }

    method ChooseFor(ghost m: Entries, pass: string, ids: seq<string>, start: map<string, Pick>, ghost done: set<string>)
      returns (chosen: map<string, Pick>)
      requires pass in m && pass !in done && ids == DevicesOf(m, pass) && Picked(m, mainPassword, start, done)
      ensures Picked(m, mainPassword, chosen, done + {pass})
    {
      hide Picked, DevicesOf;
      chosen := start;
      var isMain := pass == mainPassword;
      PickingStarts(m, mainPassword, chosen, done, pass);
      for i := 0 to |ids|
        invariant Picking(m, mainPassword, chosen, done, pass, i)
      {
        hide Picking;
        var did := ids[i];
        PickStep(m, mainPassword, chosen, done, pass, i);
        if did !in chosen {
          chosen := chosen[did := Pick(pass, isMain)];
        } else if chosen[did].isMain && !isMain {
          chosen := chosen[did := Pick(pass, isMain)];
        }
      }
      PickingEnds(m, mainPassword, chosen, done, pass);
    }

    method BindDeviceToEntry(p: string, did: string) returns (ok: bool)
      modifies this`passwords
      ensures Bound(passwords, ok) == BindDevice(old(passwords), mainPassword, p, did)
    {
      if p !in passwords || did == "" {
        return false;
      }
      var n := NormalizeUser(passwords[p]);
      passwords := passwords[p := n];
      if did in n.deviceIds {
        return true;
      }
      var isMain := mainPassword != "" && p == mainPassword;
      var limit := if isMain then MAX_DEVICES_LIMIT * 100 else if n.maxDevices <= 0 then DEFAULT_MAX_DEVICES else n.maxDevices;
      var left := limit - |n.deviceIds|;
      if !isMain && left <= 0 {
        return false;
      }
      hide Normalized, Removed, Unbound, BindDevice;
      UnbindDeviceFromOtherEntries(did, p);
      var ids := n.deviceIds + [did];
      passwords := passwords[p := n.(deviceIds := ids, deviceId := ids[0])];
      ok := true;
      BindIs(old(passwords), mainPassword, p, did);
    }

    method UnbindDeviceFromOtherEntries(did: string, keep: string)
      requires did != ""
      modifies this`passwords
      ensures passwords == Unbound(old(passwords), keep, did)
    {
      hide Removed, Holds;
      ghost var m := passwords;
      var todo := passwords.Keys;
      while todo != {}
        invariant todo <= m.Keys && passwords.Keys == m.Keys
        invariant forall p | p in m :: passwords[p] == if p in todo || p == keep then m[p] else Removed(m[p], did)
      {
        var p := AnyOf(todo);
        todo := todo - {p};
        if p != keep {
          var removed := RemoveDeviceFromEntry(p, did);
        }
      }
      assert passwords == Unbound(m, keep, did);
      if mainPassword != "" && mainPassword in passwords && mainPassword != keep {
        RemovedTwice(m[mainPassword], did);
        var removed := RemoveDeviceFromEntry(mainPassword, did);
        assert passwords == Unbound(m, keep, did);
      }
    }

    method RemoveDeviceFromEntry(p: string, did: string) returns (removed: bool)
      requires p in passwords && did != ""
      modifies this`passwords
      ensures passwords == old(passwords)[p := Removed(old(passwords)[p], did)]
      ensures removed <==> Holds(old(passwords), p, did)
    {
      hide Normalized, WithoutDevice, Holds;
      HoldsIff(passwords, p, did);
      var n := NormalizeUser(passwords[p]);
      passwords := passwords[p := n];
      var out;
      out, removed := FilterOut(n.deviceIds, did);
      if !removed {
        return;
      }
      passwords := passwords[p := n.(deviceIds := out, deviceId := if |out| > 0 then out[0] else "")];
    }

    static method FilterOut(ids: seq<string>, did: string) returns (out: seq<string>, removed: bool)
      ensures out == WithoutDevice(ids, did) && (removed <==> did in ids)
    {
      out, removed := [], false;
      for i := 0 to |ids|
        invariant out + WithoutDevice(ids[i..], did) == WithoutDevice(ids, did)
        invariant removed <==> did in ids[..i]
      {
        assert ids[i..][0] == ids[i] && ids[i..][1..] == ids[i + 1..];
        ghost var rest := WithoutDevice(ids[i + 1..], did);
        if ids[i] == did {
          removed := true;
          assert [] + rest == rest;
          continue;
        }
        assert out + ([ids[i]] + rest) == out + [ids[i]] + rest;
        out := out + [ids[i]];
      }
      assert ids[..|ids|] == ids;
    }

    /** Looking at an entry normalizes it. */
    method EntryHasDevice(p: string, did: string) returns (has: bool)
      requires p in passwords
      modifies this`passwords
      ensures has <==> did in Normalized(old(passwords)[p]).deviceIds
      ensures passwords == old(passwords)[p := Normalized(old(passwords)[p])]
    {
      var n := NormalizeUser(passwords[p]);
      passwords := passwords[p := n];
      has := did in n.deviceIds;
    }

    /** Which entries are looked at depends on the order. */
    method PasswordForDevice(did: string) returns (pass: string)
      modifies this`passwords
      ensures MayResolve(old(passwords), mainPassword, did, pass)
      ensures passwords.Keys == old(passwords).Keys
      ensures forall p | p in passwords :: passwords[p] == old(passwords)[p] || passwords[p] == Normalized(old(passwords)[p])
    {
      if did == "" {
        return "";
      }
      hide Normalized, Holds, MayResolve, Fallback;
      ghost var m := passwords;
      FallbackIs(m, mainPassword, did);
      var fallback := "";
      var todo := passwords.Keys;
      while todo != {}
        invariant todo <= m.Keys && passwords.Keys == m.Keys
        invariant forall p | p in m :: passwords[p] == m[p] || (p !in todo && passwords[p] == Normalized(m[p]))
        invariant forall p | p in m && p !in todo && p != mainPassword :: !Holds(m, p, did)
        invariant fallback == if mainPassword in todo then "" else Fallback(m, mainPassword, did)
      {
        pass := AnyOf(todo);
        HoldsIff(m, pass, did);
        todo := todo - {pass};
        var has := EntryHasDevice(pass, did);
        if !has {
          continue;
        }
        if pass == mainPassword {
          if fallback == "" {
            fallback := pass;
          }
          continue;
        }
        AnswerHolder(m, mainPassword, did, pass);
        return;
      }
      AnswerFallback(m, mainPassword, did);
      pass := fallback;
    }
  }

  lemma BindIs(m: Entries, main: string, p: string, did: string)
    requires p in m && did != "" && did !in Normalized(m[p]).deviceIds
    requires IsMain(m, main, p) || |Normalized(m[p]).deviceIds| < Limit(m, main, p)
    ensures var n := Normalized(m[p]);
            var ids := n.deviceIds + [did];
            BindDevice(m, main, p, did) == Bound(Unbound(m[p := n], p, did)[p := n.(deviceIds := ids, deviceId := ids[0])], true)
  {
    hide Normalized, Removed;
  }

  /** A pick made after seeing the entries in `done`. */
  ghost predicate PickOk(m: Entries, main: string, k: Pick, d: string, done: set<string>) {
    k.pass in done && k.pass in m && Holds(m, k.pass, d) && (k.isMain <==> k.pass == main)
  }

  /** The same while the list of `pass` has been seen up to i. */
  ghost predicate Picking(m: Entries, main: string, chosen: map<string, Pick>, done: set<string>, pass: string, i: nat) {
    && (forall d | d in chosen :: PickOk(m, main, chosen[d], d, done + {pass}))
    && (forall p, d | p in done && Holds(m, p, d) :: d in chosen && (p != main ==> !chosen[d].isMain))
    && (forall k | 0 <= k < i && k < |DevicesOf(m, pass)| ::
          DevicesOf(m, pass)[k] in chosen && (pass != main ==> !chosen[DevicesOf(m, pass)[k]].isMain))
  }

  lemma PickingStarts(m: Entries, main: string, chosen: map<string, Pick>, done: set<string>, pass: string)
    requires Picked(m, main, chosen, done)
    ensures Picking(m, main, chosen, done, pass, 0)
  {
    hide Holds;
  }

  lemma PickStep(m: Entries, main: string, chosen: map<string, Pick>, done: set<string>, pass: string, i: nat)
    requires pass in m && i < |DevicesOf(m, pass)| && Picking(m, main, chosen, done, pass, i)
    ensures var did, isMain := DevicesOf(m, pass)[i], pass == main;
            Picking(m, main, if did !in chosen || (chosen[did].isMain && !isMain) then chosen[did := Pick(pass, isMain)] else chosen,
                    done, pass, i + 1)
  {
    hide DevicesOf;
    assert Holds(m, pass, DevicesOf(m, pass)[i]);
    hide Holds;
  }

  lemma PickingEnds(m: Entries, main: string, chosen: map<string, Pick>, done: set<string>, pass: string)
    requires Picking(m, main, chosen, done, pass, |DevicesOf(m, pass)|)
    ensures Picked(m, main, chosen, done + {pass})
  {
    hide DevicesOf, PickOk;
  }

  lemma NonePicked(m: Entries, main: string)
    ensures Picked(m, main, map[], {})
  {
  }

  lemma DevicesAre(m: Entries, p: string)
    requires p in m
    ensures DevicesOf(m, p) == Normalized(m[p]).deviceIds
  {
  }

  lemma HoldsIff(m: Entries, p: string, did: string)
    requires p in m
    ensures Holds(m, p, did) <==> did in Normalized(m[p]).deviceIds
  {
    hide Normalized;
  }

  ghost predicate Picked(m: Entries, main: string, chosen: map<string, Pick>, done: set<string>) {
    && (forall d | d in chosen :: PickOk(m, main, chosen[d], d, done))
    && (forall p, d | p in done && Holds(m, p, d) :: d in chosen && (p != main ==> !chosen[d].isMain))
  }

  lemma PickedAll(m: Entries, main: string, chosen: map<string, Pick>)
    requires Picked(m, main, chosen, m.Keys)
    ensures ValidOwners(m, main, map d | d in chosen :: chosen[d].pass)
  {
    hide DevicesOf;
  }

  lemma RemovedTwice(u: User, did: string)
    ensures Removed(Removed(u, did), did) == Removed(u, did)
  {
    RemovedFacts(u, did);
    CleanEntryNormal(Removed(u, did));
    assert Removed(u, did).maxDevices == ClampMax(u.maxDevices);
    hide CleanEntry, Cleaned, WithLegacy;
  }
}
