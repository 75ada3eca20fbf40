# A verified model of the WDTT server and panel

WDTT is a VPN server with a web panel. Devices reach the server over WireGuard, over a RAW
multipath relay, or over RTP-shaped WRAP packets; server and panel share one SQLite database
of users, device bindings and traffic counters. This project models the parts of it that are
state machines or exact arithmetic, and proves what they promise for all inputs, all runs and
all interleavings.

## What is modelled

| files | part of the system |
|---|---|
| `Frame`, `Reorder`, `ReorderStall` | RA frames of the multipath data path and the buffer that puts them back in order |
| `SessionGroup`, `GroupRun`, `GroupFollows`, `GroupShares`, `GroupObject`, `FlowKey` | the session group of one tunnel address: members, flow affinity with expiry, sticky, CHUNK1 and framed downlink, queues and their closing |
| `Registry`, `RegistryAnswers` | admission of relays, the registry of groups, presence counts |
| `RawAddr`, `Challenge` | the address pool and the one-time challenges of the direct port |
| `Nonce`, `Wrap` | the WRAP packet codec and its nonce schedule |
| `Traffic`, `UsersRev`, `UsersRevLimits`, `UsersRevKeeps` | the `users_rev` protocol between panel, database and the server's memory |
| `Text`, `Store`, `Patches`, `PatchEffects` | trimming and splitting, tables, the store loaded from them, whole-store rewrites and row patches |
| `Cache` | the panel's read cache, validated by `users_rev` |
| `Devices` | device ownership: dedupe, bind, unbind, remove, resolve |
| `Billing`, `RawBilling` | quota, WireGuard readings, RAW counters and their flushers |
| `UfwPing` | the writer and the reader of the ping rules in ufw's `before.rules` |

Code that updates an object in place is a class, and its methods are proved against a
specification function of the old state; code that runs concurrently is a step function over
an event log, one event per atomic operation or critical section, so that a lemma about all
logs is a lemma about all interleavings. Logs are datatypes that grow at the end. Clock
readings, random bytes and the order of Go's map iteration are inputs of a step, never
choices of the model. Fixed-width integers wrap where the source lets them wrap.

## Where the code does not do what it seems to promise

Each item names the lemmas that show the failure and those that say when the promise holds.

- **A traffic reset can be undone**, in six ways. For each there is a run from every state of a
  family, and the exact condition on the revisions under which the step is safe for the rest of
  every run; all are in `UsersRevLimits`. "Reflects all resets" means: the data was read, or
  last brought up to date, at the revision now on disk.
  - A reload installs data it read before the panel reset a user and a sync applied the reset
    (`StaleSnapshotUndoesReset`, `StaleLoadUndoesReset`). Safe if and only if the disk is ahead
    of the server or the data reflects all resets (`InstallGuardExact`).
  - A reload that did not begin at a revision remembers one it has not applied
    (`TailAtRevisionZeroUndoesReset`). Safe if and only if that is not the disk's, or the
    server's counters reflect all resets (`TailGuardExact`).
  - A write of the server's own commits and only then looks which revision to remember: a reset
    committed in between counts as applied (`OvertakenOwnWriteUndoesReset`), and so does one from
    before the write (`OwnWriteBehindUndoesReset`). Safe if and only if the counters reflect all
    resets at that look (`RememberGuardExact`).
  - A write of the server's own that carries counters starts before the server has seen a reset.
    It writes the old counters back at once (`SaveUndoes`). Safe if and only if they reflect all
    resets (`SaveGuardExact`).
  - A flush that cannot read the revision is not fenced (`UnreadableFlushUndoesReset`). Safe
    under the same condition (`FlushGuardExact`). The fence would not help either if check and
    UPDATE were two steps (`SplitFlushUndoesReset`).
  - The panel changes its main password: it loads the store, merges counters by maximum with a
    second load, and writes the owner back; a reset of the owner in between is undone
    (`StaleCopyUndoesReset`). Safe if and only if the owner was last reset no later than loaded
    (`UpsertGuardExact`).

  `UsersRev.ResetNeverUndone` proves the property for all runs in which no step breaks its
  condition.
- **A reload loses what is accounted while it runs.** A merging reload snapshots the counters,
  loads, and installs later; what is accounted in between is dropped, though neither the panel
  nor a sync is involved (`UsersRevKeeps.AccountedDuringReloadIsLost`).
  `UsersRevKeeps.MergingReloadLoses`: it loses bytes of a user if and only if some were accounted
  since the snapshot and the row it loaded did not have them. Outside reloads, syncs and
  deletions nothing accounted is ever lost (`UsersRevKeeps.MemoryCounts`,
  `UsersRevKeeps.FlushedInFull`).
- **A cache hit can be stale or torn.** A reader compares the cached revision with one it read
  earlier. `Cache.HitCurrentIff`: the result is sure to be the present database if and only if
  that revision is still the one on disk. `Cache.TornHit`: otherwise it may even be a mixture
  of tables from two revisions that was never in the database.
- **The WRAP codec refuses its own packet** exactly when the padding maximum is 256 or more and
  the random byte is 255: the pad length byte is truncated to 0 (`Wrap.RoundTrip`). The server
  itself only sets padding maxima of 24 and 60.
- **A row patch differs from rewriting the store** exactly when a remaining user's `sub_id`
  changes by being trimmed (`Patches.PatchUserDeviceBindingsRefines` and its three siblings).
- **A second spelling gives a device two owners.** A device id is bound as it came, and trimmed
  only when the entry is next looked at. `Devices.BindKeepsOneOwner`: after that look some device
  has two owners if and only if the binding was accepted and the id, which has surrounding white
  space, is without it a device of another entry. `Devices.SecondSpellingHasTwoOwners` is the
  input.
- **WireGuard readings are handed to a goroutine per tick.** Processed in the order taken they
  never bill a byte the device has not moved (`Billing.DeviceNeverOverBilled`). In another order
  they offer exactly what was moved if no strict rise follows a strict descent, and more
  otherwise (`Billing.OfferedInAnyOrder`).
- **The reorder buffer compares plain integers.** Its order guarantee holds for numbers in any
  window of 2^31 (`Reorder.RunInOrder`) and fails for every window one wider
  (`Reorder.OrderFailsOverWiderWindow`).
- **Two host pairs can share a flow key.** Conversations of one host pair are always told apart
  (`FlowKey.ConversationsToldApart`); of different pairs, over the same protocol and ports, those
  with the same exclusive or of the addresses are taken for one flow, and only those
  (`FlowKey.HostsConfusedIff`).
- **Two groups for one address.** `Registry.JoinKeepsSingleGroup` says exactly when `tryAdd`
  keeps one group with sessions per address; `Registry.TwoGroups` is the race in which it
  does not, and `Registry.SingleGroupAtOnce` shows that taking the group and joining it as one
  step would exclude it.
- **Two devices with one address.** `RawAddr.BoundExact`: distinct devices never share in any
  interleaving in which all callers together move the counter by less than a bound between one
  call's look at the used addresses and its store, if and only if that bound is at most 32513,
  half the pool and one. The failing run (`RawAddr.OvertakenCallsShare`) starts from an empty
  server and needs a pool with one free address left.

## Model

| member | source | states |
|---|---|---|
| Frame.Encode | server/server_raw_frame.go:18-25 | the filled buffer is the frame of that number and packet, byte for byte |
| Frame.RoundTrip | server/server_raw_frame.go:18-40 | a frame decodes to its number and packet if and only if the payload is an IPv4 packet of at least 20 bytes; otherwise it does not decode |
| Frame.DecodeRebuilds | server/server_raw_frame.go:27-44 | whatever decodes is the encoding of the decoded parts: nothing but a frame is accepted |
| Frame.Layout | server/server_raw_frame.go:18-25 | a frame is the bytes 0x52 0x41, the number with its most significant byte first, and the packet |
| Reorder.RawReorder.Push | server/server_raw_frame.go:58-111 | the method on the buffer's fields does the specified step and returns the payloads it emits |
| Reorder.RawReorder.DrainReady | server/server_raw_frame.go:78-110 | the inner loop terminates, emits consecutive numbers and skips a hole only to the smallest buffered number after the stall timeout |
| Reorder.RawReorder.SmallestKey | server/server_raw_frame.go:99-106 | the found key is the minimum of the buffered numbers |
| Reorder.RunConserves | server/server_raw_frame.go:58-111 | over any run, wrap-around included, every accepted packet is exactly one of emitted, buffered, or discarded by an overflow clear |
| Reorder.RunInOrder | server/server_raw_frame.go:58-111 | over any run with any timing and numbers in a window of 2^31, emitted numbers strictly increase across calls |
| Reorder.OrderFailsOverWiderWindow | server/server_raw_frame.go:65-67 | the window is exact wherever it lies: with one more number there is a run that emits the oldest number after larger ones |
| Reorder.RestoresOrder | server/server_raw_frame.go:58-115 | frames numbered consecutively and delivered in any order that begins with the first, repeats allowed, come out as the original packets in order, if no kept arrival finds the buffer full and none leaves open a hole that has been waited for long enough to be skipped |
| Reorder.RawOutSeq.Next | server/server_raw_frame.go:113-115 | numbers are consecutive, modulo 2^32 |
| ReorderStall.ClockIsLog | server/server_raw_frame.go:87-108 | after any run the stall clock holds the reading of the call that first met the present hole, as read off the log of calls |
| ReorderStall.StallExact | server/server_raw_frame.go:91-107 | a packet that is kept, finds room and does not fill the hole it meets emits nothing if and only if that hole has been waited for less than 40 ms |
| FlowKey.ReplySharesKey | server/server_raw.go:610-631 | a reply (same protocol, addresses and ports swapped, any header lengths) has the flow key of its request |
| FlowKey.ConversationsToldApart | server/server_raw.go:618-629 | two TCP or UDP packets with ports between the same two hosts have one key if and only if they run between the same two ports |
| FlowKey.ProtocolsToldApart | server/server_raw.go:619-620 | TCP and UDP between the same hosts and ports have different keys |
| FlowKey.HostsConfusedIff | server/server_raw.go:619-629 | over the same protocol and ports, two host pairs have one key if and only if the exclusive or of their addresses is the same |
| FlowKey.KeyBelow | server/server_raw.go:610-631 | the key is below 2^32, so taking its low 32 bits for the hash choice loses nothing |
| GroupRun.EnqueueDownEffect | server/server_raw.go:684-822 | enqueueDown succeeds exactly when one member's queue grew by one element carrying the packet; otherwise no queue changed; on the CHUNK1 path it fails exactly when every fresh chunked queue is full |
| GroupRun.CarriesDecodes | server/server_raw.go:736-822 | what carries an IPv4 packet is the packet itself or a frame that decodes to it |
| GroupRun.RunSafe | server/server_raw.go:509-822 | in every interleaving of join, leave, uplink and downlink no packet goes to a closed queue, no queue is closed twice, both affinity maps have the same keys, every target is a member, at most 8192 flows and 27 sessions |
| GroupFollows.DownlinkFollowsUplink | server/server_raw.go:610-631 | over any run, a reply goes to the session that last carried its flow up, and to no other queue, while that pin was kept, the session is fresh and takes plain packets; the pin is renewed for 180 s |
| GroupFollows.OtherConversationKeepsPin | server/server_raw.go:667-682 | an uplink packet of another conversation of the same two hosts, over any session, leaves the first one pinned where it was and as long as before, as long as the flow table is not full |
| GroupFollows.UplinkPins | server/server_raw.go:667-682 | an uplink packet pins its flow for 180 s to the session that carried it |
| GroupFollows.CleaningSpares | server/server_raw.go:646-663 | cleaning never takes two unexpired flows, and none if the table has fewer than 8192 flows or holds an expired one |
| GroupShares.FramedShares | server/server_raw.go:789-806 | over any run, while the fresh framed sessions stay the same, have room and the 32-bit counter does not wrap, any 16*n consecutive packets put exactly 16 into each of the n queues |
| GroupShares.FramedTurns | server/server_raw.go:789-806 | of two consecutive framed packets the second goes to the next session of the list exactly if the first completed a multiple of 16, and otherwise to the same one; their frames carry consecutive numbers |
| GroupShares.ChunkShares | server/server_raw.go:746-787 | over any run, of c*n consecutive packets of one size class within 15 ms each of the n chunked sessions gets exactly c, with c 64, 24, 8, 3 or 1 by size, if they have room |
| GroupShares.ChunkTogether | server/server_raw.go:746-787 | the first c packets of a fresh turn all go to one session |
| GroupShares.ChunkTurns | server/server_raw.go:746-787 | of two consecutive packets of the class the second goes to the next session exactly if the first was the c-th of its turn |
| GroupShares.ChunkDwell | server/server_raw.go:757-761 | a turn that has lasted 15 ms is over: the next packet goes to the next session |
| GroupShares.KeysSpread | server/server_raw.go:706 | of flows without a pin, with the same n fresh sessions, two packets go to one session if and only if their keys agree modulo n |
| GroupShares.PickPins | server/server_raw.go:684-711 | a flow given to a session by pickForLocked is pinned to it for 180 s, and goes where it was pinned if that is live and unexpired |
| GroupShares.PathSessions | server/server_raw.go:536-552 | the candidates of each path are exactly the members heard of in the last 25 s, and of these the chunked and the framed ones |
| GroupShares.NeverToSilent | server/server_raw.go:730-822 | on every path a packet goes only to a session that was heard of in the last 25 s |
| GroupShares.JoinedIsFresh | server/server_raw.go:509-534 | a session that joins is fresh from then on and has an empty open queue of 256 or 8192 places |
| GroupShares.MembersSteps | server/server_raw.go:1184-1260 | hearing of a member renews its lastSeen, its first frame marks it framed, its writer takes the oldest packet of its queue |
| GroupObject.RawSessionGroup.TryAdd | server/server_raw.go:509-534 | refused exactly at the limit; otherwise the new state is the group with the session added last |
| GroupObject.RawSessionGroup.Remove | server/server_raw.go:582-607 | the session, its flows and its channel are gone, the rest is unchanged, and the result says whether the group is empty |
| GroupObject.RawSessionGroup.LiveSessionsLocked | server/server_raw.go:536-552 | the fresh sessions in order, and exactly the stale ones are cancelled |
| GroupObject.RawSessionGroup.ExpireFlowsLocked | server/server_raw.go:646-663 | only a full table is cleaned: expired flows go, and one more if it is still full |
| GroupObject.RawSessionGroup.NoteUplink | server/server_raw.go:667-682 | the flow is pinned to the session that carried it, after cleaning |
| GroupObject.RawSessionGroup.PickForLocked | server/server_raw.go:684-711 | the pinned session if it is live and the pin unexpired, else the live session the flow key hashes to, which becomes the pin; none exactly if no session is live |
| GroupObject.RawSessionGroup.EnqueueDown | server/server_raw.go:730-822 | the method on the group's fields does the specified downlink step on every branch |
| GroupObject.RawSessionGroup.SendChunked | server/server_raw.go:746-787 | the chunk scheduler tries sessions cyclically from its turn and counts a packet for the one that took it |
| GroupObject.RawSessionGroup.SendFramed | server/server_raw.go:789-806 | the framed path advances round robin and sequence number and sends one frame |
| Registry.AdmittedWithinLimit | server/server_raw.go:1080-1087 | in every interleaving at most 512 relays hold a slot, the counter is holders plus relays bouncing off the limit, and a relay is refused exactly when these together fill it |
| Registry.RegistryClean | server/server_raw.go:509-534 | no group exceeds 27 sessions, and an empty group is registered only while some relay that fetched it has not yet run tryAdd |
| Registry.MembersExact | server/server_raw.go:509-607 | a group's sessions are exactly the relays that joined and have not been removed, each once |
| Registry.JoinKeepsSingleGroup | server/server_raw.go:1108-1120 | tryAdd keeps one group with sessions per address if and only if it pushes no other group with sessions out of the registry |
| Registry.SingleGroupKept | server/server_raw.go:1108-1120 | hence in every run without such a displacement every group with sessions is the registered one |
| Registry.AtOnceNotDisplacing | server/server_raw.go:1108-1120 | fetching and joining in one go displaces nothing |
| Registry.SingleGroupAtOnce | server/server_raw.go:1108-1120 | so in every run in which each fetch is followed at once by its join, every group with sessions is the registered one |
| Registry.TwoGroups | server/server_raw.go:528-532 | for any address there is an interleaving of three relays that ends with two groups with sessions |
| Registry.PresenceCounts | server/server_presence.go:256-328 | every device's count is the number of its sessions entered and not left, RAW and WireGuard together |
| Registry.PresenceWithinCap | server/server_presence.go:268-271 | if every cap in force during a run is set and at most m, no device ever has more than m sessions |
| RegistryAnswers.EnterAnswered | server/server_presence.go:256-298 | a session is refused exactly without an id or when the device has as many sessions, RAW and WireGuard together, as the cap allows |
| RegistryAnswers.JoinAnswered | server/server_raw.go:509-534 | a relay that has fetched its group is refused exactly if that has 27 sessions; otherwise it is its last session and the group is registered |
| RegistryAnswers.FetchAnswered | server/server_raw.go:1108-1120 | a relay gets the registered group of its address, or a new empty one if there is none |
| Registry.OnlineUsers.UserSessionEnter | server/server_presence.go:256-298 | refused exactly at the cap or without an id, leaving all counts alone; otherwise one count rises by one |
| Registry.OnlineUsers.UserSessionLeave | server/server_presence.go:300-328 | the count falls by one, and an entry at zero disappears |
| RawAddr.SameAddressIff | server/server_raw.go:463-468 | two counter values give one address exactly when they are congruent modulo 65024 |
| RawAddr.AddressIsHost | server/server_raw.go:463-465 | every address is a host between 10.70.0.1 and 10.70.255.254 |
| RawAddr.HostHasNumber | server/server_raw.go:463-465 | every such host is the address of some counter value |
| RawAddr.SpanSize | server/server_raw.go:463-468 | up to 65024 consecutive counter values give as many distinct addresses |
| RawAddr.AllTakenIsFull | server/server_raw.go:463-475 | if all 65000 candidates are taken then at least 64999 addresses are in use, or 62951 when the counter wraps on the way |
| RawAddr.RawPool.GetNextRawIP | server/server_raw.go:450-475 | the first free candidate, never the server's or a used address; none exactly if all 65000 are taken, which cannot be with at most 64998 in use and no wrap |
| RawAddr.RawPool.GetRawIPForDevice | server/server_raw.go:478-496 | one device gets the same address back, a new one gets an unused address, distinct devices stay distinct |
| RawAddr.SameAnswer | server/server_raw.go:478-496 | however calls interleave, all calls for one device are answered with one address |
| RawAddr.NeverShared | server/server_raw.go:450-496 | in every interleaving in which the counter moves by less than 32513 between each call's look and its store, distinct devices have distinct addresses and none the server's |
| RawAddr.BoundExact | server/server_raw.go:450-496 | that bound is exact: bounding the counter steps of all callers between one call's look and its store keeps addresses distinct in every run if and only if the bound is at most 32513 |
| RawAddr.OvertakenCallsShare | server/server_raw.go:450-496 | from an empty server, after 65022 undisturbed calls, two calls with at most 32513 counter steps between look and store give any two devices the last free address |
| Challenge.AcceptedAtMostOnce | server/server_raw.go:155-202 | in every interleaving of two-step consumers a challenge is accepted at most as often as it was issued |
| Challenge.OnlyOwnerInTime | server/server_raw.go:168-202 | whoever is accepted came from an address the challenge was issued to, not after its 30 seconds |
| Challenge.ForeignLeavesUsable | server/server_raw.go:188-191 | after any attempts from other addresses, interleaved in any way, the owner's call is accepted up to the instant of expiry |
| Challenge.ChalFound | server/server_raw.go:173-179 | a request that carries a challenge in one of its parts, before any other such part, is understood as carrying that challenge |
| Challenge.DirectChallenges.ConsumeRawDirectChallenge | server/server_raw.go:168-202 | an undisturbed call finds the first challenge of the request and accepts exactly the right address in time; acceptance and expiry remove the entry, refusals leave it |
| Nonce.RepeatsExactlyAt2To48 | server/server_wrap.go:242-265 | two packet counts give one nonce exactly when they differ by a multiple of 2^48, for all initial values |
| Nonce.SendersDiffer | server/server_wrap.go:242-248 | senders with different SSRCs never use the same nonce |
| Nonce.SentNoncesDistinct | server/server_wrap.go:250-270 | in every interleaving of writers, up to 2^48 packets carry pairwise distinct nonces |
| Wrap.ObfsState.WrapPacket | server/server_wrap.go:250-293 | the filled buffer is the specified packet; a refused call takes no count |
| Wrap.UnwrapPacket | server/server_wrap.go:295-334 | never reads out of range on any bytes, returns the specified verdict, writes only the plaintext, and touches nothing when the packet is refused before decryption |
| Wrap.RoundTrip | server/server_wrap.go:250-334 | unwrapping a wrapped packet gives the payload back, given room, except exactly when the padding maximum is at least 256 and the random byte 255 |
| Wrap.SealedUnderNonce | server/server_wrap.go:250-293 | the packet with count c is sealed under exactly the nonce of that count, with its header authenticated |
| Wrap.WrappedIsRtp | server/server_wrap.go:336-346 | a wrapped packet passes the RTP check exactly for payload types 96 and 111 |
| Traffic.UsersTable.UpdateUsersTraffic | pkg/paneldb/traffic.go:14-43 | in any order of users, exactly the named existing rows are overwritten; last_seen never falls |
| Traffic.UsersTable.MergeTrafficSnapshots | pkg/paneldb/traffic.go:46-68 | in any order, every counter becomes the larger of row and snapshot |
| Traffic.UsersTable.ReplaceWith | server/panel_db.go:350-381 | the two loops of a sync leave exactly the incoming users |
| Traffic.FlushedColumns | pkg/paneldb/traffic.go:14-43 | a flush writes both counters and the flag as they are in memory and the later last_seen; other rows stay |
| Traffic.MergedColumns | pkg/paneldb/traffic.go:46-68 | a merge takes per counter the larger of the two, never a third value, and the flag if either is set |
| UsersRev.ResetNeverUndone | server/panel_db.go:236-458 | in every disciplined run of panel edits, resets and main-password changes, accounting, flushes, syncs, own writes that commit first and remember later, and multi-step reloads, no counter on disk exceeds the bytes accounted since that user's last reset |
| UsersRevKeeps.DiskWithinLog | server/panel_db.go:236-458 | the same said of the log: no counter on disk exceeds, in its direction, the bytes of the accounting events since the last reset |
| UsersRevKeeps.NothingLostAlone | server/server.go:443-472 | in every run without panel steps and reloads that starts in sync, memory holds the opening row plus every byte accounted, per direction, and after any flush the disk does too |
| UsersRevKeeps.MemoryCounts | server/server.go:443-472 | in every run, whatever the panel, reloads and syncs do meanwhile: until the server's counters of a user are replaced they are what they were plus the bytes accounted since, per direction |
| UsersRevKeeps.FlushedInFull | server/panel_db.go:236-249 | hence after a flush that is not held back no accounted byte is missing on disk |
| UsersRevKeeps.SyncDiscards | server/panel_db.go:350-381 | what a sync discards of a user's bytes is exactly what the disk row does not have |
| UsersRevKeeps.MergingReload | server/admin.go:60-86 | after a merging reload a counter is, per direction, the larger of the snapshot and the row at the load |
| UsersRevKeeps.MergingReloadLoses | server/admin.go:60-86 | it falls at the installation if and only if bytes were accounted since the snapshot and the row did not have them |
| UsersRevKeeps.AccountedDuringReloadIsLost | server/admin.go:60-160 | for any database at any revision, with the panel idle: bytes accounted between load and installation of a reload are gone from memory and disk |
| UsersRevKeeps.TrustingReload | server/admin.go:60-86 | a reload that trusts the disk keeps what the disk had when it was loaded |
| UsersRevKeeps.DiskRowFrom | server/panel_db.go:61-249 | in any step a user's counters on disk stay, become the server's, are reset or removed by the panel, or become the copy a panel write took |
| UsersRevKeeps.OwnWrites | server/panel_db.go:61-116 | an own write that carries counters puts the server's on disk, an own deletion removes them from memory and disk |
| UsersRevKeeps.PanelWrites | pkg/paneldb/user_patch.go:117-201 | a reset leaves zero counters and no flag on disk, a deletion no row |
| UsersRevKeeps.SyncCatchesUp | server/panel_db.go:350-381 | a sync begins exactly if the disk is ahead, and ends with the disk's counters and at least the revision it read |
| UsersRevLimits.InstallExact | server/admin.go:60-175 | for one state: installing what a reload holds, then flushing, keeps all resets if and only if the disk is ahead or no counter in the data exceeds what was accounted |
| UsersRevLimits.InstallGuardExact | server/admin.go:60-175 | for given revisions: no disciplined continuation after installing undoes a reset, in any run, if and only if the disk is ahead of the server or the data reflects all resets on the disk |
| UsersRevLimits.UndoneOnlyPastTheGuard | server/admin.go:60-175 | if it undoes a reset, that user was reset after the data was read and the reset was already applied |
| UsersRevLimits.StaleSnapshotUndoesReset | server/admin.go:60-175 | whenever a merging reload holds used bytes of a user, a reset and a sync before its load make it undo the reset |
| UsersRevLimits.StaleLoadUndoesReset | server/admin.go:60-175 | the same with a reload that trusts the disk and has already loaded |
| UsersRevLimits.TailAtRevisionZeroUndoesReset | server/admin.go:168-172 | a reload begun at revision 0, or unable to read it, takes a reset in between for applied |
| UsersRevLimits.TailGuardExact | server/admin.go:168-172 | remembering a revision is safe for the rest of every run if and only if it is not the disk's or the server's counters reflect all resets |
| UsersRevLimits.OwnWriteBehindUndoesReset | server/panel_db.go:328-346 | a write of the server's own that starts behind the disk undoes a reset |
| UsersRevLimits.OvertakenOwnWriteUndoesReset | server/panel_db.go:88-101 | even one that starts in sync undoes a reset that is committed between its commit and its look at the revision, from every such state |
| UsersRevLimits.OvertakenReachable | server/panel_db.go:88-101 | every freshly loaded database with used bytes is such a state; the flush follows accounting to that user |
| UsersRevLimits.RememberGuardExact | server/panel_db.go:328-346 | an own write's look at the revision is safe for the rest of every run if and only if its counters reflect all resets on the disk, for every commit revision and disk revision |
| UsersRevLimits.SaveGuardExact | server/panel_db.go:61-116 | writing the counters out, all or one user's, is safe if and only if they reflect all resets on the disk |
| UsersRevLimits.UnreadableFlushUndoesReset | server/panel_db.go:244-248 | a flush that cannot read the revision writes unfenced and undoes a reset |
| UsersRevLimits.FlushGuardExact | server/panel_db.go:244-248 | such a flush is safe if and only if the counters reflect all resets on the disk |
| UsersRevLimits.StaleCopyUndoesReset | panel/db_norm.go:321-353 | from every state in which a main-password change has loaded used bytes: a reset before the write is undone, with or without the merge |
| UsersRevLimits.UpsertGuardExact | panel/db_norm.go:321-353 | writing the user back is safe if and only if the user was last reset no later than loaded |
| UsersRevLimits.SplitFlushUndoesReset | server/panel_db.go:236-249 | if fence check and UPDATE were two steps, a reset between them would be undone |
| UsersRevLimits.SnappedReachable | server/admin.go:60-100 | a disciplined run reaches the state from which the snapshot counterexample starts, from any database at any revision |
| UsersRevLimits.LoadedReachable | server/admin.go:60-110 | the same for the loaded state of a reload that trusts the disk |
| UsersRevLimits.InstalledReachable | server/admin.go:60-175 | the same for the installed state of a reload that could not read the revision |
| Store.NormalizeUser | pkg/paneldb/user_devices.go:6-44 | the loops compute the normal form: trimmed, no blanks, no repeats, legacy id the head, limit clamped |
| Store.NormalizedIdempotent | pkg/paneldb/user_devices.go:6-44 | normalizing twice is normalizing once |
| Store.NormalizedKeeps | pkg/paneldb/user_devices.go:6-44 | a normal entry has exactly the trimmed, non-blank ids of list and legacy field, and 1 to 20 slots, the given number if it lies there |
| Store.ByOrderSorts | pkg/paneldb/store.go:38-52 | a user's bindings are read by sort order, each once |
| Store.PanelDb.LoadStore | pkg/paneldb/store.go:10-70 | row by row in any order, the store is the one the tables describe |
| Store.PanelDb.SaveStore | pkg/paneldb/store.go:73-166 | deleting and reinserting in any order leaves exactly the rows of the store and raises the revision by one; the caller's users are left normalized |
| Store.PanelDb.BumpUsersRev | pkg/paneldb/users_rev.go:18-24 | only the revision changes, by one |
| Patches.PatchUserDeviceBindings | pkg/paneldb/user_devices_patch.go:11-55 | the transaction changes exactly one user's bindings and the removed devices, or reports the error and changes nothing |
| Patches.DeleteUser | pkg/paneldb/user_patch.go:117-153 | the user, its bindings and the named devices are gone, nothing else changes |
| Patches.SetUserDeactivated | pkg/paneldb/user_patch.go:93-114 | one flag changes; an unknown user still raises the revision, an empty password does nothing |
| Patches.ResetUserTraffic | pkg/paneldb/user_patch.go:176-201 | one user's counters become zero, or the error is reported and nothing changes |
| Patches.PatchUserDeviceBindingsRefines | pkg/paneldb/user_devices_patch.go:11-55 | loading after the patch equals load, edit, save, load if and only if the remaining sub ids survive trimming; the revision rises by one either way |
| Patches.DeleteUserRefines | pkg/paneldb/user_patch.go:117-153 | the same for deleting a user with its devices |
| Patches.SetUserDeactivatedRefines | pkg/paneldb/user_patch.go:93-114 | the same for the deactivation flag |
| Patches.ResetUserTrafficRefines | pkg/paneldb/user_patch.go:176-201 | the same for a traffic reset, which succeeds exactly when the user exists |
| PatchEffects.PatchUserDeviceBindingsEffect | pkg/paneldb/user_devices_patch.go:11-55 | in the loaded store the user then holds exactly the given ids, trimmed and not blank, exactly the listed devices are gone, the revision is one higher, all else is as before |
| PatchEffects.DeleteUserEffect | pkg/paneldb/user_patch.go:117-153 | the user and exactly the listed devices are gone, the revision is one higher, all else loads as before |
| PatchEffects.SetUserDeactivatedEffect | pkg/paneldb/user_patch.go:93-114 | that flag has the given value, the revision is one higher, all else loads as before |
| PatchEffects.ResetUserTrafficEffect | pkg/paneldb/user_patch.go:176-201 | both counters and the flag are zero, the revision is one higher, all else loads as before |
| Cache.CachedAtDiskRevision | panel/passwords_cache.go:29-54 | whenever the cached revision is the one on disk, the cached store is the present database on every fenced column, though its tables were loaded by separate queries |
| Cache.HitNotOlder | panel/passwords_cache.go:29-41 | every table a hit returns was current at some moment since the reader read its revision |
| Cache.HitOnOlderEntry | panel/passwords_cache.go:29-41 | a hit on an entry that was there when the reader read the revision is the database of that moment |
| Cache.HitCurrentIff | panel/passwords_cache.go:29-54 | a hit is the present database in every run if and only if the reader's revision is still the one on disk |
| Cache.TornHit | pkg/paneldb/store.go:10-70 | otherwise a hit can return a mixture of two revisions that was never in the database |
| Cache.PasswordsCache.Lookup | panel/passwords_cache.go:37-42 | a hit needs a store and an equal revision, and returns that store |
| Cache.PasswordsCache.KeepLoaded | panel/passwords_cache.go:49-52 | the loaded store is kept with the revision read at the start of the call |
| Cache.PasswordsCache.InvalidatePasswordsCache | panel/passwords_cache.go:15-20 | afterwards nothing is cached |
| Devices.Database.DedupeDeviceBindings | server/devices.go:14-51 | in every iteration order, entries keep exactly the devices for which some admissible choice of owners picked them |
| Devices.DedupeOwned | server/devices.go:14-51 | after deduplication no device is in two entries and every entry is in normal form |
| Devices.DedupeKeepsDevice | panel/wdtt.go:176-213 | no device is lost: it stays with a former holder, with the main password only if nobody else held it |
| Devices.KeepOwnedInOrder | server/devices.go:38-49 | lists keep their order |
| Devices.DedupeIdempotent | server/devices.go:14-51 | deduplicating again, in whatever order, changes nothing |
| Devices.Database.BindDeviceToEntry | server/devices.go:106-121 | the loops over all entries do the specified binding and report refusal |
| Devices.BindMovesDevice | server/devices.go:106-135 | after a successful binding the device is with its new entry alone and every other holding is as before |
| Devices.BindHolds | server/devices.go:106-135 | who holds what when the entries are next looked at: the bound entry also the trimmed id, the others what they had except the id itself |
| Devices.BindKeepsOneOwner | server/devices.go:106-135 | binding keeps one owner per device if and only if it is refused or the id does not turn, when trimmed, into a device of another entry |
| Devices.SecondSpellingHasTwoOwners | server/server_conn.go:96-142 | for every device one user holds, another user within its limit binds it with a space in front, and then both hold it |
| Devices.BindKeepsNormalForm | server/devices.go:106-135 | binding keeps every list in normal form if and only if the id has no surrounding white space or the binding is refused |
| Devices.BindRespectsLimit | server/devices.go:61-121 | from the entry's own maxDevices: a new device is refused if and only if the entry is not the main one and has reached n devices, n being 1 if maxDevices is not positive, 20 above 20, else maxDevices; an accepted one makes it one more and at most n, and no other entry grows |
| Devices.Database.UnbindDeviceFromOtherEntries | server/devices.go:123-135 | in any order, the device is removed from every entry but one |
| Devices.UnbindKeepsOwned | server/devices.go:123-135 | unbinding keeps one owner per device |
| Devices.RemoveKeepsOwned | server/devices.go:137-161 | removing a device from one entry keeps one owner per device and takes away just that holding |
| Devices.Database.RemoveDeviceFromEntry | server/devices.go:137-161 | the device is gone from the entry, which is in normal form, and the result says whether it was there |
| Devices.Database.EntryHasDevice | server/devices.go:71-82 | answers membership in the normal form of the entry, which it leaves normalized |
| Devices.Database.PasswordForDevice | server/server.go:233-251 | the loop answers one of the admissible passwords: a non-main holder if any, else the main one, else none |
| Devices.ResolveOrderIndependent | server/server.go:233-251 | with one owner per device the answer does not depend on the iteration order |
| Billing.PasswordEntry.AddTrafficLocked | server/server.go:443-472 | bytes are added unless expired, deactivated or over quota; the flag and the flush request come exactly with the crossing |
| Billing.QuotaCrossedOnce | server/server.go:226-231 | over any sequence of increments a total stays below the limit or ends at its value before one crossing increment plus that increment, and stays there |
| Billing.NeverOverBilled | server/server_wg.go:58-101 | under arbitrary counter resets the bytes offered for one peer never exceed those moved, and without resets equal those between first and last reading |
| Billing.DeviceNeverOverBilled | server/server_wg.go:58-101 | whatever other devices and users do and whoever owns it, readings of a device never bill more than it moved |
| Billing.DeviceBilledExactly | server/server_wg.go:58-101 | without counter resets, a device is billed exactly what it moved between first and last reading if and only if no reading was refused |
| Billing.ReadingIsPrivate | server/server_wg.go:58-101 | a reading touches no account but its own password's |
| Billing.AccountRise | server/server_wg.go:58-101 | an account rises by at most what its readings offer, and by exactly that if and only if nothing was refused |
| Billing.NothingRefused | server/server_wg.go:58-101 | nothing was refused to a user, with or without a quota, who has not expired and ends active and below the quota |
| Billing.RiseByDirection | server/server_wg.go:58-101 | uploads rise by the received deltas and downloads by the sent ones, both in full if and only if nothing was refused, and never by more |
| Billing.OfferedInAnyOrder | server/server_stats.go:145-152 | in whatever order the readings of a growing counter are processed, at least the moved bytes are offered, and exactly these if and only if no strict rise follows a strict descent |
| Billing.SwappedReadingsOverBill | server/server_stats.go:145-152 | for two swapped readings: exactly the bytes between them are billed twice |
| Billing.WgTraffic.SyncTrafficFromPeerInfos | server/server_wg.go:58-101 | the loop over the peers gives the fold of single readings |
| RawBilling.RawSession.FlushRaw | server/server_raw.go:1137-1161 | an undisturbed flush takes both counters to zero and does the specified billing; its answer says whether the session may go on |
| RawBilling.BilledExactly | server/server_raw.go:1148-1161 | from the account's fields: all is refused for an unknown, expired, deactivated or full account; otherwise the upload is billed, and the download too unless the upload has just filled the account |
| RawBilling.RawBytesConserved | server/server_raw.go:1137-1179 | in every interleaving of any number of sessions and flushers, and of WireGuard readings for the same account, every byte is, in its direction, in one place: in a counter, in one flusher's hand, billed, or refused |
| RawBilling.RawBilledExactly | server/server_raw.go:1137-1179 | in every run whose billing finds the user known and unexpired and whose account ends active and below the quota, the account has risen per direction by exactly what was carried less what waits in counters and hands |
| RawBilling.RawNothingRefused | server/server_raw.go:1137-1179 | in those runs nothing was refused |
| RawBilling.RefusedOnlyWhen | server/server_raw.go:1148-1161 | in any run bytes are refused only where the user is unknown or expired or the account is deactivated or full |
| RawBilling.RawNeverOverBilled | server/server_raw.go:1137-1179 | no byte is billed twice, in either direction |
| UfwPing.SetUFWBlockPingIn | panel/ufw_ping.go:102-140 | the loop over the lines writes the specified file |
| UfwPing.UfwPingBlockedIn | panel/ufw_ping.go:26-56 | the loop finds the first in-section echo-request rule and reads its end |
| UfwPing.SetThenGet | panel/ufw_ping.go:26-140 | on every file, the reader answers what was set if and only if that first rule ends in ` -j ACCEPT` or ` -j DROP`, or the answer already was that |
| UfwPing.ReadsBack | panel/ufw_ping.go:26-140 | on every list of lines: the new setting if that rule can be rewritten, the old answer otherwise |
| UfwPing.StructureKept | panel/ufw_ping.go:62-85 | the rewrite changes no line's section and no line's classification, and touches nothing but the target word of in-section rules |
| UfwPing.LastRewriteWins | panel/ufw_ping.go:102-140 | rewriting twice is rewriting once to the last choice; in particular it is idempotent |
| UfwPing.SetTwice | panel/ufw_ping.go:102-140 | the same for whole files |
| UfwPing.InSectionIff | panel/ufw_ping.go:62-85 | a line is read in a section if and only if it lies behind that section's header with no blank line, no header and no icmp rule of another chain in between |
| UfwPing.ShippedFile | panel/ufw_ping.go:26-140 | of both sections with their echo-request rules: both rules get the target asked for, nothing else changes, and the reader tells which they have |
| Text.SplitJoin | panel/ufw_ping.go:114-136 | joining parts and splitting again gives the parts back, for any separator |
| Text.JoinSplit | panel/ufw_ping.go:114-136 | splitting a text and joining again gives the text back, and no part holds the separator |
| Text.TrimStrips | pkg/paneldb/user_devices.go:21 | trimming takes away the white space on both sides and nothing else |

## Left out

- UsersRev.ResetNeverUndone: assumes the disciplined steps of `UsersRev.Disciplined`; without them the property is false of the code, as the lemmas of `UsersRevLimits` show. The save at start-up, before any revision is applied, is before the run begins. One main-password change is under way at a time, and renaming the owner's row is not part of it. Loading the store is one step here, and comparing and raising the applied revision at the end of a reload, which happens outside the lock, is another. Errors of the wrap-key refresh inside sync and reload are not modelled.
- Reorder.RunInOrder: covers numbers in a window of 2^31; the buffer compares plain integers and the property is false beyond it.
- GroupShares.FramedShares: holds while the 32-bit packet counter does not wrap; at the wrap the turn may jump, as 2^32 need not be a multiple of 16*n.
- GroupShares.ChunkShares: is about packets of one size class; packets of several classes in one turn share its count, and the turn ends by the class of the packet that reaches its own limit.
- GroupFollows.OtherConversationKeepsPin: in a full table cleaning may take the first pin; `GroupFollows.CleaningSpares` says what it spares.
- GroupRun.EnqueueDownEffect: enqueueDown is one step, while lastSeen, the framed flags and the receiving ends of the queues change without the group's lock; what it says of fresh sessions and full queues holds at the moment each is looked at.
- GroupObject.RawSessionGroup.EnqueueDown: sessions are table rows named by identity, not pointers, so aliasing of session objects is not captured; cancelling is a set of identities.
- RawAddr.RawPool.GetRawIPForDevice: is one undisturbed call; concurrent calls are `RawAddr.SameAnswer` and `RawAddr.BoundExact`, where collecting the used addresses is one step and the counter does not wrap.
- Registry.PresenceWithinCap: the cap may be reconfigured during a run, a later smaller cap does not end running sessions, and the bound is the largest cap in force.
- Challenge.AcceptedAtMostOnce: bounds acceptances by issues of the same string; that 128 random bits do not repeat is not modelled.
- Cache.HitCurrentIff: is about the columns whose writers all raise `users_rev` in the same transaction; traffic counters and last_seen change without it. The global row exists: without it a row patch does not raise the revision. Handlers that change a cached store through its pointer are not modelled, nor is a database import that lowers the revision.
- Store.PanelDb.SaveStore: users are values, so the caller's normalized users are a result and not an update in place; constraint errors and the unique index on `sub_id` are part of SQLite and not modelled.
- Wrap.UnwrapPacket: the packet and the destination are different buffers; what a failed authentication leaves in the destination is not stated. The cipher is any pair of functions in which open inverts seal; the key store is not part of this model.
- Billing.DeviceNeverOverBilled: each reading is processed when it is taken; out of order the property is false (`Billing.SwappedReadingsOverBill`). Counters are unbounded integers, so overflow at 2^63 is not modelled.
- RawBilling.RawNeverOverBilled: the two swaps of a flush are separate steps, the billing under the lock is one; a traffic reset in the middle of a run is not part of it.
- UfwPing.SetThenGet: text is a sequence of characters; invalid UTF-8, reading and writing the file and reloading ufw are not modelled.
- The panel's handlers read, change and write the store in several steps; each edit is one step here.
- RenameUserPassword, DeleteDevice, SetMainPassword, the columns of UpsertUser other than counters, database import, migrations and foreign keys.
- `activeUsers`, which the statistics loop overwrites; clearing the presence map, which happens at start-up.
- Sockets, the TUN device, DTLS, WireGuard and firewall commands, HTTP handlers, the Telegram bot, VK calls and certificates: input and output with nothing to prove here.
- Config clamps, log lines, share links and version comparison: they would only add easy members.
