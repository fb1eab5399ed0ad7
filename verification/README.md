# Rack inventory: a verified model

This project models the transactional core of a data-centre inventory service and proves what that core promises.
`dafny verify dfyconfig.toml` checks the whole project.

**The rack, device and power inventory.** Devices sit at positions in racks, each position mirrored by a row of occupied
U's; PDUs stand in racks and have sockets; connections join devices to sockets; approval records ask for placements; a
history records every placement. Twenty kinds of request change these tables.

- `Inventory.dfy` holds the tables and the invariant, `Transactions.dfy` what each request does when it runs alone, and
  `InventoryProofs.dfy` that each keeps the invariant.
- `Outcomes.dfy` says of every request, in terms of rows and U's alone and without the functions that compute it, when it
  succeeds, what it leaves behind and for which reasons it is refused, and proves that `Transactions.dfy` agrees.
- `Interleaving.dfy` runs any number of requests side by side. A request is a script of reads, `FOR UPDATE` locks,
  conditional updates and a commit. Every read sees the latest committed rows, a lock waits for its holder, and writes are
  published at the commit, which also releases the locks. A request may give up at any point.
- `Interference.dfy` says what a transaction knows while it holds its locks and what the commits of others leave alone;
  `Refinement.dfy` concludes that every commit does what its request would do alone at that moment. `Solo.dfy` is the
  converse: a transaction that nobody disturbs commits whenever its request alone would succeed.
- `Executions.dfy` and `Deadlock.dfy` draw the consequences for every reachable state, and `Versions.dfy` says exactly when
  the two requests that check a device without a lock are safe. `Optimistic.dfy` adds that no update is ever lost and no
  deleted row comes back.
- `Service.dfy` is the imperative side: the transaction bodies statement by statement over map fields, with the loops of
  their queries, each proved to do what its specification says.

**The parts around it.**

- `Accounts.dfy`, `Sessions.dfy`, `AccountService.dfy`: user administration with the last administrator protected by an
  advisory lock, logins, tokens and their revocation.
- `Fingerprint.dfy`, `RackImport.dfy`, `ImportProofs.dfy`, `ImportOutcomes.dfy`, `ImportService.dfy`: the two-phase import
  of a rack diagram.
- `Hierarchy.dfy`, `HierarchyProofs.dfy`, `HierarchyOutcomes.dfy`, `Shapes.dfy`, `HierarchyService.dfy`: data centres, rooms
  and racks, and the deep copies and moves between them.
- `ULayout.dfy`, `RackUsage.dfy`: the free-segment scan, and what it makes of the racks of the inventory.
- `RateLimit.dfy`: the sliding-window rate limiter.

## Findings

Five properties that one might expect of the code hold only under a condition. Each has a lemma with both directions.

- An edit or deletion of a device reads it, checks its position and updates it without a lock. Whatever commits in between,
  it does no harm exactly when the device does not exist, can never be placed again (it is deleted or scrapped), or the
  version in the request is lower than the device's version plus the commits it takes to put the device where the request
  does harm (`Versions.UnlockedIsSafeIffHarmless`). It takes one commit to place it, one more if it must first leave a rack
  or a lifecycle that cannot be assigned, and one more if it needs a height, or another height because the request would
  otherwise write the right one. A version the client has seen is therefore always safe (`Versions.SeenVersionIsSafe`);
  with a guessed one the request can delete a placed device, or write an old height back under it.
- The free segments of a rack stay within the rack exactly when no unoccupied U above it lies below a position
  (`ULayout.ExactIffNothingFloats`, `RackUsage.RackExactIff`). Lowering a rack below a device, which nothing refuses, breaks
  this; for a device alone in its rack always, unless it starts right at the new end (`RackUsage.LoweringMisleadsIff`).
- A request with a logged-out token gets past the revoker exactly when the token expires between the request's two readings
  of the clock (`Sessions.LoggedOutSlipsIff`), and is let in exactly when besides nothing revoked its user's sessions
  (`Sessions.LoggedOutAcceptedIff`, with an instance in `Sessions.LoggedOutYetAccepted`).
- A successful import realises its diagram exactly when rows for one device agree and no row moves its device by code alone
  (`ImportProofs.RealisedIffConsistent`, with an instance in `ImportProofs.MovedByCodeAlone`).
- There always is an enabled administrator exactly because of the advisory lock; row locks alone allow write skew
  (`Accounts.ProtectedIffSerialized`).

Where code and text disagree the model follows the code: the stored redundancy role is `STANDBY`, while the error message
of `internal/service/template_pdu.go:697` spells it with an underscore.

## Model

| member | source | states |
|---|---|---|
| InventoryProofs.ApplyKeepsInv | internal/service/device.go:482-656 | every one of the twenty requests, run alone, keeps the whole invariant: positions, mirrors, disjointness, power, records and history |
| InventoryProofs.InsertedDisjoint | internal/service/device.go:549-562 | after the service's own overlap check the new occupancy meets no other, so the exclusion constraint has nothing left to refuse |
| InventoryProofs.AssignableIsUnpowered | internal/service/device.go:493-517 | a device that may be assigned has no live connection, which is why assigning need not check for one |
| InventoryProofs.PlaceCommutesWithDecision | internal/service/approval.go:205-226 | deciding a record first or placing the device first gives the same tables and the same refusals |
| Outcomes.ConflictIffTaken | internal/service/device.go:549-562 | the service's overlap loop finds a conflict exactly if a live position of another device in the rack contains one of the U's asked for |
| Outcomes.PlaceSucceedsIff | internal/service/device.go:482-596 | assigning or moving succeeds if and only if the device's lifecycle allows it, it is unpowered if it moves, the named rack is live and takes devices, the range lies within it, the orientation is known, the row identifiers are unused, and no other device stands at one of the U's; the device's own U's do not count |
| Outcomes.RequestOutcome | internal/service/template_pdu.go:344-780 | every one of the twenty requests succeeds exactly when the rows as they are allow it, and then changes exactly the rows and fields it names, with no other row touched |
| Outcomes.RefusalIsTruthful | internal/service/device.go:482-656 | whatever error a request returns, the fault it names is there |
| Interference.ApplyRespects | internal/repository/device.go:200-380 | a request changes only rows whose locks it takes, never takes a version back, and moves a device only together with its version |
| Interference.KnownStable | internal/service/template_pdu.go:653-700 | whatever a transaction has read or checked still holds after another's commit, unless that one held the guarding lock |
| Refinement.GuardTaken | internal/service/device.go:483-525 | each fact a transaction relies on at its commit is guarded by a lock it took no later than it found out |
| Refinement.FootprintTaken | internal/service/template_pdu.go:653-678 | a transaction that commits holds the lock of every row it had to lock |
| Refinement.CommitIsSerial | internal/service/device.go:482-596 | what a transaction publishes, computed from reads made earlier under its locks, is what it would do alone on the tables it meets |
| Refinement.SubmitIsAdmissible | internal/service/approval.go:83-117 | a record built from two unlocked reads with commits between them describes the device and its position as they are at the recorded version, unless that version is already past |
| Solo.AloneIsSpecified | internal/service/device.go:482-596 | a transaction that runs its script undisturbed publishes exactly the specified tables and gives up only if its request fails, so no lock, check or conditional update refuses too much |
| Solo.AloneSucceedsIff | internal/service/template_pdu.go:641-735 | an undisturbed transaction commits exactly when the rows allow its request, and leaves what the request names |
| Executions.AlwaysInv | internal/service/template_pdu.go:641-735 | the invariant and every transaction's knowledge hold in all reachable states, for any number of concurrent transactions |
| Executions.StepIsSerial | internal/service/approval.go:172-238 | committed tables change only at a commit, and then as the request alone would change them; a submission, made of unlocked reads, adds a pending record of the device, operation, rack, U and orientation asked for |
| Executions.CommitLeaves | internal/service/device.go:450-480 | whenever a transaction commits, the rows at that moment allowed its request and now show exactly what it asked for; a submission leaves its record and nothing else |
| Executions.NoDanglingConnection | internal/service/template_pdu.go:641-735 | a live connection has a live socket on a live PDU in a live rack, and its running device sits in that rack |
| Executions.SocketStatusIsTruthful | internal/repository/template_pdu.go:401-423 | a live socket is marked connected exactly if a live connection uses it, and at most one does |
| Executions.NoSharedU | internal/service/device.go:549-562 | two live positions never share a U of a rack, in any reachable state |
| Executions.DeletedRackIsEmpty | internal/service/resource.go:541-566 | no live position and no live PDU refers to a rack that is deleted |
| Executions.VersionsGrow | internal/repository/device.go:200-251 | a device's version never goes back along an execution |
| Executions.VersionDeterminesDevice | internal/repository/device.go:244-251 | at two moments with the same version a device has the same height, lifecycle, deletion mark and position |
| Executions.HistoryReplays | internal/service/device.go:564-592 | entries chain from one to the next, and replaying a device's history gives where it sits now |
| Executions.RecordStep | internal/repository/approval.go:93-113 | only a decision changes an approval record, only a pending one, and to the verdict it names |
| Executions.ApprovedExactlyOnce | internal/service/approval.go:172-238 | a record is approved exactly if one approval of it has committed, and no second ever commits |
| Executions.DecisionIsFinal | internal/repository/approval.go:93-113 | once decided, a record never changes again |
| Executions.OneApprovalPerVersion | internal/service/approval.go:200-211 | of several records requested at one version of a device at most one is ever approved |
| Executions.ApprovalMovesAsRequested | internal/service/approval.go:200-226 | an approval takes the device from the recorded source to exactly the requested rack and U's, in the transaction that writes the history |
| Executions.ApprovedAsSubmitted | internal/service/approval.go:83-238 | the commit that approves a record puts the device exactly where the operator who submitted it asked, with one history entry from where it sat, however much has happened in between |
| Deadlock.ScriptsFollowLockOrder | internal/service/template_pdu.go:653-678 | every transaction takes its locks in the order approval, device, rack, PDU, socket |
| Deadlock.NoDeadlock | internal/service/device.go:483-485 | in no reachable state do transactions wait for one another in a circle |
| Deadlock.AlwaysProgress | internal/service/resource.go:541-566 | while any transaction runs, one of them is not blocked |
| Optimistic.NoLostUpdate | internal/repository/device.go:200-242 | of two commits that name one device, rack, PDU, socket or connection by its version, the later was sent a later version |
| Optimistic.DeletedForGood | internal/repository/store.go:598-611 | after a deletion of a device, rack, PDU or socket, an archival or a disconnection has committed, its row is deleted at every later moment |
| Optimistic.PlacementFits | internal/service/device.go:522-549 | when a placement commits the device lies within the height, room and data centre its rack has at that moment, and the rack takes devices |
| Versions.StepClimbs | internal/repository/device.go:200-251 | no commit brings a device nearer to being placed at a harmful height without moving its version on by as much |
| Versions.HarmlessIsSafe | internal/service/device.go:330-400 | with a version too near for the device to be led there no commits between the two reads and the conditional update let an unlocked edit or deletion break the invariant |
| Versions.SeenVersionIsSafe | internal/service/device.go:345-352 | in particular with any version the device has already reached |
| Versions.GuessedVersionBreaks | internal/service/device.go:403-418 | with a version at least that far ahead other requests can end the device's connections, take it out, resize it and place it in a new rack so that the request hits it there |
| Versions.UnlockedIsSafeIffHarmless | internal/service/device.go:330-418 | for every edit and deletion and every device: safe under every interleaving if and only if the device is missing or can never be placed, or the version is below the device's version plus the commits that lead to harm |
| Versions.ArchiveEndsConfirmed | internal/repository/template_pdu.go:240-289 | forced archival ends exactly as many connections as the operator confirmed, and leaves none on the PDU |
| Service.Database.GetActivePosition | internal/repository/device.go:253-260 | the query loop finds the device's live position if there is one |
| Service.Database.OverlapsOther | internal/service/device.go:549-562 | the loop answers whether a live occupancy of another device in the rack meets the range |
| Service.Database.PlaceInRack | internal/repository/device.go:329-358 | the old position and its occupancies are released and the new pair inserted, nothing else |
| Service.Database.PlaceTransaction | internal/service/device.go:450-596 | succeeds if and only if the device may go there and no other device stands at one of the U's, and then the device is running in exactly that place, its old place vacated and the move recorded; a refusal names a real fault and changes nothing |
| Service.Database.Decommission | internal/service/device.go:598-656 | succeeds exactly for a live, unpowered device neither scrapped nor off the rack, vacates its place, takes it off the rack and records from where; the invariant stays |
| Service.Database.ConnectSocket | internal/service/template_pdu.go:641-735 | succeeds exactly for an unused socket in the device's rack and a known role the device does not have yet; the new connection joins the two in the role named, or as primary if none is, the socket is marked connected and no other row changes |
| Service.Database.DisconnectSocket | internal/service/template_pdu.go:737-780 | succeeds exactly for a live connection at the version given, ends it and frees its socket, and changes nothing else |
| Service.Database.ForceArchivePdu | internal/service/template_pdu.go:434-472 | succeeds exactly if a reason is given, the version matches and the operator confirmed the number of live connections; the PDU, its sockets and exactly those connections are ended, and a late version conflict leaves every table as it was |
| Service.Database.DeletePduTransaction | internal/service/template_pdu.go:344-388 | succeeds exactly for a live PDU at the version given without live connections; it and its live sockets are deleted and nothing else changes |
| Service.Database.DeleteSocketTransaction | internal/service/template_pdu.go:596-629 | succeeds exactly for a live, unused socket at the version given; the socket is no longer live and nothing else changes |
| Service.Database.DeleteRackTransaction | internal/service/resource.go:541-566 | succeeds exactly for a live rack at the version given without live positions and PDUs; the rack is no longer live and nothing else changes |
| Service.Database.UpdateDeviceRow | internal/service/device.go:330-400 | succeeds exactly for a live device at the version given whose height does not change while it is placed; a height that is named and positive is written, the version moves by one, and nothing else changes |
| Service.Database.DeleteDeviceRow | internal/service/device.go:403-418 | succeeds exactly for a live device at the version given that is not placed; the device is no longer live and nothing else changes |
| Service.Database.CreatePending | internal/service/approval.go:83-117 | the new record is pending, asks for exactly the placement submitted and holds the device's version and place; nothing else changes |
| Service.Database.ApproveTransaction | internal/service/approval.go:172-238 | succeeds exactly for a pending record decided at its version by a known actor, whose device is at the recorded version and may be placed as recorded; claim and placement commit together or nothing changes |
| Service.Database.RejectTransaction | internal/service/approval.go:119-157 | succeeds exactly for a pending record decided at its version by a known actor, and changes only its status and version |
| ULayout.FreeSegments | internal/service/device.go:717-730 | the scan returns maximal segments covering exactly the unoccupied U's, even for overlapping positions |
| ULayout.ExactIffNothingFloats | internal/service/device.go:717-730 | the segments are the rack's free U's if and only if no unoccupied U above it lies below a position |
| ULayout.FloatingPosition | internal/service/device.go:717-730 | a position above the rack's end makes the scan report U's that do not exist |
| ULayout.HeightIsConserved | internal/service/device.go:668-732 | the heights of the free segments add up to the rack's height less its occupied U's |
| RackUsage.FreeOf | internal/service/device.go:668-732 | over the live positions of a rack in order of their first U the scan covers the unoccupied U's of the rack and those below a position above it |
| RackUsage.RackExactIff | internal/service/device.go:717-730 | in the inventory the report is the rack's free U's if and only if every U between its end and a device above it is occupied |
| RackUsage.LoweringFloats | internal/service/resource.go:501-539 | placing a device and then lowering the rack succeeds and keeps the invariant, leaves the device above the rack's end, and makes the scan report every unoccupied U in between |
| RackUsage.LoweringMisleadsIff | internal/service/resource.go:501-539 | for a device alone in its rack the report is then right if and only if the device starts right above the new end |
| RateLimit.RefusedIffLimitReached | internal/middleware/middleware.go:221-238 | a request is refused exactly if the limit of requests of its key was admitted within the window before it |
| RateLimit.NoBurst | internal/middleware/middleware.go:221-238 | of any limit plus one consecutive admitted requests the last comes at least a window after the first |
| RateLimit.CollectionsAreInvisible | internal/middleware/middleware.go:240-257 | collecting at any moments changes no decision of a whole run |
| RateLimit.MemoryIsFaithful | internal/middleware/middleware.go:221-257 | the pruned memory always answers like the full record of admissions |
| RateLimit.Compact | internal/middleware/middleware.go:225-231 | the recent hits move, in order, to the front of the slice's own array |
| RateLimit.RateWindow.Allow | internal/middleware/middleware.go:221-238 | decides and updates as specified on slices that share arrays with their former selves |
| RateLimit.RateWindow.Gc | internal/middleware/middleware.go:240-257 | every key keeps its recent hits, and keys without any are dropped |
| Accounts.ApplyKeepsAdmin | internal/service/admin.go:145-259 | no request alone removes the last enabled administrator |
| Accounts.RequestOutcome | internal/service/admin.go:145-286 | an update, deletion, reset or creation succeeds exactly when the accounts allow it; an update replaces the roles by those named, if any, sets the flag if given and touches no other user |
| Accounts.AloneIsSpecified | internal/repository/store.go:45-64 | a user transaction that nobody disturbs comes to write exactly what its request specifies, and fails only if the request does |
| Accounts.StepKeepsSound | internal/repository/store.go:45-64 | what a user transaction has read and counted under its locks stays true until its commit |
| Accounts.CommitIsSerial | internal/service/admin.go:145-223 | with the advisory lock each commit changes the accounts as its request alone would |
| Accounts.CommitLeaves | internal/repository/store.go:141-171 | whenever a user transaction commits under the advisory lock, the accounts allowed its request, and the user now has the roles, flag, version and session it asked for while all others are as before |
| Accounts.AdminRemains | internal/repository/store.go:210-221 | once there is an enabled administrator there always is one, for any number of concurrent requests |
| Accounts.WriteSkew | internal/repository/store.go:55-64 | with row locks alone two deletions remove the last two administrators |
| Accounts.ProtectedIffSerialized | internal/repository/store.go:55-64 | the protection holds in every run if and only if the advisory lock is taken |
| Sessions.SessionStands | internal/repository/store.go:141-208 | a user's session version stands still between two moments exactly if no reset, disabling or deletion was committed |
| Sessions.RevokerIsFaithful | internal/middleware/middleware.go:62-91 | look-ups and collections drop entries, yet the revoker answers as if it kept every logout until the token expires |
| Sessions.RefusedIffLoggedOut | internal/middleware/middleware.go:150-153 | the look-up turns a request away exactly if its token was logged out before and has not expired |
| Sessions.LoggedOutSlipsIff | internal/middleware/middleware.go:68-80 | a logged-out token gets past exactly if it expires between the request's two readings of the clock |
| Sessions.LoggedOutYetAccepted | internal/middleware/middleware.go:134-173 | a whole history in which a request with a logged-out token is let in |
| Sessions.AcceptedIffNotRevoked | internal/middleware/middleware.go:159-168 | a request is let in exactly if nothing revoked its user's sessions since the login read the user, re-enabling notwithstanding |
| Sessions.VerdictStands | internal/middleware/middleware.go:134-173 | a request once let in or refused stays so for the rest of the history |
| Sessions.AcceptedIff | internal/middleware/middleware.go:134-173 | at any moment after its look-up a request has been let in exactly if its token was not logged out before the look-up or had expired by then, and its user was found before anything revoked the user's sessions |
| Sessions.LoggedOutAcceptedIff | internal/middleware/middleware.go:68-168 | a request logged out before its look-up is ever let in exactly if its token expires between its two readings of the clock and nothing revoked its user's sessions before the check of the user |
| AccountService.UserStore.CountEnabledAdminsExcluding | internal/repository/store.go:210-221 | the count is the number of other enabled administrators |
| AccountService.UserStore.UpdateUser | internal/service/admin.go:145-223 | succeeds exactly for a live user at the version given unless that removes the last enabled administrator; the roles named replace the old ones, the flag is set if given, disabling signs the user out, and every other user is as before |
| AccountService.UserStore.DeleteUser | internal/service/admin.go:225-259 | an administrator remains, and after a deletion no token of the user is let in while every other token is as before |
| AccountService.UserStore.ResetPassword | internal/service/admin.go:261-286 | after a reset no token of the user's sessions so far is let in, every other user's token is as before, roles and enabling stay, and an administrator remains |
| AccountService.TokenRevoker.IsRevoked | internal/middleware/middleware.go:68-80 | although look-ups and collections forget entries, the answer is that of a revoker that keeps every logout until its token has expired |
| AccountService.TokenRevoker.Gc | internal/middleware/middleware.go:82-91 | exactly the expired entries go, which no later answer depends on |
| Fingerprint.SortingIsUnique | internal/service/rack_import.go:207-215 | the partial comparison leaves only one order for the positions of devices that each sit once |
| Fingerprint.TextInjective | internal/service/rack_import.go:216-219 | the separated decimal text determines the rows |
| Fingerprint.SameTextIffSameRows | internal/service/rack_import.go:188-222 | fingerprints agree exactly if the positions do, whatever the database's order and the sort's treatment of ties |
| ImportProofs.LastMoveDecides | internal/service/rack_import.go:481-545 | after the transaction each device is where the last item that moved it put it |
| ImportProofs.StaleIffMoved | internal/service/rack_import.go:469-479 | a commit finds its plan stale exactly if a position on a covered rack has changed |
| ImportProofs.RealisedIffConsistent | internal/service/rack_import.go:481-566 | a successful import puts every device of the diagram in its place if and only if the diagram is consistent |
| ImportProofs.MovedByCodeAlone | internal/service/rack_import.go:621-632 | a row that names a deleted device puts that device, not the one its code stands for, in the place |
| ImportProofs.CoveredRacksShowDiagram | internal/service/rack_import.go:307-427 | covered racks then hold exactly the diagram and what the operator did not have taken out |
| ImportOutcomes.PlannedIsClassified | internal/service/rack_import.go:307-400 | a readable row stands for the live device it names or else the one with its code on a covered rack, and is new, elsewhere, in place but described otherwise, or unchanged exactly as name, serial number, rack and U's say |
| ImportOutcomes.UnchangedNeedsNothing | internal/service/rack_import.go:307-400 | updating a device by a row classified as unchanged would move its version on and nothing else |
| ImportOutcomes.ItemOutcome | internal/service/rack_import.go:568-660 | an item is done exactly when the tables allow it, and leaves exactly the position, lifecycle, name, serial number and version it is for |
| ImportOutcomes.RefusalIsTruthful | internal/service/rack_import.go:483-556 | whatever error stops an item, the fault it names is there |
| ImportOutcomes.StepOutcome | internal/service/rack_import.go:481-545 | an import comes past its next item exactly when the tables as they are then allow it |
| ImportOutcomes.ImportStaysWithin | internal/service/rack_import.go:643-660 | every device that a successful import has moved stands in a live rack from U 1 up to at most the rack's height |
| ImportOutcomes.AboveRackFails | internal/service/rack_import.go:650-653 | one row that is to be created or moved and ends above its rack makes the whole import fail |
| ImportOutcomes.LifecycleFollows | internal/service/rack_import.go:621-660 | after an import a live device that was put somewhere last is running, one that was taken out last is off the rack, and all others have the lifecycle they had |
| ImportOutcomes.TallyCounts | internal/service/rack_import.go:485-545 | the counters report how many items created, changed, moved and took out a device |
| ImportService.ImportService.Validate | internal/service/rack_import.go:234-437 | succeeds exactly if room, body, type, actor and every covered rack fit; one correctly classified item for each row, items for exactly the missing devices, correct counts, and a draft bound to room, actor and fingerprint |
| ImportService.ImportService.Transact | internal/service/rack_import.go:481-556 | all items are done or none, and the counters tell which |
| ImportService.ImportService.Commit | internal/service/rack_import.go:447-566 | needs an unexpired draft of this actor and room; every refusal leaves the tables alone; success leaves every device it moved within the height of a live rack; the draft is used up by success and staleness and put back otherwise |
| ImportService.ImportService.PositionsFingerprint | internal/service/rack_import.go:188-222 | the text of the sorted positions on the covered racks, a rack given twice counting twice, in whatever order they are found |
| ImportService.CommitRealisesPlan | internal/service/rack_import.go:447-566 | from a plan and a successful commit: the diagram is realised exactly if consistent, and the plan is gone |
| HierarchyProofs.ApplyKeepsWellFormed | internal/service/resource.go:137-370 | every request keeps parents live, each rack's data centre that of its room, and codes distinct within parents |
| HierarchyOutcomes.RequestOutcome | internal/service/resource.go:137-566 | every request succeeds exactly when parents, codes and versions allow it, leaves exactly the rows it names with every other row as it was, and is refused only for a fault that is there |
| HierarchyProofs.AlwaysWellFormed | internal/service/resource_copy_move.go:34-353 | the hierarchy is well-formed after any sequence of requests |
| Shapes.CopyCenterIsFaithful | internal/service/resource_copy_move.go:34-105 | the copy has the source's content up to identifiers and name, and no row or other data centre is touched |
| Shapes.CopyRoomIsFaithful | internal/service/resource_copy_move.go:107-176 | the copied room has the source's content, and every other room stays as it was |
| Shapes.MoveRoomIsFaithful | internal/service/resource_copy_move.go:225-296 | the room leaves one data centre and arrives in the other with the same racks; no third one changes |
| Shapes.MoveRackIsFaithful | internal/service/resource_copy_move.go:298-353 | the rack leaves one room and arrives in the other; no third one changes |
| HierarchyService.ResourceService.CopyRooms | internal/service/resource_copy_move.go:70-97 | the nested loops make exactly the specified copies, although each query sees the rows inserted before it |
| HierarchyService.ResourceService.CopyDataCenter | internal/service/resource_copy_move.go:34-105 | the loops keep the hierarchy well-formed and leave a data centre that shows what the source shows, with every row that was there untouched, or change nothing |
| HierarchyService.ResourceService.CopyRoom | internal/service/resource_copy_move.go:107-176 | the hierarchy stays well-formed, the new room shows what the source shows and every other room what it did, or nothing changes |
| HierarchyService.ResourceService.CopyRack | internal/service/resource_copy_move.go:178-223 | the copy stands in the room asked for, with the source's attributes and the code and name given; no other row is touched and no other room shows a difference |
| HierarchyService.ResourceService.MoveRoom | internal/service/resource_copy_move.go:225-296 | the hierarchy stays well-formed; a successful move takes the room's content out of one data centre and puts it, renamed, into the other, and no third one shows a difference |
| HierarchyService.ResourceService.MoveRack | internal/service/resource_copy_move.go:298-353 | the hierarchy stays well-formed; a successful move takes the rack out of one room and puts it, renamed, into the other, and no third one shows a difference |

## Left out

- Service.Database: each method is one transaction without interleaving; side by side the same requests are the scripts of `Interleaving.dfy`.
- Service.Database.CreatePending: the sequential method reads once; the two reads with commits between them are in `Refinement.SubmitIsAdmissible`.
- Executions.VersionDeterminesDevice: an edit or deletion enters an execution only with a version the device has reached; `Versions.UnlockedIsSafeIffHarmless` says how far ahead it could be without breaking the invariant.
- ImportProofs.RealisedIffConsistent: minted identifiers are assumed unlike any that a row names, and nothing is written between the staleness check and the commit.
- Sessions.RevokerIsFaithful: the clock never runs backwards, token identifiers are unique and signatures cannot be forged.
- Import inside the concurrent model: it takes no locks, makes no connection check and writes no history, so it would not keep the invariant; it is a sequential part of its own, with the exclusion constraint as an abort.
- A rack's height as a bound on its positions: placement checks it, but an update may lower the height afterwards.
- Running implies placed: a device may be created with any lifecycle, so only the other direction is an invariant.
- Room and data centre on position rows: a snapshot of the placement that later moves of the rack or room do not refresh.
- Concurrent hierarchy requests: they read parents without locks, so each is one atomic step here; racks there and in the inventory are separate models.
- Foreign-key share locks, savepoints, connection failures and other database errors: explicit locks, the advisory lock and row counts of conditional updates are modelled; any other failure is a transaction giving up.
- Unique and exclusion constraints of the inventory: proved redundant rather than simulated, except primary keys and socket numbers.
- Approve's second lock of the device it already holds: merged with the first.
- The approval policy, device types, templates, IP checks, socket standards, audit rows and descriptive fields: no influence on the properties above.
- Unknown role names and user-name conflicts on update: the transaction gives up before it writes.
- Failed-login counting, bcrypt, JWT signing, SHA-256 and random identifiers: injective functions and fresh identifiers.
- Missing-item identifiers of an import: keyed by device instead of by an eight-digit prefix.
- Unicode white space beyond the listed characters in device names.
- Go's map iteration order: an arbitrary choice in each loop; timers and mutexes of the limiter and the stores: one method call at a time.
- HTTP handlers, LDAP, metrics, telemetry, captcha, configuration and the frontend.
