# BENCchat's encryption state, modelled and proved

BENCchat is a desktop messenger whose end-to-end encryption lives in mutable state: sender
chains that must never be used twice at one position, room memberships that must not let a
removed member back in, identities and device lists fetched from a directory nobody
trusts, and files that are saved, lost, merged and handed between machines. This project
models that state and its operations in Dafny and proves what they keep over every run.

The models take the program's own form. What the program mutates is a class here
(`RoomKeys`, `RoomMembers`, `App`, `TrustBook`, `IdentityFlow`, `Client`), each method proved
against a function over values; what it computes in a loop is a loop here, with its
invariants; and the theorems are lemmas about those functions and about runs of them.

| files | about |
|---|---|
| `Words`, `Layout` | machine words, big-endian bytes, rows of equal blocks |
| `Ratchet`, `RoomChains`, `ChainLaws` | the hash ratchet, one room's chains, what holds of received views |
| `Sends`, `Reading` | when a room message goes out sealed and to whom; which messages open, and that what was sealed does |
| `Members`, `RosterLaws` | who is in a room, who owns it, which signed roster may change that |
| `RoomStore` | the entry on file, the merge every save goes through, device transfers of room state |
| `Device`, `History` | a device and its file together, every step that can happen to a room on it, and a record of what was sealed and given to whom |
| `Recording`, `OwnerMarks` | what each operation leaves on file; the owner's epochs across restarts |
| `Positions`, `Removal`, `Withholding` | the three main theorems about those runs |
| `RemovalExactly`, `RemovalLimits`, `WithholdingLimits` | why each condition of those theorems is needed, from every state, and concrete runs from installation |
| `Joining` | a room joined by invitation, and when those theorems apply to it |
| `Keys`, `Envelopes` | canonical key sets, the multi-device envelope |
| `ChainDist`, `Distribution` | the broadcast and bundle formats, and the chunk loop that sends a new chain |
| `Manifests`, `ManifestLaws`, `SignatureLaws`, `PinLaws`, `DeviceLists` | signed device lists: publishing, who signed what is believed, counters and pins, what a list makes of us |
| `Identities` | setting up an identity and replacing its recovery key |
| `Transfers`, `TransferLaws`, `RoomHistoryLaws` | merging transferred history |
| `Messenger`, `MessengerLaws` | encrypt, refuse or send in the clear |

`dafny verify dfyconfig.toml` checks all of it.

## What is assumed

Each assumption is a parameter or a stated condition, so that it can be read where it is used.

- The chain step and the message key are arbitrary functions (`Ratchet.Kdf`); nothing rests
  on a property of SHA-256. Opening a room message succeeds exactly on the key it was
  sealed under.
- A box opens exactly for the pair of keys it was sealed between, among the finitely many
  key pairs in play (`Envelopes.Crypto.Exact`), whichever of the two holds the secret half.
- Base64, the manifest codec and the key text are invertible; a digest names its bytes; a
  signature made under a key verifies under it.
- A room roster reaches the model with its signature checked. A screen name is normalized.
- A save is atomic: it happens, it does not, or (for a reservation) it happens and is
  reported as failed.
- Drawing randomness, sealing and signing succeed, except where the program's handling of
  the failure is modelled: a chain that cannot be minted, a room message whose payload or
  nonce cannot be made.
- Random chain IDs are never repeated; an invitation whose send reports failure has not
  reached somebody we hold removed (a frame is one write on the connection), while one to
  anybody else may have; and no other member hands a chain to somebody we hold removed
  (`History.Possible`).
- A new identity is drawn at random, so it is never one already stored
  (`Identities.OnlyADenialEndangers`).
- The wall clock, the server's replies, the randomness, and whether each save or delivery
  succeeds are parameters of the step they belong to, and every theorem is for all of them.

## Where the code and its own words disagree

The model follows the code. Each point is a lemma below.

- Members and tombstones are said to be disjoint after every operation. Reinstalling a
  room file in mid-session, which a device transfer does and signing on again in the same
  process does too, names a live member removed exactly where the file's tombstones name
  one; a lifted tombstone stays in the file, so that can happen
  (`RosterLaws.DisjointExactly`, `RemovalLimits.LiftedTombstonesReturn`). So does joining
  by an invitation whose owner's roster removes its own sender, or, over a room already
  held, a member (`Joining.AdoptedDisjointExactly`, `Joining.JoiningIsExact`).
- The owner pin is said never to be changed silently. A mid-session restore replaces a
  conflicting live pin with the file's (`RosterLaws.PinChangesOnlyByFile`).
- The merge keeps the file's chain where the session has none, and takes the file's stale
  mark with it even if the session marked the chain stale
  (`RoomStore.SaveKeepsTheStaleMark`, `RemovalLimits.UnreadFileLosesTheMark`).
- A removal whose save failed, followed by such a restore, puts a retired chain back in use
  (`RemovalLimits.ImportRevivesARetiredChain`; exactly where it can is
  `RemovalExactly.ImportConditionIsExact`).
- Somebody let back in whom the file still holds removed is held removed again by the next
  process, which goes on under the chain they were given meanwhile
  (`RemovalExactly.PrudenceIsExact`, `RemovalExactly.ReadmittedMemberReadsOn`).
- An accepted invitation lays the owner's tombstones without replacing our own chain; over
  a room already held that is unsafe exactly where one of them was given it
  (`Joining.AdoptingIsSafeExactly`).
- A failed invitation is said to leave no member recorded who got nothing. Where nobody else
  is a member the file keeps them, because a save takes an empty list for one that was
  never restored, and the next process has them as a member
  (`Recording.AWithdrawnNewcomerStaysOnFile`).
- The owner's own stamp is recorded so that a replay of our own old roster cannot undo a
  removal. It is claimed after the save that goes with the removal; until the next save a
  restart forgets it, and such a replay brings the removed member back
  (`OwnerMarks.AnUnsavedStampIsForgotten`, `OwnerMarks.AReplayAfterARestart`).
- Owner rosters converge on members and epochs in any order. The tombstones do exactly
  where no roster still ahead of us changes whether a name is removed that the newest one
  does not mention (`RosterLaws.TombstonesConvergeExactly`, and a pair for which they do
  not: `RosterLaws.TombstonesCanDependOnOrder`).
- A newcomer is said to read nothing from before they came. Positions used since the last
  save are forgotten in a crash, and the next bundle opens them
  (`WithholdingLimits.CrashForgetsWhatWasSaid`; what exactly a bundle then refuses is
  `WithholdingLimits.ARestartWithholdsWhatTheFileSaw`).
- A further-back continuous view can push a far position past the skip cap
  (`Ratchet.Kdf.ContinuousReadBack`).
- A new process that cannot read the room file, or does not find the room there because
  the save after creating or joining it was lost, does not know the room is encrypted and
  sends in the clear; no other does (`Withholding.RestartSpeaksPlainlyExactly`,
  `Withholding.UnreadFileSpeaksPlainly`, `Withholding.UnsavedRoomSpeaksPlainly`).
- After a failed recovery-key rotation the user is told that the old key still works. It
  does not where the upload was stored and only the reply was lost
  (`Identities.WhichKeyWorks`).
- Importing a bundle twice is said to be a no-op. A stamp ahead of the clock is clamped
  again by the later one, and the message comes in again exactly where neither the thread
  nor the first import had one of that key (`TransferLaws.ImportingAgainExactly`). Room
  messages likewise, unless the room is full of newer ones; and in a full room whatever
  ties with the oldest message kept comes in even under one clock
  (`RoomHistoryLaws.ImportingARoomTwice`, `RoomHistoryLaws.OneTooManyAtOnce`).
- The comment on transferred room messages says that the forged mark is kept; the code
  clears it (`app_transfer.go:556-564`), and so does the model.
- A counter published from a pin at the top of the signed range is recorded and never
  believed again (`ManifestLaws.PublishedIsReadBack`).
- With no key directory offered, a peer on record is written to in the clear
  (`MessengerLaws.InTheClearExactlyWhere`).

## Model

| member | source | states |
|---|---|---|
| Ratchet.Kdf.DoAdvance | internal/e2ee/ratchet.go:192-204 | winding succeeds exactly for a forward move within the skip cap, lands on the asked position of the same chain, and otherwise leaves the view as it was |
| Ratchet.Kdf.DoAdvanceChain | internal/e2ee/ratchet.go:139-151 | the same for our own outbound chain |
| Ratchet.Kdf.DoMessageKey | internal/e2ee/ratchet.go:165-177 | the loop yields the key of that position, or the two refusals: before the view, or too far ahead |
| Ratchet.Kdf.DoContinues | internal/e2ee/ratchet.go:225-237 | true exactly where the offered state hashes forward onto the held one within 10,000 steps, and then both views agree from the held position on |
| Ratchet.Kdf.AdvanceAgrees | internal/e2ee/ratchet.go:192-204 | winding a view forward loses no state it can still reach |
| Ratchet.Kdf.ContinuesAgrees | internal/e2ee/ratchet.go:206-237 | continuity is identity: from the held position on the offered view is the same chain, whoever offered it |
| Ratchet.Kdf.ContinuousReadBack | internal/e2ee/ratchet.go:165-177 | taking a further-back continuous view never changes a key; it costs a readable position exactly where the longer walk passes the skip cap and the shorter one did not |
| RoomChains.RoomKeys.EnsureOutboundChain | internal/client/room_e2ee.go:847-881 | mints only where there is no chain or it is marked stale; a failed mint changes nothing; a new chain starts unshared, unpromised, and readable by us from its start |
| RoomChains.RoomKeys.MarkChainShared | internal/client/room_e2ee.go:885-890 | sets the shared flag and nothing else |
| RoomChains.RoomKeys.MarkChainStale | internal/client/room_e2ee.go:894-899 | sets the stale mark and nothing else |
| RoomChains.RoomKeys.LearnChainView | internal/client/room_e2ee.go:927-947 | a held view is replaced only by a further-back view that hashes forward onto it; any offer marks the room encrypted |
| RoomChains.RoomKeys.NoteChainPosition | internal/client/room_e2ee.go:1154-1164 | the seen position of one chain rises to the noted one or stays |
| RoomChains.RoomKeys.DecodeRoomChainMessage | internal/client/room_e2ee.go:986-1042 | each refusal in the order the code reaches it; a position is recorded only for an accepted message that opened |
| RoomChains.RoomKeys.PromisePositions | internal/client/room_e2ee.go:1455-1491 | a reservation is wanted exactly where the next position is not covered, and is raised before it is written, by 64 with wrap-around |
| RoomChains.RoomKeys.RollBackPromise | internal/client/room_e2ee.go:1493-1503 | a promise that did not reach disk is taken back if nothing raised it further |
| RoomChains.RoomKeys.SealUnderChain | internal/client/room_e2ee.go:335-386 | seals under the current position exactly when chain, reservation and signer allow it; never falls back to plaintext in an encrypted room; a fault after the step still consumes the position |
| RoomChains.RoomKeys.RoomChainState | internal/client/room_e2ee.go:1051-1080 | exports the chain already wound to its reservation |
| RoomChains.RoomKeys.RestoreChainState | internal/client/room_e2ee.go:1088-1150 | installs the stored chain, offers each stored view under the continuity rule, and raises seen positions pointwise |
| RoomChains.RoomKeys.ChainBundleFor | internal/client/room_e2ee.go:1181-1232 | a member gets exactly the views that can be shown to start at "now", each once; a non-member gets nothing |
| RoomChains.RoomKeys.PruneChainViews | internal/client/room_e2ee.go:1550-1582 | every prunable peer view is wound to 2000 behind the furthest seen, our own is left alone, and the count is of the views that moved |
| RoomChains.WindToNow | internal/client/room_e2ee.go:1204-1229 | a view wound to one past the seen position, or nothing where the position is unknown, at the top of the range, or too far |
| ChainLaws.BundleStartsNow | internal/client/room_e2ee.go:1181-1232 | a bundle holds a chain exactly where its seen position is known, below the top of uint32 and within the cap; it then starts at exactly max(view index, seen + 1), opens nothing recorded as seen, and agrees with the held view from there on |
| ChainLaws.LearningReadsBack | internal/client/room_e2ee.go:927-947 | a first offer and a further-back continuous one are taken, and read from the offered position with the held keys from the held one on; any other leaves what was held; no other chain moves |
| ChainLaws.RestoringTakes | internal/client/room_e2ee.go:1119-1150 | a restore takes each stored view under the same rule and raises each seen position to the stored one |
| ChainLaws.RestoringInstalls | internal/client/room_e2ee.go:1088-1118 | a stored chain becomes ours again at its reservation, with a view of it to read ourselves by; without one ours stays |
| ChainLaws.PruneKeepsTheWindow | internal/client/room_e2ee.go:1550-1582 | pruning moves a view forward along its own chain, keeps every readable position within 2000 of the highest seen, and leaves the index at least there exactly where the walk was within the cap |
| ChainLaws.PruneLeavesTheRest | internal/client/room_e2ee.go:1556-1566 | our own chain and any chain not known to have run far are not touched |
| ChainLaws.EventKeepsView | internal/client/room_e2ee.go:927-947 | one offer, restore, prune, note, mint or seal keeps a peer's view on its chain |
| ChainLaws.PeerKeysAreStable | internal/client/room_e2ee.go:927-947 | over every sequence of those within a session, every chain state at or past the furthest index ever held is the original one: an invented state under a held chain ID cannot displace the real one |
| ChainLaws.PeerKeyOutcome | internal/client/room_e2ee.go:1119-1141 | the same as a reader sees it: the real key or a refusal to hash that far, never another key |
| Reading.OpensExactlyWhere | internal/e2ee/roomchain.go:117-135 | a message opens if and only if its chain is held, reaches its position and it was sealed under the one key of that position; each of the four refusals if and only if its own reason holds |
| Reading.OnlyOpenedIsNoted | internal/client/room_e2ee.go:1011-1040 | only an accepted message that opened moves anything, and that is the seen position of its chain, upward |
| Reading.SealedIsOpened | internal/client/room_e2ee.go:986-1042 | over every run of the sender, what was sealed opens for whoever holds its chain from there on, is noted once accepted, and nothing sealed under another key opens in its place |
| Reading.ReadersKeepReading | internal/client/room_e2ee.go:927-947 | after any offers, restores and pruning at the reader it still opens or is too far ahead: a genuine message is never refused as a forged one |
| Members.RoomMembers.Add | app_room_e2ee.go:72-82 | adds one name to one room, no other room changing |
| Members.RoomMembers.Remove | app_room_e2ee.go:84-90 | takes one name out of one room, no other room changing |
| Members.RoomMembers.Forget | app_room_e2ee.go:102-110 | one room reads as unknown again, no other changing |
| Members.RoomMembers.AddAll | app_room_e2ee.go:119-126 | unions the names in, less ourselves and the tombstoned |
| Members.RoomMembers.SetAll | app_room_e2ee.go:132-145 | replaces the set outright, less ourselves |
| Members.RoomMembers.PinOwner | app_room_e2ee.go:155-167 | pins an owner once and reports the pin in force |
| Members.RoomMembers.Tombstone | app_room_e2ee.go:185-198 | adds the removed, then lifts whoever is present |
| Members.RoomMembers.WasRemoved | app_room_e2ee.go:201-205 | whether a name is tombstoned |
| Members.RoomMembers.AcceptOwnerEpoch | app_room_e2ee.go:221-231 | raises both epochs to the accepted one, never lowering either |
| Members.RoomMembers.ClaimNextEpoch | app_room_e2ee.go:243-273 | claims the saturating, clock-floored next epoch, with the code's own wrap test |
| Members.RoomMembers.Restore | app_room_e2ee.go:303-324 | tombstones union, epochs rise, and a stored owner replaces the live one |
| Members.RoomMembers.ApplyRoster | app_room_e2ee.go:931-1014 | the whole judgement of a roster: which are ignored, which add, which replace, and when our chain must be retired |
| RosterLaws.RemovalEndsOnlyByTheOwner | app_room_e2ee.go:683-735 | for any operation, a removed name stays out if and only if the operation is not an owner roster of a higher epoch listing it nor the owner's own delivered re-invitation |
| RosterLaws.RemovalIsDurable | app_room_e2ee.go:931-1014 | so over every run of rosters, replays, local invites, removals, restores and transfers, removal lasts until the owner lifts it |
| RosterLaws.DisjointExactly | app_room_e2ee.go:580-623 | members and tombstones stay disjoint if and only if the operation does not reinstall a file whose tombstones name a live member |
| RosterLaws.StaysDisjoint | app_room_e2ee.go:112-198 | over every run without such a file the two sets are disjoint after each operation |
| RosterLaws.PinChangesOnlyByFile | app_room_e2ee.go:303-311 | a pinned owner changes if and only if a file pinned to somebody else is reinstalled |
| RosterLaws.NoRosterPins | app_room_e2ee.go:931-950 | no roster or local act pins an owner where none is pinned, and a roster changes nothing there |
| RosterLaws.OnlyMembersAreHeard | app_room_e2ee.go:938-962 | a roster that does not name the pinned owner, or is from nobody in the room, changes nothing |
| RosterLaws.RemovedExactlyWhere | app_room_e2ee.go:931-1014 | somebody comes to be removed if and only if a newer roster of the owner says so, we as the owner do, or a file does |
| RosterLaws.InvitesExactly | app_room_e2ee.go:683-735 | a permitted invitation makes a member and lifts a tombstone if it was sent, and leaves nobody recorded and every tombstone in place if it failed; any other changes nothing |
| RosterLaws.ReinstallsExactly | app_room_e2ee.go:303-324 | a file adds its tombstones, the members nobody holds removed, its owner, and its epochs where they are ahead |
| RosterLaws.StampAdvances | app_room_e2ee.go:243-273 | a stamp passes both recorded epochs and the clock unless saturated at 2^64-1, and by no more than it must |
| RosterLaws.EpochsNeverFallInARun | app_room_e2ee.go:221-273 | neither epoch falls over any run |
| RosterLaws.StampsIncrease | app_room_e2ee.go:243-273 | two stamps with anything between them, under any clock, strictly increase up to saturation |
| RosterLaws.OwnStatementIsAnOwnerEpoch | app_room_e2ee.go:776-802 | what we sign as the owner is recorded as an owner epoch past every epoch known, saturating; what anybody else signs moves no owner epoch |
| RosterLaws.OwnReplaysAreInert | app_room_e2ee.go:792-799 | so after a removal or an invitation of ours, over every later run, no roster of ours at or below its stamp changes anything |
| RosterLaws.StampsStayNearTheClock | app_room_e2ee.go:243-273 | after k stamps with readings at most t the epoch is at most max(start, t) + k |
| RosterLaws.SecondDeviceOutranks | app_room_e2ee.go:233-273 | past that bound a second device that never heard the first outranks it |
| OwnerMarks.SavedMarksRefuseReplays | app_room_e2ee.go:453-461 | an owner epoch recorded and saved refuses every roster at or below it over every run in which each new process reads the file |
| OwnerMarks.AnUnsavedStampIsForgotten | app_room_e2ee.go:1292-1307 | a removal is saved before it is stamped: after a restart a replay of our own roster is obeyed if and only if it is past the mark from before the removal, without one if and only if it is past the stamp |
| OwnerMarks.AReplayAfterARestart | app_room_e2ee.go:1292-1307 | such a replay brings the removed member back |
| RosterLaws.ReplayIsInert | app_room_e2ee.go:985-1013 | an owner roster at or below the recorded owner epoch changes nothing |
| RosterLaws.OwnerRostersSettle | app_room_e2ee.go:985-1013 | after any deliveries the state is the starting one or the word of the highest roster |
| RosterLaws.OwnerRostersConverge | app_room_e2ee.go:985-1013 | owner rosters with distinct epochs, in any order with any repeats, give the same members and epochs |
| RosterLaws.TombstonesConvergeExactly | app_room_e2ee.go:985-1013 | the whole state, tombstones included, is the same for every order and all repeats if and only if no roster above the recorded owner epoch changes whether a name the highest one does not mention is removed |
| RosterLaws.TombstonesCanDependOnOrder | app_room_e2ee.go:985-1003 | two rosters for which the tombstones do depend on the order |
| RosterLaws.MemberRostersUnion | app_room_e2ee.go:951-985 | members' rosters together add exactly the names they list, less self and less tombstones |
| RosterLaws.MemberRostersCommute | app_room_e2ee.go:951-985 | so any permutation with repeats gives the same state |
| RoomStore.MergedRoomEntry | app_room_e2ee.go:424-499 | what a save writes, field by field, from the live state and the entry on file |
| RoomStore.FoldEntry | app_room_e2ee.go:424-499 | the merge itself: live values where there are any, the file's where not, marks only rising |
| RoomStore.SavesOnlyRatchet | app_room_e2ee.go:424-530 | over any sequence of saves, also from sessions that never read the file: owner fixed once set, both epochs and every seen position running maxima, tombstones the running union, no view lost, no chain lost to an empty live one, members disjoint from tombstones |
| RoomStore.TheLastLiveChainIsStored | app_room_e2ee.go:473-481 | after any saves the chain, reservation and marks on file are those of the last session that held a chain, or the file's own where none did |
| RoomStore.SaveKeepsTheStaleMark | app_room_e2ee.go:476-481 | a stale mark survives a save if and only if the session holds a chain, or the file holds none, or the file's is marked too |
| RoomStore.TheLastMembersAreStored | app_room_e2ee.go:464-471 | after any saves the members on file are those of the last session that had any, less everybody removed by any of them or by the file |
| RoomStore.TheLastViewsAreStored | app_room_e2ee.go:484-495 | each view on file is that of the last session to hold the chain, or the file's own |
| RoomStore.TransferRoomState | app_transfer.go:301-332 | ships the members and exactly the well-named views that can be wound to "now" |
| RoomStore.MergeTransferredRoom | app_transfer.go:478-516 | adds views only where none is held, and members less ourselves and our tombstones |
| RoomStore.TransfersStartNow | app_transfer.go:301-332 | a shipped view starts at max(view index, seen + 1), opens nothing recorded as seen and agrees with the held view from there on |
| RoomStore.ShippedExactly | app_transfer.go:301-333 | a view is shipped if and only if it is filed under its own name, its position is known, and it can be wound past |
| RoomStore.TakenExactly | app_transfer.go:478-516 | exactly the well-named views of chains not held are taken, and the members who are neither ourselves nor removed |
| RoomStore.TransferGrantsNoAuthority | app_transfer.go:463-516 | held views stand, nobody removed comes back, owner, epochs, tombstones, seen and our chain are untouched, and a second merge changes nothing |
| Device.App.PersistRoomChain | app_room_e2ee.go:539-558 | the room's entry is the merge of what is live into what is on file |
| Device.App.SaveRoomKeys | app_room_e2ee.go:378-412 | prunes, then merges into the file, unless no key or readable file was to be had |
| Device.App.ReserveChainPositions | internal/client/room_e2ee.go:1455-1504 | a reservation succeeds exactly where none is needed or the save is known to have landed; otherwise the promise is rolled back |
| Device.App.EnsureRoomChainDistributed | internal/client/room_e2ee.go:1289-1362 | sealing may proceed exactly where the room is not encrypted, the chain stands, or its replacement reached everybody with known keys |
| Device.App.SealRoomMessage | internal/client/room_e2ee.go:312-403 | reservation then seal; a failed reservation refuses |
| Device.App.SendRoomMessage | internal/client/chat.go:169-210 | distribution, reservation and seal in that order, each able to refuse |
| Device.App.ApplyRoster | app_room_e2ee.go:931-1014 | an obeyed roster updates membership, marks the chain stale if it removes somebody new, and is saved |
| Device.App.SignedRoster | app_room_e2ee.go:776-803 | a statement of ours claims the next epoch, which is also an owner epoch if we own the room |
| Device.App.RekeyRoom | app_room_e2ee.go:1255-1307 | only the owner may drop names; the dropped are tombstoned and the chain marked stale before the save |
| Device.App.InviteToRoom | app_room_e2ee.go:683-749 | the newcomer is recorded before the bundle is drawn; a send that reports failure takes them out again and re-lays a lifted tombstone |
| Device.App.CreateEncryptedRoom | app_room_e2ee.go:659-679 | marks the room encrypted and pins us as owner unless one is pinned |
| Device.App.ApplyRoomEntry | app_room_e2ee.go:603-623 | restores chains, stale mark, marks, tombstones and members from a file entry |
| Device.App.InstallTransfer | app_transfer.go:408-460 | merges the transferred room into the file and restores the live state from it |
| Device.App.AdoptInviteState | app_room_e2ee.go:1164-1205 | takes in the chains, then the sender, then, with a verified roster, its owner, the owner's word if it is one, and its members |
| Device.App.AcceptRoomInvite | app_room_e2ee.go:1147-1159 | takes the invitation in once the room is joined, and saves |
| Recording.OperationsAreSaved | app_room_e2ee.go:378-422 | after every operation whose save lands the file holds the members, tombstones, chain with its marks, views and positions the session holds; only a stamp claimed after the save is missing from it |
| Recording.JoiningIsSaved | app_room_e2ee.go:1147-1159 | the same of joining by invitation |
| Recording.SavingForgetsTheOld | app_room_e2ee.go:378-422 | a save that gets as far as the file lets go of what is more than 2000 behind, whether or not the write lands |
| Recording.AWithdrawnNewcomerStaysOnFile | app_room_e2ee.go:723-735 | after a failed invitation the session records nobody, and the file and the next process still do if and only if nobody else is a member |
| Sends.SealsExactlyWhere | internal/client/room_e2ee.go:324-386 | a message goes out sealed if and only if the chain stands shared or is started and reaches everybody, its position is promised on file or the promise is known to land, and nothing fails |
| Sends.NewChainsReachTheRoom | internal/client/room_e2ee.go:1306-1362 | whoever a new chain is sealed under for holds it: exactly the other members whose keys are known |
| Sends.UnsharedNeverSeals | internal/client/room_e2ee.go:343-352 | a chain whose broadcast failed is never sealed under |
| Sends.KeylessSendsUseNothing | internal/client/room_e2ee.go:335-386 | without a signing key nothing is sealed, and no position is promised, used or saved |
| Sends.AFailedReservationIsRepeated | internal/client/room_e2ee.go:1493-1503 | a reservation not known to have landed is refused and promises nothing live |
| Sends.SharedExactlyWhereReached | internal/client/room_e2ee.go:1306-1362 | a chain just started is shared if and only if its broadcast reached everybody it was for |
| Sends.RostersRetireExactlyWhere | app_room_e2ee.go:985-1014 | after a roster our chain is due for replacement if and only if it was before or the owner removed somebody new |
| Sends.RekeysRetire | app_room_e2ee.go:1255-1307 | a re-key we may make retires the chain and drops exactly those named; one we may not make changes nothing |
| Sends.PlainRoomsInviteNobody | app_room_e2ee.go:688-690 | nobody is invited into a room that is not encrypted |
| Sends.RestoredMarksBind | app_room_e2ee.go:603-610 | a restored chain is due for replacement if and only if the session or the file says so |
| Positions.StepSound | internal/client/room_e2ee.go:1445-1504 | each step keeps every stored or live chain on its minted chain and past every used position, and the live reservation covered by the file and at most 64 ahead |
| Positions.NoPositionSealedTwice | internal/client/room_e2ee.go:324-371 | from any room not yet spoken in, created or joined, over every run of mints, reservations, seals, failed and unreported saves, crashes, restarts and mid-session restores, no (chain, position) is sealed twice, none is the last a uint32 names, and each message is under its position's own key |
| Positions.SealedMessagesOpen | internal/e2ee/roomchain.go:95-145 | a view on the minted chain opens every message sealed at or after it within the cap, and refuses those before |
| Positions.RefusesRatherThanWrap | internal/client/room_e2ee.go:335-346 | within 64 of the top of uint32, once the positions already promised are used up, nothing more is sealed on the chain |
| Removal.StepIsSafe | app_room_e2ee.go:683-749 | each step within a session seals only under chains no tombstoned name was given, and keeps that so of every chain that can still seal; it keeps the file as safe unless it lifts a tombstone the file holds |
| Removal.RemovalBitesInASession | app_room_e2ee.go:1255-1307 | over every run without a restore, whichever saves, broadcasts and invitations fail, no message is sealed under a chain a currently tombstoned name was ever given, by broadcast, bundle or another member |
| Removal.RemovalBites | internal/client/room_e2ee.go:847-881 | the same across crashes, restarts and transfers, on every prudent run: a new process reads a file that names somebody removed or holds a chain that can seal, a restore in mid-session brings no chain back that a later removal retired, and nobody the file holds removed is let back in |
| RemovalExactly.PrudenceIsExact | app_room_e2ee.go:462-481 | from every safe world and for every step but such a restore, removal bites over every prudent continuation if and only if the step was prudent |
| RemovalExactly.ImportConditionIsExact | app_room_e2ee.go:580-623 | the condition on the restore holds if and only if removal bites over every prudent continuation whoever was given which chain, the state before being safe |
| RemovalExactly.ForgottenTombstoneExposes | app_room_e2ee.go:593-601 | wherever the file holds somebody removed and the session does not, a chain started now and handed on to them is sealed under by the next process, which holds them removed again |
| RemovalExactly.ReadmittedMemberReadsOn | app_room_e2ee.go:1255-1307 | where they are a member again our own broadcast is enough |
| RemovalExactly.UnreadChainExposes | app_room_e2ee.go:476-481 | where a process did not read a file whose chain can seal, a removal it saves leaves that chain in use |
| Joining.AdoptedDisjointExactly | app_room_e2ee.go:1164-1205 | joining by invitation keeps members and tombstones apart if and only if the sender is not removed once the invitation is taken in and it removes nobody held a member |
| Joining.AdoptedMembership | app_room_e2ee.go:1175-1205 | the sender is a member whatever else; the first owner named stays; the members named come in unless removed or ourselves; only the owner's word moves an epoch or a tombstone |
| Joining.AdoptedWordIsNotRolledBack | app_room_e2ee.go:1197-1203 | over every later run no roster at or below the owner's word that came with the invitation changes anything |
| Joining.NewcomersReadFromNow | app_room_e2ee.go:1165-1171 | a device joining by a drawn bundle holds exactly its chains, each from the inviter's own "now": nothing seen before opens, and every key from there on is the inviter's |
| Joining.AdoptingIsSafeExactly | app_room_e2ee.go:1164-1205 | over a room already held, from any safe state: the result is safe if and only if that holds, nobody given the chain in use is tombstoned, and no tombstone the file keeps is lifted |
| Joining.JoiningIsExact | app_room_e2ee.go:1104-1160 | a newly joined room is one the theorems about runs start from; removal bites over every prudent run of it if and only if the owner's roster in the invitation does not remove its own sender |
| RemovalLimits.LiftedTombstonesReturn | app_room_e2ee.go:462-471 | a run from installation on which an invitation lets back in a name the file holds removed, who can then read while held removed |
| RemovalLimits.RosterLiftedTombstonesReturn | app_room_e2ee.go:462-471 | the same where an owner roster lifts the tombstone instead |
| RemovalLimits.ImportRevivesARetiredChain | app_transfer.go:408-460 | a run from installation on which a restore in mid-session brings a retired chain back, and it is sealed under again |
| RemovalLimits.UnreadFileLosesTheMark | app_room_e2ee.go:476-481 | a run from installation on which a process does not read the file, and a removal it saves loses the stale mark |
| Withholding.InviteWithholds | internal/client/room_e2ee.go:1181-1232 | an invitation's bundle opens nothing this process sealed or opened |
| Withholding.InvitationsWithholdTheSession | internal/client/room_e2ee.go:343-361 | over every run, since the process started, nothing sealed or opened earlier is readable from any bundle it sends |
| WithholdingLimits.ARestartWithholdsWhatTheFileSaw | internal/client/room_e2ee.go:1181-1232 | after a restart a bundle holds exactly the chains whose position is on file, above zero and within reach, and position i is refused if and only if the file recorded it as seen or it lies before our own view |
| WithholdingLimits.CrashForgetsWhatWasSaid | internal/client/room_e2ee.go:1204-1214 | across a crash it is not so: a message sealed after the last save is readable from the next bundle |
| Withholding.NeverInTheClear | internal/client/room_e2ee.go:374-386 | a room once encrypted is never written to in the clear, as long as every new process finds the room in its file and reads it |
| Withholding.RestartSpeaksPlainlyExactly | internal/client/room_e2ee.go:374-386 | a new process sends in the clear if and only if it cannot read the file or the room is not in it |
| Withholding.UnsavedRoomSpeaksPlainly | app_room_e2ee.go:659-679 | so a room created encrypted whose save was lost is written to in the clear after a restart |
| Withholding.UnreadFileSpeaksPlainly | internal/client/room_e2ee.go:374-386 | a process that cannot read the file sends in the clear |
| Withholding.MembershipFollowsTheLaws | app_room_e2ee.go:931-1014 | the device's membership moves by exactly the events the roster laws are about |
| Keys.Compact | internal/e2ee/multidevice.go:135-139 | the in-place loop leaves a strictly ascending prefix with exactly the array's keys |
| Keys.DedupeKeys | internal/e2ee/multidevice.go:124-145 | strictly ascending, at most 32, and the same set where at most 32 are listed |
| Keys.CanonicalForgetsOrder | internal/e2ee/multidevice.go:122-145 | the result depends only on which keys are listed |
| Keys.CanonicalIsIdempotent | internal/e2ee/multidevice.go:122-145 | ascending, and a fixed point |
| Keys.CanonicalKeeps | internal/e2ee/multidevice.go:140-144 | a key is dropped if and only if at least 32 smaller ones are listed |
| Keys.KeysOnlyAdded | internal/e2ee/multidevice.go:276-290 | true exactly where every earlier key is still listed |
| Keys.KeyText.EncodeKeys | internal/e2ee/multidevice.go:293-300 | the loop joins the canonical keys |
| Keys.KeyText.DecodeKeys | internal/e2ee/multidevice.go:303-314 | entries that do not parse are skipped, and the rest made canonical |
| Keys.KeyText.KeysRoundTrip | internal/e2ee/multidevice.go:293-314 | decoding what was encoded gives the canonical set |
| Keys.KeyText.StoredNamesTheSet | internal/e2ee/multidevice.go:293-300 | two lists are stored alike if and only if they list the same keys, up to 32, and only the empty list as the empty text |
| Envelopes.SealFor | internal/e2ee/multidevice.go:159-204 | the envelope for the canonical recipients: the single form for one, the slotted form for more, none for none |
| Envelopes.OpenAny | internal/e2ee/multidevice.go:211-269 | the first slot that opens decides; each malformed form is refused as the code refuses it |
| Envelopes.FramedReadsBack | internal/e2ee/stamp.go:66-83 | the stamp and text framed are the stamp and text read |
| Envelopes.OpensForItsRecipientsOnly | internal/e2ee/multidevice.go:159-269 | an envelope opens to the same text and stamp for a device if and only if it is among the canonical recipients, which is all that were listed up to 32; anybody else gets an error |
| Envelopes.LegacyOpens | internal/e2ee/e2ee.go:128-158 | the older single form opens for its recipient alone, without a stamp |
| Envelopes.LegacyManyOpen | internal/e2ee/multidevice.go:211-269 | the older slotted form opens for exactly those it is sealed to, without a stamp |
| Envelopes.OnlyWellFormedOpens | internal/e2ee/multidevice.go:211-269 | nothing opens but a known prefix over decodable text with a nonce, or with its prefix's version, a count from 1 to 32 and all the slots promised |
| ChainDist.DistinctKeys | internal/e2ee/chaindist.go:190-201 | the first occurrences, in order, without a cap |
| ChainDist.EncodeChainBroadcast | internal/e2ee/chaindist.go:75-120 | one 80-byte slot per distinct recipient behind the header, or the refusal |
| ChainDist.DecodeChainBroadcast | internal/e2ee/chaindist.go:128-185 | walks the slots past any that bear our label and do not open |
| ChainDist.EncodeChainBundle | internal/e2ee/chaindist.go:212-236 | refused exactly for more than 580 views or a chain ID that is not eight bytes |
| ChainDist.DecodeChainBundle | internal/e2ee/chaindist.go:239-265 | accepts exactly the byte strings whose length matches their count, up to 580 |
| ChainDist.BundleRoundTrip | internal/e2ee/chaindist.go:212-265 | a bundle reads back as the views it was made from |
| ChainDist.BundleWritesBack | internal/e2ee/chaindist.go:212-265 | every accepted byte string is what the writer makes of the views read from it |
| Distribution.BroadcastOpens | internal/e2ee/chaindist.go:128-185 | a broadcast yields the sent view if and only if one of the keys looked for is among the recipients, however labels collide; otherwise a refusal, which is "no slot" exactly where no label matches |
| Distribution.OneDevice | internal/e2ee/chaindist.go:128-185 | a device with one key pair reads exactly the sent view if addressed and nothing if not |
| Distribution.MalformedExactly | internal/e2ee/chaindist.go:128-150 | for any body: malformed if and only if it is not the prefix over decodable text with the version, a count from 1 to 580 and all the slots promised |
| Distribution.FirstSlotDecides | internal/e2ee/chaindist.go:150-185 | of any broadcast in form the first slot with a label of ours that opens gives the view; otherwise it says whether one bore a label of ours |
| Distribution.AnySenderOpens | internal/e2ee/chaindist.go:163-178 | a slot opens if and only if it opens to 32 bytes under one of the sender's keys |
| Distribution.SendChain | internal/client/room_e2ee.go:1306-1362 | each message sent carries its chunk of 580; without a key or a connection to the room nothing is sent; the chain is marked shared exactly where the chunks sent cover everybody |
| Distribution.EveryDeviceIsReached | internal/client/room_e2ee.go:1306-1362 | once shared, a device reads the view from some message if and only if it is a known device of another member, and no message yields any other view |
| Distribution.EveryMessageFits | internal/e2ee/chaindist.go:46-49 | no message exceeds 580 slots or 65,535 bytes of base64 |
| Manifests.TrustBook.AcceptCounter | app_keydir.go:193-272 | which counters are believed and how the pin moves, for ourselves and for peers |
| Manifests.TrustBook.VerifyManifest | app_keydir.go:98-182 | memo, then each check in the code's order, then the counter rule; a refusal changes nothing; a statement of our own account moves our standing |
| Manifests.TrustBook.OnSelfManifest | app_keydir.go:282-331 | another identity unlinks and signs out; not being listed does so only if we were listed before |
| Manifests.UsableDevices | app_keydir.go:339-354 | devices with a box key we cannot use are skipped |
| Manifests.TrustBook.PublishManifest | app_keydir.go:368-465 | the two-attempt loop: what is sent, how it ends and what is recorded |
| Manifests.TrustBook.Devices | app_keydir.go:537-552 | the devices of the last manifest, this machine's entry replaced and last |
| Manifests.TrustBook.NotePeerKey | app_e2ee.go:182-202 | records the key set seen, touching neither pin nor verification |
| Manifests.TrustBook.MarkVerified | app_e2ee.go:349-368 | verifies exactly the pinned identity, if there is one |
| Manifests.TrustBook.Unverify | app_e2ee.go:372-390 | drops the verification and keeps the pin |
| Manifests.TrustBook.PeerHasPublishedBefore | app_e2ee.go:409-415 | whether a key set was ever recorded for the peer |
| ManifestLaws.PublishingClimbs | app_keydir.go:368-465 | at most two statements, the second above the first and above the server's counter; all of them in 1..MaxInt64 if and only if the pin was below MaxInt64 |
| ManifestLaws.PinMovesOnlyWhenStored | app_keydir.go:411-443 | the pin moves only for a stored publish, to exactly that statement, and upward |
| ManifestLaws.PublishedIsReadBack | app_keydir.go:411-443 | the published bytes are believed on re-read at once, and after a restart if and only if the counter stayed in range |
| ManifestLaws.PublishedExactlyWhere | app_keydir.go:368-465 | publishing succeeds if and only if the statement one above the pin is stored, or is refused for a counter with room above it and the statement one above that is; exactly those are sent |
| ManifestLaws.PublishingEnds | app_keydir.go:368-465 | every way it ends, from the last statement sent and the answer to it |
| SignatureLaws.BelievedExactlyWhere | app_keydir.go:114-182 | what is not memoized is believed if and only if it is present, current, of this account, in range, signed by the identity in its own bytes, and acceptable; otherwise neither the book nor our standing changes |
| SignatureLaws.BelievedWasSigned | app_keydir.go:98-182 | memo included, over every run from sign-on devices are taken only from bytes that are in order, came in order before, or that we signed |
| SignatureLaws.PeersAreBelievedOnlySigned | app_keydir.go:98-182 | so for another account a valid signature over those very bytes exists |
| DeviceLists.RefusedExactlyWhere | app_keydir.go:193-272 | a manifest in order is refused if and only if it is of the identity pinned and behind the pin, or another statement at its counter |
| DeviceLists.BelievedPinsThePeer | app_keydir.go:225-272 | a peer believed is pinned to that identity and statement, and nothing else of them or of anybody changes |
| DeviceLists.BelievedIsRemembered | app_keydir.go:168-175 | once believed it answers again without a check and without a change |
| DeviceLists.UsableExactly | app_keydir.go:339-354 | exactly the devices with an X25519 key are used, in the order listed, with their signing key where it is an Ed25519 key |
| DeviceLists.StandingExactly | app_keydir.go:282-331 | after news of our own account we hold the devices it lists, are linked if and only if it is of our identity and lists us, and a sign-out stays |
| DeviceLists.CurrentExactly | app_keydir.go:537-552 | what we would publish is the other devices last listed and this one once, last |
| DeviceLists.ConfirmsExactly | app_e2ee.go:349-368 | verifying a peer verifies the identity pinned now and changes nothing else |
| DeviceLists.UnconfirmsExactly | app_e2ee.go:372-390 | dropping the verdict keeps a pinned identity, its counter and the record of keys |
| DeviceLists.NotesExactly | app_e2ee.go:182-202 | the record of a peer's keys is of the latest set noted, and nothing else moves |
| PinLaws.LostReplyHeals | app_keydir.go:391-394 | an upload stored without an answer is believed when next read |
| PinLaws.MemoAnswersAsTheCheckWould | app_keydir.go:98-113 | in every reachable state, for correctly signed repeats, the memo answers what the full check would and the full check would change nothing, if and only if the counter is in range; only our own can be out of it |
| PinLaws.PeerPinClimbs | app_keydir.go:225-272 | while an identity stays pinned its counter never falls and its digest never changes at one counter; only the user's own verdict moves the verified identity |
| PinLaws.PeerPinClimbsInARun | app_keydir.go:225-272 | the same over every run that keeps the identity |
| PinLaws.NoRollback | app_keydir.go:184-272 | once a manifest is believed, then while the identity stays pinned no other manifest of it at or below that counter ever is, by memo or check |
| PinLaws.OwnPinClimbs | app_keydir.go:196-223 | our own counter never falls, short of wrapping, and our pinned identity changes only by publishing |
| PinLaws.NoOwnRollback | app_keydir.go:196-223 | once our pin stands at a statement, then while it stays under that identity no other statement of it at or below that counter is believed, by memo or check, over every run |
| PinLaws.PublishedIsNotRolledBack | app_keydir.go:411-443 | so after a stored publish every lower-counter replay under that identity, and every other statement at its counter, is refused |
| PinLaws.SignsOutExactlyWhere | app_keydir.go:282-331 | a device signs itself out if and only if an unmemoized statement of its own account is believed and is under another identity than the pinned one or drops a device that was listed |
| PinLaws.ReplayMovesNothing | app_keydir.go:282-331 | no replay of an older list of ours moves our standing or signs us out |
| PinLaws.UnsavedPinIsForgotten | app_keydir.go:258-260 | a pin whose save failed is gone after a restart, and the older manifest is believed |
| Identities.IdentityFlow.BeginIdentitySetup | app_identity.go:207-249 | shows a key only where the directory says no backup exists; the one already waiting, if there is one |
| Identities.IdentityFlow.ConfirmIdentitySetup | app_identity.go:260-315 | uploads unless already stored, then publishes; anything short of both keeps the pending identity |
| Identities.IdentityFlow.CancelIdentitySetup | app_identity.go:321-330 | forgets what was pending and nothing else |
| Identities.IdentityFlow.BeginRecoveryKeyRotation | app_recovery.go:70-121 | shows a key only where the current key opened the stored backup, or the one already waiting; never during setup |
| Identities.IdentityFlow.ConfirmRecoveryKeyRotation | app_recovery.go:139-181 | re-wraps the same identity; the rotation is over only on a stored reply |
| Identities.IdentityFlow.CancelRecoveryKeyRotation | app_recovery.go:187-196 | forgets the waiting rotation and nothing else |
| Identities.AlwaysRecoverable | app_identity.go:207-330 | over every run of setup, rotation, retry, cancel and crash, with uploads applied or not whatever is replied, a stored backup opens under a key the user kept |
| Identities.TheIdentityNeverChanges | app_recovery.go:70-196 | once stored, the identity inside is the same for good on every run on which no denial of the stored backup lets a setup mint another |
| Identities.OnlyADenialEndangers | app_identity.go:207-249 | that condition is exact: the stored identity stays for good after a step if and only if the step was not such a setup |
| Identities.ADeniedBackupIsReplaced | app_identity.go:215-227 | one false "no backup" is enough for it to be replaced |
| Identities.OnlyConfirmationWrites | app_recovery.go:64-69 | no step but a confirmation changes what is stored |
| Identities.TheSameKeyIsShown | app_recovery.go:86-92 | while a key waits, asking again shows that key; setup and rotation exclude each other |
| Identities.WhichKeyWorks | app_recovery.go:154-163 | after a confirmation the old key works if and only if the upload was not applied, the new one if and only if it was |
| Identities.ConfirmedIsOver | app_recovery.go:165-173 | a confirmed setup or rotation no longer waits, an unconfirmed one does, and neither touches the other |
| Identities.AfterARotationTheNewKeyIsAsked | app_recovery.go:70-121 | after a confirmed rotation, over every truthful run until another begins, a key is shown for rotation if and only if the presented one opens the backup: the key just confirmed if its upload was stored; and it is the same identity that then waits |
| Identities.AfterASetupNothingWaits | app_identity.go:296-315 | after a confirmed setup what a later one shows is a key of its own |
| Identities.SetupShowsExactly | app_identity.go:207-249 | a setup shows a key if and only if the directory answers that no backup exists: the one that waits, or a new one that then waits |
| Identities.RotationShowsExactly | app_recovery.go:70-121 | a rotation shows one if and only if no setup waits, and one of its own waits or the presented key opened the backup |
| Identities.RetriesAgree | app_identity.go:268-287 | a retry uploads nothing after a stored reply, and the same backup before it |
| Transfers.MergeTransferredConversations | app_transfer.go:587-642 | the fold over transferred threads through the index, restored as read; untouched where nothing was added |
| Transfers.MergeRoomMessages | internal/state/state.go:1079-1117 | appends the unseen, sorts stably by time and keeps the newest thousand |
| Transfers.MergeNames | app_transfer.go:656-670 | each non-empty name of either list, once |
| Transfers.ByTimeIsAStableSort | app_transfer.go:627-629 | a permutation, ordered by time, keeping the order of messages at one instant |
| TransferLaws.KeyNamesTheMessage | app_transfer.go:647-653 | two messages have one key if and only if direction, names, second and text are the same |
| TransferLaws.InstallConserves | app_transfer.go:587-642 | in the store each thread ends as a permutation of what it had and what it missed, in order of time; without additions nothing is touched, with them every other thread is as it was, but read |
| TransferLaws.ImportConserves | app_transfer.go:587-642 | each thread ends as a permutation of what it had and the cleaned messages it missed, in order of time; a thread that missed nothing is untouched |
| TransferLaws.BroughtSaysTheSame | app_transfer.go:533-544 | whatever the bundle brings for a thread stands one to one, in order, for its own messages: same names, direction and words, at the stamp or at the clock where that was ahead |
| TransferLaws.EveryMessageArrives | app_transfer.go:587-642 | every message of the bundle is in its thread after the import, with its direction, names, words and the second of its clamped stamp |
| TransferLaws.NothingIsInvented | app_transfer.go:587-642 | what was not in a thread before is what some message of the bundle for that thread said |
| TransferLaws.ThreadsAreKeptOrEntered | app_transfer.go:600-637 | besides its messages a thread is left as it was, read or not; a new one is entered if and only if the bundle brings it something, hidden if the first to bring anything was |
| TransferLaws.ImportingAgainExactly | app_transfer.go:587-642 | for every store, both bundles and both times: a second import changes nothing if and only if every message it brings has, at that time, the key of one the thread had or the first import brought |
| TransferLaws.ImportingTwiceIsImportingOnce | app_transfer.go:587-642 | so importing the same bundle again at any later time changes nothing where no stamp was ahead |
| TransferLaws.AheadOfTheClockComesTwice | app_transfer.go:533-544 | for one message brought into an empty store: it comes in again if and only if its two clamped stamps fall into different seconds |
| TransferLaws.NoBadgeIsImported | app_transfer.go:518-544 | no lock, signature or sender check in a thread after an import was not there before, and nothing new is ahead of the clock |
| RoomHistoryLaws.OfferingExactly | internal/state/state.go:1079-1117 | offering messages to a room changes nothing if and only if it lacks none of them, or is full, in order, and all it lacks are strictly older than all it holds |
| RoomHistoryLaws.RoomConserves | internal/state/state.go:1079-1117 | what a room held and what it lacked is kept or dropped; only what is beyond a thousand is dropped, and nothing dropped is newer than anything kept |
| RoomHistoryLaws.RoomKeyNamesTheMessage | internal/state/state.go:1122-1124 | two room messages have one key if and only if author, second and text are the same |
| RoomHistoryLaws.LandedSaysTheSame | app_transfer.go:411-427 | room messages land one to one, in order, saying what they said |
| RoomHistoryLaws.ImportingARoomTwice | app_transfer.go:546-570 | so for a second import of room history at any other time, each import clamping the stamps by its own clock |
| RoomHistoryLaws.MergingTwice | internal/state/state.go:1079-1117 | offering the same messages twice changes nothing more if and only if whatever the first left out is strictly older than all it kept |
| RoomHistoryLaws.OneTooManyAtOnce | internal/state/state.go:1102-1109 | a thousand and one messages at one instant come in differently the second time |
| Transfers.ImportRoomHistory | app_transfer.go:411-427 | transferred room messages land encrypted and without an envelope, and are merged |
| Transfers.RoomHistorySince | internal/client/room_e2ee.go:760-798 | what is served to a returning member: envelopes as they are, text only of what was never encrypted, nothing forged |
| RoomHistoryLaws.ImportedHistoryIsNotRelayed | app_transfer.go:546-570 | after an import whatever is served was held before it: imported words are relayed nowhere |
| RoomHistoryLaws.NoBadgeIntoARoom | app_transfer.go:546-570 | what an import adds to a room carries no sender check, signature or envelope, and can never be relayed |
| RoomHistoryLaws.ServedExactly | internal/client/room_e2ee.go:760-798 | catch-up serves exactly what is newer, not forged and can go out as it came, in the room's order: with its envelope and no words, or with its words if it was never encrypted |
| Messenger.Client.LearnFromManifest | internal/client/keydir.go:521-559 | keys are learned only from a believed manifest of somebody else, and recorded in the trust file as they are cached |
| Messenger.Client.LearnPeerKeys | internal/client/e2ee.go:42-64 | an empty set teaches nothing; otherwise the set is cached and noted |
| Messenger.Client.ForgetPeerKeys | internal/client/e2ee.go:140-145 | empties the cache and leaves the record |
| Messenger.Client.PeerKnownToHavePublished | internal/client/keydir.go:640-648 | keys cached, or a record of them |
| Messenger.Client.RefreshPeerKeys | internal/client/keydir.go:342-399 | "absent" only without a directory, or for a present answer about somebody never known to have keys |
| Messenger.Client.SealOutbound | internal/client/client.go:439-487 | encrypt, refuse or send in the clear |
| MessengerLaws.BelievingRecords | app_e2ee.go:182-202 | the cache and the lasting record grow by exactly the account whose believed manifest named a usable device, and never shrink |
| MessengerLaws.OnlyListedDevicesRead | internal/client/keydir.go:521-559 | after a manifest is believed, a message to its account opens for exactly the devices the manifest names, up to 32, and for no other key |
| MessengerLaws.InTheClearExactlyWhere | internal/client/client.go:439-487 | to somebody on record, plaintext goes out if and only if encryption is off or keyless, or no directory is offered and no keys are cached; otherwise exactly the envelope for the cached keys, or nothing |
| MessengerLaws.ClearToAnybodyExactlyWhere | internal/client/client.go:439-487 | for anybody, on record or not: plaintext if and only if encryption is off or keyless, or no keys are cached and there is no directory or it answers in time that there is nothing and nothing was on record |
| MessengerLaws.SealedToAnybodyExactlyWhere | internal/client/client.go:439-487 | sealed if and only if encryption is on and keys are cached or taught in time, and then to those keys |
| MessengerLaws.UnsignedTeachesNothing | internal/client/keydir.go:521-559 | an answer neither in order nor memoized teaches no key and changes nothing |
| MessengerLaws.OnceKnownNeverClear | internal/client/keydir.go:342-399 | over every run, a peer once on record is never written to in the clear while encryption is on and a directory is offered, whatever it answers |
| MessengerLaws.SavedRunsLast | app_e2ee.go:182-202 | the record outlives every restart where the saves land, and needs no save where there is none |
| MessengerLaws.WithoutADirectoryItIsClear | internal/client/keydir.go:352-361 | with no directory and nothing cached the record is not asked, and plaintext goes out |

## Left out

- The network, the FLAP and SNAC codecs, the chat join flow, the tray, sounds, themes and the user interface: presentation and I/O.
- Cryptographic internals, and forgery: signatures on rosters and room messages are taken as checked before the model sees them.
- The legacy shared room key and the profile markers, superseded by chains and the key directory; the room paths are those of a room that has moved to chains.
- Stored chains and views that do not decode: a file entry is modelled as what it decodes to, so the logged and skipped damage is not.
- Concurrent sends to one room: a reservation and the seal after it are one step, as the program serialises them per room.
- Re-forming a room under a new name, and the queue of pending invitations. Joining by invitation is a place runs start from, and one operation over a room already held; it is not a step within runs.
- Catch-up beyond the choice of what is served: who may ask, how an answer is verified, and the join times that bound it.
- Liveness: after a failed broadcast a chain stays unshared and sends are refused until something retires it (`Sends.UnsharedNeverSeals`); that anything does is not shown.
- Notices, and the closing of the session that follows a sign-out; that a device is signed out, and why, is modelled.
- Linking and removing a device, which fetch the backup and the manifest and publish through the modelled operations; the pin repair after linking changes nothing once the publish before it has succeeded.
- The expiry of cached peer keys after twenty minutes: it only decides when a refresh starts in the background, and a refresh may happen at any point of a run here.
- Duplicate detection by message ID, which is a bounded memory of one session and drops everything when full.
- A delayed upload of an identity backup that is stored after a later one, and an administrator's clearing of the directory: uploads here are applied, if at all, when they are made.
- A trust file that cannot be read back when it is about to be rewritten: it is modelled as always readable by its writer.
- PeerPinClimbs: says nothing of counters across a change of identity, because one pin is kept per peer and a returning identity starts over.
- RemovalBites: is claimed only for prudent runs, because the code does not keep it on others. The conditions on restarting and readmitting are exact for every safe world and step (PrudenceIsExact). The one on a restore in mid-session depends on who was given the file's chain, which no device knows; it is exact over everybody who may have been (ImportConditionIsExact).
- NeverInTheClear: is claimed only where every new process finds the room in its file and reads it, because a process sends in the clear exactly where it does not (RestartSpeaksPlainlyExactly).
- TheIdentityNeverChanges: is claimed for runs without a denial that lets a setup mint over a stored backup, because one is enough to replace it, and nothing else can (OnlyADenialEndangers).
- EveryDeviceIsReached: is about devices whose keys are known when the chain is sent; members without known keys are skipped by the code with a logged warning.
