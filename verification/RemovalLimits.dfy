/**
 * Where removal does not bite, from a fresh installation: runs that break one condition
 * of `Removal.Prudent` each, and then seal a message to somebody held removed.
 */
module RemovalLimits {
  import opened Words
  import opened Ratchet
  import opened RoomChains
  import opened Members
  import opened RoomStore
  import opened Device
  import opened History
  import opened Removal
  import opened RemovalExactly

  const OWNER: Name := "owner"
  const DAVE: Name := "dave"
  const FIRST: ChainId := [1]
  const SECOND: ChainId := [2]

  const CREATES := Create(Written)
  const INVITES_DAVE := Step.Invite(DAVE, InviteEnv(true, true, 0, 0, Written, Written))
  const READMITS_DAVE := Receive(Roster(100, [DAVE], [], OWNER, OWNER), Written)
  const REMOVES := Rekey({DAVE}, 0, Written)
  const REMOVES_UNSAVED := Rekey({DAVE}, 0, Lost)
  const IMPORTS := Import(None, true)

  /** A send whose new chain is never recorded: nothing leaves, and the stale mark is gone. */
  function StartsUnrecorded(c: ChainId, seed: Bytes32): Step {
    Send(SendEnv(Some(Chain(c, seed, 0)), Delivery({}, true, true, {}), true, Failed, NoFault))
  }

  /** The run can happen, and some seal in it is unsafe. */
  predicate Breaks(kdf: Kdf, w: World, steps: seq<Step>) {
    AllPossible(kdf, OWNER, w, steps) && !AllSealSafely(kdf, OWNER, w, steps)
  }

  lemma First(kdf: Kdf, w: World, step: Step, rest: seq<Step>)
    requires Possible(w, step) && Breaks(kdf, Next(kdf, OWNER, w, step), rest)
    ensures Breaks(kdf, w, [step] + rest)
  {
    assert ([step] + rest)[1..] == rest;
  }

  function Founded(kdf: Kdf): World {
    Next(kdf, OWNER, INSTALLED, CREATES)
  }

  /** An owned, encrypted room that needs a chain and has never had one. */
  predicate Ready(w: World) {
    && w.dev.members.owner == OWNER && w.dev.chains.encrypted && NeedsChain(w.dev.chains)
    && w.dev.chains.out.None? && w.dev.chains.views == map[]
    && w.minted == map[] && w.given == map[]
    && w.dev.disk.Some? && w.dev.disk.value.out.None? && w.dev.disk.value.owner == OWNER
    && Max(w.dev.members.epoch, w.dev.members.ownerEpoch) < 50
  }

  lemma FoundedIsReady(kdf: Kdf)
    ensures var w := Founded(kdf); Ready(w) && w.dev.members.removed == {} && w.dev.disk.value.removed == {}
    ensures Possible(INSTALLED, CREATES)
  {
  }

  // --- Tombstones the file keeps ---------------------------------------------------------

  lemma DaveRemoved(kdf: Kdf)
    ensures var w := Next(kdf, OWNER, Founded(kdf), REMOVES);
      Ready(w) && DAVE in w.dev.members.removed && DAVE in w.dev.disk.value.removed
  {
    FoundedIsReady(kdf);
  }

  lemma InvitedBack(kdf: Kdf, w: World)
    requires Ready(w) && DAVE in w.dev.members.removed && DAVE in w.dev.disk.value.removed
    ensures var v := Next(kdf, OWNER, w, INVITES_DAVE);
      v.dev.disk.Some? && DAVE in v.dev.disk.value.removed && DAVE in v.dev.members.invited && NewName(v, FIRST)
  {
    FileKeepsTombstones(kdf, OWNER, w, INVITES_DAVE);
    assert Admitting(kdf, w.dev, DAVE, INVITES_DAVE.invitation).chains.views == map[];
  }

  lemma ListedAgain(kdf: Kdf, w: World)
    requires Ready(w) && DAVE in w.dev.members.removed && DAVE in w.dev.disk.value.removed
    ensures var v := Next(kdf, OWNER, w, READMITS_DAVE);
      v.dev.disk.Some? && DAVE in v.dev.disk.value.removed && DAVE in v.dev.members.invited && NewName(v, FIRST)
  {
    FileKeepsTombstones(kdf, OWNER, w, READMITS_DAVE);
    assert DAVE in Names([DAVE]);
  }

  lemma ReadmittedThenRestarted(kdf: Kdf, seed: Bytes32, readmits: Step)
    requires var w := Next(kdf, OWNER, Founded(kdf), REMOVES);
      var v := Next(kdf, OWNER, w, readmits);
      && Possible(w, readmits)
      && v.dev.disk.Some? && DAVE in v.dev.disk.value.removed && DAVE in v.dev.members.invited && NewName(v, FIRST)
    ensures Breaks(kdf, INSTALLED, [CREATES] + ([REMOVES] + ([readmits] + BroadcastTo(FIRST, seed, DAVE))))
  {
    var w := Next(kdf, OWNER, Founded(kdf), REMOVES);
    ReadmittedMemberReadsOn(kdf, OWNER, Next(kdf, OWNER, w, readmits), FIRST, seed, DAVE);
    First(kdf, w, readmits, BroadcastTo(FIRST, seed, DAVE));
    First(kdf, Founded(kdf), REMOVES, [readmits] + BroadcastTo(FIRST, seed, DAVE));
    First(kdf, INSTALLED, CREATES, [REMOVES] + ([readmits] + BroadcastTo(FIRST, seed, DAVE)));
  }

  /**
   * A tombstone the owner lifts stays in the file, because saves union removals. After a
   * restart the readmitted member is held removed again, and the chain they were given
   * in between is still in use.
   */
  lemma LiftedTombstonesReturn(kdf: Kdf, seed: Bytes32)
    ensures Breaks(kdf, INSTALLED, [CREATES] + ([REMOVES] + ([INVITES_DAVE] + BroadcastTo(FIRST, seed, DAVE))))
  {
    DaveRemoved(kdf);
    InvitedBack(kdf, Next(kdf, OWNER, Founded(kdf), REMOVES));
    ReadmittedThenRestarted(kdf, seed, INVITES_DAVE);
  }

  /** The same where it is a roster that lifts the tombstone. */
  lemma RosterLiftedTombstonesReturn(kdf: Kdf, seed: Bytes32)
    ensures Breaks(kdf, INSTALLED, [CREATES] + ([REMOVES] + ([READMITS_DAVE] + BroadcastTo(FIRST, seed, DAVE))))
  {
    DaveRemoved(kdf);
    ListedAgain(kdf, Next(kdf, OWNER, Founded(kdf), REMOVES));
    ReadmittedThenRestarted(kdf, seed, READMITS_DAVE);
  }

  // --- Chains the file keeps ---------------------------------------------------------------

  function Joined(kdf: Kdf): World {
    Next(kdf, OWNER, Founded(kdf), INVITES_DAVE)
  }

  lemma DaveJoins(kdf: Kdf)
    ensures Ready(Joined(kdf)) && DAVE in Joined(kdf).dev.members.invited
    ensures Joined(kdf).dev.members.removed == {} && Joined(kdf).dev.disk.value.removed == {}
  {
    FoundedIsReady(kdf);
    assert Admitting(kdf, Founded(kdf).dev, DAVE, INVITES_DAVE.invitation).chains.views == map[];
  }

  function Spoken(kdf: Kdf, seed: Bytes32): World {
    Next(kdf, OWNER, Joined(kdf), Starts(FIRST, seed, {DAVE}))
  }

  /** The owner has spoken, under a chain Dave was given; the file holds it. */
  predicate DaveReads(w: World) {
    && w.dev.members.owner == OWNER
    && w.dev.disk.Some? && FileSeals(w.dev.disk.value) && w.dev.disk.value.out.value.id == FIRST
    && w.dev.chains.encrypted
    && DAVE in GivenTo(w.given, FIRST) && SECOND !in w.minted && SECOND !in w.given
  }

  lemma DaveIsGiven(kdf: Kdf, seed: Bytes32)
    ensures DaveReads(Spoken(kdf, seed))
  {
    DaveJoins(kdf);
    StartsAndSeals(kdf, OWNER, Joined(kdf).dev, FIRST, seed, {DAVE});
    StaysEncrypted(kdf, OWNER, Joined(kdf).dev, Starts(FIRST, seed, {DAVE}).env);
  }

  lemma StaysEncrypted(kdf: Kdf, self: Name, d: Device, env: SendEnv)
    ensures Sending(kdf, d, env, self).chains.encrypted == d.chains.encrypted
  {
    assert Reserving(kdf, Distributing(d, env, self), env.persist).chains.encrypted == d.chains.encrypted;
  }

  lemma AfterSpeaking(kdf: Kdf, seed: Bytes32, rest: seq<Step>)
    requires Breaks(kdf, Spoken(kdf, seed), rest)
    ensures Breaks(kdf, INSTALLED, [CREATES] + ([INVITES_DAVE] + ([Starts(FIRST, seed, {DAVE})] + rest)))
  {
    DaveJoins(kdf);
    First(kdf, Joined(kdf), Starts(FIRST, seed, {DAVE}), rest);
    First(kdf, Founded(kdf), INVITES_DAVE, [Starts(FIRST, seed, {DAVE})] + rest);
    First(kdf, INSTALLED, CREATES, [INVITES_DAVE] + ([Starts(FIRST, seed, {DAVE})] + rest));
  }

  function RemovalUnsavedThenImport(seed: Bytes32): seq<Step> {
    [REMOVES_UNSAVED] + ([StartsUnrecorded(SECOND, seed)] + ([IMPORTS] + [SENDS_ON]))
  }

  lemma RemovedUnsaved(kdf: Kdf, w: World)
    requires w.dev.members.owner == OWNER && w.dev.chains.encrypted && w.dev.disk.Some?
    ensures var v := Next(kdf, OWNER, w, REMOVES_UNSAVED);
      && v.dev.disk == w.dev.disk && DAVE in v.dev.members.removed
      && v.dev.chains.encrypted && v.dev.chains.stale && v.minted == w.minted && v.given == w.given
  {
  }

  lemma StartedUnrecorded(kdf: Kdf, w: World, seed: Bytes32)
    requires w.dev.chains.encrypted && w.dev.chains.stale && SECOND !in w.given
    ensures var v := Next(kdf, OWNER, w, StartsUnrecorded(SECOND, seed));
      && v.dev.disk == w.dev.disk && v.dev.members == w.dev.members && !v.dev.chains.stale
      && GivenTo(v.given, FIRST) == GivenTo(w.given, FIRST)
  {
    var env := StartsUnrecorded(SECOND, seed).env;
    var d := Distributing(w.dev, env, OWNER);
    assert d.chains.out == Some(Chain(SECOND, seed, 0)) && d.chains.reserved == 0;
    assert Sealing(kdf, d, env) == Reserving(kdf, d, Failed);
  }

  lemma ImportedExposes(kdf: Kdf, s: World)
    requires s.dev.disk.Some? && FileSeals(s.dev.disk.value) && s.dev.disk.value.out.value.id == FIRST
    requires !s.dev.chains.stale && DAVE in s.dev.members.removed && DAVE in GivenTo(s.given, FIRST)
    ensures Breaks(kdf, s, [IMPORTS] + [SENDS_ON])
  {
    OneSendExposes(kdf, OWNER, Next(kdf, OWNER, s, IMPORTS), DAVE);
    First(kdf, s, IMPORTS, [SENDS_ON]);
  }

  lemma RemovedUnsavedThenImported(kdf: Kdf, w: World, seed: Bytes32)
    requires DaveReads(w)
    ensures Breaks(kdf, w, RemovalUnsavedThenImport(seed))
  {
    RemovedUnsaved(kdf, w);
    var r := Next(kdf, OWNER, w, REMOVES_UNSAVED);
    StartedUnrecorded(kdf, r, seed);
    ImportedExposes(kdf, Next(kdf, OWNER, r, StartsUnrecorded(SECOND, seed)));
    First(kdf, r, StartsUnrecorded(SECOND, seed), [IMPORTS] + [SENDS_ON]);
    First(kdf, w, REMOVES_UNSAVED, [StartsUnrecorded(SECOND, seed)] + ([IMPORTS] + [SENDS_ON]));
  }

  /**
   * A removal whose save failed is forgotten by the file. Once the replacement chain is
   * started the live mark is gone too, and a restore in mid-session reinstalls the file's
   * chain.
   */
  lemma ImportRevivesARetiredChain(kdf: Kdf, seed: Bytes32)
    ensures Breaks(kdf, INSTALLED,
      [CREATES] + ([INVITES_DAVE] + ([Starts(FIRST, seed, {DAVE})] + RemovalUnsavedThenImport(seed))))
  {
    DaveIsGiven(kdf, seed);
    RemovedUnsavedThenImported(kdf, Spoken(kdf, seed), seed);
    AfterSpeaking(kdf, seed, RemovalUnsavedThenImport(seed));
  }

  function UnreadThenRemoved(): seq<Step> {
    [Restart(false)] + ([CREATES_UNSAVED] + ([REMOVES] + [Restart(true), SENDS_ON]))
  }

  lemma FoundedAgain(kdf: Kdf, w: World)
    requires w.dev.disk.Some?
    ensures var y := Next(kdf, OWNER, Next(kdf, OWNER, w, Restart(false)), CREATES_UNSAVED);
      && y.dev.chains.encrypted && y.dev.chains.out.None? && y.dev.members.owner == OWNER
      && y.dev.disk == w.dev.disk && y.given == w.given
  {
  }

  lemma RemovedUnread(kdf: Kdf, w: World)
    requires DaveReads(w)
    ensures Breaks(kdf, w, UnreadThenRemoved())
  {
    FoundedAgain(kdf, w);
    var x := Next(kdf, OWNER, w, Restart(false));
    var y := Next(kdf, OWNER, x, CREATES_UNSAVED);
    RemovingBlind(kdf, OWNER, y.dev, DAVE);
    RestartExposes(kdf, OWNER, Next(kdf, OWNER, y, REMOVES), DAVE);
    First(kdf, y, REMOVES, [Restart(true), SENDS_ON]);
    First(kdf, x, CREATES_UNSAVED, [REMOVES] + [Restart(true), SENDS_ON]);
    First(kdf, w, Restart(false), [CREATES_UNSAVED] + ([REMOVES] + [Restart(true), SENDS_ON]));
  }

  /**
   * In a process that could not read the file, a removal is saved without its mark: the
   * merge keeps the file's chain, and the file's mark with it.
   */
  lemma UnreadFileLosesTheMark(kdf: Kdf, seed: Bytes32)
    ensures Breaks(kdf, INSTALLED, [CREATES] + ([INVITES_DAVE] + ([Starts(FIRST, seed, {DAVE})] + UnreadThenRemoved())))
  {
    DaveIsGiven(kdf, seed);
    RemovedUnread(kdf, Spoken(kdf, seed));
    AfterSpeaking(kdf, seed, UnreadThenRemoved());
  }
}
