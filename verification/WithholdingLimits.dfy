/** Where an invitation does reach back: positions a crash forgot were ever used. */
module WithholdingLimits {
  import opened Words
  import opened Ratchet
  import opened RoomChains
  import opened Members
  import opened RoomStore
  import opened Device
  import opened History
  import ChainLaws

  const OWNER: Name := "owner"
  const EVE: Name := "eve"
  const ONLY: ChainId := [1]

  function Says(minted: Option<Chain>): Step {
    Send(SendEnv(minted, Delivery({}, false, false, {}), true, Persisted, NoFault))
  }

  /** The owner speaks twice, the room is saved, and the owner speaks a third time. */
  function SpokenSinceTheSave(kdf: Kdf, seed: Bytes32): World {
    var saved := Next(kdf, OWNER, SpokenTwice(kdf, seed), Save(Written));
    Next(kdf, OWNER, saved, Says(None))
  }

  function SpokenTwice(kdf: Kdf, seed: Bytes32): World {
    var created := Next(kdf, OWNER, INSTALLED, Create(Written));
    var spoken := Next(kdf, OWNER, created, Says(Some(Chain(ONLY, seed, 0))));
    Next(kdf, OWNER, spoken, Says(None))
  }

  /** After `n` messages: the last position seen, 64 positions promised. */
  predicate Spoken(kdf: Kdf, s: RoomState, seed: Bytes32, n: nat)
    requires 0 < n <= 64
  {
    s == RoomState(true, Some(Chain(ONLY, kdf.Wind(seed, n), n)), true, 64, false,
                   map[ONLY := ChainView(ONLY, seed, 0)], map[ONLY := n - 1])
  }

  lemma SpeaksOn(kdf: Kdf, d: Device, seed: Bytes32, n: nat)
    requires 0 < n < 64 && Spoken(kdf, d.chains, seed, n)
    ensures var env := Says(None).env;
      && Spoken(kdf, Sending(kdf, d, env, OWNER).chains, seed, n + 1)
      && SendResult(kdf, d, env, OWNER) == Sealed(ONLY, n, kdf.messageKey(kdf.Wind(seed, n)))
      && Sending(kdf, d, env, OWNER) == d.(chains := Sending(kdf, d, env, OWNER).chains)
  {
    assert Distributing(d, Says(None).env, OWNER) == d;
    assert Reserving(kdf, d, Persisted) == d;
    kdf.WindAdd(seed, n, 1);
    assert kdf.Wind(kdf.Wind(seed, n), 1) == kdf.step(kdf.Wind(seed, n));
  }

  /** The room as far as the run has used it: the owner's, nobody removed, nothing seen in the file yet. */
  predicate Young(d: Device) {
    && d.members.owner == OWNER && d.members.removed == {}
    && d.disk.Some? && d.disk.value.owner == OWNER && d.disk.value.removed == {}
    && d.disk.value.seen == map[] && d.disk.value.views.Keys <= {ONLY}
  }

  lemma Created(kdf: Kdf)
    ensures var d := Next(kdf, OWNER, INSTALLED, Create(Written)).dev;
      d.chains == BLANK.(encrypted := true) && Young(d)
  {
  }

  lemma PromisedFirst(kdf: Kdf, d: Device)
    requires Young(d) && d.chains.seen == map[] && d.chains.views.Keys <= {ONLY}
    ensures Young(Persisting(kdf, d))
  {
  }

  lemma FirstMessage(kdf: Kdf, d: Device, seed: Bytes32)
    requires Young(d) && d.chains == BLANK.(encrypted := true)
    ensures var env := Says(Some(Chain(ONLY, seed, 0))).env;
      var e := Sending(kdf, d, env, OWNER);
      Spoken(kdf, e.chains, seed, 1) && Young(e)
  {
    var env := Says(Some(Chain(ONLY, seed, 0))).env;
    var m := Distributing(d, env, OWNER);
    assert m.chains == RoomState(true, Some(Chain(ONLY, seed, 0)), true, 0, false, map[ONLY := ChainView(ONLY, seed, 0)], map[]);
    var p := m.(chains := m.chains.(reserved := 64));
    assert Reserving(kdf, m, Persisted) == Persisting(kdf, p);
    PromisedFirst(kdf, p);
    assert kdf.Wind(seed, 1) == kdf.step(seed);
    assert Persisting(kdf, p).chains == p.chains;
  }

  lemma SavedAfterTwo(kdf: Kdf, d: Device, seed: Bytes32)
    requires Spoken(kdf, d.chains, seed, 2)
    requires Young(d)
    ensures var e := Saving(kdf, d, Written);
      && e.chains == d.chains && e.members == d.members
      && e.disk.Some?
      && Stored(e.disk.value) == Export(Some(Chain(ONLY, kdf.Wind(seed, 64), 64)), d.chains.views, d.chains.seen, 64, true)
      && !e.disk.value.stale && e.disk.value.owner == OWNER && e.disk.value.removed == {}
  {
    assert Pruned(kdf, d.chains) == d.chains;
    kdf.WindAdd(seed, 2, 62);
  }

  lemma RestartedViews(kdf: Kdf, d: Device, seed: Bytes32)
    requires d.disk.Some? && !d.disk.value.stale && d.disk.value.owner == OWNER && d.disk.value.removed == {}
    requires Stored(d.disk.value) ==
      Export(Some(Chain(ONLY, kdf.Wind(seed, 64), 64)), map[ONLY := ChainView(ONLY, seed, 0)], map[ONLY := 1], 64, true)
    ensures var r := Restarting(kdf, d, true, OWNER);
      && r.chains.encrypted && r.members.owner == OWNER && r.members.removed == {}
      && r.chains.views == map[ONLY := ChainView(ONLY, seed, 0)] && r.chains.seen == map[ONLY := 1]
      && r.chains.out.Some? && r.chains.out.value.id == ONLY
  {
    assert kdf.Continues(ChainView(ONLY, seed, 0), ChainView(ONLY, kdf.Wind(seed, 64), 64));
  }

  /** After the crash, the newcomer's bundle starts at position 2. */
  lemma InvitedAfterTheCrash(kdf: Kdf, r: Device, seed: Bytes32, env: InviteEnv)
    requires r.chains.encrypted && r.members.owner == OWNER && r.members.removed == {}
    requires r.chains.views == map[ONLY := ChainView(ONLY, seed, 0)] && r.chains.seen == map[ONLY := 1]
    requires r.chains.out.Some? && r.chains.out.value.id == ONLY
    ensures Invites(r, EVE, OWNER)
    ensures InviteBundle(kdf, r, EVE, env) == map[ONLY := ChainView(ONLY, kdf.Wind(seed, 2), 2)]
  {
    assert Pruned(kdf, r.chains) == r.chains;
  }

  lemma RestartedSeen(kdf: Kdf, d: Device, self: Name, id: ChainId)
    requires d.disk.Some?
    ensures var seen := Restarting(kdf, d, true, self).chains.seen;
      && (id in seen <==> Lookup(d.disk.value.seen, id) > 0)
      && (id in seen ==> seen[id] == Lookup(d.disk.value.seen, id))
  {
  }

  lemma AdmittingSeesTheSame(kdf: Kdf, d: Device, who: Name, env: InviteEnv)
    ensures Admitting(kdf, d, who, env).chains.seen == d.chains.seen
  {
  }

  /**
   * What exactly an invitation withholds after a restart. A chain is handed on where its
   * position is on file (a file position of zero does not survive the restart) and can be
   * wound past; the newcomer is refused what the file recorded as seen, what lies before
   * our own view, and nothing else.
   */
  lemma ARestartWithholdsWhatTheFileSaw(kdf: Kdf, d: Device, who: Name, env: InviteEnv, self: Name, id: ChainId, i: u32)
    requires d.disk.Some?
    ensures var r := Restarting(kdf, d, true, self);
      var bundle := InviteBundle(kdf, r, who, env);
      var views := Admitting(kdf, r, who, env).chains.views;
      var seen := Lookup(d.disk.value.seen, id);
      && (id in bundle <==> id in views && 0 < seen < U32_MAX && seen < views[id].index + MAX_CHAIN_SKIP)
      && (id in bundle ==> (kdf.MessageKey(bundle[id], i).Rewind? <==> i <= seen || i < views[id].index))
  {
    var r := Restarting(kdf, d, true, self);
    var s := Admitting(kdf, r, who, env).chains;
    RestartedSeen(kdf, d, self, id);
    AdmittingSeesTheSame(kdf, r, who, env);
    if id in s.views {
      ChainLaws.BundleStartsNow(kdf, s.views, s.seen, id);
    }
  }

  lemma AfterTwo(kdf: Kdf, seed: Bytes32)
    ensures var d := SpokenTwice(kdf, seed).dev; Spoken(kdf, d.chains, seed, 2) && Young(d)
  {
    Created(kdf);
    var created := Next(kdf, OWNER, INSTALLED, Create(Written));
    FirstMessage(kdf, created.dev, seed);
    SpeaksOn(kdf, Next(kdf, OWNER, created, Says(Some(Chain(ONLY, seed, 0)))).dev, seed, 1);
  }

  /** What the file holds of the two messages, and that a third was sealed after it. */
  predicate ThirdUnsaved(kdf: Kdf, w: World, seed: Bytes32) {
    && w.sealed != [] && w.sealed[|w.sealed| - 1] == Message(ONLY, 2, kdf.messageKey(kdf.Wind(seed, 2)))
    && w.dev.disk.Some? && !w.dev.disk.value.stale && w.dev.disk.value.owner == OWNER && w.dev.disk.value.removed == {}
    && Stored(w.dev.disk.value) ==
      Export(Some(Chain(ONLY, kdf.Wind(seed, 64), 64)), map[ONLY := ChainView(ONLY, seed, 0)], map[ONLY := 1], 64, true)
  }

  lemma SpeaksThird(kdf: Kdf, w: World, seed: Bytes32)
    requires Spoken(kdf, w.dev.chains, seed, 2)
    ensures var v := Next(kdf, OWNER, w, Says(None));
      && v.dev.disk == w.dev.disk
      && v.sealed == w.sealed + [Message(ONLY, 2, kdf.messageKey(kdf.Wind(seed, 2)))]
  {
    SpeaksOn(kdf, w.dev, seed, 2);
  }

  lemma SavedThenThird(kdf: Kdf, twice: World, saved: World, seed: Bytes32)
    requires Spoken(kdf, twice.dev.chains, seed, 2) && Young(twice.dev)
    requires saved == twice.(dev := Saving(kdf, twice.dev, Written))
    ensures ThirdUnsaved(kdf, Next(kdf, OWNER, saved, Says(None)), seed)
  {
    SavedAfterTwo(kdf, twice.dev, seed);
    SpeaksThird(kdf, saved, seed);
  }

  lemma SaveTouchesOnlyTheDevice(kdf: Kdf, w: World)
    ensures Next(kdf, OWNER, w, Save(Written)) == w.(dev := Saving(kdf, w.dev, Written))
  {
  }

  lemma AfterThree(kdf: Kdf, seed: Bytes32, twice: World)
    requires twice == SpokenTwice(kdf, seed)
    ensures ThirdUnsaved(kdf, SpokenSinceTheSave(kdf, seed), seed)
  {
    AfterTwo(kdf, seed);
    SaveTouchesOnlyTheDevice(kdf, twice);
    SavedThenThird(kdf, twice, Next(kdf, OWNER, twice, Save(Written)), seed);
  }

  lemma InvitesReadTheThird(kdf: Kdf, w: World, seed: Bytes32, env: InviteEnv)
    requires ThirdUnsaved(kdf, w, seed)
    ensures var after := Restarting(kdf, w.dev, true, OWNER);
      var bundle := InviteBundle(kdf, after, EVE, env);
      && Invites(after, EVE, OWNER)
      && ONLY in bundle
      && kdf.MessageKey(bundle[ONLY], 2) == Key(kdf.messageKey(kdf.Wind(seed, 2)))
  {
    RestartedViews(kdf, w.dev, seed);
    InvitedAfterTheCrash(kdf, Restarting(kdf, w.dev, true, OWNER), seed, env);
  }

  /**
   * The third message's position was never saved as seen. After the crash an invitation
   * winds the chain only to position 2, and the newcomer reads what was said before they
   * came.
   */
  lemma CrashForgetsWhatWasSaid(kdf: Kdf, seed: Bytes32, env: InviteEnv)
    ensures var w := SpokenSinceTheSave(kdf, seed);
      var after := Restarting(kdf, w.dev, true, OWNER);
      var bundle := InviteBundle(kdf, after, EVE, env);
      && Invites(after, EVE, OWNER)
      && ONLY in bundle
      && w.sealed != [] && w.sealed[|w.sealed| - 1].index == 2
      && kdf.MessageKey(bundle[ONLY], 2) == Key(w.sealed[|w.sealed| - 1].key)
  {
    AfterThree(kdf, seed, SpokenTwice(kdf, seed));
    InvitesReadTheThird(kdf, SpokenSinceTheSave(kdf, seed), seed, env);
  }
}
