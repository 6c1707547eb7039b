/** Removal bites: nothing is sealed under a chain somebody removed was ever given. */
module Removal {
  import opened Words
  import opened Ratchet
  import opened RoomChains
  import opened Members
  import opened RoomStore
  import opened Device
  import opened History
  import RosterLaws

  /** If this step seals a message, nobody we now hold removed was ever given its chain. */
  predicate SealsSafely(kdf: Kdf, self: Name, w: World, step: Step) {
    match SealedBy(kdf, self, w.dev, step)
    case Sealed(id, _, _) => GivenTo(NextGiven(kdf, self, w, step), id) !! w.dev.members.removed
    case _ => true
  }

  predicate AllSealSafely(kdf: Kdf, self: Name, w: World, steps: seq<Step>)
    decreases |steps|
  {
    steps == [] || (SealsSafely(kdf, self, w, steps[0]) && AllSealSafely(kdf, self, Next(kdf, self, w, steps[0]), steps[1..]))
  }

  /** A message can still be sealed under this chain: shared, not due for replacement, and not at the top of its range. */
  predicate CanSeal(out: Option<Chain>, reserved: u32, shared: bool, stale: bool) {
    && out.Some? && shared && !stale
    && (out.value.index < reserved || out.value.index + RESERVATION_BLOCK <= U32_MAX)
  }

  predicate LiveSeals(s: RoomState) {
    CanSeal(s.out, s.reserved, s.shared, s.stale)
  }

  predicate FileSeals(e: Entry) {
    CanSeal(e.out, e.reservedThrough, e.shared, e.stale)
  }

  /** The live half: a chain that can still seal is in no removed member's hands. */
  predicate LiveSafe(d: Device, given: map<ChainId, set<Name>>) {
    && RosterLaws.Disjoint(d.members)
    && (LiveSeals(d.chains) ==> GivenTo(given, d.chains.out.value.id) !! d.members.removed)
  }

  function FileRemoved(d: Device): set<Name> {
    if d.disk.Some? then d.disk.value.removed else {}
  }

  /** The file's half, and that the live state remembers what the file does. */
  predicate FileSafe(d: Device, given: map<ChainId, set<Name>>) {
    d.disk.Some? ==>
      var e := d.disk.value;
      && e.members !! e.removed
      && e.removed <= d.members.removed
      && (FileSeals(e) ==> d.chains.out.Some? && GivenTo(given, e.out.value.id) !! e.removed)
  }

  // --- Within a session -----------------------------------------------------------

  lemma SaveIsSafe(kdf: Kdf, d: Device, fate: SaveFate, given: map<ChainId, set<Name>>)
    requires LiveSafe(d, given)
    ensures LiveSafe(Saving(kdf, d, fate), given)
    ensures FileSafe(d, given) ==> FileSafe(Saving(kdf, d, fate), given)
  {
  }

  lemma DistributingIsSafe(d: Device, env: SendEnv, self: Name, given: map<ChainId, set<Name>>)
    requires LiveSafe(d, given)
    requires env.minted.Some? ==> env.minted.value.id !in given
    ensures var more := if Mints(d, env) then Handing(given, {env.minted.value.id}, Reached(d, env.delivery, self)) else given;
      var e := Distributing(d, env, self);
      LiveSafe(e, more) && (FileSafe(d, given) ==> FileSafe(e, more))
  {
  }

  lemma PersistIsSafe(kdf: Kdf, d: Device, given: map<ChainId, set<Name>>)
    requires LiveSafe(d, given)
    ensures LiveSafe(Persisting(kdf, d), given)
    ensures FileSafe(d, given) ==> FileSafe(Persisting(kdf, d), given)
  {
  }

  /** The promise is only ever of the chain in use: making it or taking it back lets no other chain seal. */
  lemma PromisingIsSafe(d: Device, given: map<ChainId, set<Name>>)
    requires LiveSafe(d, given) && NeedsReservation(d.chains)
    ensures var p := d.(chains := Promised(d.chains));
      var back := d.(chains := RolledBack(p.chains, Wanted(d.chains)));
      && LiveSafe(p, given) && LiveSafe(back, given)
      && (FileSafe(d, given) ==> FileSafe(p, given) && FileSafe(back, given))
      && (LiveSeals(p.chains) ==> LiveSeals(d.chains)) && (LiveSeals(back.chains) ==> LiveSeals(d.chains))
  {
  }

  lemma ReservingIsSafe(kdf: Kdf, d: Device, fate: PersistFate, given: map<ChainId, set<Name>>)
    requires LiveSafe(d, given)
    ensures var r := Reserving(kdf, d, fate);
      && LiveSafe(r, given) && (FileSafe(d, given) ==> FileSafe(r, given))
      && r.chains.stale == d.chains.stale && r.chains.out == d.chains.out && r.chains.shared == d.chains.shared
      && (LiveSeals(r.chains) ==> LiveSeals(d.chains))
  {
    if NeedsReservation(d.chains) {
      PromisingIsSafe(d, given);
      PersistIsSafe(kdf, d.(chains := Promised(d.chains)), given);
    }
  }

  lemma SealingIsSafe(kdf: Kdf, d: Device, env: SendEnv, given: map<ChainId, set<Name>>)
    requires LiveSafe(d, given)
    ensures LiveSafe(Sealing(kdf, d, env), given)
    ensures FileSafe(d, given) ==> FileSafe(Sealing(kdf, d, env), given)
    ensures SealingResult(kdf, d, env).Sealed? ==>
      LiveSeals(d.chains) && SealingResult(kdf, d, env).id == d.chains.out.value.id
  {
    ReservingIsSafe(kdf, d, env.persist, given);
  }

  lemma SendIsSafe(kdf: Kdf, self: Name, w: World, env: SendEnv)
    requires LiveSafe(w.dev, w.given) && Possible(w, Send(env))
    ensures SealsSafely(kdf, self, w, Send(env))
    ensures var v := Next(kdf, self, w, Send(env));
      LiveSafe(v.dev, v.given) && (FileSafe(w.dev, w.given) ==> FileSafe(v.dev, v.given))
  {
    DistributingIsSafe(w.dev, env, self, w.given);
    SealingIsSafe(kdf, Distributing(w.dev, env, self), env, NextGiven(kdf, self, w, Send(env)));
  }

  lemma ReceiveIsSafe(kdf: Kdf, self: Name, w: World, r: Roster, save: SaveFate)
    requires LiveSafe(w.dev, w.given)
    ensures var v := Next(kdf, self, w, Receive(r, save));
      && LiveSafe(v.dev, v.given)
      && (FileSafe(w.dev, w.given) && Readmits(w, Receive(r, save), self) !! FileRemoved(w.dev) ==> FileSafe(v.dev, v.given))
  {
    var m := w.dev.members;
    RosterLaws.DisjointExactly(m, RosterLaws.Deliver(r), self);
    var d := w.dev.(members := Judged(m, r, self),
      chains := if Retires(m, r, self) then w.dev.chains.(stale := true) else w.dev.chains);
    SaveIsSafe(kdf, d, save, w.given);
  }

  lemma RekeyIsSafe(kdf: Kdf, self: Name, w: World, drop: set<Name>, clock: int, save: SaveFate)
    requires LiveSafe(w.dev, w.given)
    ensures var v := Next(kdf, self, w, Rekey(drop, clock, save));
      LiveSafe(v.dev, v.given) && (FileSafe(w.dev, w.given) ==> FileSafe(v.dev, v.given))
  {
    var m := Tombstoned(w.dev.members.(invited := w.dev.members.invited - drop), drop, {});
    SaveIsSafe(kdf, w.dev.(members := m, chains := w.dev.chains.(stale := true)), save, w.given);
  }

  lemma AdmittingIsSafe(kdf: Kdf, d: Device, who: Name, env: InviteEnv, given: map<ChainId, set<Name>>)
    requires LiveSafe(d, given)
    ensures var a := Admitting(kdf, d, who, env);
      var more := Handing(given, InviteBundle(kdf, d, who, env).Keys, {who});
      && LiveSafe(a, given) && LiveSafe(a, more) && who !in a.members.removed
      && (FileSafe(d, given) && who !in FileRemoved(d) ==> FileSafe(a, given) && FileSafe(a, more))
  {
    SaveIsSafe(kdf, d.(members := Admitted(d.members, who)), env.before, given);
  }

  lemma SigningIsSafe(d: Device, self: Name, clock: int, given: map<ChainId, set<Name>>)
    requires LiveSafe(d, given)
    ensures var s := d.(members := Signed(d.members, self, clock));
      LiveSafe(s, given) && (FileSafe(d, given) ==> FileSafe(s, given))
  {
  }

  /** An admission taken back: the tombstone it lifted is laid again, over a file that may still hold it. */
  lemma WithdrawnIsSafe(kdf: Kdf, d: Device, who: Name, env: InviteEnv, given: map<ChainId, set<Name>>)
    requires LiveSafe(d, given)
    ensures var a := Admitting(kdf, d, who, env);
      var e := a.(members := Withdrawn(a.members, who, who in d.members.removed));
      LiveSafe(e, given) && (FileSafe(d, given) ==> FileSafe(e, given))
  {
  }

  lemma FailedInviteIsSafe(kdf: Kdf, d: Device, who: Name, env: InviteEnv, self: Name, given: map<ChainId, set<Name>>)
    requires LiveSafe(d, given) && Invites(d, who, self) && !env.delivered
    ensures var e := Inviting(kdf, d, who, env, self);
      LiveSafe(e, given) && (FileSafe(d, given) ==> FileSafe(e, given))
  {
    WithdrawnIsSafe(kdf, d, who, env, given);
    var a := Admitting(kdf, d, who, env);
    var lifted := who in d.members.removed;
    var back := a.(members := Withdrawn(a.members, who, lifted));
    SigningIsSafe(back, self, env.first, given);
    var s := a.(members := Signed(a.members, self, env.first));
    assert Withdrawn(s.members, who, lifted) == Signed(back.members, self, env.first);
    SaveIsSafe(kdf, s.(members := Withdrawn(s.members, who, lifted)), env.after, given);
  }

  lemma InviteIsSafe(kdf: Kdf, self: Name, w: World, who: Name, env: InviteEnv)
    requires LiveSafe(w.dev, w.given) && Possible(w, Step.Invite(who, env))
    ensures var v := Next(kdf, self, w, Invite(who, env));
      && LiveSafe(v.dev, v.given)
      && (FileSafe(w.dev, w.given) && Readmits(w, Invite(who, env), self) !! FileRemoved(w.dev) ==> FileSafe(v.dev, v.given))
  {
    if Invites(w.dev, who, self) {
      if env.delivered {
        AdmittingIsSafe(kdf, w.dev, who, env, w.given);
        var a := Admitting(kdf, w.dev, who, env);
        var given := NextGiven(kdf, self, w, Invite(who, env));
        SigningIsSafe(a, self, env.first, given);
        SigningIsSafe(a.(members := Signed(a.members, self, env.first)), self, env.second, given);
      } else {
        var given := NextGiven(kdf, self, w, Invite(who, env));
        assert LiveSafe(w.dev, given) && (FileSafe(w.dev, w.given) ==> FileSafe(w.dev, given));
        FailedInviteIsSafe(kdf, w.dev, who, env, self, given);
      }
    }
  }

  /** Whose tombstone this step lifts, if they have one. */
  function Readmits(w: World, step: Step, self: Name): set<Name> {
    match step
    case Receive(r, _) => if Obeyed(w.dev.members, r, self) && r.author == w.dev.members.owner then Names(r.members) else {}
    case Invite(who, env) => if Invites(w.dev, who, self) && env.delivered then {who} else {}
    case _ => {}
  }

  predicate ReadsFile(step: Step) {
    step.Restart? || step.Import?
  }

  lemma StepIsSafe(kdf: Kdf, self: Name, w: World, step: Step)
    requires LiveSafe(w.dev, w.given) && Possible(w, step) && !ReadsFile(step)
    ensures SealsSafely(kdf, self, w, step)
    ensures var v := Next(kdf, self, w, step);
      && LiveSafe(v.dev, v.given)
      && (FileSafe(w.dev, w.given) && Readmits(w, step, self) !! FileRemoved(w.dev) ==> FileSafe(v.dev, v.given))
  {
    match step
    case Send(env) => SendIsSafe(kdf, self, w, env);
    case Receive(r, save) => ReceiveIsSafe(kdf, self, w, r, save);
    case Rekey(drop, clock, save) => RekeyIsSafe(kdf, self, w, drop, clock, save);
    case Invite(who, env) => InviteIsSafe(kdf, self, w, who, env);
    case Create(save) =>
      SaveIsSafe(kdf, w.dev.(chains := w.dev.chains.(encrypted := true), members := Pinned(w.dev.members, self)), save, w.given);
    case Save(save) => SaveIsSafe(kdf, w.dev, save, w.given);
    case _ =>
  }

  /**
   * Within a session removal always bites: whatever rosters arrive, whoever is removed,
   * readmitted or invited, whichever saves, broadcasts and invitations fail and whoever
   * else hands our chains on, no message is sealed under a chain a removed member was
   * given. (An invitation that fails has not reached somebody held removed; see `Possible`.)
   */
  lemma {:induction false} RemovalBitesInASession(kdf: Kdf, self: Name, w: World, steps: seq<Step>)
    requires LiveSafe(w.dev, w.given) && AllPossible(kdf, self, w, steps)
    requires forall s | s in steps :: !ReadsFile(s)
    ensures AllSealSafely(kdf, self, w, steps)
    decreases |steps|
  {
    if steps != [] {
      StepIsSafe(kdf, self, w, steps[0]);
      RemovalBitesInASession(kdf, self, Next(kdf, self, w, steps[0]), steps[1..]);
    }
  }

  // --- Across restarts and transfers -------------------------------------------------

  /** Starting without the file loses nothing: it names nobody removed, and holds no chain that can seal. */
  predicate ForgetsNothing(d: Device) {
    d.disk.Some? ==> d.disk.value.removed == {} && !FileSeals(d.disk.value)
  }

  /**
   * Restoring the file in mid-session brings no chain back into use but the one in use,
   * or one started since the last removal.
   */
  predicate RevivesNothing(d: Device) {
    d.disk.Some? && FileSeals(d.disk.value) && !d.chains.stale ==>
      || (LiveSeals(d.chains) && d.chains.out.value.id == d.disk.value.out.value.id)
      || d.members.removed <= d.disk.value.removed
  }

  /**
   * What each step must meet for the file to be as safe as the session: a new process
   * reads a file that has something to say, a restore in mid-session revives no chain,
   * and nobody the file still names removed is let back in.
   */
  predicate Prudent(w: World, step: Step, self: Name) {
    match step
    case Restart(readable) => readable || ForgetsNothing(w.dev)
    case Import(_, saved) => saved ==> RevivesNothing(w.dev)
    case _ => Readmits(w, step, self) !! FileRemoved(w.dev)
  }

  predicate AllPrudent(kdf: Kdf, self: Name, w: World, steps: seq<Step>)
    decreases |steps|
  {
    steps == [] || (Prudent(w, steps[0], self) && AllPrudent(kdf, self, Next(kdf, self, w, steps[0]), steps[1..]))
  }

  lemma ImportIsSafe(kdf: Kdf, self: Name, w: World, t: Option<TransferRoom>, saved: bool)
    requires LiveSafe(w.dev, w.given) && FileSafe(w.dev, w.given) && Prudent(w, Import(t, saved), self)
    ensures var v := Next(kdf, self, w, Import(t, saved)); LiveSafe(v.dev, v.given) && FileSafe(v.dev, v.given)
  {
    if saved && t.Some? {
      TransferGrantsNoAuthority(Prev(w.dev.disk), t.value, self);
    }
  }

  lemma RestartIsSafe(kdf: Kdf, self: Name, w: World, readable: bool)
    requires FileSafe(w.dev, w.given) && Prudent(w, Restart(readable), self)
    ensures var v := Next(kdf, self, w, Restart(readable)); LiveSafe(v.dev, v.given) && FileSafe(v.dev, v.given)
  {
  }

  /** Across crashes, restarts, transfers and failed saves, removal bites on every prudent run. */
  lemma {:induction false} RemovalBites(kdf: Kdf, self: Name, w: World, steps: seq<Step>)
    requires LiveSafe(w.dev, w.given) && FileSafe(w.dev, w.given)
    requires AllPossible(kdf, self, w, steps) && AllPrudent(kdf, self, w, steps)
    ensures AllSealSafely(kdf, self, w, steps)
    decreases |steps|
  {
    if steps != [] {
      var step := steps[0];
      match step {
        case Restart(readable) => RestartIsSafe(kdf, self, w, readable);
        case Import(t, saved) => ImportIsSafe(kdf, self, w, t, saved);
        case _ => StepIsSafe(kdf, self, w, step);
      }
      RemovalBites(kdf, self, Next(kdf, self, w, step), steps[1..]);
    }
  }
}
