/** What a newcomer is given opens nothing said before they came; and plaintext never leaks into an encrypted room. */
module Withholding {
  import opened Words
  import opened Ratchet
  import opened RoomChains
  import opened Members
  import opened RoomStore
  import opened Device
  import opened History
  import ChainLaws
  import RosterLaws

  /** Everything this process sealed or opened is recorded as seen. */
  predicate Remembers(d: Device, session: set<(ChainId, u32)>) {
    forall p | p in session :: p.0 in d.chains.seen && p.1 <= d.chains.seen[p.0]
  }

  /** No position is forgotten, and no position falls. */
  predicate SeenGrows(s: RoomState, t: RoomState) {
    forall id | id in s.seen :: id in t.seen && s.seen[id] <= t.seen[id]
  }

  lemma ReservingForgetsNothing(kdf: Kdf, d: Device, fate: PersistFate)
    ensures Reserving(kdf, d, fate).chains.seen == d.chains.seen
    ensures Reserving(kdf, d, fate).chains.encrypted == d.chains.encrypted
    ensures d.disk.Some? ==> Reserving(kdf, d, fate).disk.Some?
  {
  }

  lemma SealingNotes(kdf: Kdf, s: RoomState, hasSigner: bool, fault: SealFault)
    ensures SeenGrows(s, AfterSeal(kdf, s, hasSigner, fault))
    ensures match SealResult(kdf, s, hasSigner, fault)
      case Sealed(id, index, _) =>
        id in AfterSeal(kdf, s, hasSigner, fault).seen && index <= AfterSeal(kdf, s, hasSigner, fault).seen[id]
      case _ => true
  {
  }

  lemma SendRemembers(kdf: Kdf, self: Name, d: Device, env: SendEnv)
    ensures SeenGrows(d.chains, Sending(kdf, d, env, self).chains)
    ensures match SendResult(kdf, d, env, self)
      case Sealed(id, index, _) =>
        id in Sending(kdf, d, env, self).chains.seen && index <= Sending(kdf, d, env, self).chains.seen[id]
      case _ => true
  {
    var e := Distributing(d, env, self);
    assert e.chains.seen == d.chains.seen;
    ReservingForgetsNothing(kdf, e, env.persist);
    SealingNotes(kdf, Reserving(kdf, e, env.persist).chains, true, env.fault);
  }

  /** Nothing seen is forgotten, the encrypted mark stays, and a file once there stays there. */
  predicate Keeps(d: Device, e: Device) {
    && SeenGrows(d.chains, e.chains)
    && (d.chains.encrypted ==> e.chains.encrypted)
    && (d.disk.Some? ==> e.disk.Some?)
  }

  lemma SaveKeeps(kdf: Kdf, d: Device, fate: SaveFate)
    ensures Keeps(d, Saving(kdf, d, fate))
    ensures Saving(kdf, d, fate).chains.seen == d.chains.seen
  {
  }

  lemma ReceiveKeeps(kdf: Kdf, self: Name, d: Device, r: Roster, save: SaveFate)
    ensures Keeps(d, Receiving(kdf, d, r, save, self))
  {
    if Obeyed(d.members, r, self) {
      SaveKeeps(kdf, d.(members := Judged(d.members, r, self),
        chains := if Retires(d.members, r, self) then d.chains.(stale := true) else d.chains), save);
    }
  }

  lemma RekeyKeeps(kdf: Kdf, self: Name, d: Device, drop: set<Name>, clock: int, save: SaveFate)
    ensures Keeps(d, Rekeying(kdf, d, drop, clock, save, self))
  {
    var out := Tombstoned(d.members.(invited := d.members.invited - drop), drop, {});
    SaveKeeps(kdf, d.(members := out, chains := d.chains.(stale := true)), save);
  }

  lemma InviteKeeps(kdf: Kdf, self: Name, d: Device, who: Name, env: InviteEnv)
    ensures Keeps(d, Inviting(kdf, d, who, env, self))
  {
    SaveKeeps(kdf, d.(members := Admitted(d.members, who)), env.before);
    var a := Admitting(kdf, d, who, env);
    var s := a.(members := Signed(a.members, self, env.first));
    SaveKeeps(kdf, s.(members := Withdrawn(s.members, who, who in d.members.removed)), env.after);
  }

  lemma SendKeeps(kdf: Kdf, self: Name, d: Device, env: SendEnv)
    ensures Keeps(d, Sending(kdf, d, env, self))
  {
    SendRemembers(kdf, self, d, env);
    var e := Distributing(d, env, self);
    assert Keeps(d, e);
    var r := Reserving(kdf, e, env.persist);
    assert r.chains.encrypted == e.chains.encrypted && (e.disk.Some? ==> r.disk.Some?);
  }

  lemma RestoreKeeps(kdf: Kdf, self: Name, d: Device)
    ensures Keeps(d, Restoring(kdf, d, self))
    ensures d.disk.Some? ==> Restoring(kdf, d, self).chains.encrypted
  {
  }

  lemma StepKeeps(kdf: Kdf, self: Name, d: Device, step: Step)
    requires !step.Restart?
    ensures Keeps(d, NextDevice(kdf, self, d, step))
  {
    match step
    case Send(env) => SendKeeps(kdf, self, d, env);
    case Receive(r, save) => ReceiveKeeps(kdf, self, d, r, save);
    case Rekey(drop, clock, save) => RekeyKeeps(kdf, self, d, drop, clock, save);
    case Invite(who, env) => InviteKeeps(kdf, self, d, who, env);
    case Create(save) =>
      SaveKeeps(kdf, d.(chains := d.chains.(encrypted := true), members := Pinned(d.members, self)), save);
    case Save(save) => SaveKeeps(kdf, d, save);
    case Import(t, saved) =>
      RestoreKeeps(kdf, self, if t.Some? then d.(disk := Some(Taken(Prev(d.disk), t.value, self))) else d);
    case _ =>
  }

  lemma StepRemembers(kdf: Kdf, self: Name, w: World, step: Step)
    requires Remembers(w.dev, w.session)
    ensures Remembers(Next(kdf, self, w, step).dev, NextSession(kdf, self, w, step))
  {
    if !step.Restart? {
      StepKeeps(kdf, self, w.dev, step);
      if step.Send? { SendRemembers(kdf, self, w.dev, step.env); }
    }
  }

  /** If this step invites somebody, what they get opens nothing this process sealed or read. */
  predicate InvitesFromNow(kdf: Kdf, self: Name, w: World, step: Step) {
    step.Invite? && Invites(w.dev, step.who, self) ==>
      var bundle := InviteBundle(kdf, w.dev, step.who, step.invitation);
      forall p | p in w.session && p.0 in bundle :: kdf.MessageKey(bundle[p.0], p.1).Rewind?
  }

  predicate AllInviteFromNow(kdf: Kdf, self: Name, w: World, steps: seq<Step>)
    decreases |steps|
  {
    steps == [] || (InvitesFromNow(kdf, self, w, steps[0]) && AllInviteFromNow(kdf, self, Next(kdf, self, w, steps[0]), steps[1..]))
  }

  lemma InviteWithholds(kdf: Kdf, self: Name, w: World, step: Step)
    requires Remembers(w.dev, w.session)
    ensures InvitesFromNow(kdf, self, w, step)
  {
    if step.Invite? && Invites(w.dev, step.who, self) {
      var s := Admitting(kdf, w.dev, step.who, step.invitation).chains;
      assert s.seen == w.dev.chains.seen;
      var bundle := InviteBundle(kdf, w.dev, step.who, step.invitation);
      forall p | p in w.session && p.0 in bundle ensures kdf.MessageKey(bundle[p.0], p.1).Rewind? {
        ChainLaws.BundleStartsNow(kdf, s.views, s.seen, p.0);
      }
    }
  }

  /** Since the process started, nothing sealed or opened is readable from any invitation it sends. */
  lemma {:induction false} InvitationsWithholdTheSession(kdf: Kdf, self: Name, w: World, steps: seq<Step>)
    requires Remembers(w.dev, w.session)
    ensures AllInviteFromNow(kdf, self, w, steps)
    decreases |steps|
  {
    if steps != [] {
      InviteWithholds(kdf, self, w, steps[0]);
      StepRemembers(kdf, self, w, steps[0]);
      InvitationsWithholdTheSession(kdf, self, Next(kdf, self, w, steps[0]), steps[1..]);
    }
  }

  // --- Plaintext ------------------------------------------------------------------------

  /** Every new process of the run finds the room in its file, and can read the file. */
  predicate Rereads(kdf: Kdf, self: Name, w: World, steps: seq<Step>)
    decreases |steps|
  {
    steps == [] ||
    ((steps[0].Restart? ==> steps[0].readable && w.dev.disk.Some?)
     && Rereads(kdf, self, Next(kdf, self, w, steps[0]), steps[1..]))
  }

  /**
   * Once a room is known to be encrypted nothing is ever sent into it in the clear, as
   * long as every new process finds the room in its file and can read it.
   */
  lemma {:induction false} NeverInTheClear(kdf: Kdf, self: Name, w: World, steps: seq<Step>)
    requires w.dev.chains.encrypted && Rereads(kdf, self, w, steps)
    ensures Exec(kdf, self, w, steps).dev.chains.encrypted
    ensures forall env :: !SendResult(kdf, Exec(kdf, self, w, steps).dev, env, self).Plaintext?
    decreases |steps|
  {
    if steps == [] {
      forall env ensures !SendResult(kdf, w.dev, env, self).Plaintext? {
        EncryptedNeverPlain(kdf, self, w.dev, env);
      }
    } else {
      StaysEncrypted(kdf, self, w.dev, steps[0]);
      NeverInTheClear(kdf, self, Next(kdf, self, w, steps[0]), steps[1..]);
    }
  }

  lemma EncryptedNeverPlain(kdf: Kdf, self: Name, d: Device, env: SendEnv)
    requires d.chains.encrypted
    ensures !SendResult(kdf, d, env, self).Plaintext?
  {
    var e := Distributing(d, env, self);
    assert e.chains.encrypted;
    ReservingForgetsNothing(kdf, e, env.persist);
  }

  lemma StaysEncrypted(kdf: Kdf, self: Name, d: Device, step: Step)
    requires d.chains.encrypted && (step.Restart? ==> step.readable && d.disk.Some?)
    ensures NextDevice(kdf, self, d, step).chains.encrypted
  {
    if step.Restart? {
      RestoreKeeps(kdf, self, Device(BLANK, UNKNOWN, d.disk));
    } else {
      StepKeeps(kdf, self, d, step);
    }
  }

  /** A new process speaks in the clear exactly where it cannot read the file, or the room never reached it. */
  lemma RestartSpeaksPlainlyExactly(kdf: Kdf, self: Name, d: Device, readable: bool, env: SendEnv)
    ensures SendResult(kdf, Restarting(kdf, d, readable, self), env, self).Plaintext? <==> !readable || d.disk.None?
  {
    var r := Restarting(kdf, d, readable, self);
    if readable && d.disk.Some? {
      RestoreKeeps(kdf, self, Device(BLANK, UNKNOWN, d.disk));
      EncryptedNeverPlain(kdf, self, r, env);
    } else {
      assert r.chains == BLANK;
    }
  }

  /** A process that cannot read the file does not know the room is encrypted, and says so in the clear. */
  lemma UnreadFileSpeaksPlainly(kdf: Kdf, self: Name, d: Device, env: SendEnv)
    ensures SendResult(kdf, Restarting(kdf, d, false, self), env, self) == Plaintext
  {
  }

  /** Nor does one that reads a file the room's creation never reached. */
  lemma UnsavedRoomSpeaksPlainly(kdf: Kdf, self: Name, env: SendEnv)
    ensures var created := Next(kdf, self, INSTALLED, Create(Lost));
      var again := Next(kdf, self, created, Restart(true));
      && created.dev.chains.encrypted
      && SendResult(kdf, again.dev, env, self) == Plaintext
  {
    assert Next(kdf, self, Next(kdf, self, INSTALLED, Create(Lost)), Restart(true)).dev.chains == BLANK;
  }

  // --- Membership on the device is membership under the roster laws --------------------------

  function MembershipEvent(d: Device, step: Step, self: Name): Option<RosterLaws.Event> {
    match step
    case Receive(r, _) => Some(RosterLaws.Deliver(r))
    case Rekey(drop, clock, _) => if d.chains.encrypted then Some(RosterLaws.Drop(drop, clock)) else None
    case Invite(who, env) =>
      if d.chains.encrypted then Some(RosterLaws.Event.Invite(who, env.delivered, env.first, env.second)) else None
    case Import(t, saved) =>
      if saved && (d.disk.Some? || t.Some?) then
        Some(RosterLaws.Reinstall(FileMembersOf(if t.Some? then Taken(Prev(d.disk), t.value, self) else d.disk.value)))
      else None
    case _ => None
  }

  /** So every law of `RosterLaws` is a law of the device: nothing else touches membership within a session. */
  lemma MembershipFollowsTheLaws(kdf: Kdf, self: Name, d: Device, step: Step)
    requires !step.Restart? && !step.Create?
    ensures NextDevice(kdf, self, d, step).members ==
      match MembershipEvent(d, step, self)
      case Some(e) => RosterLaws.After(d.members, e, self)
      case None => d.members
  {
  }
}
