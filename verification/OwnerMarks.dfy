/** The owner's high-water mark across restarts: what is saved lasts, and what is not lets a replay back in. */
module OwnerMarks {
  import opened Words
  import opened Ratchet
  import opened RoomChains
  import opened Members
  import opened RoomStore
  import opened Device
  import opened History
  import RosterLaws
  import Withholding

  /** Both the session and the file record an owner epoch of at least `e`. */
  predicate Marked(d: Device, e: u64) {
    d.members.ownerEpoch >= e && d.disk.Some? && d.disk.value.ownerEpoch >= e
  }

  lemma SavingMarks(kdf: Kdf, d: Device, fate: SaveFate, e: u64)
    requires d.members.ownerEpoch >= e
    ensures Marked(d, e) || fate.Written? ==> Marked(Saving(kdf, d, fate), e)
    ensures Saving(kdf, d, fate).members == d.members
  {
  }

  lemma SendingKeepsMarks(kdf: Kdf, self: Name, d: Device, env: SendEnv, e: u64)
    requires Marked(d, e)
    ensures Marked(Sending(kdf, d, env, self), e)
  {
    var g := Distributing(d, env, self);
    assert g.members == d.members && g.disk == d.disk;
    assert Marked(Reserving(kdf, g, env.persist), e);
  }

  lemma InvitingKeepsMarks(kdf: Kdf, self: Name, d: Device, who: Name, env: InviteEnv, e: u64)
    requires Marked(d, e) && Invites(d, who, self)
    ensures Marked(Inviting(kdf, d, who, env, self), e)
  {
    SavingMarks(kdf, d.(members := Admitted(d.members, who)), env.before, e);
    var a := Admitting(kdf, d, who, env);
    var s := a.(members := Signed(a.members, self, env.first));
    assert Marked(s, e);
    SavingMarks(kdf, s.(members := Withdrawn(s.members, who, who in d.members.removed)), env.after, e);
  }

  lemma ImportingKeepsMarks(kdf: Kdf, self: Name, d: Device, t: Option<TransferRoom>, saved: bool, e: u64)
    requires Marked(d, e)
    ensures Marked(Importing(kdf, d, t, saved, self), e)
  {
    if saved && t.Some? {
      TransferGrantsNoAuthority(d.disk.value, t.value, self);
    }
  }

  lemma StepKeepsMarks(kdf: Kdf, self: Name, d: Device, step: Step, e: u64)
    requires Marked(d, e) && (step.Restart? ==> step.readable)
    ensures Marked(NextDevice(kdf, self, d, step), e)
  {
    match step
    case Send(env) => SendingKeepsMarks(kdf, self, d, env, e);
    case Receive(r, save) =>
      RosterLaws.EpochsNeverFall(d.members, RosterLaws.Deliver(r), self);
      SavingMarks(kdf, d.(members := Judged(d.members, r, self),
        chains := if Retires(d.members, r, self) then d.chains.(stale := true) else d.chains), save, e);
    case Rekey(drop, clock, save) =>
      var out := Tombstoned(d.members.(invited := d.members.invited - drop), drop, {});
      SavingMarks(kdf, d.(members := out, chains := d.chains.(stale := true)), save, e);
    case Invite(who, env) =>
      if Invites(d, who, self) { InvitingKeepsMarks(kdf, self, d, who, env, e); }
    case Create(save) =>
      SavingMarks(kdf, d.(chains := d.chains.(encrypted := true), members := Pinned(d.members, self)), save, e);
    case Save(save) => SavingMarks(kdf, d, save, e);
    case Import(t, saved) => ImportingKeepsMarks(kdf, self, d, t, saved, e);
    case _ =>
  }

  lemma {:induction false} MarksLast(kdf: Kdf, self: Name, w: World, steps: seq<Step>, e: u64)
    requires Marked(w.dev, e) && Withholding.Rereads(kdf, self, w, steps)
    ensures Marked(Exec(kdf, self, w, steps).dev, e)
    decreases |steps|
  {
    if steps != [] {
      StepKeepsMarks(kdf, self, w.dev, steps[0], e);
      MarksLast(kdf, self, Next(kdf, self, w, steps[0]), steps[1..], e);
    }
  }

  /**
   * Once an owner's epoch is recorded and saved, no roster of that owner at or below it
   * changes anything again, over every run in which each new process reads the file.
   */
  lemma SavedMarksRefuseReplays(kdf: Kdf, self: Name, w: World, steps: seq<Step>, e: u64, replayed: Roster)
    requires Marked(w.dev, e) && Withholding.Rereads(kdf, self, w, steps)
    requires replayed.author == replayed.owner && replayed.epoch <= e
    ensures var m := Exec(kdf, self, w, steps).dev.members; Judged(m, replayed, self) == m
  {
    MarksLast(kdf, self, w, steps, e);
  }

  /** After a removal of ours, one save that lands is enough. */
  lemma RemovedThenSaved(kdf: Kdf, self: Name, d: Device, drop: set<Name>, clock: int, save: SaveFate)
    requires MayRekey(d, drop, self) && drop != {}
    ensures var r := Rekeying(kdf, d, drop, clock, save, self);
      Marked(Saving(kdf, r, Written), NextEpoch(d.members, clock))
  {
    var out := Tombstoned(d.members.(invited := d.members.invited - drop), drop, {});
    SavingMarks(kdf, d.(members := out, chains := d.chains.(stale := true)), save, 0);
    SavingMarks(kdf, Rekeying(kdf, d, drop, clock, save, self), Written, NextEpoch(d.members, clock));
  }

  /**
   * But a removal is saved before it is stamped. Until something else is saved, a restart
   * forgets the stamp, and a replay of our own roster is then obeyed exactly where it is
   * past what was on record before the removal; without the restart, exactly where it is
   * past the stamp.
   */
  lemma AnUnsavedStampIsForgotten(kdf: Kdf, self: Name, d: Device, drop: set<Name>, clock: int, replayed: Roster)
    requires MayRekey(d, drop, self) && drop != {} && self != NOBODY
    requires Prev(d.disk).owner in {NOBODY, self} && replayed.owner == self && replayed.author == self
    ensures var r := Rekeying(kdf, d, drop, clock, Written, self);
      var again := Restarting(kdf, r, true, self);
      && (Obeyed(r.members, replayed, self) <==> replayed.epoch > NextEpoch(d.members, clock))
      && (Obeyed(again.members, replayed, self) <==> replayed.epoch > Max(d.members.ownerEpoch, Prev(d.disk).ownerEpoch))
  {
    var out := Tombstoned(d.members.(invited := d.members.invited - drop), drop, {});
    var s := Saving(kdf, d.(members := out, chains := d.chains.(stale := true)), Written);
    assert s.disk.value.owner == self;
    assert s.disk.value.ownerEpoch == Max(d.members.ownerEpoch, Prev(d.disk).ownerEpoch);
  }

  /** So one of our own rosters from before the removal, replayed after a restart, brings the removed back. */
  lemma AReplayAfterARestart(kdf: Kdf, self: Name, d: Device, drop: set<Name>, clock: int, replayed: Roster, who: Name)
    requires MayRekey(d, drop, self) && who in drop && self != NOBODY && who != self
    requires Prev(d.disk).owner in {NOBODY, self} && replayed.owner == self && replayed.author == self
    requires replayed.epoch > Max(d.members.ownerEpoch, Prev(d.disk).ownerEpoch) && who in replayed.members
    ensures var again := Restarting(kdf, Rekeying(kdf, d, drop, clock, Written, self), true, self);
      && who in again.members.removed && who !in again.members.invited
      && who !in Judged(again.members, replayed, self).removed && who in Judged(again.members, replayed, self).invited
  {
    AnUnsavedStampIsForgotten(kdf, self, d, drop, clock, replayed);
  }
}
