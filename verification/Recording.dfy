/** What each operation leaves on file when its save lands, and where that is not what the session holds. */
module Recording {
  import opened Words
  import opened Ratchet
  import opened RoomChains
  import opened Members
  import opened RoomStore
  import opened Device
  import opened History
  import ChainLaws

  /** The file holds the session's members, its tombstones, its chain with the marks on it, its views and what it has seen. */
  predicate OnFile(d: Device) {
    && d.disk.Some?
    && var e, m, s := d.disk.value, d.members, d.chains;
    && m.removed <= e.removed
    && (m.invited != {} ==> e.members == m.invited - e.removed)
    && (m.owner != NOBODY ==> e.owner != NOBODY)
    && (s.out.Some? ==> e.out.Some? && e.out.value.id == s.out.value.id && e.shared == s.shared && e.stale == s.stale)
    && (forall id | id in s.views :: Held(e.views, id) == Some(s.views[id]))
    && (forall id | id in s.seen :: Lookup(e.seen, id) >= s.seen[id])
  }

  predicate EpochsOnFile(d: Device) {
    d.disk.Some? && d.members.epoch <= d.disk.value.epoch && d.members.ownerEpoch <= d.disk.value.ownerEpoch
  }

  lemma PersistingRecords(kdf: Kdf, d: Device)
    ensures OnFile(Persisting(kdf, d)) && EpochsOnFile(Persisting(kdf, d))
  {
    var e := Persisting(kdf, d).disk.value;
    forall id | id in d.chains.seen ensures Lookup(e.seen, id) >= d.chains.seen[id] {
      MergedSeen(kdf, Live(d.chains, d.members), Prev(d.disk), id);
    }
  }

  lemma StampingLeavesTheFile(d: Device, self: Name, clock: int)
    requires OnFile(d)
    ensures OnFile(d.(members := Signed(d.members, self, clock)))
  {
  }

  lemma InvitingRecords(kdf: Kdf, self: Name, d: Device, who: Name, env: InviteEnv)
    requires Invites(d, who, self) && (if env.delivered then env.before.Written? else env.after.Written?)
    ensures OnFile(Inviting(kdf, d, who, env, self))
    ensures !env.delivered ==> EpochsOnFile(Inviting(kdf, d, who, env, self))
  {
    var a := Admitting(kdf, d, who, env);
    var s := a.(members := Signed(a.members, self, env.first));
    if env.delivered {
      PersistingRecords(kdf, d.(members := Admitted(d.members, who), chains := Pruned(kdf, d.chains)));
      StampingLeavesTheFile(a, self, env.first);
      StampingLeavesTheFile(s, self, env.second);
    } else {
      PersistingRecords(kdf, s.(members := Withdrawn(s.members, who, who in d.members.removed), chains := Pruned(kdf, s.chains)));
    }
  }

  /** The step changes the room, and the save that goes with it lands. */
  predicate SavesWhatItDoes(d: Device, step: Step, self: Name) {
    match step
    case Create(save) => save.Written?
    case Receive(r, save) => save.Written? && Obeyed(d.members, r, self)
    case Rekey(drop, _, save) => save.Written? && MayRekey(d, drop, self)
    case Invite(who, env) => Invites(d, who, self) && (if env.delivered then env.before.Written? else env.after.Written?)
    case Save(save) => save.Written?
    case Flush => true
    case _ => false
  }

  /**
   * No operation that saves keeps anything from the file: what the session holds after it,
   * the file holds. The one thing left behind is a stamp claimed after the save, by a
   * removal or a delivered invitation.
   */
  lemma OperationsAreSaved(kdf: Kdf, self: Name, d: Device, step: Step)
    requires SavesWhatItDoes(d, step, self)
    ensures OnFile(NextDevice(kdf, self, d, step))
    ensures (step.Rekey? && step.drop != {}) || (step.Invite? && step.invitation.delivered) || EpochsOnFile(NextDevice(kdf, self, d, step))
  {
    var pruned := Pruned(kdf, d.chains);
    match step
    case Create(_) =>
      PersistingRecords(kdf, d.(chains := Pruned(kdf, d.chains.(encrypted := true)), members := Pinned(d.members, self)));
    case Receive(r, _) =>
      var s := if Retires(d.members, r, self) then d.chains.(stale := true) else d.chains;
      PersistingRecords(kdf, d.(members := Judged(d.members, r, self), chains := Pruned(kdf, s)));
    case Rekey(drop, clock, _) =>
      var out := Tombstoned(d.members.(invited := d.members.invited - drop), drop, {});
      var e := Persisting(kdf, d.(members := out, chains := Pruned(kdf, d.chains.(stale := true))));
      PersistingRecords(kdf, d.(members := out, chains := Pruned(kdf, d.chains.(stale := true))));
      StampingLeavesTheFile(e, self, clock);
    case Invite(who, env) => InvitingRecords(kdf, self, d, who, env);
    case Save(_) => PersistingRecords(kdf, d.(chains := pruned));
    case Flush => PersistingRecords(kdf, d);
  }

  lemma JoiningIsSaved(kdf: Kdf, self: Name, d: Device, inv: Invitation)
    ensures OnFile(Joining(kdf, d, inv, Written, self)) && EpochsOnFile(Joining(kdf, d, inv, Written, self))
  {
    var a := Adopting(kdf, d, inv, self);
    PersistingRecords(kdf, a.(chains := Pruned(kdf, a.chains)));
  }

  /** A save that gets as far as the file lets go of what is more than 2000 behind, whether or not the write lands. */
  lemma SavingForgetsTheOld(kdf: Kdf, d: Device, fate: SaveFate, id: ChainId, i: u32)
    requires id in d.chains.views && (d.chains.out.Some? ==> d.chains.out.value.id != id)
    requires Lookup(d.chains.seen, id) >= CHAIN_RETENTION && !fate.NoAccess?
    ensures var v, floor := d.chains.views[id], d.chains.seen[id] - CHAIN_RETENTION;
      && id in Saving(kdf, d, fate).chains.views
      && (i < floor && floor - v.index <= MAX_CHAIN_SKIP ==>
          kdf.MessageKey(Saving(kdf, d, fate).chains.views[id], i).Rewind?)
  {
    ChainLaws.PruneKeepsTheWindow(kdf, d.chains, id, i);
  }

  // --- An empty list reads as one never restored -------------------------------------------

  /** The files before and after a failed invitation whose saves both landed. */
  predicate FailsSaved(d: Device, who: Name, env: InviteEnv, self: Name) {
    && Invites(d, who, self) && who != self && !env.delivered && env.before.Written? && env.after.Written?
    && who !in d.members.removed && who !in Prev(d.disk).removed
  }

  /**
   * A failed invitation is said to leave no member recorded who got nothing. The session
   * records none; the file does exactly where nobody else is a member, because a save
   * takes an empty list for one that was never restored and keeps the list written when
   * the newcomer was first recorded. The next process then has them as a member.
   */
  lemma AWithdrawnNewcomerStaysOnFile(kdf: Kdf, d: Device, who: Name, env: InviteEnv, self: Name)
    requires FailsSaved(d, who, env, self)
    ensures var e := Inviting(kdf, d, who, env, self);
      && who !in e.members.invited && e.disk.Some?
      && (who in e.disk.value.members <==> d.members.invited <= {who})
      && (who in Restarting(kdf, e, true, self).members.invited <==> d.members.invited <= {who})
  {
    var a := Admitting(kdf, d, who, env);
    AdmittedOnFile(kdf, d, who, env);
    var s := a.(members := Signed(a.members, self, env.first));
    var back := s.(members := Withdrawn(s.members, who, false));
    assert back.members.invited == d.members.invited - {who};
    WithdrawnOnFile(kdf, back.(chains := Pruned(kdf, back.chains)), who);
    assert d.members.invited - {who} == {} <==> d.members.invited <= {who};
  }

  lemma AdmittedOnFile(kdf: Kdf, d: Device, who: Name, env: InviteEnv)
    requires env.before.Written? && who !in d.members.removed && who !in Prev(d.disk).removed
    ensures var a := Admitting(kdf, d, who, env);
      && a.disk.Some? && who in a.disk.value.members && who !in a.disk.value.removed
      && a.members.invited == d.members.invited + {who} && a.members.removed == d.members.removed
  {
    assert d.members.removed - {who} == d.members.removed;
  }

  lemma WithdrawnOnFile(kdf: Kdf, back: Device, who: Name)
    requires back.disk.Some? && who in back.disk.value.members && who !in back.disk.value.removed
    requires who !in back.members.invited && who !in back.members.removed
    ensures var e := Persisting(kdf, back).disk.value;
      && (who in e.members <==> back.members.invited == {}) && who !in e.removed
  {
  }
}
