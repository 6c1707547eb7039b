/**
 * One room on one device: live chain state, live membership, and the room file.
 *
 * The functions say what each operation does to the three together; `App` performs
 * them step by step on the client's and the app's own records.
 */
module Device {
  import opened Words
  import opened Ratchet
  import opened RoomChains
  import opened Members
  import opened RoomStore
  import RosterLaws

  datatype Device = Device(chains: RoomState, members: Membership, disk: Option<Entry>)

  /** A best-effort save: the file is out of reach, the write fails, or it lands. */
  datatype SaveFate = NoAccess | Lost | Written

  /** The durable save behind a reservation; a write may land and still be reported as failed. */
  datatype PersistFate = Failed | LandedUnreported | Persisted

  /**
   * How the broadcast of a new chain goes: whose device keys we hold, whether we have
   * our own key and the room's connection, and who was reached if a chunk failed.
   */
  datatype Delivery = Delivery(known: set<Name>, ready: bool, complete: bool, reached: set<Name>)

  /** Everything a send leaves to its surroundings. */
  datatype SendEnv = SendEnv(minted: Option<Chain>, delivery: Delivery, hasSigner: bool, persist: PersistFate, fault: SealFault)

  function Prev(disk: Option<Entry>): Entry {
    if disk.Some? then disk.value else EMPTY
  }

  function Persisting(kdf: Kdf, d: Device): Device {
    d.(disk := Some(Merged(kdf, Live(d.chains, d.members), Prev(d.disk))))
  }

  function Saving(kdf: Kdf, d: Device, fate: SaveFate): Device {
    if fate.NoAccess? then d
    else
      var p := d.(chains := Pruned(kdf, d.chains));
      if fate.Lost? then p else Persisting(kdf, p)
  }

  // --- Sending ------------------------------------------------------------------

  function Reserving(kdf: Kdf, d: Device, fate: PersistFate): Device {
    if !NeedsReservation(d.chains) then d
    else
      var want := Wanted(d.chains);
      var p := d.(chains := Promised(d.chains));
      match fate
      case Persisted => Persisting(kdf, p)
      case LandedUnreported => Persisting(kdf, p).(chains := RolledBack(p.chains, want))
      case Failed => p.(chains := RolledBack(p.chains, want))
  }

  predicate Reserves(d: Device, fate: PersistFate) {
    NeedsReservation(d.chains) ==> fate.Persisted?
  }

  /** A send starts a new outbound chain. */
  predicate Mints(d: Device, env: SendEnv) {
    d.chains.encrypted && NeedsChain(d.chains) && env.minted.Some?
  }

  function Addressed(d: Device, v: Delivery, self: Name): set<Name> {
    (d.members.invited - {self}) * v.known
  }

  /** Who ends up holding the new chain. */
  function Reached(d: Device, v: Delivery, self: Name): set<Name> {
    if !v.ready then {}
    else if v.complete then Addressed(d, v, self)
    else Addressed(d, v, self) * v.reached
  }

  predicate Distributes(d: Device, env: SendEnv, self: Name) {
    d.chains.encrypted && NeedsChain(d.chains) ==>
      env.minted.Some? && (Addressed(d, env.delivery, self) == {} || (env.delivery.ready && env.delivery.complete))
  }

  function Distributing(d: Device, env: SendEnv, self: Name): Device {
    if !Mints(d, env) then d
    else
      var s := Minted(d.chains, env.minted.value);
      d.(chains := if Distributes(d, env, self) then s.(shared := true) else s)
  }

  function SealingResult(kdf: Kdf, d: Device, env: SendEnv): SealOutcome {
    if env.hasSigner && !Reserves(d, env.persist) then Refused
    else SealResult(kdf, (if env.hasSigner then Reserving(kdf, d, env.persist) else d).chains, env.hasSigner, env.fault)
  }

  function Sealing(kdf: Kdf, d: Device, env: SendEnv): Device {
    if !env.hasSigner then d
    else
      var r := Reserving(kdf, d, env.persist);
      if !Reserves(d, env.persist) then r else r.(chains := AfterSeal(kdf, r.chains, true, env.fault))
  }

  function SendResult(kdf: Kdf, d: Device, env: SendEnv, self: Name): SealOutcome {
    if !Distributes(d, env, self) then Refused else SealingResult(kdf, Distributing(d, env, self), env)
  }

  function Sending(kdf: Kdf, d: Device, env: SendEnv, self: Name): Device {
    var e := Distributing(d, env, self);
    if !Distributes(d, env, self) then e else Sealing(kdf, e, env)
  }

  // --- Membership -----------------------------------------------------------------

  function Receiving(kdf: Kdf, d: Device, r: Roster, fate: SaveFate, self: Name): Device {
    if !Obeyed(d.members, r, self) then d
    else
      Saving(kdf, d.(members := Judged(d.members, r, self),
                     chains := if Retires(d.members, r, self) then d.chains.(stale := true) else d.chains), fate)
  }

  predicate MayRekey(d: Device, drop: set<Name>, self: Name) {
    d.chains.encrypted && MayDrop(d.members, drop, self)
  }

  function Rekeying(kdf: Kdf, d: Device, drop: set<Name>, clock: int, fate: SaveFate, self: Name): Device {
    if !MayRekey(d, drop, self) then d
    else
      var out := Tombstoned(d.members.(invited := d.members.invited - drop), drop, {});
      var e := Saving(kdf, d.(members := out, chains := d.chains.(stale := true)), fate);
      if drop == {} then e else e.(members := Signed(out, self, clock))
  }

  /** `delivered` is what the send reported, `arrived` whether the newcomer got it. */
  datatype InviteEnv = InviteEnv(delivered: bool, arrived: bool, first: int, second: int, before: SaveFate, after: SaveFate)

  predicate Invites(d: Device, who: Name, self: Name) {
    d.chains.encrypted && MayInvite(d.members, who, self)
  }

  /** The device as the bundle is drawn up: the newcomer recorded and saved. */
  function Admitting(kdf: Kdf, d: Device, who: Name, env: InviteEnv): Device {
    Saving(kdf, d.(members := Admitted(d.members, who)), env.before)
  }

  function InviteBundle(kdf: Kdf, d: Device, who: Name, env: InviteEnv): map<ChainId, ChainView> {
    var s := Admitting(kdf, d, who, env).chains;
    Bundle(kdf, s.views, s.seen)
  }

  function Inviting(kdf: Kdf, d: Device, who: Name, env: InviteEnv, self: Name): Device {
    if !Invites(d, who, self) then d
    else
      var a := Admitting(kdf, d, who, env);
      var s := a.(members := Signed(a.members, self, env.first));
      if env.delivered then s.(members := Signed(s.members, self, env.second))
      else Saving(kdf, s.(members := Withdrawn(s.members, who, who in d.members.removed)), env.after)
  }

  function Creating(kdf: Kdf, d: Device, fate: SaveFate, self: Name): Device {
    Saving(kdf, d.(chains := d.chains.(encrypted := true), members := Pinned(d.members, self)), fate)
  }

  /** What an accepted invitation brings: who sent it, the chains of its bundle, its roster if that verified. */
  datatype Invitation = Invitation(from: Name, chains: seq<ChainView>, roster: Option<Roster>)

  function LearnedAll(kdf: Kdf, s: RoomState, views: seq<ChainView>): RoomState
    decreases |views|
  {
    if views == [] then s else Learned(kdf, LearnedAll(kdf, s, views[..|views| - 1]), views[|views| - 1])
  }

  function Adopting(kdf: Kdf, d: Device, inv: Invitation, self: Name): Device {
    d.(chains := LearnedAll(kdf, d.chains.(encrypted := true), inv.chains),
       members := Adopted(d.members, inv.from, inv.roster, self))
  }

  function Joining(kdf: Kdf, d: Device, inv: Invitation, fate: SaveFate, self: Name): Device {
    Saving(kdf, Adopting(kdf, d, inv, self), fate)
  }

  // --- The file ---------------------------------------------------------------------

  function FileMembersOf(e: Entry): RosterLaws.FileMembers {
    RosterLaws.FileMembers(e.owner, e.epoch, e.ownerEpoch, e.removed, e.members)
  }

  function Restoring(kdf: Kdf, d: Device, self: Name): Device {
    match d.disk
    case None => d
    case Some(e) =>
      var s := Restored(kdf, d.chains, Stored(e));
      d.(chains := if e.stale then s.(stale := true) else s,
         members := RosterLaws.Reinstalled(d.members, FileMembersOf(e), self))
  }

  /** A new process: only the file is left, and it may or may not be readable. */
  function Restarting(kdf: Kdf, d: Device, readable: bool, self: Name): Device {
    var blank := Device(BLANK, UNKNOWN, d.disk);
    if readable then Restoring(kdf, blank, self) else blank
  }

  /** Installing a device transfer; `t` is what it says about this room, if anything. */
  function Importing(kdf: Kdf, d: Device, t: Option<TransferRoom>, saved: bool, self: Name): Device {
    if !saved then d
    else Restoring(kdf, if t.Some? then d.(disk := Some(Taken(Prev(d.disk), t.value, self))) else d, self)
  }

  // --- The operations themselves -------------------------------------------------------

  class App {
    const kdf: Kdf
    const keys: RoomKeys
    const record: RoomMembers
    const cookie: Cookie
    const self: Name
    var disk: Option<Entry>

    ghost predicate Valid()
    {
      keys.kdf == kdf && self != NOBODY
    }

    function State(): Device
      reads this, keys, record
    {
      Device(keys.State(), record.Of(cookie), disk)
    }

    constructor (kdf: Kdf, keys: RoomKeys, record: RoomMembers, cookie: Cookie, self: Name, disk: Option<Entry>)
      requires keys.kdf == kdf && self != NOBODY
      ensures Valid()
      ensures this.kdf == kdf && this.keys == keys && this.record == record && this.cookie == cookie && this.self == self
      ensures State() == Device(keys.State(), record.Of(cookie), disk)
    {
      this.kdf, this.keys, this.record, this.cookie, this.self, this.disk := kdf, keys, record, cookie, self, disk;
    }

    method PersistRoomChain()
      requires Valid()
      modifies this
      ensures State() == Persisting(kdf, old(State()))
    {
      var prev := if disk.Some? then disk.value else EMPTY;
      var entry := MergedRoomEntry(keys, record, cookie, prev);
      disk := Some(entry);
    }

    method SaveRoomKeys(fate: SaveFate)
      requires Valid()
      modifies this, keys
      ensures State() == Saving(kdf, old(State()), fate)
    {
      if fate.NoAccess? {
        return;
      }
      var _ := keys.PruneChainViews();
      if fate.Written? {
        PersistRoomChain();
      }
    }

    method ReserveChainPositions(fate: PersistFate) returns (ok: bool)
      requires Valid()
      modifies this, keys
      ensures ok <==> Reserves(old(State()), fate)
      ensures State() == Reserving(kdf, old(State()), fate)
    {
      var need, want := keys.PromisePositions();
      if !need {
        return true;
      }
      if !fate.Failed? {
        PersistRoomChain();
      }
      if !fate.Persisted? {
        keys.RollBackPromise(want);
        return false;
      }
      ok := true;
    }

    method EnsureRoomChainDistributed(env: SendEnv) returns (ok: bool)
      requires Valid()
      modifies keys
      ensures ok <==> Distributes(old(State()), env, self)
      ensures State() == Distributing(old(State()), env, self)
    {
      if !keys.encrypted {
        return true;
      }
      var view, isNew := keys.EnsureOutboundChain(env.minted);
      if view.None? {
        return false;
      }
      if !isNew {
        return true;
      }
      var recipients := (record.Of(cookie).invited - {self}) * env.delivery.known;
      if recipients == {} {
        keys.MarkChainShared();
        return true;
      }
      if !env.delivery.ready || !env.delivery.complete {
        return false;
      }
      keys.MarkChainShared();
      ok := true;
    }

    method SealRoomMessage(env: SendEnv) returns (r: SealOutcome)
      requires Valid()
      modifies this, keys
      ensures r == SealingResult(kdf, old(State()), env)
      ensures State() == Sealing(kdf, old(State()), env)
    {
      if env.hasSigner {
        var ok := ReserveChainPositions(env.persist);
        if !ok {
          return Refused;
        }
      }
      r := keys.SealUnderChain(env.hasSigner, env.fault);
    }

    method SendRoomMessage(env: SendEnv) returns (r: SealOutcome)
      requires Valid()
      modifies this, keys
      ensures r == SendResult(kdf, old(State()), env, self)
      ensures State() == Sending(kdf, old(State()), env, self)
    {
      var ok := EnsureRoomChainDistributed(env);
      if !ok {
        return Refused;
      }
      r := SealRoomMessage(env);
    }

    method ApplyRoster(r: Roster, fate: SaveFate)
      requires Valid()
      modifies this, keys, record
      ensures State() == Receiving(kdf, old(State()), r, fate, self)
    {
      var obeyed := Obeyed(record.Of(cookie), r, self);
      var retire := record.ApplyRoster(cookie, r, self);
      if retire {
        keys.MarkChainStale();
      }
      if obeyed {
        SaveRoomKeys(fate);
      }
    }

    method SignedRoster(clock: int)
      requires Valid() && clock <= INT64_MAX && record.Of(cookie).owner != NOBODY
      modifies record
      ensures State() == old(State()).(members := Signed(old(State()).members, self, clock))
    {
      var owner := record.Of(cookie).owner;
      var epoch := record.ClaimNextEpoch(cookie, clock);
      if self == owner {
        record.AcceptOwnerEpoch(cookie, epoch);
      }
    }

    method DropMembers(drop: seq<Name>)
      modifies record
      ensures State() == old(State()).(members :=
        Tombstoned(old(State()).members.(invited := old(State()).members.invited - Names(drop)), Names(drop), {}))
    {
      ghost var m := record.Of(cookie);
      for i := 0 to |drop|
        invariant record.Of(cookie) == m.(invited := m.invited - Names(drop[..i]))
      {
        assert Names(drop[..i + 1]) == Names(drop[..i]) + {drop[i]};
        record.Remove(cookie, drop[i]);
      }
      assert drop[..|drop|] == drop;
      record.Tombstone(cookie, drop, []);
      assert Names([]) == {};
    }

    method RekeyRoom(drop: seq<Name>, clock: int, fate: SaveFate) returns (ok: bool)
      requires Valid() && clock <= INT64_MAX
      modifies this, keys, record
      ensures ok <==> MayRekey(old(State()), Names(drop), self)
      ensures State() == Rekeying(kdf, old(State()), Names(drop), clock, fate, self)
    {
      if !keys.encrypted {
        return false;
      }
      var owner := record.Of(cookie).owner;
      if |drop| > 0 {
        assert drop[0] in Names(drop);
        if owner == NOBODY || owner != self {
          return false;
        }
      }
      assert drop == [] ==> Names(drop) == {};
      DropMembers(drop);
      keys.MarkChainStale();
      SaveRoomKeys(fate);
      if |drop| > 0 {
        SignedRoster(clock);
      }
      ok := true;
    }

    method Admit(who: Name) returns (lifted: bool)
      modifies record
      ensures lifted <==> who in old(State()).members.removed
      ensures State() == old(State()).(members := Admitted(old(State()).members, who))
    {
      lifted := who in record.Of(cookie).removed;
      if lifted {
        record.Tombstone(cookie, [], [who]);
        assert Names([who]) == {who} && Names([]) == {};
      }
      record.Add(cookie, who);
    }

    method Withdraw(who: Name, lifted: bool)
      modifies record
      ensures State() == old(State()).(members := Withdrawn(old(State()).members, who, lifted))
    {
      record.Remove(cookie, who);
      if lifted {
        record.Tombstone(cookie, [who], []);
        assert Names([who]) == {who} && Names([]) == {};
      }
    }

    /** Records the newcomer, saves, and draws up what they need to read from here on. */
    method DrawInvitation(who: Name, env: InviteEnv) returns (bundle: seq<ChainView>, lifted: bool)
      requires Valid() && Invites(State(), who, self)
      modifies this, keys, record
      ensures State() == Admitting(kdf, old(State()), who, env)
      ensures lifted <==> who in old(State()).members.removed
      ensures Draws(bundle, InviteBundle(kdf, old(State()), who, env))
    {
      lifted := Admit(who);
      SaveRoomKeys(env.before);
      bundle := keys.ChainBundleFor(who in record.Of(cookie).invited);
    }

    method FinishInvitation(who: Name, lifted: bool, env: InviteEnv)
      requires Valid() && env.first <= INT64_MAX && env.second <= INT64_MAX && record.Of(cookie).owner != NOBODY
      modifies this, keys, record
      ensures State() ==
        var s := old(State()).(members := Signed(old(State()).members, self, env.first));
        if env.delivered then s.(members := Signed(s.members, self, env.second))
        else Saving(kdf, s.(members := Withdrawn(s.members, who, lifted)), env.after)
    {
      SignedRoster(env.first);
      if env.delivered {
        SignedRoster(env.second);
      } else {
        Withdraw(who, lifted);
        SaveRoomKeys(env.after);
      }
    }

    /** `bundle` is what the newcomer was sent, empty when nothing reached them. */
    method InviteToRoom(who: Name, env: InviteEnv) returns (bundle: seq<ChainView>)
      requires Valid() && env.first <= INT64_MAX && env.second <= INT64_MAX
      modifies this, keys, record
      ensures State() == Inviting(kdf, old(State()), who, env, self)
      ensures if Invites(old(State()), who, self) && env.delivered
              then Draws(bundle, InviteBundle(kdf, old(State()), who, env)) else bundle == []
    {
      bundle := [];
      if who == NOBODY || !keys.encrypted {
        return;
      }
      var m := record.Of(cookie);
      if m.owner == NOBODY {
        return;
      }
      if who in m.removed && m.owner != self {
        return;
      }
      var drawn, lifted := DrawInvitation(who, env);
      FinishInvitation(who, lifted, env);
      if env.delivered {
        bundle := drawn;
      }
    }

    method CreateEncryptedRoom(fate: SaveFate)
      requires Valid()
      modifies this, keys, record
      ensures State() == Creating(kdf, old(State()), fate, self)
    {
      keys.MarkEncrypted();
      var _ := record.PinOwner(cookie, self);
      SaveRoomKeys(fate);
    }

    method AdoptInviteState(inv: Invitation)
      requires Valid()
      modifies keys, record
      ensures State() == Adopting(kdf, old(State()), inv, self)
    {
      keys.MarkEncrypted();
      ghost var s := keys.State();
      for i := 0 to |inv.chains|
        invariant keys.State() == LearnedAll(kdf, s, inv.chains[..i])
        invariant record.Of(cookie) == old(record.Of(cookie))
      {
        assert inv.chains[..i + 1][..i] == inv.chains[..i];
        keys.LearnChainView(inv.chains[i]);
      }
      assert inv.chains[..|inv.chains|] == inv.chains;
      record.Add(cookie, inv.from);
      if inv.roster.None? {
        return;
      }
      var r := inv.roster.value;
      var _ := record.PinOwner(cookie, r.owner);
      if r.author == r.owner {
        record.AcceptOwnerEpoch(cookie, r.epoch);
        record.Tombstone(cookie, r.removed, r.members);
      }
      record.AddAll(cookie, r.members, self);
    }

    /** The invitation's roster has been verified, or it carried none, and the room has been joined. */
    method AcceptRoomInvite(inv: Invitation, fate: SaveFate)
      requires Valid()
      modifies this, keys, record
      ensures State() == Joining(kdf, old(State()), inv, fate, self)
    {
      AdoptInviteState(inv);
      SaveRoomKeys(fate);
    }

    method ApplyRoomEntry(e: Entry)
      requires Valid() && disk == Some(e)
      modifies keys, record
      ensures State() == Restoring(kdf, old(State()), self)
    {
      keys.RestoreChainState(Stored(e));
      if e.stale {
        keys.MarkChainStale();
      }
      var removed := Listing(e.removed);
      record.Restore(cookie, e.owner, e.epoch, e.ownerEpoch, removed);
      var members := Listing(e.members);
      record.AddAll(cookie, members, self);
    }

    /** `saved`: the file could be read and the merged one written. */
    method InstallTransfer(t: Option<TransferRoom>, saved: bool)
      requires Valid()
      modifies this, keys, record
      ensures State() == Importing(kdf, old(State()), t, saved, self)
    {
      if !saved {
        return;
      }
      if t.Some? {
        var cur := if disk.Some? then disk.value else EMPTY;
        var next := MergeTransferredRoom(cur, t.value, self);
        disk := Some(next);
      }
      if disk.Some? {
        ApplyRoomEntry(disk.value);
      }
    }
  }

  /** A list of a set's names, in some order, as a file holds it. */
  method Listing(names: set<Name>) returns (list: seq<Name>)
    ensures Names(list) == names && |list| == |names|
  {
    list := [];
    var rest := names;
    while rest != {}
      invariant rest <= names && Names(list) == names - rest
      invariant |list| + |rest| == |names|
    {
      var n :| n in rest;
      rest := rest - {n};
      assert Names(list + [n]) == Names(list) + {n};
      list := list + [n];
    }
  }
}
