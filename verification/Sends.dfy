/** When a room message goes out sealed, and who can then read it. */
module Sends {
  import opened Words
  import opened Ratchet
  import opened RoomChains
  import opened Members
  import opened RoomStore
  import opened Device
  import opened History

  /** A new chain is due: there is none, or it must be replaced. */
  predicate Due(d: Device) {
    d.chains.out.None? || d.chains.stale
  }

  /** Everybody else recorded as a member whose device keys are known. */
  function Readers(d: Device, env: SendEnv, self: Name): set<Name> {
    set n | n in d.members.invited && n != self && n in env.delivery.known
  }

  /** The chain a message would be sealed under is ready: standing and shared, or started and in everybody's hands. */
  predicate ChainReady(d: Device, env: SendEnv, self: Name) {
    if d.chains.encrypted && Due(d)
    then env.minted.Some? && (Readers(d, env, self) == {} || (env.delivery.ready && env.delivery.complete))
    else !Due(d) && d.chains.shared
  }

  /** Its next position is promised on file, or the promise is made now and is known to have landed. */
  predicate PositionReady(d: Device, env: SendEnv) {
    if d.chains.encrypted && Due(d)
    then env.minted.Some? && env.persist.Persisted?
    else
      && d.chains.out.Some?
      && (d.chains.out.value.index < d.chains.reserved
          || (env.persist.Persisted? && d.chains.out.value.index + RESERVATION_BLOCK <= U32_MAX))
  }

  /** The chain at hand can seal: it is the room's, it stands, and a position on it is or gets promised. */
  predicate SealsFrom(s: RoomState, env: SendEnv) {
    && s.out.Some? && s.shared && !s.stale
    && (s.out.value.index < s.reserved || (env.persist.Persisted? && s.out.value.index + RESERVATION_BLOCK <= U32_MAX))
  }

  lemma SealingExactly(kdf: Kdf, e: Device, env: SendEnv)
    ensures SealingResult(kdf, e, env).Sealed? <==> SealsFrom(e.chains, env) && env.hasSigner && env.fault.NoFault?
  {
    if env.hasSigner && Reserves(e, env.persist) {
      var r := Reserving(kdf, e, env.persist);
      assert r.chains.out == e.chains.out && r.chains.shared == e.chains.shared && r.chains.stale == e.chains.stale;
    }
  }

  lemma DistributedExactly(w: World, env: SendEnv, self: Name)
    requires Possible(w, Send(env)) && Distributes(w.dev, env, self)
    ensures var e := Distributing(w.dev, env, self);
      SealsFrom(e.chains, env) <==> ChainReady(w.dev, env, self) && PositionReady(w.dev, env)
  {
    ReadersAreAddressed(w.dev, env, self);
  }

  /** A message goes out sealed exactly where the chain and its position are ready and nothing fails on the way. */
  lemma SealsExactlyWhere(kdf: Kdf, self: Name, w: World, env: SendEnv)
    requires Possible(w, Send(env))
    ensures SendResult(kdf, w.dev, env, self).Sealed? <==>
      ChainReady(w.dev, env, self) && PositionReady(w.dev, env) && env.hasSigner && env.fault.NoFault?
  {
    ReadersAreAddressed(w.dev, env, self);
    if Distributes(w.dev, env, self) {
      SealingExactly(kdf, Distributing(w.dev, env, self), env);
      DistributedExactly(w, env, self);
    }
  }

  lemma ReadersAreAddressed(d: Device, env: SendEnv, self: Name)
    ensures Readers(d, env, self) == Addressed(d, env.delivery, self)
  {
  }

  /** Whoever a new chain is sealed under for holds it: every other member whose keys are known, and nobody else. */
  lemma NewChainsReachTheRoom(kdf: Kdf, self: Name, w: World, env: SendEnv)
    requires Possible(w, Send(env)) && w.dev.chains.encrypted && Due(w.dev)
    requires SendResult(kdf, w.dev, env, self).Sealed?
    ensures SendResult(kdf, w.dev, env, self).id == env.minted.value.id
    ensures GivenTo(Next(kdf, self, w, Send(env)).given, env.minted.value.id) == Readers(w.dev, env, self)
  {
    SealsExactlyWhere(kdf, self, w, env);
    ReadersAreAddressed(w.dev, env, self);
    var e := Distributing(w.dev, env, self);
    assert Reserving(kdf, e, env.persist).chains.out == e.chains.out;
  }

  /** A chain whose broadcast failed is never sealed under, whatever the next send meets. */
  lemma UnsharedNeverSeals(kdf: Kdf, self: Name, w: World, env: SendEnv)
    requires Possible(w, Send(env)) && w.dev.chains.encrypted && !Due(w.dev) && !w.dev.chains.shared
    ensures SendResult(kdf, w.dev, env, self) == Refused
  {
    assert Distributing(w.dev, env, self) == w.dev;
  }

  /** A reservation that is not known to have landed is refused and promises nothing: the next seal must reserve again. */
  lemma AFailedReservationIsRepeated(kdf: Kdf, d: Device, fate: PersistFate)
    requires d.chains.out.Some? && d.chains.out.value.index >= d.chains.reserved && !fate.Persisted?
    ensures !Reserves(d, fate)
    ensures var r := Reserving(kdf, d, fate).chains;
      r.out == d.chains.out && r.out.Some? && r.reserved <= r.out.value.index
  {
  }

  /** A chain just started is shared exactly where its broadcast reached everybody it was for. */
  lemma SharedExactlyWhereReached(kdf: Kdf, self: Name, d: Device, env: SendEnv)
    requires d.chains.encrypted && Due(d) && env.minted.Some?
    ensures Sending(kdf, d, env, self).chains.shared <==>
      Readers(d, env, self) == {} || (env.delivery.ready && env.delivery.complete)
  {
    ReadersAreAddressed(d, env, self);
    var e := Distributing(d, env, self);
    assert Reserving(kdf, e, env.persist).chains.shared == e.chains.shared;
  }

  /** Without a signing key nothing is sealed, and no position is promised, used or saved. */
  lemma KeylessSendsUseNothing(kdf: Kdf, self: Name, d: Device, env: SendEnv)
    requires !env.hasSigner
    ensures !SendResult(kdf, d, env, self).Sealed?
    ensures var e := Sending(kdf, d, env, self);
      && e.disk == d.disk && e.members == d.members && e.chains.seen == d.chains.seen
      && (if d.chains.encrypted && Due(d) && env.minted.Some?
          then e.chains.out == env.minted && e.chains.reserved == 0
          else e == d)
  {
  }

  // --- What a room's operations do to its chain ---------------------------------------------

  /** Our chain is due for replacement after a roster exactly where it was before, or the owner removed somebody new. */
  lemma RostersRetireExactlyWhere(kdf: Kdf, self: Name, d: Device, r: Roster, fate: SaveFate)
    ensures Receiving(kdf, d, r, fate, self).chains.stale <==>
      d.chains.stale
      || (d.members.owner != NOBODY && r.owner == d.members.owner == r.author && r.epoch > d.members.ownerEpoch
          && exists n :: n in r.removed && n !in d.members.removed)
  {
  }

  /** A re-key we may make retires the chain, whoever it drops; one we may not make changes nothing. */
  lemma RekeysRetire(kdf: Kdf, self: Name, d: Device, drop: set<Name>, clock: int, fate: SaveFate)
    ensures var e := Rekeying(kdf, d, drop, clock, fate, self);
      if d.chains.encrypted && (drop == {} || (d.members.owner == self && self != NOBODY))
      then e.chains.stale && e.members.invited == d.members.invited - drop && e.members.removed == d.members.removed + drop
      else e == d
  {
  }

  /** Nobody is invited into a room that is not encrypted: there is nothing to share. */
  lemma PlainRoomsInviteNobody(kdf: Kdf, self: Name, d: Device, who: Name, env: InviteEnv)
    requires !d.chains.encrypted
    ensures Inviting(kdf, d, who, env, self) == d
  {
  }

  /** A new process that reads the file is bound by its mark: the chain restored is due for replacement if the file says so. */
  lemma RestoredMarksBind(kdf: Kdf, self: Name, d: Device)
    requires d.disk.Some?
    ensures Restoring(kdf, d, self).chains.stale <==> d.chains.stale || d.disk.value.stale
  {
  }
}
