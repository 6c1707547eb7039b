/** Everything that can happen to a room on one device, and what it leaves behind. */
module History {
  import opened Words
  import opened Ratchet
  import opened RoomChains
  import opened Members
  import opened RoomStore
  import opened Device

  datatype Message = Message(id: ChainId, index: u32, key: Bytes32)

  /**
   * The device, and the record no device keeps: the chains it ever started, every
   * message it sealed, who was ever given each chain, and which positions this
   * process has sealed or opened.
   */
  datatype World = World(
    dev: Device,
    minted: map<ChainId, Chain>,
    sealed: seq<Message>,
    given: map<ChainId, set<Name>>,
    session: set<(ChainId, u32)>)

  const INSTALLED := World(Device(BLANK, UNKNOWN, None), map[], [], map[], {})

  datatype Step =
    | Create(save: SaveFate)
    | Send(env: SendEnv)
    | Receive(roster: Roster, save: SaveFate)
    | Rekey(drop: set<Name>, clock: int, save: SaveFate)
    | Invite(who: Name, invitation: InviteEnv)
    | Learn(view: ChainView)
    | Read(envelope: Envelope, accepted: bool)
    | Save(save: SaveFate)
    | Flush
    | PeerShares(id: ChainId, to: Name)   // another member hands on a chain of ours
    | Restart(readable: bool)             // a crash or a quit, and a new process
    | Import(transfer: Option<TransferRoom>, saved: bool)   // a restore in mid-session: a transfer, or signing on again

  function NextDevice(kdf: Kdf, self: Name, d: Device, step: Step): Device {
    match step
    case Create(save) => Creating(kdf, d, save, self)
    case Send(env) => Sending(kdf, d, env, self)
    case Receive(r, save) => Receiving(kdf, d, r, save, self)
    case Rekey(drop, clock, save) => Rekeying(kdf, d, drop, clock, save, self)
    case Invite(who, env) => Inviting(kdf, d, who, env, self)
    case Learn(v) => d.(chains := Learned(kdf, d.chains, v))
    case Read(e, accepted) => d.(chains := AfterOpen(kdf, d.chains, e, accepted))
    case Save(save) => Saving(kdf, d, save)
    case Flush => Persisting(kdf, d)
    case PeerShares(_, _) => d
    case Restart(readable) => Restarting(kdf, d, readable, self)
    case Import(t, saved) => Importing(kdf, d, t, saved, self)
  }

  /**
   * Randomness never repeats a chain name, an invitation whose send failed has not reached
   * somebody we hold removed, and no member hands a chain to somebody we hold removed.
   */
  predicate Possible(w: World, step: Step) {
    match step
    case Send(env) => env.minted.Some? ==>
      env.minted.value.index == 0 && env.minted.value.id !in w.minted && env.minted.value.id !in w.given
    case Invite(who, env) => env.arrived ==> env.delivered || who !in w.dev.members.removed
    case PeerShares(id, to) => to !in w.dev.members.removed
    case _ => true
  }

  function GivenTo(given: map<ChainId, set<Name>>, id: ChainId): set<Name> {
    if id in given then given[id] else {}
  }

  function Handing(given: map<ChainId, set<Name>>, ids: set<ChainId>, to: set<Name>): map<ChainId, set<Name>> {
    map id | id in given.Keys + ids :: if id in ids then GivenTo(given, id) + to else given[id]
  }

  function SealedBy(kdf: Kdf, self: Name, d: Device, step: Step): SealOutcome {
    if step.Send? then SendResult(kdf, d, step.env, self) else Refused
  }

  function NextMinted(w: World, step: Step): map<ChainId, Chain> {
    if step.Send? && Mints(w.dev, step.env) then w.minted[step.env.minted.value.id := step.env.minted.value] else w.minted
  }

  function NextSealed(kdf: Kdf, self: Name, w: World, step: Step): seq<Message> {
    match SealedBy(kdf, self, w.dev, step)
    case Sealed(id, index, key) => w.sealed + [Message(id, index, key)]
    case _ => w.sealed
  }

  function NextGiven(kdf: Kdf, self: Name, w: World, step: Step): map<ChainId, set<Name>> {
    match step
    case Send(env) =>
      if Mints(w.dev, env) then Handing(w.given, {env.minted.value.id}, Reached(w.dev, env.delivery, self)) else w.given
    case Invite(who, env) =>
      if Invites(w.dev, who, self) && env.arrived
      then Handing(w.given, InviteBundle(kdf, w.dev, who, env).Keys, {who}) else w.given
    case PeerShares(id, to) => Handing(w.given, {id}, {to})
    case _ => w.given
  }

  function NextSession(kdf: Kdf, self: Name, w: World, step: Step): set<(ChainId, u32)> {
    match step
    case Send(env) =>
      (match SendResult(kdf, w.dev, env, self)
       case Sealed(id, index, _) => w.session + {(id, index)}
       case _ => w.session)
    case Read(e, accepted) =>
      if OpenResult(kdf, w.dev.chains, e).Opened? && accepted then w.session + {(e.id, e.index)} else w.session
    case Restart(_) => {}
    case _ => w.session
  }

  function Next(kdf: Kdf, self: Name, w: World, step: Step): World {
    World(NextDevice(kdf, self, w.dev, step), NextMinted(w, step), NextSealed(kdf, self, w, step),
          NextGiven(kdf, self, w, step), NextSession(kdf, self, w, step))
  }

  function Exec(kdf: Kdf, self: Name, w: World, steps: seq<Step>): World
    decreases |steps|
  {
    if steps == [] then w else Exec(kdf, self, Next(kdf, self, w, steps[0]), steps[1..])
  }

  predicate AllPossible(kdf: Kdf, self: Name, w: World, steps: seq<Step>)
    decreases |steps|
  {
    steps == [] || (Possible(w, steps[0]) && AllPossible(kdf, self, Next(kdf, self, w, steps[0]), steps[1..]))
  }
}
