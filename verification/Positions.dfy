/** No position of a chain is ever sealed twice, whatever crashes, fails or is restored. */
module Positions {
  import opened Words
  import opened Ratchet
  import opened RoomChains
  import opened Members
  import opened RoomStore
  import opened Device
  import opened History

  /** `c` is the chain minted under its name, at its index. */
  ghost predicate OnChain(kdf: Kdf, minted: map<ChainId, Chain>, c: Chain) {
    && c.id in minted
    && minted[c.id].index == 0
    && c.state == kdf.Wind(minted[c.id].state, c.index)
  }

  function FileChain(d: Device): Option<Chain> {
    if d.disk.Some? then d.disk.value.out else None
  }

  /** Positions below the live reservation are already past in the file. */
  ghost predicate PromisesKept(kdf: Kdf, minted: map<ChainId, Chain>, d: Device) {
    && (FileChain(d).Some? ==>
        OnChain(kdf, minted, FileChain(d).value) && d.disk.value.reservedThrough == FileChain(d).value.index)
    && (d.chains.out.Some? ==>
        var c, r := d.chains.out.value, d.chains.reserved;
        && OnChain(kdf, minted, c)
        && r <= c.index + RESERVATION_BLOCK
        && (c.index < r ==> FileChain(d).Some? && FileChain(d).value.id == c.id && r <= FileChain(d).value.index))
  }

  /** Neither the live chain nor the file's stands at or before a position already used. */
  ghost predicate PastUsed(d: Device, m: Message) {
    && (d.chains.out.Some? && d.chains.out.value.id == m.id ==> m.index < d.chains.out.value.index)
    && (FileChain(d).Some? && FileChain(d).value.id == m.id ==> m.index < FileChain(d).value.index)
  }

  /** The message was sealed with the one key its position has. */
  ghost predicate Genuine(kdf: Kdf, minted: map<ChainId, Chain>, m: Message) {
    && m.id in minted
    && minted[m.id].index == 0
    && m.index < U32_MAX
    && m.key == kdf.messageKey(kdf.Wind(minted[m.id].state, m.index))
  }

  ghost predicate NoneTwice(sealed: seq<Message>) {
    forall i, j | 0 <= i < j < |sealed| :: !(sealed[i].id == sealed[j].id && sealed[i].index == sealed[j].index)
  }

  ghost predicate Sound(kdf: Kdf, minted: map<ChainId, Chain>, sealed: seq<Message>, d: Device) {
    && PromisesKept(kdf, minted, d)
    && (forall m | m in sealed :: Genuine(kdf, minted, m) && PastUsed(d, m))
    && NoneTwice(sealed)
  }

  /** The two states agree on everything positions depend on. */
  predicate SamePositions(d: Device, e: Device) {
    && e.chains.out == d.chains.out
    && e.chains.reserved == d.chains.reserved
    && FileChain(e) == FileChain(d)
    && (FileChain(d).Some? ==> e.disk.value.reservedThrough == d.disk.value.reservedThrough)
  }

  lemma SamePositionsSound(kdf: Kdf, minted: map<ChainId, Chain>, sealed: seq<Message>, d: Device, e: Device)
    requires Sound(kdf, minted, sealed, d) && SamePositions(d, e)
    ensures Sound(kdf, minted, sealed, e)
  {
    forall m | m in sealed ensures PastUsed(e, m) { assert PastUsed(d, m); }
  }

  /** What a save writes is the live chain at its reservation; the wind is never refused. */
  lemma ExportAtReservation(kdf: Kdf, minted: map<ChainId, Chain>, s: RoomState)
    requires s.out.Some? && OnChain(kdf, minted, s.out.value) && s.reserved <= s.out.value.index + RESERVATION_BLOCK
    ensures var x := Exported(kdf, s);
      && x.out.value.id == s.out.value.id
      && x.out.value.index == x.reserved == Max(s.reserved, s.out.value.index)
      && OnChain(kdf, minted, x.out.value)
  {
    var c := s.out.value;
    if c.index < s.reserved {
      kdf.WindAdd(minted[c.id].state, c.index, s.reserved - c.index);
    }
  }

  lemma PersistSound(kdf: Kdf, minted: map<ChainId, Chain>, sealed: seq<Message>, d: Device)
    requires Sound(kdf, minted, sealed, d)
    ensures Sound(kdf, minted, sealed, Persisting(kdf, d))
    ensures Persisting(kdf, d).chains == d.chains
    ensures d.chains.out.Some? ==>
      var f := FileChain(Persisting(kdf, d));
      f.Some? && f.value.id == d.chains.out.value.id && d.chains.reserved <= f.value.index
  {
    var e := Persisting(kdf, d);
    if d.chains.out.Some? {
      ExportAtReservation(kdf, minted, d.chains);
    }
    forall m | m in sealed ensures PastUsed(e, m) { assert PastUsed(d, m); }
  }

  lemma SaveSound(kdf: Kdf, minted: map<ChainId, Chain>, sealed: seq<Message>, d: Device, fate: SaveFate)
    requires Sound(kdf, minted, sealed, d)
    ensures Sound(kdf, minted, sealed, Saving(kdf, d, fate))
  {
    var p := d.(chains := Pruned(kdf, d.chains));
    SamePositionsSound(kdf, minted, sealed, d, p);
    PersistSound(kdf, minted, sealed, p);
  }

  /** A restore resumes at the file's position, which nothing has used. */
  lemma RestoreSound(kdf: Kdf, minted: map<ChainId, Chain>, sealed: seq<Message>, d: Device, self: Name)
    requires Sound(kdf, minted, sealed, d)
    ensures Sound(kdf, minted, sealed, Restoring(kdf, d, self))
  {
    var e := Restoring(kdf, d, self);
    forall m | m in sealed ensures PastUsed(e, m) { assert PastUsed(d, m); }
  }

  lemma DistributeSound(kdf: Kdf, minted: map<ChainId, Chain>, sealed: seq<Message>, d: Device, env: SendEnv, self: Name)
    requires Sound(kdf, minted, sealed, d)
    requires env.minted.Some? ==> env.minted.value.index == 0 && env.minted.value.id !in minted
    ensures var more := if Mints(d, env) then minted[env.minted.value.id := env.minted.value] else minted;
      Sound(kdf, more, sealed, Distributing(d, env, self))
  {
    var e := Distributing(d, env, self);
    forall m | m in sealed ensures PastUsed(e, m) { assert PastUsed(d, m) && Genuine(kdf, minted, m); }
  }

  lemma ReserveSound(kdf: Kdf, minted: map<ChainId, Chain>, sealed: seq<Message>, d: Device, fate: PersistFate)
    requires Sound(kdf, minted, sealed, d)
    ensures Sound(kdf, minted, sealed, Reserving(kdf, d, fate))
  {
    if NeedsReservation(d.chains) {
      var p := d.(chains := Promised(d.chains));
      var landed := Persisting(kdf, p);
      var c := d.chains.out.value;
      // The promise itself is not yet kept, so the save is examined directly.
      ExportAtReservation(kdf, minted, p.chains);
      forall m | m in sealed ensures PastUsed(landed, m) && PastUsed(p, m) { assert PastUsed(d, m); }
      assert Sound(kdf, minted, sealed, landed);
      var back := RolledBack(p.chains, Wanted(d.chains));
      assert back.reserved <= c.index;
    }
  }

  /** Stepping the chain past a reserved position keeps everything; the position is free for one message. */
  lemma SteppedSound(kdf: Kdf, minted: map<ChainId, Chain>, sealed: seq<Message>, d: Device, seen: map<ChainId, u32>)
    requires Sound(kdf, minted, sealed, d)
    requires d.chains.out.Some? && d.chains.out.value.index < d.chains.reserved
    ensures var c := d.chains.out.value;
      var e := d.(chains := d.chains.(out := Some(Stepped(kdf, c)), seen := seen));
      && Sound(kdf, minted, sealed, e)
      && (forall m | m in sealed :: !(m.id == c.id && m.index == c.index))
      && PastUsed(e, Message(c.id, c.index, kdf.messageKey(c.state)))
      && Genuine(kdf, minted, Message(c.id, c.index, kdf.messageKey(c.state)))
  {
    var c := d.chains.out.value;
    var e := d.(chains := d.chains.(out := Some(Stepped(kdf, c)), seen := seen));
    kdf.WindAdd(minted[c.id].state, c.index, 1);
    assert kdf.Wind(c.state, 1) == kdf.step(c.state);
    forall m | m in sealed ensures PastUsed(e, m) && !(m.id == c.id && m.index == c.index) { assert PastUsed(d, m); }
  }

  lemma OneMoreMessage(kdf: Kdf, minted: map<ChainId, Chain>, sealed: seq<Message>, e: Device, m: Message)
    requires Sound(kdf, minted, sealed, e) && Genuine(kdf, minted, m) && PastUsed(e, m)
    requires forall o | o in sealed :: !(o.id == m.id && o.index == m.index)
    ensures Sound(kdf, minted, sealed + [m], e)
  {
    forall i | 0 <= i < |sealed| ensures !(sealed[i].id == m.id && sealed[i].index == m.index) {
      assert sealed[i] in sealed;
    }
  }

  lemma SealSound(kdf: Kdf, minted: map<ChainId, Chain>, sealed: seq<Message>, d: Device, hasSigner: bool, fault: SealFault)
    requires Sound(kdf, minted, sealed, d)
    ensures var e := d.(chains := AfterSeal(kdf, d.chains, hasSigner, fault));
      match SealResult(kdf, d.chains, hasSigner, fault)
      case Sealed(id, index, key) => Sound(kdf, minted, sealed + [Message(id, index, key)], e)
      case _ => Sound(kdf, minted, sealed, e)
  {
    if hasSigner && Usable(d.chains) && d.chains.out.value.index < d.chains.reserved && !fault.PayloadFault? {
      var e := d.(chains := AfterSeal(kdf, d.chains, hasSigner, fault));
      var c := d.chains.out.value;
      SteppedSound(kdf, minted, sealed, d, e.chains.seen);
      OneMoreMessage(kdf, minted, sealed, e, Message(c.id, c.index, kdf.messageKey(c.state)));
    }
  }

  lemma SendSound(kdf: Kdf, self: Name, w: World, env: SendEnv)
    requires Sound(kdf, w.minted, w.sealed, w.dev) && Possible(w, Send(env))
    ensures var v := Next(kdf, self, w, Send(env)); Sound(kdf, v.minted, v.sealed, v.dev)
  {
    var minted := NextMinted(w, Send(env));
    var d := Distributing(w.dev, env, self);
    DistributeSound(kdf, w.minted, w.sealed, w.dev, env, self);
    ReserveSound(kdf, minted, w.sealed, d, env.persist);
    SealSound(kdf, minted, w.sealed, Reserving(kdf, d, env.persist), true, env.fault);
  }

  lemma StepSound(kdf: Kdf, self: Name, w: World, step: Step)
    requires Sound(kdf, w.minted, w.sealed, w.dev) && Possible(w, step)
    ensures var v := Next(kdf, self, w, step); Sound(kdf, v.minted, v.sealed, v.dev)
  {
    var v := Next(kdf, self, w, step);
    match step
    case Send(env) => SendSound(kdf, self, w, env);
    case Create(save) => CreateSound(kdf, self, w, save);
    case Receive(r, save) => ReceiveSound(kdf, self, w, r, save);
    case Rekey(drop, clock, save) => RekeySound(kdf, self, w, drop, clock, save);
    case Invite(who, env) => InviteSound(kdf, self, w, who, env);
    case Save(save) => SaveSound(kdf, w.minted, w.sealed, w.dev, save);
    case Flush => PersistSound(kdf, w.minted, w.sealed, w.dev);
    case Restart(readable) => RestartSound(kdf, self, w, readable);
    case Import(t, saved) => ImportSound(kdf, self, w, t, saved);
    case _ => SamePositionsSound(kdf, w.minted, w.sealed, w.dev, v.dev);
  }

  lemma CreateSound(kdf: Kdf, self: Name, w: World, save: SaveFate)
    requires Sound(kdf, w.minted, w.sealed, w.dev)
    ensures Sound(kdf, w.minted, w.sealed, Creating(kdf, w.dev, save, self))
  {
    var d := w.dev.(chains := w.dev.chains.(encrypted := true), members := Pinned(w.dev.members, self));
    SamePositionsSound(kdf, w.minted, w.sealed, w.dev, d);
    SaveSound(kdf, w.minted, w.sealed, d, save);
  }

  lemma ReceiveSound(kdf: Kdf, self: Name, w: World, r: Roster, save: SaveFate)
    requires Sound(kdf, w.minted, w.sealed, w.dev)
    ensures Sound(kdf, w.minted, w.sealed, Receiving(kdf, w.dev, r, save, self))
  {
    var d := w.dev.(members := Judged(w.dev.members, r, self),
      chains := if Retires(w.dev.members, r, self) then w.dev.chains.(stale := true) else w.dev.chains);
    SamePositionsSound(kdf, w.minted, w.sealed, w.dev, d);
    SaveSound(kdf, w.minted, w.sealed, d, save);
  }

  lemma RekeySound(kdf: Kdf, self: Name, w: World, drop: set<Name>, clock: int, save: SaveFate)
    requires Sound(kdf, w.minted, w.sealed, w.dev)
    ensures Sound(kdf, w.minted, w.sealed, Rekeying(kdf, w.dev, drop, clock, save, self))
  {
    var m := Tombstoned(w.dev.members.(invited := w.dev.members.invited - drop), drop, {});
    var d := w.dev.(members := m, chains := w.dev.chains.(stale := true));
    SamePositionsSound(kdf, w.minted, w.sealed, w.dev, d);
    SaveSound(kdf, w.minted, w.sealed, d, save);
    var e := Saving(kdf, d, save);
    SamePositionsSound(kdf, w.minted, w.sealed, e, e.(members := Signed(m, self, clock)));
  }

  lemma InviteSound(kdf: Kdf, self: Name, w: World, who: Name, env: InviteEnv)
    requires Sound(kdf, w.minted, w.sealed, w.dev)
    ensures Sound(kdf, w.minted, w.sealed, Inviting(kdf, w.dev, who, env, self))
  {
    var d := w.dev.(members := Admitted(w.dev.members, who));
    SamePositionsSound(kdf, w.minted, w.sealed, w.dev, d);
    SaveSound(kdf, w.minted, w.sealed, d, env.before);
    var a := Admitting(kdf, w.dev, who, env);
    var s := a.(members := Signed(a.members, self, env.first));
    SamePositionsSound(kdf, w.minted, w.sealed, a, s);
    SamePositionsSound(kdf, w.minted, w.sealed, s, s.(members := Signed(s.members, self, env.second)));
    var back := s.(members := Withdrawn(s.members, who, who in w.dev.members.removed));
    SamePositionsSound(kdf, w.minted, w.sealed, s, back);
    SaveSound(kdf, w.minted, w.sealed, back, env.after);
  }

  lemma RestartSound(kdf: Kdf, self: Name, w: World, readable: bool)
    requires Sound(kdf, w.minted, w.sealed, w.dev)
    ensures Sound(kdf, w.minted, w.sealed, Restarting(kdf, w.dev, readable, self))
  {
    var blank := Device(BLANK, UNKNOWN, w.dev.disk);
    forall m | m in w.sealed ensures PastUsed(blank, m) { assert PastUsed(w.dev, m); }
    assert Sound(kdf, w.minted, w.sealed, blank);
    RestoreSound(kdf, w.minted, w.sealed, blank, self);
  }

  lemma ImportSound(kdf: Kdf, self: Name, w: World, t: Option<TransferRoom>, saved: bool)
    requires Sound(kdf, w.minted, w.sealed, w.dev)
    ensures Sound(kdf, w.minted, w.sealed, Importing(kdf, w.dev, t, saved, self))
  {
    var d := if t.Some? then w.dev.(disk := Some(Taken(Prev(w.dev.disk), t.value, self))) else w.dev;
    SamePositionsSound(kdf, w.minted, w.sealed, w.dev, d);
    RestoreSound(kdf, w.minted, w.sealed, d, self);
  }

  lemma {:induction false} RunSound(kdf: Kdf, self: Name, w: World, steps: seq<Step>)
    requires Sound(kdf, w.minted, w.sealed, w.dev) && AllPossible(kdf, self, w, steps)
    ensures var v := Exec(kdf, self, w, steps); Sound(kdf, v.minted, v.sealed, v.dev)
    decreases |steps|
  {
    if steps != [] {
      StepSound(kdf, self, w, steps[0]);
      RunSound(kdf, self, Next(kdf, self, w, steps[0]), steps[1..]);
    }
  }

  /** A room this device has said nothing in yet: just installed, just created, or just joined. */
  predicate Unspoken(w: World) {
    w.sealed == [] && w.dev.chains.out.None? && FileChain(w.dev).None?
  }

  /**
   * Over every run from a room not yet spoken in, through failed saves, saves that landed
   * unreported, crashes, unreadable files and restores in mid-session, no two messages
   * are ever sealed at one position of one chain; none is sealed at the last position
   * a uint32 can name; and each is sealed under the key its position has on its chain.
   */
  lemma NoPositionSealedTwice(kdf: Kdf, self: Name, start: World, steps: seq<Step>)
    requires Unspoken(start) && AllPossible(kdf, self, start, steps)
    ensures var w := Exec(kdf, self, start, steps);
      NoneTwice(w.sealed) && forall m | m in w.sealed :: Genuine(kdf, w.minted, m)
  {
    RunSound(kdf, self, start, steps);
  }

  lemma GenuineOpens(kdf: Kdf, minted: map<ChainId, Chain>, m: Message, v: ChainView)
    requires Genuine(kdf, minted, m) && kdf.Agree(minted[m.id].View(), v, v.index)
    ensures v.index <= m.index <= v.index + MAX_CHAIN_SKIP ==> kdf.MessageKey(v, m.index) == Key(m.key)
    ensures m.index < v.index ==> kdf.MessageKey(v, m.index).Rewind?
  {
  }

  /**
   * So whoever was given a chain reads what is sealed under it from there on: any view
   * standing on the minted chain at or before a message opens it, within the skip cap.
   */
  lemma SealedMessagesOpen(kdf: Kdf, self: Name, start: World, steps: seq<Step>, m: Message, v: ChainView)
    requires Unspoken(start) && AllPossible(kdf, self, start, steps)
    requires m in Exec(kdf, self, start, steps).sealed
    requires m.id in Exec(kdf, self, start, steps).minted
    requires kdf.Agree(Exec(kdf, self, start, steps).minted[m.id].View(), v, v.index)
    ensures v.index <= m.index <= v.index + MAX_CHAIN_SKIP ==> kdf.MessageKey(v, m.index) == Key(m.key)
    ensures m.index < v.index ==> kdf.MessageKey(v, m.index).Rewind?
  {
    NoPositionSealedTwice(kdf, self, start, steps);
    GenuineOpens(kdf, Exec(kdf, self, start, steps).minted, m, v);
  }

  /** Near the top of the range the client refuses: a promise that wraps promises nothing. */
  lemma RefusesRatherThanWrap(kdf: Kdf, self: Name, d: Device, env: SendEnv)
    requires d.chains.out.Some? && !NeedsChain(d.chains)
    requires d.chains.out.value.index > U32_MAX - RESERVATION_BLOCK && NeedsReservation(d.chains)
    ensures !SendResult(kdf, d, env, self).Sealed?
  {
  }
}
