/** Reading a room: which messages open, which are refused and why, and that what was sealed is what opens. */
module Reading {
  import opened Words
  import opened Ratchet
  import opened RoomChains
  import opened Members
  import opened Device
  import opened History
  import opened Positions
  import opened ChainLaws

  /** The view reaches the position: not before it, and not further than a reader hashes. */
  predicate Reaches(v: ChainView, index: u32) {
    v.index <= index <= v.index + MAX_CHAIN_SKIP
  }

  /** The only key there is for a position of the chain as held. */
  function KeyAt(kdf: Kdf, v: ChainView, index: u32): Bytes32
    requires Reaches(v, index)
  {
    kdf.messageKey(kdf.Wind(v.state, index - v.index))
  }

  /**
   * A message opens exactly where its chain is held, reaches its position, and it was
   * sealed under that position's key; and each refusal is for its own reason alone.
   */
  lemma OpensExactlyWhere(kdf: Kdf, s: RoomState, e: Envelope)
    ensures var r, held := OpenResult(kdf, s, e), Held(s.views, e.id);
      && (r.Opened? <==> held.Some? && Reaches(held.value, e.index) && e.sealedUnder == KeyAt(kdf, held.value, e.index))
      && (r.UnknownChain? <==> held.None?)
      && (r.BeforeOurView? <==> held.Some? && e.index < held.value.index)
      && (r.TooFarAhead? <==> held.Some? && e.index > held.value.index + MAX_CHAIN_SKIP)
      && (r.DoesNotAuthenticate? <==>
          held.Some? && Reaches(held.value, e.index) && e.sealedUnder != KeyAt(kdf, held.value, e.index))
  {
  }

  /** Only an accepted message that opened is noted; nothing else about the room changes, and no position is forgotten. */
  lemma OnlyOpenedIsNoted(kdf: Kdf, s: RoomState, e: Envelope, accepted: bool)
    ensures var t := AfterOpen(kdf, s, e, accepted);
      && t.(seen := s.seen) == s
      && (!OpenResult(kdf, s, e).Opened? || !accepted ==> t == s)
      && (OpenResult(kdf, s, e).Opened? && accepted ==>
          e.id in t.seen && t.seen[e.id] == Max(Lookup(s.seen, e.id), e.index))
      && (forall id | id != e.id :: (id in t.seen <==> id in s.seen) && Lookup(t.seen, id) == Lookup(s.seen, id))
  {
  }

  /** The message as it goes out. */
  function Wire(m: Message): Envelope {
    Envelope(m.id, m.index, m.key)
  }

  /** `s` holds the chain that was minted under this name, from wherever it stands on. */
  ghost predicate HoldsMinted(kdf: Kdf, minted: map<ChainId, Chain>, s: RoomState, id: ChainId) {
    && id in minted && id in s.views
    && kdf.Agree(minted[id].View(), s.views[id], s.views[id].index)
  }

  lemma GenuineIsOpened(kdf: Kdf, minted: map<ChainId, Chain>, m: Message, s: RoomState)
    requires Genuine(kdf, minted, m) && HoldsMinted(kdf, minted, s, m.id)
    ensures var v := s.views[m.id];
      && (Reaches(v, m.index) <==> OpenResult(kdf, s, Wire(m)).Opened?)
      && (m.index < v.index <==> OpenResult(kdf, s, Wire(m)).BeforeOurView?)
      && (m.index > v.index + MAX_CHAIN_SKIP <==> OpenResult(kdf, s, Wire(m)).TooFarAhead?)
      && (forall forged: Bytes32 | forged != m.key :: !OpenResult(kdf, s, Envelope(m.id, m.index, forged)).Opened?)
  {
    var v := s.views[m.id];
    if Reaches(v, m.index) {
      assert kdf.StateAt(minted[m.id].View(), m.index) == kdf.StateAt(v, m.index);
    }
  }

  /**
   * From the sender's run to the reader's answer: whatever a device sealed, over every
   * run, opens for whoever holds its chain, is noted once accepted, and nothing sealed
   * under another key opens in its place.
   */
  lemma SealedIsOpened(kdf: Kdf, self: Name, start: World, steps: seq<Step>, m: Message, s: RoomState)
    requires Unspoken(start) && AllPossible(kdf, self, start, steps)
    requires m in Exec(kdf, self, start, steps).sealed
    requires HoldsMinted(kdf, Exec(kdf, self, start, steps).minted, s, m.id)
    ensures var v := s.views[m.id];
      && (Reaches(v, m.index) <==> OpenResult(kdf, s, Wire(m)).Opened?)
      && (m.index < v.index <==> OpenResult(kdf, s, Wire(m)).BeforeOurView?)
      && (m.index > v.index + MAX_CHAIN_SKIP <==> OpenResult(kdf, s, Wire(m)).TooFarAhead?)
      && (forall forged: Bytes32 | forged != m.key :: !OpenResult(kdf, s, Envelope(m.id, m.index, forged)).Opened?)
      && (Reaches(v, m.index) ==>
          m.id in AfterOpen(kdf, s, Wire(m), true).seen && AfterOpen(kdf, s, Wire(m), true).seen[m.id] >= m.index)
  {
    NoPositionSealedTwice(kdf, self, start, steps);
    GenuineIsOpened(kdf, Exec(kdf, self, start, steps).minted, m, s);
    OnlyOpenedIsNoted(kdf, s, Wire(m), true);
  }

  lemma ReaderKeepsReading(kdf: Kdf, minted: map<ChainId, Chain>, m: Message, s: RoomState, events: seq<Event>)
    requires Genuine(kdf, minted, m) && HoldsMinted(kdf, minted, s, m.id)
    requires WellNamed(s.views) && forall e | e in events :: LeavesToPeer(e, m.id)
    requires Furthest(kdf, s, events, m.id) <= m.index
    ensures OpenResult(kdf, Run(kdf, s, events), Wire(m)) in {Opened, TooFarAhead}
  {
    FurthestCoversStart(kdf, s, events, m.id);
    assert kdf.StateAt(minted[m.id].View(), m.index) == kdf.StateAt(s.views[m.id], m.index);
    PeerKeyOutcome(kdf, s, events, m.id, m.index);
  }

  /**
   * And it goes on opening: a reader who once held the chain opens whatever was sealed at
   * or past the furthest position they held, after any offers, restores and pruning, or
   * is told that it is too far ahead; a genuine message is never taken for a forged one.
   */
  lemma ReadersKeepReading(kdf: Kdf, self: Name, start: World, steps: seq<Step>, m: Message, s: RoomState, events: seq<Event>)
    requires Unspoken(start) && AllPossible(kdf, self, start, steps)
    requires m in Exec(kdf, self, start, steps).sealed
    requires HoldsMinted(kdf, Exec(kdf, self, start, steps).minted, s, m.id)
    requires WellNamed(s.views) && forall e | e in events :: LeavesToPeer(e, m.id)
    requires Furthest(kdf, s, events, m.id) <= m.index
    ensures OpenResult(kdf, Run(kdf, s, events), Wire(m)) in {Opened, TooFarAhead}
  {
    var minted := Exec(kdf, self, start, steps).minted;
    NoPositionSealedTwice(kdf, self, start, steps);
    ReaderKeepsReading(kdf, minted, m, s, events);
  }
}
