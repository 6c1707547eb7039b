/** What holds of received chain views: across offers, restores, pruning and bundles. */
module ChainLaws {
  import opened Words
  import opened Ratchet
  import opened RoomChains

  /** Every view is filed under its own chain's name. */
  predicate WellNamed(views: map<ChainId, ChainView>) {
    forall id | id in views :: views[id].id == id
  }

  lemma PickAgrees(kdf: Kdf, have: ChainView, offer: ChainView)
    requires have.id == offer.id
    ensures kdf.Agree(have, Pick(kdf, Some(have), offer), have.index)
    ensures Pick(kdf, Some(have), offer).index <= have.index
  {
    if offer.index < have.index && kdf.Continues(offer, have) {
      kdf.ContinuesAgrees(offer, have);
    }
  }

  /** The offered view replaces what is held: nothing is held, or it is the same chain from further back. */
  predicate Taken(kdf: Kdf, held: Option<ChainView>, offer: ChainView) {
    held.None? || (offer.index < held.value.index && kdf.Continues(offer, held.value))
  }

  /**
   * An offer is for one chain and moves nothing else. Taken, the chain reads from the
   * offered position on, with the offer's keys and with those held so far; otherwise what
   * was held stands.
   */
  lemma LearningReadsBack(kdf: Kdf, s: RoomState, v: ChainView)
    ensures var t, held := Learned(kdf, s, v), Held(s.views, v.id);
      && t.encrypted && t.(encrypted := s.encrypted, views := s.views) == s
      && (forall id | id != v.id :: Held(t.views, id) == Held(s.views, id))
      && (if Taken(kdf, held, v)
          then Held(t.views, v.id) == Some(v) && kdf.MessageKey(v, v.index) == Key(kdf.messageKey(v.state))
          else Held(t.views, v.id) == held)
      && (Taken(kdf, held, v) && held.Some? ==> kdf.Agree(held.value, v, held.value.index))
  {
    if v.id in s.views && Taken(kdf, Held(s.views, v.id), v) {
      kdf.ContinuesAgrees(v, s.views[v.id]);
    }
  }

  /** A restore takes each stored view under the same rule, and raises each seen position to the stored one. */
  lemma RestoringTakes(kdf: Kdf, s: RoomState, f: Export, id: ChainId)
    requires id in f.views && f.views[id].id == id && (f.out.Some? ==> f.out.value.id != id)
    ensures var t, held := Restored(kdf, s, f), Held(s.views, id);
      && t.encrypted
      && Held(t.views, id) == (if Taken(kdf, held, f.views[id]) then Some(f.views[id]) else held)
      && Lookup(t.seen, id) == Max(Lookup(s.seen, id), Lookup(f.seen, id))
  {
  }

  /** A stored chain becomes ours again at its reservation, with a view of it to read ourselves by. */
  lemma RestoringInstalls(kdf: Kdf, s: RoomState, f: Export)
    ensures var t := Restored(kdf, s, f);
      && (f.out.None? ==> t.out == s.out && t.shared == s.shared && t.reserved == s.reserved)
      && (f.out.Some? ==>
          var c := f.out.value;
          && t.out == f.out && t.shared == f.shared && t.reserved == Max(f.reserved, c.index)
          && c.id in t.views && t.views[c.id].index <= c.index && kdf.Agree(c.View(), t.views[c.id], c.index))
      && t.stale == s.stale
  {
    if f.out.Some? && f.out.value.id in f.views && f.views[f.out.value.id].id == f.out.value.id {
      PickAgrees(kdf, f.out.value.View(), f.views[f.out.value.id]);
    }
  }

  /**
   * A bundle hands a chain on at exactly the later of where we hold it and the first
   * unused position: no position recorded as seen opens, and every key from there on
   * is the one we hold. What cannot be wound is left out, never sent as it is.
   */
  lemma BundleStartsNow(kdf: Kdf, views: map<ChainId, ChainView>, seen: map<ChainId, u32>, id: ChainId)
    requires id in views
    ensures id in Bundle(kdf, views, seen) <==>
      id in seen && seen[id] < U32_MAX && seen[id] < views[id].index + MAX_CHAIN_SKIP
    ensures id in Bundle(kdf, views, seen) ==>
      var w := Bundle(kdf, views, seen)[id];
      && w.index == Max(views[id].index, Now(seen, id))
      && kdf.Agree(views[id], w, w.index)
      && (forall i: u32 | i <= seen[id] :: kdf.MessageKey(w, i).Rewind?)
  {
    if id in Bundle(kdf, views, seen) && Now(seen, id) > views[id].index {
      kdf.AdvanceAgrees(views[id], Now(seen, id));
    }
  }

  /**
   * Pruning moves a peer's view forward along its own chain, keeps every readable
   * position from 2000 behind the furthest seen, and leaves nothing older readable
   * unless the wind was refused.
   */
  lemma PruneKeepsTheWindow(kdf: Kdf, s: RoomState, id: ChainId, i: u32)
    requires id in s.views && (s.out.Some? ==> s.out.value.id != id) && Lookup(s.seen, id) >= CHAIN_RETENTION
    ensures
      var v, w, floor := s.views[id], Pruned(kdf, s).views[id], s.seen[id] - CHAIN_RETENTION;
      && v.index <= w.index
      && kdf.Agree(v, w, w.index)
      && (i >= floor && kdf.MessageKey(v, i).Key? ==> kdf.MessageKey(w, i) == kdf.MessageKey(v, i))
      && (w.index >= floor <==> floor - v.index <= MAX_CHAIN_SKIP)
      && (i < floor && floor - v.index <= MAX_CHAIN_SKIP ==> kdf.MessageKey(w, i).Rewind?)
  {
    kdf.AdvanceAgrees(s.views[id], s.seen[id] - CHAIN_RETENTION);
  }

  /** Our own outbound chain's view, and any chain not known to have run far, stay put. */
  lemma PruneLeavesTheRest(kdf: Kdf, s: RoomState, id: ChainId)
    requires id in s.views
    requires (s.out.Some? && s.out.value.id == id) || Lookup(s.seen, id) < CHAIN_RETENTION
    ensures Pruned(kdf, s).views[id] == s.views[id]
  {
  }

  // --- Runs of everything that can touch a peer's view within a session --------

  datatype Event =
    | Offer(view: ChainView)      // a broadcast or an invite, from anybody
    | File(file: Export)          // a restore, including one after a device transfer
    | Prune
    | Note(id: ChainId, index: u32)
    | Mint(chain: Chain)
    | Seal(fault: SealFault)

  function After(kdf: Kdf, s: RoomState, e: Event): RoomState {
    match e
    case Offer(v) => Learned(kdf, s, v)
    case File(f) => Restored(kdf, s, f)
    case Prune => Pruned(kdf, s)
    case Note(id, n) => s.(seen := Noted(s.seen, id, n))
    case Mint(c) => Minted(s, c)
    case Seal(fault) => AfterSeal(kdf, Promised(s), true, fault)
  }

  function Run(kdf: Kdf, s: RoomState, events: seq<Event>): RoomState
    decreases |events|
  {
    if events == [] then s else Run(kdf, After(kdf, s, events[0]), events[1..])
  }

  /** The event is not our own outbound chain claiming the peer's chain name. */
  predicate LeavesToPeer(e: Event, id: ChainId) {
    match e
    case File(f) => f.out.Some? ==> f.out.value.id != id
    case Mint(c) => c.id != id
    case _ => true
  }

  /** The furthest position the view of `id` ever stands at over the run. */
  function Furthest(kdf: Kdf, s: RoomState, events: seq<Event>, id: ChainId): int
    decreases |events|
  {
    var here := if id in s.views then s.views[id].index else 0;
    if events == [] then here
    else Max(here, Furthest(kdf, After(kdf, s, events[0]), events[1..], id))
  }

  /** One step keeps the view of `id` on its chain. */
  ghost predicate StaysOnChain(kdf: Kdf, s: RoomState, t: RoomState, id: ChainId)
    requires id in s.views
  {
    && WellNamed(t.views)
    && id in t.views
    && kdf.Agree(s.views[id], t.views[id], Max(s.views[id].index, t.views[id].index))
  }

  lemma RestoreStaysOnChain(kdf: Kdf, s: RoomState, f: Export, id: ChainId)
    requires WellNamed(s.views) && id in s.views && LeavesToPeer(File(f), id)
    ensures StaysOnChain(kdf, s, Restored(kdf, s, f), id)
  {
    var u, t := WithStoredChain(s, f), Restored(kdf, s, f);
    assert WellNamed(u.views) && u.views[id] == s.views[id];
    forall o | o in t.views ensures t.views[o].id == o {
      if o in f.views && f.views[o].id == o && o in u.views { PickAgrees(kdf, u.views[o], f.views[o]); }
    }
    if id in f.views && f.views[id].id == id { PickAgrees(kdf, s.views[id], f.views[id]); }
  }

  lemma PruneStaysOnChain(kdf: Kdf, s: RoomState, id: ChainId)
    requires WellNamed(s.views) && id in s.views
    ensures StaysOnChain(kdf, s, Pruned(kdf, s), id)
  {
    if Prunable(s, id) { kdf.AdvanceAgrees(s.views[id], s.seen[id] - CHAIN_RETENTION); }
  }

  lemma EventKeepsView(kdf: Kdf, s: RoomState, e: Event, id: ChainId)
    requires WellNamed(s.views) && id in s.views && LeavesToPeer(e, id)
    ensures StaysOnChain(kdf, s, After(kdf, s, e), id)
  {
    match e
    case Offer(v) =>
      if v.id in s.views { PickAgrees(kdf, s.views[v.id], v); }
    case File(f) => RestoreStaysOnChain(kdf, s, f, id);
    case Prune => PruneStaysOnChain(kdf, s, id);
    case _ =>
  }

  /**
   * Within a session no sequence of offers, restores, transfers and pruning changes a
   * key at or past the furthest position held: a state invented under a chain's name
   * cannot displace the chain.
   */
  lemma {:induction false} PeerKeysAreStable(kdf: Kdf, s: RoomState, events: seq<Event>, id: ChainId)
    requires WellNamed(s.views) && id in s.views
    requires forall e | e in events :: LeavesToPeer(e, id)
    ensures var t := Run(kdf, s, events);
      && id in t.views
      && kdf.Agree(s.views[id], t.views[id], Furthest(kdf, s, events, id))
    decreases |events|
  {
    if events != [] {
      var u := After(kdf, s, events[0]);
      EventKeepsView(kdf, s, events[0], id);
      PeerKeysAreStable(kdf, u, events[1..], id);
      FurthestCoversStart(kdf, u, events[1..], id);
      kdf.AgreeTransitive(s.views[id], u.views[id], Run(kdf, s, events).views[id],
        Max(s.views[id].index, u.views[id].index), Furthest(kdf, u, events[1..], id));
    }
  }

  lemma FurthestCoversStart(kdf: Kdf, s: RoomState, events: seq<Event>, id: ChainId)
    requires id in s.views
    ensures s.views[id].index <= Furthest(kdf, s, events, id)
  {
  }

  /** The same, as what a reader gets: the real key, or a refusal to hash that far. */
  lemma PeerKeyOutcome(kdf: Kdf, s: RoomState, events: seq<Event>, id: ChainId, n: u32)
    requires WellNamed(s.views) && id in s.views
    requires forall e | e in events :: LeavesToPeer(e, id)
    requires Furthest(kdf, s, events, id) <= n
    ensures id in Run(kdf, s, events).views
    ensures kdf.MessageKey(Run(kdf, s, events).views[id], n) in
      {Key(kdf.messageKey(kdf.Wind(s.views[id].state, n - s.views[id].index))), SkipTooLarge}
  {
    PeerKeysAreStable(kdf, s, events, id);
    FurthestCoversStart(kdf, s, events, id);
  }
}
