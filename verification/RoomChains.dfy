/**
 * One room's chain state on one device: our outbound chain, the views we can read
 * with, how far each chain has been seen to get, and what has been promised to disk.
 *
 * `RoomState` and the functions over it are the specification; `RoomKeys` is the
 * record the client mutates, each method proved to do what its function says.
 */
module RoomChains {
  import opened Words
  import opened Ratchet

  const RESERVATION_BLOCK: u32 := 64
  const CHAIN_RETENTION: u32 := 2000

  datatype RoomState = RoomState(
    encrypted: bool,
    out: Option<Chain>,
    shared: bool,
    reserved: u32,
    stale: bool,
    views: map<ChainId, ChainView>,
    seen: map<ChainId, u32>)

  const BLANK := RoomState(false, None, false, 0, false, map[], map[])

  /** What goes to disk: the outbound chain already wound to its reservation. */
  datatype Export = Export(
    out: Option<Chain>,
    views: map<ChainId, ChainView>,
    seen: map<ChainId, u32>,
    reserved: u32,
    shared: bool)

  datatype SealFault = NoFault | PayloadFault | NonceFault
  datatype SealOutcome = Sealed(id: ChainId, index: u32, key: Bytes32) | Plaintext | Refused

  /** A room message as the wire carries it: where it says it is, and what sealed it. */
  datatype Envelope = Envelope(id: ChainId, index: u32, sealedUnder: Bytes32)
  datatype OpenOutcome = Opened | UnknownChain | BeforeOurView | TooFarAhead | DoesNotAuthenticate

  function Held(views: map<ChainId, ChainView>, id: ChainId): Option<ChainView> {
    if id in views then Some(views[id]) else None
  }

  /** Sealing is permitted: there is a chain, it is not due for replacement, the room has it. */
  predicate Usable(s: RoomState) {
    s.out.Some? && !s.stale && s.shared
  }

  // --- Our own chain ---------------------------------------------------------

  predicate NeedsChain(s: RoomState) {
    s.out.None? || s.stale
  }

  function Minted(s: RoomState, chain: Chain): RoomState {
    s.(out := Some(chain), stale := false, shared := false, reserved := 0,
       views := s.views[chain.id := chain.View()])
  }

  predicate NeedsReservation(s: RoomState) {
    s.out.Some? && s.out.value.index >= s.reserved
  }

  function Wanted(s: RoomState): u32
    requires s.out.Some?
  {
    Add32(s.out.value.index, RESERVATION_BLOCK)
  }

  function Promised(s: RoomState): RoomState {
    if NeedsReservation(s) && Wanted(s) > s.reserved then s.(reserved := Wanted(s)) else s
  }

  /** The promise is taken back when it did not reach disk; `s` is the state after `Promised`. */
  function RolledBack(s: RoomState, want: u32): RoomState
    requires s.out.Some?
  {
    if s.reserved == want then s.(reserved := s.out.value.index) else s
  }

  function Stepped(kdf: Kdf, c: Chain): Chain {
    Chain(c.id, kdf.step(c.state), Add32(c.index, 1))
  }

  function Noted(seen: map<ChainId, u32>, id: ChainId, n: u32): map<ChainId, u32> {
    if n >= Lookup(seen, id) then seen[id := n] else seen
  }

  function AfterSeal(kdf: Kdf, s: RoomState, hasSigner: bool, fault: SealFault): RoomState {
    if !(hasSigner && Usable(s)) || s.out.value.index >= s.reserved || fault.PayloadFault? then s
    else
      var c := s.out.value;
      var next := Stepped(kdf, c);
      if fault.NonceFault? then s.(out := Some(next))
      else s.(out := Some(next), seen := Noted(s.seen, c.id, c.index))
  }

  function SealResult(kdf: Kdf, s: RoomState, hasSigner: bool, fault: SealFault): SealOutcome {
    if hasSigner && Usable(s) then
      var c := s.out.value;
      if c.index >= s.reserved || !fault.NoFault? then Refused
      else Sealed(c.id, c.index, kdf.messageKey(c.state))
    else if s.encrypted then Refused
    else Plaintext
  }

  // --- Views ------------------------------------------------------------------

  /** Which view survives when `offer` arrives for a chain. */
  function Pick(kdf: Kdf, held: Option<ChainView>, offer: ChainView): ChainView {
    match held
    case None => offer
    case Some(have) =>
      if have.index <= offer.index || !kdf.Continues(offer, have) then have else offer
  }

  function Learned(kdf: Kdf, s: RoomState, v: ChainView): RoomState {
    s.(encrypted := true, views := s.views[v.id := Pick(kdf, Held(s.views, v.id), v)])
  }

  /** Views offered by a file: entries filed under another chain's name are skipped. */
  function Offered(kdf: Kdf, held: map<ChainId, ChainView>, offers: map<ChainId, ChainView>): map<ChainId, ChainView> {
    map id | id in held.Keys + (set o | o in offers && offers[o].id == o) ::
      if id in offers && offers[id].id == id then Pick(kdf, Held(held, id), offers[id]) else held[id]
  }

  /** The pointwise maximum, an absent position reading as zero. */
  function MaxSeen(a: map<ChainId, u32>, b: map<ChainId, u32>): map<ChainId, u32> {
    map id | id in a.Keys + (set o | o in b && b[o] > Lookup(a, o)) ::
      if id in b && b[id] > Lookup(a, id) then b[id] else Lookup(a, id)
  }

  function OpenResult(kdf: Kdf, s: RoomState, e: Envelope): OpenOutcome {
    if e.id !in s.views then UnknownChain
    else
      match kdf.MessageKey(s.views[e.id], e.index)
      case Rewind => BeforeOurView
      case SkipTooLarge => TooFarAhead
      case Key(k) => if k == e.sealedUnder then Opened else DoesNotAuthenticate
  }

  function AfterOpen(kdf: Kdf, s: RoomState, e: Envelope, accepted: bool): RoomState {
    if OpenResult(kdf, s, e).Opened? && accepted then s.(seen := Noted(s.seen, e.id, e.index)) else s
  }

  /** Where the conversation stands on a chain: the first position nobody has been seen to use. */
  function Now(seen: map<ChainId, u32>, id: ChainId): int
    requires id in seen
  {
    seen[id] as int + 1
  }

  /** A chain may be handed on only when it can be shown to start at "now". */
  predicate Exportable(seen: map<ChainId, u32>, id: ChainId, v: ChainView) {
    && id in seen
    && Now(seen, id) <= U32_MAX
    && Now(seen, id) <= v.index + MAX_CHAIN_SKIP
  }

  function Wound(kdf: Kdf, seen: map<ChainId, u32>, id: ChainId, v: ChainView): ChainView
    requires Exportable(seen, id, v)
  {
    if Now(seen, id) <= v.index then v else kdf.Advance(v, Now(seen, id))
  }

  function Bundle(kdf: Kdf, views: map<ChainId, ChainView>, seen: map<ChainId, u32>): map<ChainId, ChainView> {
    map id | id in views && Exportable(seen, id, views[id]) :: Wound(kdf, seen, id, views[id])
  }

  /** `bundle` carries exactly the views of `all`. */
  ghost predicate Draws(bundle: seq<ChainView>, all: map<ChainId, ChainView>) {
    && |bundle| == |all|
    && (forall v | v in bundle :: exists id :: id in all && all[id] == v)
    && (forall id | id in all :: all[id] in bundle)
  }

  predicate Prunable(s: RoomState, id: ChainId) {
    && !(s.out.Some? && s.out.value.id == id)
    && id in s.seen
    && s.seen[id] >= CHAIN_RETENTION
  }

  function PrunedView(kdf: Kdf, s: RoomState, id: ChainId): ChainView
    requires id in s.views
  {
    if Prunable(s, id) then kdf.Advance(s.views[id], s.seen[id] - CHAIN_RETENTION) else s.views[id]
  }

  function Pruned(kdf: Kdf, s: RoomState): RoomState {
    s.(views := map id | id in s.views :: PrunedView(kdf, s, id))
  }

  // --- Disk -------------------------------------------------------------------

  function StoredReservation(s: RoomState): u32
    requires s.out.Some?
  {
    if s.reserved < s.out.value.index then s.out.value.index else s.reserved
  }

  function Exported(kdf: Kdf, s: RoomState): Export {
    if s.out.Some? then
      Export(Some(kdf.AdvanceChain(s.out.value, StoredReservation(s))), s.views, s.seen,
             StoredReservation(s), s.shared)
    else
      Export(None, s.views, s.seen, 0, false)
  }

  function WithStoredChain(s: RoomState, e: Export): RoomState {
    match e.out
    case None => s.(encrypted := true)
    case Some(c) =>
      s.(encrypted := true, out := Some(c), shared := e.shared,
         reserved := if e.reserved < c.index then c.index else e.reserved,
         views := s.views[c.id := c.View()])
  }

  function Restored(kdf: Kdf, s: RoomState, e: Export): RoomState {
    var t := WithStoredChain(s, e);
    t.(views := Offered(kdf, t.views, e.views), seen := MaxSeen(t.seen, e.seen))
  }

  /** The client's mutable record for one room. */
  class RoomKeys {
    const kdf: Kdf
    var encrypted: bool
    var out: Option<Chain>
    var chainShared: bool
    var reservedThrough: u32
    var staleChain: bool
    var views: map<ChainId, ChainView>
    var seen: map<ChainId, u32>

    function State(): RoomState
      reads this
    {
      RoomState(encrypted, out, chainShared, reservedThrough, staleChain, views, seen)
    }

    constructor (kdf: Kdf)
      ensures this.kdf == kdf
      ensures State() == BLANK
    {
      this.kdf := kdf;
      encrypted, out, chainShared, reservedThrough, staleChain := false, None, false, 0, false;
      views, seen := map[], map[];
    }

    /** `minted` is what the random source would yield, None when it fails. */
    method EnsureOutboundChain(minted: Option<Chain>) returns (view: Option<ChainView>, isNew: bool)
      modifies this
      ensures !NeedsChain(old(State())) ==>
        State() == old(State()) && view == Some(out.value.View()) && !isNew
      ensures NeedsChain(old(State())) && minted.None? ==> State() == old(State()) && view.None? && !isNew
      ensures NeedsChain(old(State())) && minted.Some? ==>
        State() == Minted(old(State()), minted.value) && view == Some(minted.value.View()) && isNew
    {
      var needNew := out.None? || staleChain;
      if !needNew {
        return Some(out.value.View()), false;
      }
      if minted.None? {
        return None, false;
      }
      out := minted;
      staleChain := false;
      chainShared := false;
      reservedThrough := 0;
      views := views[minted.value.id := minted.value.View()];
      return Some(minted.value.View()), true;
    }

    method MarkChainShared()
      modifies this
      ensures State() == old(State()).(shared := true)
    {
      chainShared := true;
    }

    method MarkChainStale()
      modifies this
      ensures State() == old(State()).(stale := true)
    {
      staleChain := true;
    }

    method MarkEncrypted()
      modifies this
      ensures State() == old(State()).(encrypted := true)
    {
      encrypted := true;
    }

    method LearnChainView(view: ChainView)
      modifies this
      ensures State() == Learned(kdf, old(State()), view)
    {
      encrypted := true;
      if view.id in views {
        var have := views[view.id];
        if have.index <= view.index {
          return;
        }
        var continuous := kdf.DoContinues(view, have);
        if !continuous {
          return;
        }
      }
      views := views[view.id := view];
    }

    method NoteChainPosition(id: ChainId, index: u32)
      modifies this
      ensures State() == old(State()).(seen := Noted(old(seen), id, index))
    {
      if index >= Lookup(seen, id) {
        seen := seen[id := index];
      }
    }

    /** `accepted`: the signature was not forged and the message was not a duplicate. */
    method DecodeRoomChainMessage(e: Envelope, accepted: bool) returns (r: OpenOutcome)
      modifies this
      ensures r == OpenResult(kdf, old(State()), e)
      ensures State() == AfterOpen(kdf, old(State()), e, accepted)
    {
      if e.id !in views {
        return UnknownChain;
      }
      var key := kdf.DoMessageKey(views[e.id], e.index);
      match key {
        case Rewind => return BeforeOurView;
        case SkipTooLarge => return TooFarAhead;
        case Key(k) =>
          if k != e.sealedUnder {
            return DoesNotAuthenticate;
          }
      }
      if accepted {
        NoteChainPosition(e.id, e.index);
      }
      r := Opened;
    }

    /** The first half of a reservation; the promise is made before it is written. */
    method PromisePositions() returns (need: bool, want: u32)
      modifies this
      ensures need == NeedsReservation(old(State()))
      ensures need ==> want == Wanted(old(State()))
      ensures State() == Promised(old(State()))
    {
      need := out.Some? && out.value.index >= reservedThrough;
      want := 0;
      if !need {
        return;
      }
      want := Add32(out.value.index, RESERVATION_BLOCK);
      if want > reservedThrough {
        reservedThrough := want;
      }
    }

    method RollBackPromise(want: u32)
      requires out.Some?
      modifies this
      ensures State() == RolledBack(old(State()), want)
    {
      if reservedThrough == want {
        reservedThrough := out.value.index;
      }
    }

    /** The seal itself, after the reservation. */
    method SealUnderChain(hasSigner: bool, fault: SealFault) returns (r: SealOutcome)
      modifies this
      ensures r == SealResult(kdf, old(State()), hasSigner, fault)
      ensures State() == AfterSeal(kdf, old(State()), hasSigner, fault)
    {
      if hasSigner {
        var usable := out.Some? && !staleChain && chainShared;
        if usable && out.value.index >= reservedThrough {
          return Refused;
        }
        if usable {
          if fault.PayloadFault? {
            return Refused;
          }
          var c := out.value;
          out := Some(Chain(c.id, kdf.step(c.state), Add32(c.index, 1)));
          if fault.NonceFault? {
            return Refused;
          }
          NoteChainPosition(c.id, c.index);
          return Sealed(c.id, c.index, kdf.messageKey(c.state));
        }
      }
      if encrypted {
        return Refused;
      }
      r := Plaintext;
    }

    method RoomChainState() returns (e: Export)
      ensures e == Exported(kdf, State())
    {
      var stored, reserved, shared := None, 0, false;
      if out.Some? {
        reserved := reservedThrough;
        if reserved < out.value.index {
          reserved := out.value.index;
        }
        var wound, _ := kdf.DoAdvanceChain(out.value, reserved);
        stored := Some(wound);
        shared := chainShared;
      }
      e := Export(stored, views, seen, reserved, shared);
    }

    method RestoreChainState(e: Export)
      modifies this
      ensures State() == Restored(kdf, old(State()), e)
    {
      encrypted := true;
      if e.out.Some? {
        var chain := e.out.value;
        out := e.out;
        chainShared := e.shared;
        reservedThrough := e.reserved;
        if reservedThrough < chain.index {
          reservedThrough := chain.index;
        }
        views := views[chain.id := chain.View()];
      }
      views := FoldViews(kdf, views, e.views);
      seen := FoldSeen(seen, e.seen);
    }

    /** `isMember` is the membership lookup's answer for the recipient. */
    method ChainBundleFor(isMember: bool) returns (bundle: seq<ChainView>)
      ensures if isMember then Draws(bundle, Bundle(kdf, views, seen)) else bundle == []
    {
      bundle := [];
      if !isMember {
        return;
      }
      bundle := BundleLoop(kdf, views, seen);
    }

    /** Winds old peer views forward, reporting how many moved. */
    method PruneChainViews() returns (moved: nat)
      modifies this
      ensures State() == Pruned(kdf, old(State()))
      ensures moved == |set id | id in old(views) && views[id] != old(views)[id]|
    {
      var own := if out.Some? then {out.value.id} else {};
      views, moved := PruneLoop(kdf, State(), own);
    }
  }

  /** The restore loop over a file's views. */
  method FoldViews(kdf: Kdf, held: map<ChainId, ChainView>, offers: map<ChainId, ChainView>)
    returns (views: map<ChainId, ChainView>)
    ensures views == Offered(kdf, held, offers)
  {
    views := held;
    var ids := offers.Keys;
    ghost var done: set<ChainId> := {};
    while ids != {}
      invariant ids + done == offers.Keys && ids !! done
      invariant views.Keys == held.Keys + set o | o in done && offers[o].id == o
      invariant forall id | id in views && !(id in done && offers[id].id == id) :: views[id] == held[id]
      invariant forall id | id in done && offers[id].id == id :: views[id] == Pick(kdf, Held(held, id), offers[id])
    {
      var id :| id in ids;
      ids, done := ids - {id}, done + {id};
      var v := offers[id];
      if v.id != id {
        continue;
      }
      if id in views {
        var have := views[id];
        if have.index <= v.index {
          continue;
        }
        var continuous := kdf.DoContinues(v, have);
        if !continuous {
          continue;
        }
      }
      views := views[id := v];
    }
  }

  /** The restore loop over a file's seen positions. */
  method FoldSeen(held: map<ChainId, u32>, offers: map<ChainId, u32>) returns (seen: map<ChainId, u32>)
    ensures seen == MaxSeen(held, offers)
  {
    seen := held;
    var ids := offers.Keys;
    ghost var done: set<ChainId> := {};
    while ids != {}
      invariant ids + done == offers.Keys && ids !! done
      invariant seen.Keys == held.Keys + set o | o in done && offers[o] > Lookup(held, o)
      invariant forall id | id in seen && !(id in done && offers[id] > Lookup(held, id)) :: seen[id] == held[id]
      invariant forall id | id in done && offers[id] > Lookup(held, id) :: seen[id] == offers[id]
    {
      var id :| id in ids;
      ids, done := ids - {id}, done + {id};
      if offers[id] > Lookup(seen, id) {
        seen := seen[id := offers[id]];
      }
    }
  }

  /** The view of `id` wound to "now", or nothing where that cannot be done. */
  method WindToNow(kdf: Kdf, seen: map<ChainId, u32>, id: ChainId, v: ChainView) returns (w: Option<ChainView>)
    ensures w == if Exportable(seen, id, v) then Some(Wound(kdf, seen, id, v)) else None
  {
    if id !in seen {
      return None;
    }
    var target := seen[id] as int + 1;
    if target > U32_MAX {
      return None;
    }
    if target <= v.index {
      return Some(v);
    }
    var wound, ok := kdf.DoAdvance(v, target);
    w := if ok then Some(wound) else None;
  }

  /** The invite loop over every chain we can read. */
  method BundleLoop(kdf: Kdf, views: map<ChainId, ChainView>, seen: map<ChainId, u32>) returns (bundle: seq<ChainView>)
    ensures Draws(bundle, Bundle(kdf, views, seen))
  {
    bundle := [];
    var ids := views.Keys;
    ghost var drawn: map<ChainId, ChainView> := map[];
    while ids != {}
      invariant ids <= views.Keys
      invariant forall id :: id in drawn <==> id in views && id !in ids && Exportable(seen, id, views[id])
      invariant forall id | id in drawn :: drawn[id] == Wound(kdf, seen, id, views[id])
      invariant Draws(bundle, drawn)
    {
      var id :| id in ids;
      ids := ids - {id};
      var w := WindToNow(kdf, seen, id, views[id]);
      if w.None? {
        continue;
      }
      DrawsOneMore(bundle, drawn, id, w.value);
      bundle, drawn := bundle + [w.value], drawn[id := w.value];
    }
    assert drawn == Bundle(kdf, views, seen);
  }

  lemma DrawsOneMore(bundle: seq<ChainView>, all: map<ChainId, ChainView>, id: ChainId, v: ChainView)
    requires Draws(bundle, all) && id !in all
    ensures Draws(bundle + [v], all[id := v])
  {
    var more := all[id := v];
    forall w | w in bundle + [v] ensures exists o :: o in more && more[o] == w {
      if w in bundle {
        var o :| o in all && all[o] == w;
        assert more[o] == w;
      } else {
        assert more[id] == w;
      }
    }
  }

  /** One view of the pruning loop; `own` holds the ID of our outbound chain, if there is one. */
  method PruneOne(kdf: Kdf, s: RoomState, own: set<ChainId>, id: ChainId) returns (w: ChainView, moved: bool)
    requires own == (if s.out.Some? then {s.out.value.id} else {}) && id in s.views
    ensures w == PrunedView(kdf, s, id) && (moved <==> w != s.views[id])
  {
    w, moved := s.views[id], false;
    if id in own || id !in s.seen || s.seen[id] < CHAIN_RETENTION {
      return;
    }
    var floor := s.seen[id] - CHAIN_RETENTION;
    if w.index >= floor {
      return;
    }
    w, moved := kdf.DoAdvance(w, floor);
  }

  method PruneLoop(kdf: Kdf, s: RoomState, own: set<ChainId>) returns (views: map<ChainId, ChainView>, moved: nat)
    requires own == if s.out.Some? then {s.out.value.id} else {}
    ensures views == Pruned(kdf, s).views
    ensures moved == |set id | id in s.views && views[id] != s.views[id]|
  {
    views, moved := s.views, 0;
    var ids := s.views.Keys;
    ghost var changed: set<ChainId> := {};
    while ids != {}
      invariant ids <= s.views.Keys == views.Keys
      invariant forall id | id in views :: views[id] == if id in ids then s.views[id] else PrunedView(kdf, s, id)
      invariant forall id :: id in changed <==> id in s.views && id !in ids && PrunedView(kdf, s, id) != s.views[id]
      invariant moved == |changed|
    {
      var id :| id in ids;
      ids := ids - {id};
      var wound, forward := PruneOne(kdf, s, own, id);
      if forward {
        views, moved := views[id := wound], moved + 1;
        changed := changed + {id};
      }
    }
    assert changed == set id | id in s.views && views[id] != s.views[id];
  }
}
