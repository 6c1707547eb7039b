/** A room as it is saved, the merge every save goes through, and what a device transfer carries. */
module RoomStore {
  import opened Words
  import opened Ratchet
  import opened RoomChains
  import opened Members
  import ChainLaws

  datatype Entry = Entry(
    out: Option<Chain>,
    reservedThrough: u32,
    shared: bool,
    stale: bool,
    views: map<ChainId, ChainView>,
    seen: map<ChainId, u32>,
    members: set<Name>,
    owner: Name,
    epoch: u64,
    ownerEpoch: u64,
    removed: set<Name>)

  /** What a room not in the file reads as. */
  const EMPTY := Entry(None, 0, false, false, map[], map[], {}, NOBODY, 0, 0, {})

  /** What this session knows about the room. */
  datatype Live = Live(chains: RoomState, members: Membership)

  /** What one of our devices may tell another about a room. */
  datatype TransferRoom = TransferRoom(views: map<ChainId, ChainView>, members: seq<Name>)

  function Stored(e: Entry): Export {
    Export(e.out, e.views, e.seen, e.reservedThrough, e.shared)
  }

  /** Live values where there are any, the file's where there are not; the marks only rise. */
  function Merged(kdf: Kdf, live: Live, prev: Entry): Entry {
    Folded(Exported(kdf, live.chains), live.chains.stale, live.members, prev)
  }

  function Folded(x: Export, stale: bool, m: Membership, prev: Entry): Entry {
    var removed := m.removed + prev.removed;
    var kept := x.out.None? && prev.out.Some?;
    Entry(
      if kept then prev.out else x.out,
      if kept then prev.reservedThrough else x.reserved,
      if kept then prev.shared else x.shared,
      if kept then prev.stale else stale,
      prev.views + x.views,
      MaxSeen(x.seen, prev.seen),
      (if m.invited == {} then prev.members else m.invited) - removed,
      if prev.owner != NOBODY then prev.owner else m.owner,
      Max(m.epoch, prev.epoch),
      Max(m.ownerEpoch, prev.ownerEpoch),
      removed)
  }

  /** What a save writes, from what the client and the member record report. */
  method MergedRoomEntry(keys: RoomKeys, record: RoomMembers, c: Cookie, prev: Entry) returns (entry: Entry)
    ensures entry == Merged(keys.kdf, Live(keys.State(), record.Of(c)), prev)
  {
    var x := keys.RoomChainState();
    entry := FoldEntry(x, keys.staleChain, record.Of(c), prev);
  }

  method FoldEntry(x: Export, staleNow: bool, m: Membership, prev: Entry) returns (entry: Entry)
    ensures entry == Folded(x, staleNow, m, prev)
  {
    var out, reserved, shared, stale := x.out, x.reserved, x.shared, staleNow;
    var owner, epoch, ownerEpoch, members := m.owner, m.epoch, m.ownerEpoch, m.invited;
    if owner == NOBODY {
      owner := prev.owner;
    } else if prev.owner != NOBODY && prev.owner != owner {
      owner := prev.owner;
    }
    if prev.epoch > epoch {
      epoch := prev.epoch;
    }
    if prev.ownerEpoch > ownerEpoch {
      ownerEpoch := prev.ownerEpoch;
    }
    var removed := m.removed + prev.removed;
    if members == {} {
      members := prev.members;
    }
    members := members - removed;
    if out.None? && prev.out.Some? {
      out, reserved, shared, stale := prev.out, prev.reservedThrough, prev.shared, prev.stale;
    }
    var views := FoldMissing(x.views, prev.views);
    var seen := FoldSeen(x.seen, prev.seen);
    entry := Entry(out, reserved, shared, stale, views, seen, members, owner, epoch, ownerEpoch, removed);
  }

  /** Takes from `prev` only what is not held. */
  method FoldMissing(held: map<ChainId, ChainView>, prev: map<ChainId, ChainView>) returns (views: map<ChainId, ChainView>)
    ensures views == prev + held
  {
    views := held;
    var ids := prev.Keys;
    while ids != {}
      invariant ids <= prev.Keys
      invariant forall id :: id in views <==> id in held || (id in prev && id !in ids)
      invariant forall id | id in views :: views[id] == if id in held then held[id] else prev[id]
    {
      var id :| id in ids;
      ids := ids - {id};
      if id !in views {
        views := views[id := prev[id]];
      }
    }
  }

  // --- A save only ratchets ---------------------------------------------------

  function Saves(kdf: Kdf, prev: Entry, lives: seq<Live>): Entry
    decreases |lives|
  {
    if lives == [] then prev else Saves(kdf, Merged(kdf, lives[0], prev), lives[1..])
  }

  function AllRemoved(lives: seq<Live>): set<Name> {
    set l, n | l in lives && n in l.members.removed :: n
  }

  /** `high` is the maximum of `start` and of `mark` over the sessions saved. */
  ghost predicate RunningMax(start: int, high: int, lives: seq<Live>, mark: Live -> int) {
    && start <= high
    && (forall l | l in lives :: mark(l) <= high)
    && (high == start || exists l :: l in lives && mark(l) == high)
  }

  lemma RunningMaxExtends(start: int, high: int, first: Live, rest: seq<Live>, mark: Live -> int)
    requires RunningMax(Max(start, mark(first)), high, rest, mark)
    ensures RunningMax(start, high, [first] + rest, mark)
  {
    assert first in [first] + rest && forall l | l in rest :: l in [first] + rest;
  }

  function EpochOf(l: Live): int { l.members.epoch }
  function OwnerEpochOf(l: Live): int { l.members.ownerEpoch }

  ghost predicate MembershipRatchets(prev: Entry, lives: seq<Live>, e: Entry) {
    && (prev.owner != NOBODY ==> e.owner == prev.owner)
    && (e.owner == prev.owner || exists l :: l in lives && l.members.owner == e.owner)
    && RunningMax(prev.epoch, e.epoch, lives, EpochOf)
    && RunningMax(prev.ownerEpoch, e.ownerEpoch, lives, OwnerEpochOf)
    && e.removed == prev.removed + AllRemoved(lives)
    && (lives != [] ==> e.members !! e.removed)
  }

  ghost predicate SeenRatchets(prev: Entry, lives: seq<Live>, e: Entry) {
    forall id :: RunningMax(Lookup(prev.seen, id), Lookup(e.seen, id), lives, (l: Live) => Lookup(l.chains.seen, id))
  }

  ghost predicate ChainsRatchet(prev: Entry, lives: seq<Live>, e: Entry) {
    && prev.views.Keys <= e.views.Keys
    && (forall l | l in lives :: l.chains.views.Keys <= e.views.Keys)
    && (e.out.Some? <==> prev.out.Some? || exists l :: l in lives && l.chains.out.Some?)
  }

  /** The outbound chain on file, and everything that goes with it. */
  datatype OwnChain = OwnChain(out: Option<Chain>, reserved: u32, shared: bool, stale: bool)

  function ChainOnFile(e: Entry): OwnChain {
    OwnChain(e.out, e.reservedThrough, e.shared, e.stale)
  }

  function ChainAsSaved(kdf: Kdf, l: Live): OwnChain {
    var x := Exported(kdf, l.chains);
    OwnChain(x.out, x.reserved, x.shared, l.chains.stale)
  }

  /** No session from the `i`-th save on holds a chain. */
  predicate NoneFrom(lives: seq<Live>, i: int) {
    forall j :: i <= j < |lives| && 0 <= j ==> lives[j].chains.out.None?
  }

  /**
   * After any saves the file's chain, reservation and marks are those of the last session
   * that held a chain; where none did, they are the file's own, unless it never had one.
   */
  lemma {:induction false} TheLastLiveChainIsStored(kdf: Kdf, prev: Entry, lives: seq<Live>)
    ensures var e := Saves(kdf, prev, lives);
      && (forall i | 0 <= i < |lives| && lives[i].chains.out.Some? && NoneFrom(lives, i + 1) ::
            ChainOnFile(e) == ChainAsSaved(kdf, lives[i]))
      && (NoneFrom(lives, 0) && prev.out.Some? ==> ChainOnFile(e) == ChainOnFile(prev))
      && (NoneFrom(lives, 0) && prev.out.None? ==> e.out.None?)
    decreases |lives|
  {
    if lives != [] {
      var l, rest := lives[0], lives[1..];
      var next := Merged(kdf, l, prev);
      TheLastLiveChainIsStored(kdf, next, rest);
      var e := Saves(kdf, prev, lives);
      assert forall j | 0 <= j < |rest| :: rest[j] == lives[j + 1];
      forall i | 0 <= i < |lives| && lives[i].chains.out.Some? && NoneFrom(lives, i + 1)
        ensures ChainOnFile(e) == ChainAsSaved(kdf, lives[i])
      {
        if i == 0 {
          assert NoneFrom(rest, 0);
        } else {
          assert NoneFrom(rest, i);
          assert rest[i - 1] == lives[i];
        }
      }
      if NoneFrom(lives, 0) {
        assert lives[0].chains.out.None? && NoneFrom(rest, 0);
      }
    }
  }

  /** The member list of the last session that had one, and the file's own where none did. */
  function LastListed(prev: Entry, lives: seq<Live>): set<Name>
    decreases |lives|
  {
    if lives == [] then prev.members
    else
      var last := lives[|lives| - 1].members.invited;
      if last != {} then last else LastListed(prev, lives[..|lives| - 1])
  }

  lemma {:induction false} SavedOnce(kdf: Kdf, prev: Entry, lives: seq<Live>, last: Live)
    ensures Saves(kdf, prev, lives + [last]) == Merged(kdf, last, Saves(kdf, prev, lives))
    decreases |lives|
  {
    if lives == [] {
      assert [last][1..] == [];
      assert Saves(kdf, prev, [last]) == Saves(kdf, Merged(kdf, last, prev), []);
    } else {
      SavedOnce(kdf, Merged(kdf, lives[0], prev), lives[1..], last);
      assert (lives + [last])[1..] == lives[1..] + [last];
    }
  }

  lemma OneMoreListed(kdf: Kdf, saved: Entry, listed: set<Name>, last: Live)
    requires saved.members == listed || saved.members == listed - saved.removed
    ensures var e := Merged(kdf, last, saved);
      e.members == (if last.members.invited != {} then last.members.invited else listed) - (saved.removed + last.members.removed)
  {
  }

  lemma RemovedInAll(before: seq<Live>, last: Live)
    ensures AllRemoved(before + [last]) == AllRemoved(before) + last.members.removed
  {
    forall l ensures l in before + [last] <==> l in before || l == last {
    }
  }

  /**
   * After any saves the members on file are those of the last session that had any, less
   * everybody any of the sessions or the file held removed: an empty list is a session
   * that was never restored, and does not erase the file's.
   */
  lemma {:induction false} TheLastMembersAreStored(kdf: Kdf, prev: Entry, lives: seq<Live>)
    requires lives != []
    ensures Saves(kdf, prev, lives).members == LastListed(prev, lives) - (prev.removed + AllRemoved(lives))
    decreases |lives|
  {
    var before, last := lives[..|lives| - 1], lives[|lives| - 1];
    assert lives == before + [last];
    SavedOnce(kdf, prev, before, last);
    RemovedInAll(before, last);
    var saved := Saves(kdf, prev, before);
    assert saved.removed == prev.removed + AllRemoved(before) by {
      SavesOnlyRatchet(kdf, prev, before);
    }
    if before != [] {
      TheLastMembersAreStored(kdf, prev, before);
    }
    OneMoreListed(kdf, saved, LastListed(prev, before), last);
    assert prev.removed + AllRemoved(lives) == saved.removed + last.members.removed;
  }

  /** And each view on file is the one the last session to hold that chain held, or the file's own. */
  lemma {:induction false} TheLastViewsAreStored(kdf: Kdf, prev: Entry, lives: seq<Live>, id: ChainId)
    ensures Held(Saves(kdf, prev, lives).views, id) == LastView(prev, lives, id)
    decreases |lives|
  {
    if lives != [] {
      var before, last := lives[..|lives| - 1], lives[|lives| - 1];
      assert lives == before + [last];
      SavedOnce(kdf, prev, before, last);
      TheLastViewsAreStored(kdf, prev, before, id);
    }
  }

  function LastView(prev: Entry, lives: seq<Live>, id: ChainId): Option<ChainView>
    decreases |lives|
  {
    if lives == [] then Held(prev.views, id)
    else
      var last := lives[|lives| - 1].chains.views;
      if id in last then Some(last[id]) else LastView(prev, lives[..|lives| - 1], id)
  }

  /**
   * Over any saves, including from sessions that never read the file, the stored room
   * only ratchets: the owner stays, the epochs and seen positions are running maxima,
   * the tombstones a running union, and no view or outbound chain is ever lost.
   */
  lemma {:induction false} SavesOnlyRatchet(kdf: Kdf, prev: Entry, lives: seq<Live>)
    ensures var e := Saves(kdf, prev, lives);
      && MembershipRatchets(prev, lives, e)
      && SeenRatchets(prev, lives, e)
      && ChainsRatchet(prev, lives, e)
    decreases |lives|
  {
    if lives != [] {
      var l, rest := lives[0], lives[1..];
      SavesOnlyRatchet(kdf, Merged(kdf, l, prev), rest);
      assert lives == [l] + rest;
      var e := Saves(kdf, prev, lives);
      MembershipExtends(kdf, prev, l, rest, e);
      SeenExtends(kdf, prev, l, rest, e);
      ChainsExtend(kdf, prev, l, rest, e);
    }
  }

  lemma MembershipExtends(kdf: Kdf, prev: Entry, l: Live, rest: seq<Live>, e: Entry)
    requires MembershipRatchets(Merged(kdf, l, prev), rest, e)
    requires rest == [] ==> e == Merged(kdf, l, prev)
    ensures MembershipRatchets(prev, [l] + rest, e)
  {
    var all := [l] + rest;
    assert l in all && forall o | o in rest :: o in all;
    RunningMaxExtends(prev.epoch, e.epoch, l, rest, EpochOf);
    RunningMaxExtends(prev.ownerEpoch, e.ownerEpoch, l, rest, OwnerEpochOf);
    assert AllRemoved(all) == l.members.removed + AllRemoved(rest);
  }

  lemma SeenExtends(kdf: Kdf, prev: Entry, l: Live, rest: seq<Live>, e: Entry)
    requires SeenRatchets(Merged(kdf, l, prev), rest, e)
    ensures SeenRatchets(prev, [l] + rest, e)
  {
    forall id ensures RunningMax(Lookup(prev.seen, id), Lookup(e.seen, id), [l] + rest, (o: Live) => Lookup(o.chains.seen, id)) {
      MergedSeen(kdf, l, prev, id);
      RunningMaxExtends(Lookup(prev.seen, id), Lookup(e.seen, id), l, rest, (o: Live) => Lookup(o.chains.seen, id));
    }
  }

  lemma MergedSeen(kdf: Kdf, l: Live, prev: Entry, id: ChainId)
    ensures Lookup(Merged(kdf, l, prev).seen, id) == Max(Lookup(prev.seen, id), Lookup(l.chains.seen, id))
  {
  }

  lemma ChainsExtend(kdf: Kdf, prev: Entry, l: Live, rest: seq<Live>, e: Entry)
    requires ChainsRatchet(Merged(kdf, l, prev), rest, e)
    ensures ChainsRatchet(prev, [l] + rest, e)
  {
    assert forall o :: o in [l] + rest <==> o == l || o in rest;
  }

  /**
   * A save keeps the mark that the outbound chain must be replaced, unless the session
   * holding the mark holds no chain while the file holds an unmarked one: then the
   * file's chain survives and the mark does not.
   */
  lemma SaveKeepsTheStaleMark(kdf: Kdf, live: Live, prev: Entry)
    requires live.chains.stale
    ensures (Merged(kdf, live, prev).out.Some? ==> Merged(kdf, live, prev).stale) <==>
      (live.chains.out.Some? || prev.out.None? || prev.stale)
  {
  }

  // --- Device transfers ----------------------------------------------------------

  function Named(views: map<ChainId, ChainView>): map<ChainId, ChainView> {
    map id | id in views && views[id].id == id :: views[id]
  }

  /** Views wound to "now", and the members; nothing that carries authority. */
  function Shipped(kdf: Kdf, e: Entry): map<ChainId, ChainView> {
    Bundle(kdf, Named(e.views), e.seen)
  }

  method TransferRoomState(kdf: Kdf, e: Entry, members: seq<Name>) returns (t: TransferRoom)
    ensures t == TransferRoom(Shipped(kdf, e), members)
  {
    var views: map<ChainId, ChainView> := map[];
    var ids := e.views.Keys;
    ghost var all := Shipped(kdf, e);
    while ids != {}
      invariant ids <= e.views.Keys
      invariant forall id :: id in views <==> id in all && id !in ids
      invariant forall id | id in views :: views[id] == all[id]
    {
      var id :| id in ids;
      ids := ids - {id};
      if e.views[id].id != id {
        continue;
      }
      var w := WindToNow(kdf, e.seen, id, e.views[id]);
      if w.Some? {
        views := views[id := w.value];
      }
    }
    t := TransferRoom(views, members);
  }

  function Taken(cur: Entry, t: TransferRoom, self: Name): Entry {
    cur.(views := Named(t.views) + cur.views,
         members := (cur.members - {NOBODY}) + (Names(t.members) - cur.removed - {self, NOBODY}))
  }

  method MergeTransferredRoom(cur: Entry, t: TransferRoom, self: Name) returns (next: Entry)
    ensures next == Taken(cur, t, self)
  {
    var views := cur.views;
    var ids := t.views.Keys;
    while ids != {}
      invariant ids <= t.views.Keys
      invariant forall id :: id in views <==> id in cur.views || (id in t.views && id !in ids && t.views[id].id == id)
      invariant forall id | id in views :: views[id] == if id in cur.views then cur.views[id] else t.views[id]
    {
      var id :| id in ids;
      ids := ids - {id};
      if t.views[id].id != id || id in views {
        continue;
      }
      views := views[id := t.views[id]];
    }
    var members := cur.members - {NOBODY};
    for i := 0 to |t.members|
      invariant members == (cur.members - {NOBODY}) + (Names(t.members[..i]) - cur.removed - {self, NOBODY})
    {
      assert Names(t.members[..i + 1]) == Names(t.members[..i]) + {t.members[i]};
      var n := t.members[i];
      if n != NOBODY && n != self && n !in cur.removed {
        members := members + {n};
      }
    }
    assert t.members[..|t.members|] == t.members;
    next := cur.(views := views, members := members);
  }

  /** What is shipped: every well-named view whose position is known and can be wound past, and no other. */
  lemma ShippedExactly(kdf: Kdf, e: Entry, id: ChainId)
    ensures id in Shipped(kdf, e) <==>
      && id in e.views && e.views[id].id == id
      && id in e.seen && e.seen[id] < U32_MAX && e.seen[id] < e.views[id].index + MAX_CHAIN_SKIP
  {
    if id in e.views && e.views[id].id == id {
      ChainLaws.BundleStartsNow(kdf, Named(e.views), e.seen, id);
    }
  }

  /** What is taken of a transfer: well-named views of chains not held, and members who are not removed. */
  lemma TakenExactly(cur: Entry, t: TransferRoom, self: Name)
    ensures var next := Taken(cur, t, self);
      && (forall id :: Held(next.views, id) ==
            if id in cur.views then Some(cur.views[id])
            else if id in t.views && t.views[id].id == id then Some(t.views[id])
            else None)
      && (forall n :: n in next.members <==>
            n != NOBODY && (n in cur.members || (n in t.members && n != self && n !in cur.removed)))
  {
  }

  /**
   * A transferred view opens nothing the sending device had recorded as seen, and from
   * its position on it is the chain the sender holds.
   */
  lemma TransfersStartNow(kdf: Kdf, e: Entry, id: ChainId)
    requires id in Shipped(kdf, e)
    ensures id in e.views && id in e.seen
    ensures var v, w := e.views[id], Shipped(kdf, e)[id];
      && w.index == Max(v.index, Now(e.seen, id))
      && kdf.Agree(v, w, w.index)
      && forall i: u32 | i <= e.seen[id] :: kdf.MessageKey(w, i).Rewind?
  {
    ChainLaws.BundleStartsNow(kdf, Named(e.views), e.seen, id);
  }

  /**
   * A transfer grants what a member's roster could and no more: held views stand,
   * nobody removed comes back, and everything that carries authority is untouched.
   * Taking it twice is taking it once.
   */
  lemma TransferGrantsNoAuthority(cur: Entry, t: TransferRoom, self: Name)
    ensures var next := Taken(cur, t, self);
      && (forall id | id in cur.views :: id in next.views && next.views[id] == cur.views[id])
      && (forall id | id in next.views :: id in cur.views || (id in t.views && next.views[id] == t.views[id] && t.views[id].id == id))
      && (cur.members !! cur.removed ==> next.members !! next.removed)
      && next.(views := cur.views, members := cur.members) == cur
      && Taken(next, t, self) == next
  {
    var next := Taken(cur, t, self);
    assert Taken(next, t, self).views == next.views;
  }
}
