/** What holds of membership over runs of rosters, removals, invitations and restores. */
module RosterLaws {
  import opened Words
  import opened Members

  /** The membership half of a room file. */
  datatype FileMembers = FileMembers(owner: Name, epoch: u64, ownerEpoch: u64, removed: set<Name>, members: set<Name>)

  function Reinstalled(m: Membership, f: FileMembers, self: Name): Membership {
    Union(RestoredMembership(m, f.owner, f.epoch, f.ownerEpoch, f.removed), f.members, self)
  }

  datatype Event =
    | Deliver(roster: Roster)
    | Drop(names: set<Name>, clock: int)
    | Invite(who: Name, delivered: bool, first: int, second: int)
    | Reinstall(file: FileMembers)   // a restore, including the one after a device transfer

  function After(m: Membership, e: Event, self: Name): Membership {
    match e
    case Deliver(r) => Judged(m, r, self)
    case Drop(names, clock) => Rekeyed(m, names, self, clock)
    case Invite(who, delivered, first, second) => AfterInvite(m, who, self, delivered, first, second)
    case Reinstall(f) => Reinstalled(m, f, self)
  }

  function Run(m: Membership, events: seq<Event>, self: Name): Membership
    decreases |events|
  {
    if events == [] then m else Run(After(m, events[0], self), events[1..], self)
  }

  // --- Removal is durable ----------------------------------------------------------

  /** The only two ways a tombstone goes: the owner's newer roster lists the name, or the owner re-invites. */
  predicate Lifts(m: Membership, e: Event, self: Name, who: Name) {
    match e
    case Deliver(r) => Obeyed(m, r, self) && r.author == m.owner && who in r.members
    case Invite(w, delivered, _, _) => w == who && MayInvite(m, w, self) && delivered
    case _ => false
  }

  predicate Out(m: Membership, who: Name) {
    who in m.removed && who !in m.invited
  }

  lemma RemovalEndsOnlyByTheOwner(m: Membership, e: Event, self: Name, who: Name)
    requires Out(m, who)
    ensures Out(After(m, e, self), who) <==> !Lifts(m, e, self, who)
    ensures Lifts(m, e, self, who) ==> who !in After(m, e, self).removed
    ensures Lifts(m, e, self, who) && e.Invite? ==> m.owner == self
  {
  }

  /** The run lifts `who` somewhere. */
  predicate EverLifts(m: Membership, events: seq<Event>, self: Name, who: Name)
    decreases |events|
  {
    events != [] && (Lifts(m, events[0], self, who) || EverLifts(After(m, events[0], self), events[1..], self, who))
  }

  /**
   * A removed member stays out through any later rosters, replays, invitations by
   * anybody but the owner, restores and transfers, until the owner readmits them.
   */
  lemma {:induction false} RemovalIsDurable(m: Membership, events: seq<Event>, self: Name, who: Name)
    requires Out(m, who) && !EverLifts(m, events, self, who)
    ensures Out(Run(m, events, self), who)
    decreases |events|
  {
    if events != [] {
      RemovalEndsOnlyByTheOwner(m, events[0], self, who);
      RemovalIsDurable(After(m, events[0], self), events[1..], self, who);
    }
  }

  // --- Members and the removed never overlap, except through a file ----------------

  predicate Disjoint(m: Membership) {
    m.invited !! m.removed
  }

  /** A file may be reinstalled over live state without naming a live member removed. */
  predicate FileFits(m: Membership, e: Event) {
    e.Reinstall? ==> e.file.removed !! m.invited
  }

  /**
   * Every operation keeps the members and the removed apart, with one exception and
   * exactly one: reinstalling a file whose tombstones name somebody now a member.
   */
  lemma DisjointExactly(m: Membership, e: Event, self: Name)
    requires Disjoint(m)
    ensures Disjoint(After(m, e, self)) <==> FileFits(m, e)
  {
    match e
    case Reinstall(f) =>
      if who :| who in f.removed && who in m.invited {
        assert who in After(m, e, self).invited && who in After(m, e, self).removed;
      }
    case _ =>
  }

  predicate FilesFit(m: Membership, events: seq<Event>, self: Name)
    decreases |events|
  {
    events == [] || (FileFits(m, events[0]) && FilesFit(After(m, events[0], self), events[1..], self))
  }

  lemma {:induction false} StaysDisjoint(m: Membership, events: seq<Event>, self: Name)
    requires Disjoint(m) && FilesFit(m, events, self)
    ensures Disjoint(Run(m, events, self))
    decreases |events|
  {
    if events != [] {
      DisjointExactly(m, events[0], self);
      StaysDisjoint(After(m, events[0], self), events[1..], self);
    }
  }

  // --- The owner pin -----------------------------------------------------------------

  /** A pinned owner changes only when a file pinned to somebody else is reinstalled. */
  lemma PinChangesOnlyByFile(m: Membership, e: Event, self: Name)
    requires m.owner != NOBODY
    ensures After(m, e, self).owner == m.owner <==>
      (e.Reinstall? && e.file.owner != NOBODY ==> e.file.owner == m.owner)
  {
  }

  /** And nothing but a file ever pins one. Until then no roster is heard, nobody is removed and nobody invited. */
  lemma NoRosterPins(m: Membership, e: Event, self: Name)
    requires m.owner == NOBODY && !e.Reinstall?
    ensures After(m, e, self) == m
  {
  }

  // --- Who may do what -----------------------------------------------------------------

  /** A roster is heard only if it names the pinned owner and comes from them, from a member, or from a device of ours. */
  lemma OnlyMembersAreHeard(m: Membership, r: Roster, self: Name)
    requires r.owner != m.owner || (r.author != m.owner && r.author != self && r.author !in m.invited)
    ensures Judged(m, r, self) == m
  {
  }

  /** Exactly how somebody comes to be removed: by the owner's own roster, by us as the owner, or from a file. */
  lemma RemovedExactlyWhere(m: Membership, e: Event, self: Name, who: Name)
    requires who !in m.removed
    ensures who in After(m, e, self).removed <==>
      match e
      case Deliver(r) =>
        m.owner != NOBODY && r.owner == m.owner == r.author && r.epoch > m.ownerEpoch && who in r.removed && who !in r.members
      case Drop(names, _) => m.owner != NOBODY && m.owner == self && who in names
      case Invite(_, _, _, _) => false
      case Reinstall(f) => who in f.removed
  {
  }

  /** An invitation may be made of somebody, where an owner is pinned, and of somebody removed by the owner alone. */
  predicate Permitted(m: Membership, who: Name, self: Name) {
    who != NOBODY && m.owner != NOBODY && (who !in m.removed || m.owner == self)
  }

  /** Sent, it makes a member and lifts their tombstone; failed, it leaves nobody recorded and every tombstone as it lay. */
  lemma InvitesExactly(m: Membership, who: Name, self: Name, delivered: bool, first: int, second: int)
    ensures var n := After(m, Invite(who, delivered, first, second), self);
      && (!Permitted(m, who, self) ==> n == m)
      && (Permitted(m, who, self) && delivered ==> n.invited == m.invited + {who} && n.removed == m.removed - {who})
      && (Permitted(m, who, self) && !delivered ==> n.invited == m.invited - {who} && n.removed == m.removed)
      && n.owner == m.owner
  {
  }

  /** A file adds what it has: its tombstones, the members nobody holds removed, its owner, and its epochs where they are ahead. */
  lemma ReinstallsExactly(m: Membership, f: FileMembers, self: Name)
    ensures var n := Reinstalled(m, f, self);
      && n.removed == m.removed + f.removed
      && (forall who :: who in n.invited <==> who in m.invited || (who in f.members && who != self && who !in n.removed))
      && n.owner == (if f.owner == NOBODY then m.owner else f.owner)
      && n.epoch == Max(m.epoch, f.epoch) && n.ownerEpoch == Max(m.ownerEpoch, f.ownerEpoch)
  {
  }

  // --- Epochs --------------------------------------------------------------------------

  /** A stamp passes every epoch known and the clock, and by no more than it must. */
  lemma StampAdvances(m: Membership, clock: int)
    requires clock <= INT64_MAX
    ensures var next := NextEpoch(m, clock);
      && (next > Max(m.epoch, m.ownerEpoch) || next == U64_MAX)
      && next >= clock
      && next <= Max(Max(m.epoch, m.ownerEpoch) + 1, clock)
      && Stamped(m, clock).epoch == next
  {
  }

  lemma EpochsNeverFall(m: Membership, e: Event, self: Name)
    ensures m.epoch <= After(m, e, self).epoch
    ensures m.ownerEpoch <= After(m, e, self).ownerEpoch
  {
  }

  lemma {:induction false} EpochsNeverFallInARun(m: Membership, events: seq<Event>, self: Name)
    ensures m.epoch <= Run(m, events, self).epoch
    ensures m.ownerEpoch <= Run(m, events, self).ownerEpoch
    decreases |events|
  {
    if events != [] {
      EpochsNeverFall(m, events[0], self);
      EpochsNeverFallInARun(After(m, events[0], self), events[1..], self);
    }
  }

  /**
   * Two stamps of ours never repeat, whatever the clock does and whatever happens in
   * between, short of the ceiling only an owner's own signature can reach.
   */
  lemma StampsIncrease(m: Membership, clock: int, between: seq<Event>, self: Name, later: int)
    requires clock <= INT64_MAX
    ensures var first := NextEpoch(m, clock);
      var second := NextEpoch(Run(Stamped(m, clock), between, self), later);
      second > first || second == U64_MAX
  {
    EpochsNeverFallInARun(Stamped(m, clock), between, self);
  }

  // --- The owner's own statements ------------------------------------------------------

  /** We sign a statement: a removal that names somebody, or an invitation we may make. */
  predicate Signs(m: Membership, e: Event, self: Name) {
    match e
    case Drop(names, clock) => names != {} && MayDrop(m, names, self) && clock <= INT64_MAX
    case Invite(who, _, first, second) => MayInvite(m, who, self) && first <= INT64_MAX && second <= INT64_MAX
    case _ => false
  }

  /** What the owner signs is an owner epoch, past every epoch known; what anybody else signs is none. */
  lemma OwnStatementIsAnOwnerEpoch(m: Membership, e: Event, self: Name)
    requires Signs(m, e, self)
    ensures var n := After(m, e, self);
      && (n.epoch > Max(m.epoch, m.ownerEpoch) || n.epoch == U64_MAX)
      && n.ownerEpoch == if self == m.owner then n.epoch else m.ownerEpoch
  {
  }

  /** An act of ours that signs nothing moves no epoch. */
  lemma UnsignedMovesNoEpoch(m: Membership, e: Event, self: Name)
    requires match e
      case Drop(names, clock) => names == {} || !MayDrop(m, names, self)
      case Invite(who, _, _, _) => !MayInvite(m, who, self)
      case _ => false
    ensures var n := After(m, e, self); n.epoch == m.epoch && n.ownerEpoch == m.ownerEpoch
  {
  }

  /**
   * So a replay of our own rosters cannot undo what we did as owner: after a removal or an
   * invitation, over every later run, each roster of ours at or below its stamp changes
   * nothing, whoever delivers it and whenever.
   */
  lemma OwnReplaysAreInert(m: Membership, e: Event, events: seq<Event>, self: Name, replayed: Roster)
    requires Signs(m, e, self) && self == m.owner
    requires replayed.owner == self && replayed.author == self
    requires replayed.epoch <= After(m, e, self).epoch
    ensures var n := Run(After(m, e, self), events, self); Judged(n, replayed, self) == n
  {
    OwnStatementIsAnOwnerEpoch(m, e, self);
    EpochsNeverFallInARun(After(m, e, self), events, self);
  }

  function AfterStamps(m: Membership, clocks: seq<int>): Membership
    decreases |clocks|
  {
    if clocks == [] then m else AfterStamps(Stamped(m, clocks[0]), clocks[1..])
  }

  /** How far a device gets in k stamps, which is when another device's stamp outranks it. */
  lemma {:induction false} StampsStayNearTheClock(m: Membership, clocks: seq<int>, t: int)
    requires forall c | c in clocks :: c <= t
    requires m.ownerEpoch <= m.epoch
    ensures AfterStamps(m, clocks).epoch <= Max(m.epoch, t) + |clocks|
    decreases |clocks|
  {
    if clocks != [] {
      assert clocks[0] in clocks && forall c | c in clocks[1..] :: c in clocks;
      StampsStayNearTheClock(Stamped(m, clocks[0]), clocks[1..], t);
    }
  }

  /** Past that bound a second device's stamp wins, though neither ever hears the other's. */
  lemma SecondDeviceOutranks(m: Membership, clocks: seq<int>, t: int, other: Membership, clock: int)
    requires forall c | c in clocks :: c <= t
    requires m.ownerEpoch <= m.epoch
    requires Max(m.epoch, t) + |clocks| < clock <= INT64_MAX
    ensures NextEpoch(other, clock) > AfterStamps(m, clocks).epoch
  {
    StampsStayNearTheClock(m, clocks, t);
    StampAdvances(other, clock);
  }

  // --- The owner's rosters, in any order -------------------------------------------------

  function Delivered(m: Membership, rosters: seq<Roster>, self: Name): Membership
    decreases |rosters|
  {
    if rosters == [] then m else Delivered(Judged(m, rosters[0], self), rosters[1..], self)
  }

  /** All the owner's, and no two different ones at one epoch. */
  predicate OwnersOwn(m: Membership, rosters: seq<Roster>) {
    && m.owner != NOBODY
    && (forall r | r in rosters :: r.owner == m.owner && r.author == m.owner)
    && (forall r, s | r in rosters && s in rosters && r.epoch == s.epoch :: r == s)
  }

  /** Either nothing was ahead of `m`, or `top` is the last word on it. */
  ghost predicate LastWord(m: Membership, rosters: seq<Roster>, self: Name, n: Membership, top: Roster) {
    && top in rosters
    && n.ownerEpoch == top.epoch > m.ownerEpoch
    && n.epoch == Max(m.epoch, top.epoch)
    && n.owner == m.owner
    && n.invited == Names(top.members) - {self}
  }

  ghost predicate Settled(m: Membership, rosters: seq<Roster>, self: Name, n: Membership) {
    && (forall r | r in rosters :: r.epoch <= n.ownerEpoch)
    && (n == m || exists top :: LastWord(m, rosters, self, n, top))
  }

  /** A roster at or below the recorded owner epoch changes nothing. */
  lemma ReplayIsInert(m: Membership, r: Roster, self: Name)
    requires r.author == m.owner && r.epoch <= m.ownerEpoch
    ensures Judged(m, r, self) == m
  {
  }

  lemma SettleOneMore(m: Membership, done: seq<Roster>, r: Roster, self: Name, n: Membership)
    requires OwnersOwn(m, done + [r]) && Settled(m, done, self, n) && n.owner == m.owner
    ensures Settled(m, done + [r], self, Judged(n, r, self))
  {
    var all, next := done + [r], Judged(n, r, self);
    assert r in all && forall d | d in done :: d in all;
    if r.epoch <= n.ownerEpoch {
      if n != m {
        var top :| LastWord(m, done, self, n, top);
        assert LastWord(m, all, self, n, top);
      }
    } else {
      assert LastWord(m, all, self, next, r);
    }
  }

  lemma {:induction false} OwnerRostersSettle(m: Membership, done: seq<Roster>, rest: seq<Roster>, self: Name, n: Membership)
    requires OwnersOwn(m, done + rest) && Settled(m, done, self, n) && n.owner == m.owner
    ensures Settled(m, done + rest, self, Delivered(n, rest, self))
    decreases |rest|
  {
    if rest == [] {
      assert done + rest == done;
    } else {
      assert done + rest == done + [rest[0]] + rest[1..];
      SettleOneMore(m, done, rest[0], self, n);
      OwnerRostersSettle(m, done + [rest[0]], rest[1..], self, Judged(n, rest[0], self));
    }
  }

  /** The same rosters, in some order, with any repeats. */
  ghost predicate SameRosters(a: seq<Roster>, b: seq<Roster>) {
    forall r :: r in a <==> r in b
  }

  /**
   * However the owner's rosters arrive, in whatever order and however often, everybody
   * who gets the same ones ends with the same members and the same epochs.
   */
  lemma OwnerRostersConverge(m: Membership, a: seq<Roster>, b: seq<Roster>, self: Name)
    requires OwnersOwn(m, a) && OwnersOwn(m, b) && SameRosters(a, b)
    ensures var x, y := Delivered(m, a, self), Delivered(m, b, self);
      x.invited == y.invited && x.owner == y.owner && x.ownerEpoch == y.ownerEpoch && x.epoch == y.epoch
  {
    assert [] + a == a && [] + b == b;
    OwnerRostersSettle(m, [], a, self, m);
    OwnerRostersSettle(m, [], b, self, m);
    var x, y := Delivered(m, a, self), Delivered(m, b, self);
    if x != m {
      var top :| LastWord(m, a, self, x, top);
      assert top in b;
    }
    if y != m {
      var top :| LastWord(m, b, self, y, top);
      assert top in a;
    }
  }

  // --- Their tombstones: exactly when the order does not matter ------------------------

  predicate Mentions(r: Roster, n: Name) {
    n in r.members || n in r.removed
  }

  /** The newest of the rosters, and newer than anything we had. */
  predicate IsTop(m: Membership, rosters: seq<Roster>, top: Roster) {
    && top in rosters && top.epoch > m.ownerEpoch
    && forall r | r in rosters :: r.epoch <= top.epoch
  }

  /** `r` tells nothing new about anybody `top` does not mention. */
  predicate TellsNothingMore(m: Membership, r: Roster, top: Roster) {
    forall n | n in Names(r.members) + Names(r.removed) :: !Mentions(top, n) ==> (n in m.removed <==> n !in r.members)
  }

  /**
   * Every roster still ahead of us leaves each name that the newest one forgets as we
   * have it: removed, or not.
   */
  predicate OrderFree(m: Membership, rosters: seq<Roster>) {
    forall top, r | top in rosters && r in rosters && IsTop(m, rosters, top) && r.epoch > m.ownerEpoch ::
      TellsNothingMore(m, r, top)
  }

  /** Until `top` lands, whom it does not mention is as they were; after it, its word is final. */
  predicate Steady(m: Membership, top: Roster, n: Membership) {
    if n.ownerEpoch < top.epoch then forall x :: x in n.removed + m.removed && !Mentions(top, x) ==> (x in n.removed <==> x in m.removed)
    else n.ownerEpoch == top.epoch && n.removed == m.removed + Names(top.removed) - Names(top.members)
  }

  lemma StaysSteady(m: Membership, rosters: seq<Roster>, top: Roster, r: Roster, self: Name, n: Membership)
    requires OwnersOwn(m, rosters) && OrderFree(m, rosters) && IsTop(m, rosters, top) && r in rosters
    requires n.owner == m.owner && n.ownerEpoch >= m.ownerEpoch && Steady(m, top, n)
    ensures var next := Judged(n, r, self);
      next.owner == m.owner && next.ownerEpoch >= n.ownerEpoch && Steady(m, top, next)
    ensures r == top ==> Judged(n, r, self).ownerEpoch == top.epoch
  {
    var next := Judged(n, r, self);
    if r.epoch > n.ownerEpoch {
      assert TellsNothingMore(m, r, top);
      assert r.epoch == top.epoch ==> r == top;
    }
  }

  lemma {:induction false} SteadyThroughout(m: Membership, rosters: seq<Roster>, top: Roster, rest: seq<Roster>, self: Name, n: Membership)
    requires OwnersOwn(m, rosters) && OrderFree(m, rosters) && IsTop(m, rosters, top) && forall r | r in rest :: r in rosters
    requires n.owner == m.owner && n.ownerEpoch >= m.ownerEpoch && Steady(m, top, n)
    ensures Steady(m, top, Delivered(n, rest, self))
    ensures top in rest || n.ownerEpoch == top.epoch ==> Delivered(n, rest, self).ownerEpoch == top.epoch
    decreases |rest|
  {
    if rest != [] {
      assert rest[0] in rest && forall r | r in rest[1..] :: r in rest;
      StaysSteady(m, rosters, top, rest[0], self, n);
      SteadyThroughout(m, rosters, top, rest[1..], self, Judged(n, rest[0], self));
    }
  }

  lemma OrderFreeSettles(m: Membership, rosters: seq<Roster>, a: seq<Roster>, top: Roster, self: Name)
    requires OwnersOwn(m, rosters) && OrderFree(m, rosters) && IsTop(m, rosters, top) && SameRosters(a, rosters)
    ensures Delivered(m, a, self).removed == m.removed + Names(top.removed) - Names(top.members)
  {
    SteadyThroughout(m, rosters, top, a, self, m);
  }

  lemma {:induction false} OldRostersAreInert(n: Membership, rosters: seq<Roster>, self: Name)
    requires forall r | r in rosters :: r.author == n.owner && r.epoch <= n.ownerEpoch
    ensures Delivered(n, rosters, self) == n
    decreases |rosters|
  {
    if rosters != [] {
      assert rosters[0] in rosters;
      ReplayIsInert(n, rosters[0], self);
      OldRostersAreInert(n, rosters[1..], self);
    }
  }

  /** Where some roster does tell more, delivering it before the newest one or after it differs. */
  lemma OneMoreTells(m: Membership, rosters: seq<Roster>, top: Roster, r: Roster, x: Name, self: Name)
    requires OwnersOwn(m, rosters) && IsTop(m, rosters, top) && r in rosters && r.epoch > m.ownerEpoch
    requires Mentions(r, x) && !Mentions(top, x) && !(x in m.removed <==> x !in r.members)
    ensures SameRosters([top] + rosters, rosters) && SameRosters([r, top] + rosters, rosters)
    ensures Delivered(m, [top] + rosters, self) != Delivered(m, [r, top] + rosters, self)
  {
    assert r.epoch < top.epoch;
    var first, second := [top] + rosters, [r, top] + rosters;
    var once, twice := Judged(m, top, self), Judged(Judged(m, r, self), top, self);
    assert first[1..] == rosters && second[1..] == [top] + rosters && ([top] + rosters)[1..] == rosters;
    OldRostersAreInert(once, rosters, self);
    OldRostersAreInert(twice, rosters, self);
    assert Delivered(m, first, self) == once;
    assert Delivered(m, second, self) == Delivered(Judged(m, r, self), [top] + rosters, self) == twice;
    assert x in once.removed <==> x in m.removed;
    assert x in twice.removed <==> x !in r.members;
  }

  lemma NothingAhead(m: Membership, rosters: seq<Roster>, self: Name)
    requires OwnersOwn(m, rosters)
    ensures Delivered(m, rosters, self) == m || exists top :: IsTop(m, rosters, top)
  {
    assert [] + rosters == rosters;
    OwnerRostersSettle(m, [], rosters, self, m);
    var n := Delivered(m, rosters, self);
    if n != m {
      var top :| LastWord(m, rosters, self, n, top);
      assert IsTop(m, rosters, top);
    }
  }

  lemma OrderFreeConverges(m: Membership, rosters: seq<Roster>, a: seq<Roster>, b: seq<Roster>, self: Name)
    requires OwnersOwn(m, rosters) && OrderFree(m, rosters) && SameRosters(a, rosters) && SameRosters(b, rosters)
    ensures Delivered(m, a, self) == Delivered(m, b, self)
  {
    OwnerRostersConverge(m, a, b, self);
    NothingAhead(m, a, self);
    NothingAhead(m, b, self);
    if top :| IsTop(m, a, top) {
      OrderFreeSettles(m, rosters, a, top, self);
      OrderFreeSettles(m, rosters, b, top, self);
    } else if top :| IsTop(m, b, top) {
      assert IsTop(m, a, top);
    }
  }

  ghost predicate AlwaysConverge(m: Membership, rosters: seq<Roster>, self: Name) {
    forall a, b | SameRosters(a, rosters) && SameRosters(b, rosters) :: Delivered(m, a, self) == Delivered(m, b, self)
  }

  lemma OrderFreeSuffices(m: Membership, rosters: seq<Roster>, self: Name)
    requires OwnersOwn(m, rosters) && OrderFree(m, rosters)
    ensures AlwaysConverge(m, rosters, self)
  {
    forall a, b | SameRosters(a, rosters) && SameRosters(b, rosters) ensures Delivered(m, a, self) == Delivered(m, b, self) {
      OrderFreeConverges(m, rosters, a, b, self);
    }
  }

  lemma SomethingMore(m: Membership, rosters: seq<Roster>) returns (top: Roster, r: Roster, x: Name)
    requires !OrderFree(m, rosters)
    ensures IsTop(m, rosters, top) && r in rosters && r.epoch > m.ownerEpoch
    ensures Mentions(r, x) && !Mentions(top, x) && !(x in m.removed <==> x !in r.members)
  {
    top, r :| top in rosters && r in rosters && IsTop(m, rosters, top) && r.epoch > m.ownerEpoch && !TellsNothingMore(m, r, top);
    x :| x in Names(r.members) + Names(r.removed) && !Mentions(top, x) && !(x in m.removed <==> x !in r.members);
  }

  lemma TwoOutcomes(m: Membership, rosters: seq<Roster>, self: Name, a: seq<Roster>, b: seq<Roster>)
    requires SameRosters(a, rosters) && SameRosters(b, rosters) && Delivered(m, a, self) != Delivered(m, b, self)
    ensures !AlwaysConverge(m, rosters, self)
  {
  }

  lemma OrderFreeIsNeeded(m: Membership, rosters: seq<Roster>, self: Name)
    requires OwnersOwn(m, rosters) && !OrderFree(m, rosters)
    ensures !AlwaysConverge(m, rosters, self)
  {
    var top, r, x := SomethingMore(m, rosters);
    OneMoreTells(m, rosters, top, r, x, self);
    TwoOutcomes(m, rosters, self, [top] + rosters, [r, top] + rosters);
  }

  /**
   * Members and epochs always converge. The whole state, tombstones included, converges
   * over every order and all repeats exactly where no roster still ahead of us tells
   * anything new about a name that the newest one forgets.
   */
  lemma TombstonesConvergeExactly(m: Membership, rosters: seq<Roster>, self: Name)
    requires OwnersOwn(m, rosters)
    ensures AlwaysConverge(m, rosters, self) <==> OrderFree(m, rosters)
  {
    if OrderFree(m, rosters) {
      OrderFreeSuffices(m, rosters, self);
    } else {
      OrderFreeIsNeeded(m, rosters, self);
    }
  }

  /** One such pair: a removal that a later roster forgets leaves a tombstone in one order and none in the other. */
  lemma TombstonesCanDependOnOrder()
    ensures
      var m := Membership({"b", "d"}, "a", 0, 0, {});
      var r := Roster(1, ["a", "b"], ["d"], "a", "a");
      var s := Roster(2, ["a", "b"], [], "a", "a");
      && OwnersOwn(m, [r, s])
      && Delivered(m, [r, s], "c").removed == {"d"}
      && Delivered(m, [s, r], "c").removed == {}
  {
    var m := Membership({"b", "d"}, "a", 0, 0, {});
    var r := Roster(1, ["a", "b"], ["d"], "a", "a");
    var s := Roster(2, ["a", "b"], [], "a", "a");
    var m1, m2 := Judged(m, r, "c"), Judged(m, s, "c");
    assert Delivered(m, [r, s], "c") == Delivered(m1, [s], "c") == Delivered(Judged(m1, s, "c"), [], "c");
    assert Delivered(m, [s, r], "c") == Delivered(m2, [r], "c") == Delivered(Judged(m2, r, "c"), [], "c");
    assert m1.removed == {"d"} && m2.removed == {};
  }

  // --- Everybody else's rosters, in any order ----------------------------------------------

  /** From members, or from another device of ours, about the room's own owner. */
  predicate FromMembers(m: Membership, rosters: seq<Roster>, self: Name) {
    && m.owner != NOBODY
    && forall r | r in rosters ::
        r.owner == m.owner && r.author != m.owner && (r.author == self || r.author in m.invited)
  }

  function AllNamed(rosters: seq<Roster>): set<Name> {
    set r, n | r in rosters && n in r.members :: n
  }

  /** Members' rosters need no order: together they add exactly whom they name. */
  lemma {:induction false} MemberRostersUnion(m: Membership, rosters: seq<Roster>, self: Name)
    requires FromMembers(m, rosters, self)
    ensures Delivered(m, rosters, self) == Union(m, AllNamed(rosters), self)
    decreases |rosters|
  {
    if rosters == [] {
      assert Union(m, {}, self) == m;
    } else {
      var n := Judged(m, rosters[0], self);
      assert rosters[0] in rosters;
      MemberRostersUnion(n, rosters[1..], self);
      assert AllNamed(rosters) == Names(rosters[0].members) + AllNamed(rosters[1..]) by {
        assert rosters == [rosters[0]] + rosters[1..];
      }
    }
  }

  /** So any permutation, with any repeats, gives the same members. */
  lemma MemberRostersCommute(m: Membership, a: seq<Roster>, b: seq<Roster>, self: Name)
    requires FromMembers(m, a, self) && FromMembers(m, b, self)
    requires forall r :: r in a <==> r in b
    ensures Delivered(m, a, self) == Delivered(m, b, self)
    ensures Delivered(m, a + b, self) == Delivered(m, a, self)
  {
    MemberRostersUnion(m, a, self);
    MemberRostersUnion(m, b, self);
    MemberRostersUnion(m, a + b, self);
    assert AllNamed(a) == AllNamed(b) == AllNamed(a + b);
  }
}
