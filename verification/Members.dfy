/**
 * Who we have given a room's key to, who owns it, whom the owner has taken out of it,
 * and the epochs that order the owner's statements.
 *
 * `Membership` and its functions specify one room; `RoomMembers` is the record the
 * app keeps for all rooms, by cookie.
 */
module Members {
  import opened Words

  /** A normalized screen name; the empty one stands for "nobody". */
  type Name = string
  type Cookie = string

  const NOBODY: Name := ""

  datatype Membership = Membership(
    invited: set<Name>,
    owner: Name,
    epoch: u64,
    ownerEpoch: u64,
    removed: set<Name>)

  const UNKNOWN := Membership({}, NOBODY, 0, 0, {})

  /** A signed statement about who is in a room, its signature already checked. */
  datatype Roster = Roster(epoch: u64, members: seq<Name>, removed: seq<Name>, owner: Name, author: Name)

  function Names(s: seq<Name>): set<Name> {
    set n | n in s
  }

  function Union(m: Membership, names: set<Name>, self: Name): Membership {
    m.(invited := m.invited + (names - m.removed - {self}))
  }

  function Replaced(m: Membership, names: set<Name>, self: Name): Membership {
    m.(invited := names - {self})
  }

  function Tombstoned(m: Membership, gone: set<Name>, present: set<Name>): Membership {
    m.(removed := m.removed + gone - present)
  }

  function Accepted(m: Membership, e: u64): Membership {
    m.(ownerEpoch := Max(m.ownerEpoch, e), epoch := Max(m.epoch, e))
  }

  /** The epoch to stamp next: past every epoch known, never wrapping, never behind the clock. */
  function NextEpoch(m: Membership, clock: int): u64 {
    var cur := Max(m.epoch, m.ownerEpoch);
    var next := if cur == U64_MAX then U64_MAX else cur + 1;
    if next < clock <= INT64_MAX then clock else next
  }

  function Stamped(m: Membership, clock: int): Membership {
    m.(epoch := NextEpoch(m, clock))
  }

  /** A statement signed by us: the owner's own stamp is also an owner epoch. */
  function Signed(m: Membership, self: Name, clock: int): Membership {
    if self == m.owner then Accepted(Stamped(m, clock), NextEpoch(m, clock)) else Stamped(m, clock)
  }

  function Pinned(m: Membership, owner: Name): Membership {
    if m.owner != NOBODY then m else m.(owner := owner)
  }

  function RestoredMembership(m: Membership, owner: Name, epoch: u64, ownerEpoch: u64, removed: set<Name>): Membership {
    Membership(m.invited, if owner != NOBODY then owner else m.owner,
      Max(m.epoch, epoch), Max(m.ownerEpoch, ownerEpoch), m.removed + removed)
  }

  // --- What a roster may do -----------------------------------------------------

  predicate Entitled(m: Membership, r: Roster, self: Name) {
    && m.owner != NOBODY
    && r.owner == m.owner
    && (r.author == m.owner || r.author == self || r.author in m.invited)
  }

  predicate Obeyed(m: Membership, r: Roster, self: Name) {
    Entitled(m, r, self) && (r.author == m.owner ==> r.epoch > m.ownerEpoch)
  }

  function Judged(m: Membership, r: Roster, self: Name): Membership {
    if !Obeyed(m, r, self) then m
    else if r.author != m.owner then Union(m, Names(r.members), self)
    else Accepted(Replaced(Tombstoned(m, Names(r.removed), Names(r.members)), Names(r.members), self), r.epoch)
  }

  /** The roster names somebody removed whom we had not yet taken out. */
  predicate Retires(m: Membership, r: Roster, self: Name) {
    Obeyed(m, r, self) && r.author == m.owner && exists n :: n in r.removed && n !in m.removed
  }

  // --- What we do ourselves ------------------------------------------------------

  predicate MayDrop(m: Membership, drop: set<Name>, self: Name) {
    drop != {} ==> m.owner != NOBODY && m.owner == self
  }

  function Rekeyed(m: Membership, drop: set<Name>, self: Name, clock: int): Membership {
    if !MayDrop(m, drop, self) then m
    else
      var n := Tombstoned(m.(invited := m.invited - drop), drop, {});
      if drop == {} then n else Signed(n, self, clock)
  }

  predicate MayInvite(m: Membership, who: Name, self: Name) {
    && who != NOBODY
    && m.owner != NOBODY
    && (who in m.removed ==> m.owner == self)
  }

  function Admitted(m: Membership, who: Name): Membership {
    Tombstoned(m.(invited := m.invited + {who}), {}, {who})
  }

  /** An invitation that never landed: nobody is left recorded, and a lifted tombstone is re-laid. */
  function Withdrawn(m: Membership, who: Name, lifted: bool): Membership {
    Tombstoned(m.(invited := m.invited - {who}), if lifted then {who} else {}, {})
  }

  /** `first` stamps the roster inside the invitation, `second` the one sent round the room. */
  function AfterInvite(m: Membership, who: Name, self: Name, delivered: bool, first: int, second: int): Membership {
    if !MayInvite(m, who, self) then m
    else
      var n := Signed(Admitted(m, who), self, first);
      if delivered then Signed(n, self, second) else Withdrawn(n, who, who in m.removed)
  }

  /** A roster vouched for by the owner it names. */
  predicate OwnersWord(roster: Option<Roster>) {
    roster.Some? && roster.value.author == roster.value.owner
  }

  /**
   * Joining by invitation: the inviter is recorded whatever else is known of them, and a
   * verified roster pins the owner and names the rest.
   */
  function Adopted(m: Membership, from: Name, roster: Option<Roster>, self: Name): Membership {
    var n := m.(invited := m.invited + {from});
    match roster
    case None => n
    case Some(r) =>
      var p := Pinned(n, r.owner);
      var o := if OwnersWord(roster) then Tombstoned(Accepted(p, r.epoch), Names(r.removed), Names(r.members)) else p;
      Union(o, Names(r.members), self)
  }

  class RoomMembers {
    var invited: map<Cookie, set<Name>>
    var owner: map<Cookie, Name>
    var epoch: map<Cookie, u64>
    var ownerEpoch: map<Cookie, u64>
    var removed: map<Cookie, set<Name>>

    function Of(c: Cookie): Membership
      reads this
    {
      Membership(
        if c in invited then invited[c] else {},
        if c in owner then owner[c] else NOBODY,
        if c in epoch then epoch[c] else 0,
        if c in ownerEpoch then ownerEpoch[c] else 0,
        if c in removed then removed[c] else {})
    }

    /** Only room `c` has changed since the method began, and it is now `m`. */
    twostate predicate Became(c: Cookie, m: Membership)
      reads this
    {
      && Of(c) == m
      && forall d | d != c :: Of(d) == old(Of(d))
    }

    constructor ()
      ensures forall c :: Of(c) == UNKNOWN
    {
      invited, owner, epoch, ownerEpoch, removed := map[], map[], map[], map[], map[];
    }

    method Add(c: Cookie, n: Name)
      modifies this
      ensures Became(c, old(Of(c)).(invited := old(Of(c)).invited + {n}))
    {
      if c !in invited {
        invited := invited[c := {}];
      }
      invited := invited[c := invited[c] + {n}];
    }

    method Remove(c: Cookie, n: Name)
      modifies this
      ensures Became(c, old(Of(c)).(invited := old(Of(c)).invited - {n}))
    {
      if c in invited {
        invited := invited[c := invited[c] - {n}];
      }
    }

    method Forget(c: Cookie)
      modifies this
      ensures Became(c, UNKNOWN)
    {
      invited, owner, epoch, ownerEpoch, removed :=
        invited - {c}, owner - {c}, epoch - {c}, ownerEpoch - {c}, removed - {c};
    }

    method WasRemoved(c: Cookie, n: Name) returns (b: bool)
      ensures b <==> n in Of(c).removed
    {
      b := c in removed && n in removed[c];
    }

    method AddAll(c: Cookie, names: seq<Name>, self: Name)
      modifies this
      ensures Became(c, Union(old(Of(c)), Names(names), self))
    {
      for i := 0 to |names|
        invariant Became(c, Union(old(Of(c)), Names(names[..i]), self))
      {
        assert Names(names[..i + 1]) == Names(names[..i]) + {names[i]};
        var gone := WasRemoved(c, names[i]);
        if names[i] == self || gone {
          continue;
        }
        Add(c, names[i]);
      }
      assert names[..|names|] == names;
    }

    method SetAll(c: Cookie, names: seq<Name>, self: Name)
      modifies this
      ensures Became(c, Replaced(old(Of(c)), Names(names), self))
    {
      var members: set<Name> := {};
      for i := 0 to |names|
        invariant members == Names(names[..i]) - {self}
      {
        if names[i] != self {
          members := members + {names[i]};
        }
      }
      assert names[..|names|] == names;
      invited := invited[c := members];
    }

    method PinOwner(c: Cookie, who: Name) returns (pinned: Name)
      modifies this
      ensures Became(c, Pinned(old(Of(c)), who))
      ensures pinned == Of(c).owner
    {
      if c in owner && owner[c] != NOBODY {
        return owner[c];
      }
      if who != NOBODY {
        owner := owner[c := who];
      }
      return who;
    }

    method Tombstone(c: Cookie, gone: seq<Name>, present: seq<Name>)
      modifies this
      ensures Became(c, Tombstoned(old(Of(c)), Names(gone), Names(present)))
    {
      var dead := if c in removed then removed[c] else {};
      ghost var start := dead;
      for i := 0 to |gone|
        invariant dead == start + Names(gone[..i])
      {
        dead := dead + {gone[i]};
      }
      assert gone[..|gone|] == gone;
      for i := 0 to |present|
        invariant dead == start + Names(gone) - Names(present[..i])
      {
        dead := dead - {present[i]};
      }
      assert present[..|present|] == present;
      removed := removed[c := dead];
    }

    method AcceptOwnerEpoch(c: Cookie, e: u64)
      modifies this
      ensures Became(c, Accepted(old(Of(c)), e))
    {
      if c !in ownerEpoch || e > ownerEpoch[c] {
        ownerEpoch := ownerEpoch[c := e];
      }
      if c !in epoch || e > epoch[c] {
        epoch := epoch[c := e];
      }
    }

    /** `clock` is the wall clock in Unix seconds, a signed 64-bit number. */
    method ClaimNextEpoch(c: Cookie, clock: int) returns (next: u64)
      requires clock <= INT64_MAX
      modifies this
      ensures next == NextEpoch(old(Of(c)), clock)
      ensures Became(c, Stamped(old(Of(c)), clock))
    {
      var cur: u64 := if c in epoch then epoch[c] else 0;
      if c in ownerEpoch && ownerEpoch[c] > cur {
        cur := ownerEpoch[c];
      }
      assert cur == Max(Of(c).epoch, Of(c).ownerEpoch);
      next := Add64(cur, 1);
      if next == 0 {
        next := U64_MAX;
      }
      if clock > 0 && clock > next {
        next := clock;
      }
      assert next == NextEpoch(Of(c), clock);
      epoch := epoch[c := next];
    }

    method Restore(c: Cookie, who: Name, e: u64, oe: u64, gone: seq<Name>)
      modifies this
      ensures Became(c, RestoredMembership(old(Of(c)), who, e, oe, Names(gone)))
    {
      if |gone| > 0 {
        Tombstone(c, gone, []);
      }
      RaiseMarks(c, who, e, oe);
    }

    method RaiseMarks(c: Cookie, who: Name, e: u64, oe: u64)
      modifies this
      ensures Became(c, RestoredMembership(old(Of(c)), who, e, oe, {}))
    {
      if who != NOBODY {
        owner := owner[c := who];
      }
      RaiseEpochs(c, e, oe);
    }

    method RaiseEpochs(c: Cookie, e: u64, oe: u64)
      modifies `epoch, `ownerEpoch
      ensures Became(c, old(Of(c)).(epoch := Max(old(Of(c)).epoch, e), ownerEpoch := Max(old(Of(c)).ownerEpoch, oe)))
    {
      if c !in epoch || e > epoch[c] {
        epoch := epoch[c := e];
      }
      if c !in ownerEpoch || oe > ownerEpoch[c] {
        ownerEpoch := ownerEpoch[c := oe];
      }
    }

    /**
     * Judges a roster whose signature has been checked and applies what it is
     * entitled to; `retire` says our own chain must now be replaced.
     */
    method ApplyRoster(c: Cookie, r: Roster, self: Name) returns (retire: bool)
      modifies this
      ensures Became(c, Judged(old(Of(c)), r, self))
      ensures retire <==> Retires(old(Of(c)), r, self)
    {
      retire := false;
      var pinned := if c in owner then owner[c] else NOBODY;
      if pinned == NOBODY {
        return;
      }
      if r.owner != pinned {
        return;
      }
      var isMember := c in invited && r.author in invited[c];
      if r.author != pinned && r.author != self && !isMember {
        return;
      }
      if r.author != pinned {
        AddAll(c, r.members, self);
        return;
      }
      if c in ownerEpoch && r.epoch <= ownerEpoch[c] {
        return;
      }
      if c !in ownerEpoch && r.epoch == 0 {
        return;
      }
      var newlyRemoved: seq<Name> := [];
      for i := 0 to |r.removed|
        invariant Became(c, old(Of(c)))
        invariant newlyRemoved != [] <==> exists n :: n in r.removed[..i] && n !in Of(c).removed
      {
        assert r.removed[..i + 1] == r.removed[..i] + [r.removed[i]];
        var known := WasRemoved(c, r.removed[i]);
        if !known {
          newlyRemoved := newlyRemoved + [r.removed[i]];
        }
      }
      assert r.removed[..|r.removed|] == r.removed;
      Tombstone(c, r.removed, r.members);
      SetAll(c, r.members, self);
      AcceptOwnerEpoch(c, r.epoch);
      retire := |newlyRemoved| > 0;
    }
  }
}
