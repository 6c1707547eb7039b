/** A room joined by invitation: when it starts out as the theorems about runs need it. */
module Joining {
  import opened Words
  import opened Ratchet
  import opened RoomChains
  import opened Members
  import opened RoomStore
  import opened Device
  import opened History
  import opened Positions
  import opened Removal
  import opened RemovalExactly
  import ChainLaws
  import RosterLaws

  /** The tombstones an invitation lays. */
  function Laid(roster: Option<Roster>): set<Name> {
    if OwnersWord(roster) then Names(roster.value.removed) - Names(roster.value.members) else {}
  }

  /** Whose tombstone it lifts, if they have one. */
  function Lifted(roster: Option<Roster>): set<Name> {
    if OwnersWord(roster) then Names(roster.value.members) else {}
  }

  /** It comes from nobody held removed once it is taken in, and removes nobody held a member. */
  predicate Welcomes(m: Membership, from: Name, roster: Option<Roster>) {
    && from !in m.removed - Lifted(roster) + Laid(roster)
    && m.invited !! Laid(roster)
  }

  lemma AdoptedRemoved(m: Membership, from: Name, roster: Option<Roster>, self: Name)
    ensures Adopted(m, from, roster, self).removed == m.removed - Lifted(roster) + Laid(roster)
  {
  }

  /** Joining keeps members and tombstones apart exactly for a welcome invitation. */
  lemma AdoptedDisjointExactly(m: Membership, from: Name, roster: Option<Roster>, self: Name)
    requires RosterLaws.Disjoint(m)
    ensures RosterLaws.Disjoint(Adopted(m, from, roster, self)) <==> Welcomes(m, from, roster)
  {
    var a := Adopted(m, from, roster, self);
    AdoptedRemoved(m, from, roster, self);
    assert from in a.invited && m.invited <= a.invited;
  }

  /** In a room we know nothing of, it is not welcome exactly where the owner's word removes its own sender. */
  lemma WelcomesANewcomerExactly(from: Name, roster: Option<Roster>)
    ensures Welcomes(UNKNOWN, from, roster) <==>
      !(OwnersWord(roster) && from in roster.value.removed && from !in roster.value.members)
  {
  }

  /**
   * What joining makes of a membership: the sender is a member whatever else is known; the
   * first owner named stays the owner; the members named come in, unless it is ourselves
   * or somebody held removed; and only the owner's word moves an epoch.
   */
  lemma AdoptedMembership(m: Membership, from: Name, roster: Option<Roster>, self: Name)
    ensures var a := Adopted(m, from, roster, self);
      && (roster.None? ==> a == m.(invited := m.invited + {from}))
      && (roster.Some? ==>
          var r := roster.value;
          && (forall n :: n in a.invited <==>
                n in m.invited || n == from || (n in r.members && n != self && n !in a.removed))
          && a.owner == (if m.owner == NOBODY then r.owner else m.owner)
          && (OwnersWord(roster) ==> a.ownerEpoch == Max(m.ownerEpoch, r.epoch) && a.epoch == Max(m.epoch, r.epoch))
          && (!OwnersWord(roster) ==> a.ownerEpoch == m.ownerEpoch && a.epoch == m.epoch && a.removed == m.removed))
  {
  }

  /** So the owner's word that came with an invitation cannot be rolled back: no roster at or below it changes anything later. */
  lemma AdoptedWordIsNotRolledBack(
    m: Membership, from: Name, roster: Option<Roster>, self: Name, events: seq<RosterLaws.Event>, replayed: Roster)
    requires OwnersWord(roster) && replayed.author == replayed.owner && replayed.epoch <= roster.value.epoch
    ensures var n := RosterLaws.Run(Adopted(m, from, roster, self), events, self); Judged(n, replayed, self) == n
  {
    AdoptedMembership(m, from, roster, self);
    RosterLaws.EpochsNeverFallInARun(Adopted(m, from, roster, self), events, self);
  }

  lemma {:induction false} LearningKeepsOurChain(kdf: Kdf, s: RoomState, views: seq<ChainView>)
    ensures var t := LearnedAll(kdf, s, views);
      t == s.(encrypted := t.encrypted, views := t.views) && (s.encrypted ==> t.encrypted)
    decreases |views|
  {
    if views != [] {
      LearningKeepsOurChain(kdf, s, views[..|views| - 1]);
    }
  }

  // --- What a newcomer can read ------------------------------------------------------------

  /** No chain stands twice in the list. */
  predicate OneEach(views: seq<ChainView>) {
    forall i, j | 0 <= i < j < |views| :: views[i].id != views[j].id
  }

  lemma {:induction false} LearnsEach(kdf: Kdf, s: RoomState, views: seq<ChainView>)
    requires OneEach(views) && forall v | v in views :: v.id !in s.views
    ensures var t := LearnedAll(kdf, s, views);
      && (forall v | v in views :: Held(t.views, v.id) == Some(v))
      && (forall id :: id in t.views <==> id in s.views || exists v :: v in views && v.id == id)
    decreases |views|
  {
    if views != [] {
      var init, last := views[..|views| - 1], views[|views| - 1];
      LearnsEach(kdf, s, init);
      assert views == init + [last];
      assert last.id !in LearnedAll(kdf, s, init).views;
    }
  }

  lemma DrawnOnce(bundle: seq<ChainView>, all: map<ChainId, ChainView>)
    requires Draws(bundle, all) && ChainLaws.WellNamed(all)
    ensures OneEach(bundle)
  {
    var ids := set v | v in bundle :: v.id;
    forall id ensures id in ids <==> id in all {
      if id in all {
        assert all[id] in bundle;
      }
    }
    assert ids == all.Keys && |all| == |all.Keys|;
    DistinctIds(bundle);
  }

  lemma {:induction false} DistinctIds(bundle: seq<ChainView>)
    requires |set v | v in bundle :: v.id| == |bundle|
    ensures OneEach(bundle)
    decreases |bundle|
  {
    if bundle != [] {
      var init, last := bundle[..|bundle| - 1], bundle[|bundle| - 1];
      var a, b := set v | v in init :: v.id, set v | v in bundle :: v.id;
      assert bundle == init + [last];
      assert b == a + {last.id};
      AtMostOneEach(init);
      assert |a| == |init| && last.id !in a;
      DistinctIds(init);
      forall i, j | 0 <= i < j < |bundle| ensures bundle[i].id != bundle[j].id {
        if j == |init| {
          assert init[i] in init && init[i].id in a;
        } else {
          assert init[i].id != init[j].id;
        }
      }
    }
  }

  lemma {:induction false} AtMostOneEach(views: seq<ChainView>)
    ensures |set v | v in views :: v.id| <= |views|
    decreases |views|
  {
    if views != [] {
      var init, last := views[..|views| - 1], views[|views| - 1];
      AtMostOneEach(init);
      assert views == init + [last];
      assert (set v | v in views :: v.id) == (set v | v in init :: v.id) + {last.id};
    }
  }

  /** What is sealed on one chain opens, or does not, at both alike from the inviter's "now" on. */
  ghost predicate ReadsFromNow(kdf: Kdf, inviter: RoomState, newcomer: RoomState, id: ChainId) {
    && id in inviter.views && id in inviter.seen && id in newcomer.views
    && kdf.Agree(inviter.views[id], newcomer.views[id], newcomer.views[id].index)
    && newcomer.views[id].index == Max(inviter.views[id].index, Now(inviter.seen, id))
  }

  /**
   * From invitation to reading: a device that joins by the bundle an inviter drew holds
   * exactly the chains of that bundle, each from the inviter's own "now": nothing they had
   * seen before it opens, and every key from there on is theirs.
   */
  lemma NewcomersReadFromNow(kdf: Kdf, inviter: RoomState, bundle: seq<ChainView>, inv: Invitation, self: Name, id: ChainId)
    requires ChainLaws.WellNamed(inviter.views) && Draws(bundle, Bundle(kdf, inviter.views, inviter.seen))
    requires inv.chains == bundle
    ensures var t := Adopting(kdf, Device(BLANK, UNKNOWN, None), inv, self).chains;
      && t.encrypted
      && (id in t.views <==> id in Bundle(kdf, inviter.views, inviter.seen))
      && (id in t.views ==> ReadsFromNow(kdf, inviter, t, id))
      && (id in t.views ==> forall i: u32 | i <= inviter.seen[id] :: kdf.MessageKey(t.views[id], i).Rewind?)
  {
    var all := Bundle(kdf, inviter.views, inviter.seen);
    assert ChainLaws.WellNamed(all);
    DrawnOnce(bundle, all);
    LearnsEach(kdf, BLANK.(encrypted := true), bundle);
    LearningKeepsOurChain(kdf, BLANK.(encrypted := true), bundle);
    var t := LearnedAll(kdf, BLANK.(encrypted := true), bundle);
    assert id in t.views <==> id in all by {
      if id in all {
        assert all[id] in bundle && all[id].id == id;
      }
    }
    if id in all {
      assert all[id] in bundle;
      assert t.views[id] == all[id];
      ChainLaws.BundleStartsNow(kdf, inviter.views, inviter.seen, id);
    }
  }

  /**
   * Over a room already held, from any safe state: joining leaves a safe one exactly for a
   * welcome invitation that lays no tombstone on a reader of the chain in use (joining does
   * not replace it) and lifts none that the file keeps.
   */
  lemma AdoptingIsSafeExactly(kdf: Kdf, d: Device, inv: Invitation, self: Name, given: map<ChainId, set<Name>>)
    requires LiveSafe(d, given) && FileSafe(d, given)
    ensures var e := Adopting(kdf, d, inv, self);
      LiveSafe(e, given) && FileSafe(e, given) <==>
        && Welcomes(d.members, inv.from, inv.roster)
        && (LiveSeals(d.chains) ==> GivenTo(given, d.chains.out.value.id) !! Laid(inv.roster))
        && FileRemoved(d) !! Lifted(inv.roster)
  {
    LearningKeepsOurChain(kdf, d.chains.(encrypted := true), inv.chains);
    AdoptedRemoved(d.members, inv.from, inv.roster, self);
    AdoptedDisjointExactly(d.members, inv.from, inv.roster, self);
  }

  // --- A first join -----------------------------------------------------------------------

  /** A new room, joined: whatever others were given elsewhere, we have sealed nothing in it. */
  function Joined(kdf: Kdf, inv: Invitation, save: SaveFate, self: Name, given: map<ChainId, set<Name>>): World {
    World(Joining(kdf, Device(BLANK, UNKNOWN, None), inv, save, self), map[], [], given, {})
  }

  lemma JoinedUnspoken(kdf: Kdf, inv: Invitation, save: SaveFate, self: Name, given: map<ChainId, set<Name>>)
    ensures var w := Joined(kdf, inv, save, self, given);
      && Unspoken(w)
      && w.dev.chains.encrypted && NeedsChain(w.dev.chains)
      && w.dev.members == Adopted(UNKNOWN, inv.from, inv.roster, self)
  {
    LearningKeepsOurChain(kdf, BLANK.(encrypted := true), inv.chains);
  }

  lemma JoinedSafe(kdf: Kdf, inv: Invitation, save: SaveFate, self: Name, given: map<ChainId, set<Name>>)
    requires Welcomes(UNKNOWN, inv.from, inv.roster)
    ensures var w := Joined(kdf, inv, save, self, given); LiveSafe(w.dev, w.given) && FileSafe(w.dev, w.given)
  {
    var d := Device(BLANK, UNKNOWN, None);
    AdoptingIsSafeExactly(kdf, d, inv, self, given);
    SaveIsSafe(kdf, Adopting(kdf, d, inv, self), save, given);
  }

  /** Our first broadcast goes to the inviter, whom we hold removed. */
  lemma UnwelcomeExposes(kdf: Kdf, inv: Invitation, save: SaveFate, self: Name, given: map<ChainId, set<Name>>, c: ChainId, seed: Bytes32)
    requires !Welcomes(UNKNOWN, inv.from, inv.roster) && inv.from != self && c !in given
    ensures Exposes(kdf, self, Joined(kdf, inv, save, self, given), [Starts(c, seed, {inv.from})] + [Restart(true), SENDS_ON])
  {
    var w := Joined(kdf, inv, save, self, given);
    var starts := Starts(c, seed, {inv.from});
    JoinedUnspoken(kdf, inv, save, self, given);
    AdoptedRemoved(UNKNOWN, inv.from, inv.roster, self);
    assert inv.from in w.dev.members.removed && inv.from in w.dev.members.invited;
    StartsAndSeals(kdf, self, w.dev, c, seed, {inv.from});
    var s := Next(kdf, self, w, starts);
    assert inv.from in GivenTo(s.given, c);
    RestartExposes(kdf, self, s, inv.from);
    Then(kdf, self, w, starts, [Restart(true), SENDS_ON]);
  }

  /**
   * A room joined by invitation is one the theorems about runs start from: nothing has
   * been said in it, and removal bites over every prudent run exactly where the
   * invitation does not name its own sender removed.
   */
  lemma JoiningIsExact(kdf: Kdf, inv: Invitation, save: SaveFate, self: Name, given: map<ChainId, set<Name>>)
    requires inv.from != self
    ensures Unspoken(Joined(kdf, inv, save, self, given))
    ensures AlwaysBites(kdf, self, Joined(kdf, inv, save, self, given)) <==>
      !(OwnersWord(inv.roster) && inv.from in inv.roster.value.removed && inv.from !in inv.roster.value.members)
  {
    var w := Joined(kdf, inv, save, self, given);
    JoinedUnspoken(kdf, inv, save, self, given);
    WelcomesANewcomerExactly(inv.from, inv.roster);
    if Welcomes(UNKNOWN, inv.from, inv.roster) {
      JoinedSafe(kdf, inv, save, self, given);
      SafeBites(kdf, self, w);
    } else {
      var c := SomeNewName(w);
      var seed := seq(32, i => 0);
      UnwelcomeExposes(kdf, inv, save, self, given, c, seed);
      ExposedDoesNotBite(kdf, self, w, [Starts(c, seed, {inv.from})] + [Restart(true), SENDS_ON]);
    }
  }
}
