/**
 * Why each condition of `Removal.Prudent` is there: from every safe world a step that
 * breaks one can be followed by prudent steps that seal a message to somebody removed.
 */
module RemovalExactly {
  import opened Words
  import opened Ratchet
  import opened RoomChains
  import opened Members
  import opened RoomStore
  import opened Device
  import opened History
  import opened Removal
  import RosterLaws

  /** A send that needs no new chain. */
  const SENDS_ON := Send(SendEnv(None, Delivery({}, false, false, {}), true, Persisted, NoFault))

  /** A save that fails, for steps whose save does not matter. */
  const CREATES_UNSAVED := Create(Lost)
  const ROTATES_UNSAVED := Rekey({}, 0, Lost)

  /** A send that starts the chain `c`, reaching every member whose keys are `known`. */
  function Starts(c: ChainId, seed: Bytes32, known: set<Name>): Step {
    Send(SendEnv(Some(Chain(c, seed, 0)), Delivery(known, true, true, {}), true, Persisted, NoFault))
  }

  /** The run can happen, each step of it is prudent, and some seal in it is unsafe. */
  predicate Exposes(kdf: Kdf, self: Name, w: World, steps: seq<Step>) {
    AllPossible(kdf, self, w, steps) && AllPrudent(kdf, self, w, steps) && !AllSealSafely(kdf, self, w, steps)
  }

  /** From here on removal bites, whatever prudent steps follow. */
  ghost predicate AlwaysBites(kdf: Kdf, self: Name, w: World) {
    forall steps | AllPossible(kdf, self, w, steps) && AllPrudent(kdf, self, w, steps) :: AllSealSafely(kdf, self, w, steps)
  }

  lemma Then(kdf: Kdf, self: Name, w: World, step: Step, rest: seq<Step>)
    requires Possible(w, step) && Prudent(w, step, self) && Exposes(kdf, self, Next(kdf, self, w, step), rest)
    ensures Exposes(kdf, self, w, [step] + rest)
  {
    assert ([step] + rest)[1..] == rest;
  }

  lemma ExposedDoesNotBite(kdf: Kdf, self: Name, w: World, steps: seq<Step>)
    requires Exposes(kdf, self, w, steps)
    ensures !AlwaysBites(kdf, self, w)
  {
  }

  lemma SafeBites(kdf: Kdf, self: Name, w: World)
    requires LiveSafe(w.dev, w.given) && FileSafe(w.dev, w.given)
    ensures AlwaysBites(kdf, self, w)
  {
    forall steps | AllPossible(kdf, self, w, steps) && AllPrudent(kdf, self, w, steps) ensures AllSealSafely(kdf, self, w, steps) {
      RemovalBites(kdf, self, w, steps);
    }
  }

  // --- The last steps -----------------------------------------------------------------

  lemma SealsNow(kdf: Kdf, self: Name, d: Device)
    requires LiveSeals(d.chains)
    ensures var r := SendResult(kdf, d, SENDS_ON.env, self); r.Sealed? && r.id == d.chains.out.value.id
  {
    assert Distributing(d, SENDS_ON.env, self) == d;
    var r := Reserving(kdf, d, Persisted);
    assert r.chains.out == d.chains.out && r.chains.out.value.index < r.chains.reserved;
  }

  /** Somebody held removed has the chain in use: the next send exposes it to them. */
  lemma OneSendExposes(kdf: Kdf, self: Name, w: World, x: Name)
    requires LiveSeals(w.dev.chains) && x in w.dev.members.removed && x in GivenTo(w.given, w.dev.chains.out.value.id)
    ensures Exposes(kdf, self, w, [SENDS_ON])
  {
    SealsNow(kdf, self, w.dev);
    assert [SENDS_ON][1..] == [];
    assert !SealsSafely(kdf, self, w, SENDS_ON);
  }

  lemma RestartedFromFile(kdf: Kdf, self: Name, d: Device)
    requires d.disk.Some? && FileSeals(d.disk.value)
    ensures var r := Restarting(kdf, d, true, self);
      && LiveSeals(r.chains) && r.chains.out == d.disk.value.out && d.disk.value.removed <= r.members.removed
  {
  }

  /** The file names `x` removed and holds a chain that `x` has: a restart exposes it. */
  lemma RestartExposes(kdf: Kdf, self: Name, w: World, x: Name)
    requires w.dev.disk.Some? && FileSeals(w.dev.disk.value)
    requires x in w.dev.disk.value.removed && x in GivenTo(w.given, w.dev.disk.value.out.value.id)
    ensures Exposes(kdf, self, w, [Restart(true), SENDS_ON])
  {
    RestartedFromFile(kdf, self, w.dev);
    OneSendExposes(kdf, self, Next(kdf, self, w, Restart(true)), x);
    Then(kdf, self, w, Restart(true), [SENDS_ON]);
  }

  // --- A tombstone only the file remembers ----------------------------------------------

  /** A chain started and used once: live and on file, the file's tombstones still there. */
  lemma StartsAndSeals(kdf: Kdf, self: Name, d: Device, c: ChainId, seed: Bytes32, known: set<Name>)
    requires d.chains.encrypted && NeedsChain(d.chains)
    ensures var e := Sending(kdf, d, Starts(c, seed, known).env, self);
      && e.members == d.members
      && e.disk.Some? && FileSeals(e.disk.value) && e.disk.value.out.value.id == c
      && e.disk.value.removed == d.members.removed + Prev(d.disk).removed
    ensures Mints(d, Starts(c, seed, known).env) && Reached(d, Starts(c, seed, known).env.delivery, self) == (d.members.invited - {self}) * known
  {
    var env := Starts(c, seed, known).env;
    var m := Distributing(d, env, self);
    assert LiveSeals(m.chains) && m.chains.out == Some(Chain(c, seed, 0)) && m.chains.reserved == 0;
    var p := m.(chains := m.chains.(reserved := RESERVATION_BLOCK));
    assert Reserving(kdf, m, Persisted) == Persisting(kdf, p);
    SavedAtTheStart(kdf, p, c);
  }

  lemma SavedAtTheStart(kdf: Kdf, p: Device, c: ChainId)
    requires p.chains.out.Some? && p.chains.out.value.id == c && p.chains.out.value.index == 0
    requires p.chains.reserved == RESERVATION_BLOCK && p.chains.shared && !p.chains.stale
    ensures var e := Persisting(kdf, p).disk.value;
      FileSeals(e) && e.out.value.id == c && e.removed == p.members.removed + Prev(p.disk).removed
  {
  }

  /** An encrypted room whose chain must be replaced, from any world, without touching the file. */
  lemma Prepared(kdf: Kdf, self: Name, v: World)
    ensures var a := Next(kdf, self, v, CREATES_UNSAVED);
      var b := Next(kdf, self, a, ROTATES_UNSAVED);
      && b.dev.chains.encrypted && b.dev.chains.stale && b.dev.disk == v.dev.disk
      && b.dev.members.removed == v.dev.members.removed && b.dev.members.invited == v.dev.members.invited
      && b.minted == v.minted && b.given == v.given
  {
    var a := Next(kdf, self, v, CREATES_UNSAVED);
    assert a.dev.chains.encrypted && MayRekey(a.dev, {}, self);
  }

  lemma PreparedExposes(kdf: Kdf, self: Name, v: World, rest: seq<Step>)
    requires var b := Next(kdf, self, Next(kdf, self, v, CREATES_UNSAVED), ROTATES_UNSAVED); Exposes(kdf, self, b, rest)
    ensures Exposes(kdf, self, v, [CREATES_UNSAVED] + ([ROTATES_UNSAVED] + rest))
  {
    var a := Next(kdf, self, v, CREATES_UNSAVED);
    Then(kdf, self, a, ROTATES_UNSAVED, rest);
    Then(kdf, self, v, CREATES_UNSAVED, [ROTATES_UNSAVED] + rest);
  }

  predicate NewName(w: World, c: ChainId) {
    c !in w.minted && c !in w.given
  }

  function PassedOn(c: ChainId, seed: Bytes32, x: Name): seq<Step> {
    [CREATES_UNSAVED] + ([ROTATES_UNSAVED] + ([Starts(c, seed, {})] + ([PeerShares(c, x)] + [Restart(true), SENDS_ON])))
  }

  /**
   * The file holds `x` removed and the session does not: a chain started now may come to
   * `x`, and the next process, which holds `x` removed again, seals under it.
   */
  lemma ForgottenTombstoneExposes(kdf: Kdf, self: Name, v: World, c: ChainId, seed: Bytes32, x: Name)
    requires v.dev.disk.Some? && x in v.dev.disk.value.removed && x !in v.dev.members.removed && NewName(v, c)
    ensures Exposes(kdf, self, v, PassedOn(c, seed, x))
  {
    Prepared(kdf, self, v);
    var b := Next(kdf, self, Next(kdf, self, v, CREATES_UNSAVED), ROTATES_UNSAVED);
    var starts, shares := Starts(c, seed, {}), PeerShares(c, x);
    StartsAndSeals(kdf, self, b.dev, c, seed, {});
    var s := Next(kdf, self, b, starts);
    var p := Next(kdf, self, s, shares);
    assert p.dev == s.dev && x in GivenTo(p.given, c);
    RestartExposes(kdf, self, p, x);
    Then(kdf, self, s, shares, [Restart(true), SENDS_ON]);
    Then(kdf, self, b, starts, [shares] + [Restart(true), SENDS_ON]);
    PreparedExposes(kdf, self, v, [starts] + ([shares] + [Restart(true), SENDS_ON]));
  }

  function BroadcastTo(c: ChainId, seed: Bytes32, x: Name): seq<Step> {
    [CREATES_UNSAVED] + ([ROTATES_UNSAVED] + ([Starts(c, seed, {x})] + [Restart(true), SENDS_ON]))
  }

  /** For a member let back in it takes no other member: our own broadcast gives them the chain. */
  lemma ReadmittedMemberReadsOn(kdf: Kdf, self: Name, v: World, c: ChainId, seed: Bytes32, who: Name)
    requires v.dev.disk.Some? && who in v.dev.disk.value.removed && who in v.dev.members.invited && who != self && NewName(v, c)
    ensures Exposes(kdf, self, v, BroadcastTo(c, seed, who))
  {
    Prepared(kdf, self, v);
    var b := Next(kdf, self, Next(kdf, self, v, CREATES_UNSAVED), ROTATES_UNSAVED);
    var starts := Starts(c, seed, {who});
    StartsAndSeals(kdf, self, b.dev, c, seed, {who});
    var s := Next(kdf, self, b, starts);
    assert who in GivenTo(s.given, c);
    RestartExposes(kdf, self, s, who);
    Then(kdf, self, b, starts, [Restart(true), SENDS_ON]);
    PreparedExposes(kdf, self, v, [starts] + [Restart(true), SENDS_ON]);
  }

  // --- A chain only the file remembers ----------------------------------------------------

  function RemovedBlind(id: ChainId, x: Name): seq<Step> {
    [CREATES_UNSAVED] + ([PeerShares(id, x)] + ([Rekey({x}, 0, Written)] + [Restart(true), SENDS_ON]))
  }

  /** A removal saved by a process without a chain leaves the file's chain in use, unmarked. */
  lemma RemovingBlind(kdf: Kdf, self: Name, d: Device, x: Name)
    requires d.chains.encrypted && d.chains.out.None? && d.members.owner == self != NOBODY
    requires d.disk.Some? && FileSeals(d.disk.value)
    ensures var e := Rekeying(kdf, d, {x}, 0, Written, self);
      && e.disk.Some? && FileSeals(e.disk.value) && e.disk.value.out == d.disk.value.out && x in e.disk.value.removed
  {
  }

  lemma UnreadChainExposes(kdf: Kdf, self: Name, v: World, x: Name)
    requires self != NOBODY && v.dev.chains == BLANK && v.dev.members == UNKNOWN
    requires v.dev.disk.Some? && FileSeals(v.dev.disk.value)
    ensures Exposes(kdf, self, v, RemovedBlind(v.dev.disk.value.out.value.id, x))
  {
    var id := v.dev.disk.value.out.value.id;
    var a := Next(kdf, self, v, CREATES_UNSAVED);
    assert a.dev.chains.encrypted && a.dev.chains.out.None? && a.dev.members.owner == self && a.dev.members.removed == {};
    var p := Next(kdf, self, a, PeerShares(id, x));
    RemovingBlind(kdf, self, p.dev, x);
    var r := Next(kdf, self, p, Rekey({x}, 0, Written));
    RestartExposes(kdf, self, r, x);
    Then(kdf, self, p, Rekey({x}, 0, Written), [Restart(true), SENDS_ON]);
    Then(kdf, self, a, PeerShares(id, x), [Rekey({x}, 0, Written)] + [Restart(true), SENDS_ON]);
    Then(kdf, self, v, CREATES_UNSAVED, [PeerShares(id, x)] + ([Rekey({x}, 0, Written)] + [Restart(true), SENDS_ON]));
  }

  // --- Each condition is exact ------------------------------------------------------------

  lemma {:induction false} LongerThanAll(ids: set<ChainId>) returns (n: nat)
    ensures forall id | id in ids :: |id| < n
    decreases |ids|
  {
    if ids == {} {
      n := 0;
    } else {
      var id :| id in ids;
      var m := LongerThanAll(ids - {id});
      n := if m <= |id| then |id| + 1 else m;
      forall o | o in ids ensures |o| < n {
        assert o == id || o in ids - {id};
      }
    }
  }

  lemma SomeNewName(w: World) returns (c: ChainId)
    ensures NewName(w, c)
  {
    var n := LongerThanAll(w.minted.Keys + w.given.Keys);
    c := seq(n, i => 0);
    assert |c| == n;
  }

  lemma ImprudentReadmission(kdf: Kdf, self: Name, w: World, step: Step) returns (x: Name)
    requires FileSafe(w.dev, w.given) && !ReadsFile(step) && !Prudent(w, step, self)
    ensures var v := Next(kdf, self, w, step);
      v.dev.disk.Some? && x in v.dev.disk.value.removed && x !in v.dev.members.removed
  {
    x :| x in Readmits(w, step, self) && x in FileRemoved(w.dev);
    FileKeepsTombstones(kdf, self, w, step);
    LiftsTombstone(kdf, self, w, step, x);
  }

  /** Nothing a device does takes a tombstone out of its file. */
  predicate FileGrows(d: Device, e: Device) {
    d.disk.Some? ==> e.disk.Some? && d.disk.value.removed <= e.disk.value.removed
  }

  lemma SavingGrows(kdf: Kdf, d: Device, fate: SaveFate)
    ensures FileGrows(d, Saving(kdf, d, fate))
  {
  }

  lemma InvitingGrows(kdf: Kdf, self: Name, d: Device, who: Name, env: InviteEnv)
    ensures FileGrows(d, Inviting(kdf, d, who, env, self))
  {
    if Invites(d, who, self) {
      SavingGrows(kdf, d.(members := Admitted(d.members, who)), env.before);
      var a := Admitting(kdf, d, who, env);
      var s := a.(members := Signed(a.members, self, env.first));
      SavingGrows(kdf, s.(members := Withdrawn(s.members, who, who in d.members.removed)), env.after);
    }
  }

  lemma FileKeepsTombstones(kdf: Kdf, self: Name, w: World, step: Step)
    requires (step.Receive? || step.Invite?) && w.dev.disk.Some?
    ensures var v := Next(kdf, self, w, step); v.dev.disk.Some? && w.dev.disk.value.removed <= v.dev.disk.value.removed
  {
    match step
    case Receive(r, save) =>
      SavingGrows(kdf, w.dev.(members := Judged(w.dev.members, r, self),
        chains := if Retires(w.dev.members, r, self) then w.dev.chains.(stale := true) else w.dev.chains), save);
    case Invite(who, env) => InvitingGrows(kdf, self, w.dev, who, env);
  }

  lemma LiftsTombstone(kdf: Kdf, self: Name, w: World, step: Step, x: Name)
    requires x in Readmits(w, step, self)
    ensures x !in Next(kdf, self, w, step).dev.members.removed
  {
  }

  lemma ImprudentRestart(kdf: Kdf, self: Name, w: World)
    requires self != NOBODY && !ForgetsNothing(w.dev)
    ensures !AlwaysBites(kdf, self, Next(kdf, self, w, Restart(false)))
  {
    var v := Next(kdf, self, w, Restart(false));
    if x :| x in w.dev.disk.value.removed {
      var c := SomeNewName(v);
      ForgottenTombstoneExposes(kdf, self, v, c, seq(32, i => 0), x);
      ExposedDoesNotBite(kdf, self, v, PassedOn(c, seq(32, i => 0), x));
    } else {
      var x := self + self;   // anybody else
      UnreadChainExposes(kdf, self, v, x);
      ExposedDoesNotBite(kdf, self, v, RemovedBlind(v.dev.disk.value.out.value.id, x));
    }
  }

  /**
   * The conditions on restarting and on readmitting are exact: from any safe world, after
   * any possible step but a restore in mid-session, removal bites over every prudent
   * continuation if and only if the step was prudent.
   */
  lemma PrudenceIsExact(kdf: Kdf, self: Name, w: World, step: Step)
    requires self != NOBODY && LiveSafe(w.dev, w.given) && FileSafe(w.dev, w.given) && Possible(w, step) && !step.Import?
    ensures Prudent(w, step, self) <==> AlwaysBites(kdf, self, Next(kdf, self, w, step))
  {
    var v := Next(kdf, self, w, step);
    if Prudent(w, step, self) {
      if step.Restart? {
        RestartIsSafe(kdf, self, w, step.readable);
      } else {
        StepIsSafe(kdf, self, w, step);
      }
      SafeBites(kdf, self, v);
    } else if step.Restart? {
      ImprudentRestart(kdf, self, w);
    } else {
      var x := ImprudentReadmission(kdf, self, w, step);
      var c := SomeNewName(v);
      ForgottenTombstoneExposes(kdf, self, v, c, seq(32, i => 0), x);
      ExposedDoesNotBite(kdf, self, v, PassedOn(c, seq(32, i => 0), x));
    }
  }

  /** Where the condition on a restore fails, somebody may hold the chain it brings back. */
  lemma ImprudentImport(kdf: Kdf, self: Name, w: World, t: Option<TransferRoom>) returns (given: map<ChainId, set<Name>>)
    requires LiveSafe(w.dev, map[]) && FileSafe(w.dev, map[]) && !RevivesNothing(w.dev)
    ensures LiveSafe(w.dev, given) && FileSafe(w.dev, given)
    ensures Exposes(kdf, self, Next(kdf, self, w.(given := given), Import(t, true)), [SENDS_ON])
  {
    var e := w.dev.disk.value;
    var x :| x in w.dev.members.removed && x !in e.removed;
    given := map[e.out.value.id := {x}];
    var v := Next(kdf, self, w.(given := given), Import(t, true));
    assert v.dev.chains.out == e.out && LiveSeals(v.dev.chains);
    OneSendExposes(kdf, self, v, x);
  }

  /**
   * The condition on a restore is the weakest a device can check: it holds if and only if
   * removal goes on biting whoever was given what, as long as the state before was safe.
   */
  lemma ImportConditionIsExact(kdf: Kdf, self: Name, w: World, t: Option<TransferRoom>)
    requires LiveSafe(w.dev, map[]) && FileSafe(w.dev, map[])
    ensures RevivesNothing(w.dev) <==>
      forall given | LiveSafe(w.dev, given) && FileSafe(w.dev, given) ::
        AlwaysBites(kdf, self, Next(kdf, self, w.(given := given), Import(t, true)))
  {
    if RevivesNothing(w.dev) {
      forall given | LiveSafe(w.dev, given) && FileSafe(w.dev, given)
        ensures AlwaysBites(kdf, self, Next(kdf, self, w.(given := given), Import(t, true)))
      {
        ImportIsSafe(kdf, self, w.(given := given), t, true);
        SafeBites(kdf, self, Next(kdf, self, w.(given := given), Import(t, true)));
      }
    } else {
      var given := ImprudentImport(kdf, self, w, t);
      ExposedDoesNotBite(kdf, self, Next(kdf, self, w.(given := given), Import(t, true)), [SENDS_ON]);
    }
  }
}
