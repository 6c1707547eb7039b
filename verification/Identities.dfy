/**
 * Setting up an account's identity and replacing its recovery key: what is held in
 * memory, what is uploaded, and when the user is asked to keep a key first.
 */
module Identities {
  import opened Words

  type Identity = Bytes32
  type RecoveryKey = string

  /** What the directory stores: an identity wrapped under a recovery key, which is the only one that opens it. */
  datatype Backup = Backup(identity: Identity, key: RecoveryKey)

  datatype Pending = Pending(identity: Identity, key: RecoveryKey, stored: bool)
  datatype Rotation = Rotation(identity: Identity, key: RecoveryKey)

  datatype Flow = Flow(pending: Option<Pending>, rotation: Option<Rotation>, backup: Option<Backup>)

  const UNTOUCHED := Flow(None, None, None)

  function Open(b: Backup, key: RecoveryKey): Option<Identity> {
    if key == b.key then Some(b.identity) else None
  }

  /** An upload as it really went, and what we heard of it: nothing, or yes or no. */
  datatype PutFate = PutFate(applied: bool, reply: Option<bool>)

  /** `present` is the directory's answer to whether a backup exists; none if it could not be reached. */
  datatype SetupEnv = SetupEnv(hasKey: bool, directory: bool, present: Option<bool>, identity: Identity, key: RecoveryKey)

  datatype RotationEnv = RotationEnv(hasKey: bool, directory: bool, reachable: bool, current: Option<RecoveryKey>, key: RecoveryKey)

  function Uploaded(f: Flow, identity: Identity, key: RecoveryKey, put: PutFate): Flow {
    if put.applied then f.(backup := Some(Backup(identity, key))) else f
  }

  // --- Each call: what it shows or reports, and the state it leaves ----------------------

  function ShownAtSetup(f: Flow, env: SetupEnv): Option<RecoveryKey> {
    if !env.hasKey || !env.directory || env.present != Some(false) then None
    else if f.pending.Some? then Some(f.pending.value.key)
    else Some(env.key)
  }

  function BeganSetup(f: Flow, env: SetupEnv): Flow {
    if ShownAtSetup(f, env).Some? && f.pending.None?
    then f.(pending := Some(Pending(env.identity, env.key, false))) else f
  }

  function AfterUpload(f: Flow, put: PutFate): Flow
    requires f.pending.Some?
  {
    var p := f.pending.value;
    if p.stored then f
    else
      var u := Uploaded(f, p.identity, p.key, put);
      if put.reply == Some(true) then u.(pending := Some(p.(stored := true))) else u
  }

  predicate SetupSucceeds(f: Flow, put: PutFate, published: bool) {
    f.pending.Some? && (f.pending.value.stored || put.reply == Some(true)) && published
  }

  function ConfirmedSetup(f: Flow, put: PutFate, published: bool): Flow {
    if f.pending.None? then f
    else if SetupSucceeds(f, put, published) then AfterUpload(f, put).(pending := None)
    else AfterUpload(f, put)
  }

  function Opened(f: Flow, env: RotationEnv): Option<Identity> {
    if !env.reachable || f.backup.None? || env.current.None? then None else Open(f.backup.value, env.current.value)
  }

  function ShownAtRotation(f: Flow, env: RotationEnv): Option<RecoveryKey> {
    if !env.hasKey || !env.directory || f.pending.Some? then None
    else if f.rotation.Some? then Some(f.rotation.value.key)
    else if Opened(f, env).Some? then Some(env.key)
    else None
  }

  function BeganRotation(f: Flow, env: RotationEnv): Flow {
    if ShownAtRotation(f, env).Some? && f.rotation.None?
    then f.(rotation := Some(Rotation(Opened(f, env).value, env.key))) else f
  }

  predicate RotationSucceeds(f: Flow, put: PutFate) {
    f.rotation.Some? && put.reply == Some(true)
  }

  function ConfirmedRotation(f: Flow, put: PutFate): Flow {
    if f.rotation.None? then f
    else
      var u := Uploaded(f, f.rotation.value.identity, f.rotation.value.key, put);
      if RotationSucceeds(f, put) then u.(rotation := None) else u
  }

  class IdentityFlow {
    var pending: Option<Pending>
    var rotation: Option<Rotation>
    var backup: Option<Backup>   // the directory's, not ours

    ghost function State(): Flow
      reads this
    {
      Flow(pending, rotation, backup)
    }

    constructor ()
      ensures State() == UNTOUCHED
    {
      pending, rotation, backup := None, None, None;
    }

    method PutIdentityBackup(identity: Identity, key: RecoveryKey, put: PutFate) returns (stored: bool, ok: bool)
      modifies this
      ensures State() == Uploaded(old(State()), identity, key, put)
      ensures ok == put.reply.Some? && stored == (put.reply == Some(true))
    {
      if put.applied {
        backup := Some(Backup(identity, key));
      }
      ok, stored := put.reply.Some?, put.reply == Some(true);
    }

    method BeginIdentitySetup(env: SetupEnv) returns (shown: Option<RecoveryKey>)
      modifies this
      ensures shown == ShownAtSetup(old(State()), env) && State() == BeganSetup(old(State()), env)
    {
      if !env.hasKey {
        return None;
      }
      if !env.directory {
        return None;
      }
      if env.present.None? {
        return None;
      }
      if env.present.value {
        return None;
      }
      if pending.Some? {
        return Some(pending.value.key);
      }
      pending := Some(Pending(env.identity, env.key, false));
      shown := Some(env.key);
    }

    method ConfirmIdentitySetup(put: PutFate, published: bool) returns (done: bool)
      modifies this
      ensures done <==> SetupSucceeds(old(State()), put, published)
      ensures State() == ConfirmedSetup(old(State()), put, published)
    {
      if pending.None? {
        return false;
      }
      var p := pending.value;
      if !p.stored {
        var stored, ok := PutIdentityBackup(p.identity, p.key, put);
        if !ok {
          return false;
        }
        if !stored {
          return false;
        }
        pending := Some(p.(stored := true));
      }
      if !published {
        return false;
      }
      pending := None;
      done := true;
    }

    method CancelIdentitySetup()
      modifies this
      ensures State() == old(State()).(pending := None)
    {
      pending := None;
    }

    method BeginRecoveryKeyRotation(env: RotationEnv) returns (shown: Option<RecoveryKey>)
      modifies this
      ensures shown == ShownAtRotation(old(State()), env) && State() == BeganRotation(old(State()), env)
    {
      if !env.hasKey {
        return None;
      }
      if !env.directory {
        return None;
      }
      if pending.Some? {
        return None;
      }
      if rotation.Some? {
        return Some(rotation.value.key);
      }
      if env.current.None? {
        return None;
      }
      if !env.reachable || backup.None? {
        return None;
      }
      var identity := Open(backup.value, env.current.value);
      if identity.None? {
        return None;
      }
      rotation := Some(Rotation(identity.value, env.key));
      shown := Some(env.key);
    }

    method ConfirmRecoveryKeyRotation(put: PutFate) returns (done: bool)
      modifies this
      ensures done <==> RotationSucceeds(old(State()), put)
      ensures State() == ConfirmedRotation(old(State()), put)
    {
      if rotation.None? {
        return false;
      }
      var stored, ok := PutIdentityBackup(rotation.value.identity, rotation.value.key, put);
      if !ok {
        return false;
      }
      if !stored {
        return false;
      }
      rotation := None;
      done := true;
    }

    method CancelRecoveryKeyRotation()
      modifies this
      ensures State() == old(State()).(rotation := None)
    {
      rotation := None;
    }
  }

  // --- Runs -----------------------------------------------------------------------------

  datatype Step =
    | BeginSetup(setup: SetupEnv)
    | ConfirmSetup(put: PutFate, published: bool)
    | CancelSetup
    | BeginRotation(rotation: RotationEnv)
    | ConfirmRotation(put: PutFate)
    | CancelRotation
    | Acknowledge(key: RecoveryKey)   // the user copied it, or saved it to a file
    | Crash

  /** The flow, and the keys the user has ever kept. */
  datatype World = World(flow: Flow, kept: set<RecoveryKey>)

  function Next(w: World, s: Step): World {
    match s
    case BeginSetup(env) => w.(flow := BeganSetup(w.flow, env))
    case ConfirmSetup(put, published) => w.(flow := ConfirmedSetup(w.flow, put, published))
    case CancelSetup => w.(flow := w.flow.(pending := None))
    case BeginRotation(env) => w.(flow := BeganRotation(w.flow, env))
    case ConfirmRotation(put) => w.(flow := ConfirmedRotation(w.flow, put))
    case CancelRotation => w.(flow := w.flow.(rotation := None))
    case Acknowledge(key) => w.(kept := w.kept + {key})
    case Crash => w.(flow := Flow(None, None, w.flow.backup))
  }

  /** The directory does not deny a stored backup to a setup that would mint another identity over it. */
  predicate Truthful(w: World, s: Step) {
    s.BeginSetup? && w.flow.backup.Some? && w.flow.pending.None? ==> ShownAtSetup(w.flow, s.setup).None?
  }

  /** The screen lets the user go on only with the key it shows in their keeping. */
  predicate Gated(w: World, s: Step) {
    && (s.ConfirmSetup? && w.flow.pending.Some? ==> w.flow.pending.value.key in w.kept)
    && (s.ConfirmRotation? && w.flow.rotation.Some? ==> w.flow.rotation.value.key in w.kept)
  }

  function Exec(w: World, steps: seq<Step>): World
    decreases |steps|
  {
    if steps == [] then w else Exec(Next(w, steps[0]), steps[1..])
  }

  predicate AllGated(w: World, steps: seq<Step>)
    decreases |steps|
  {
    steps == [] || (Gated(w, steps[0]) && AllGated(Next(w, steps[0]), steps[1..]))
  }

  predicate AllTruthful(w: World, steps: seq<Step>)
    decreases |steps|
  {
    steps == [] || (Truthful(w, steps[0]) && AllTruthful(Next(w, steps[0]), steps[1..]))
  }

  // --- Nothing is ever lost --------------------------------------------------------------

  /** A stored backup opens under a key the user kept. */
  predicate Recoverable(w: World) {
    w.flow.backup.Some? ==> exists k :: k in w.kept && Open(w.flow.backup.value, k).Some?
  }

  /** What is held in memory is of the identity that is stored, if one is. */
  predicate Coherent(f: Flow) {
    && (f.backup.Some? && f.pending.Some? ==> f.backup == Some(Backup(f.pending.value.identity, f.pending.value.key)))
    && (f.rotation.Some? ==>
        (f.backup.Some? && f.rotation.value.identity == f.backup.value.identity && f.pending.None?))
  }

  lemma StepStaysRecoverable(w: World, s: Step)
    requires Recoverable(w) && Gated(w, s)
    ensures Recoverable(Next(w, s))
  {
    var v := Next(w, s);
    if v.flow.backup == w.flow.backup {
      if w.flow.backup.Some? {
        var k :| k in w.kept && Open(w.flow.backup.value, k).Some?;
        assert k in v.kept;
      }
    } else {
      var k := v.flow.backup.value.key;
      assert k in v.kept && Open(v.flow.backup.value, k).Some?;
    }
  }

  /** Whatever an upload's fate and whatever we hear of it, the account stays recoverable. */
  lemma {:induction false} AlwaysRecoverable(w: World, steps: seq<Step>)
    requires Recoverable(w) && AllGated(w, steps)
    ensures Recoverable(Exec(w, steps))
    decreases |steps|
  {
    if steps != [] {
      StepStaysRecoverable(w, steps[0]);
      AlwaysRecoverable(Next(w, steps[0]), steps[1..]);
    }
  }

  lemma StepKeepsTheIdentity(w: World, s: Step)
    requires Coherent(w.flow) && Truthful(w, s)
    ensures Coherent(Next(w, s).flow)
    ensures w.flow.backup.Some? ==>
      Next(w, s).flow.backup.Some? && Next(w, s).flow.backup.value.identity == w.flow.backup.value.identity
  {
  }

  /** Once an identity is stored, it is that identity for good: no retry, cancel, crash or rotation replaces it. */
  lemma {:induction false} TheIdentityNeverChanges(w: World, steps: seq<Step>)
    requires Coherent(w.flow) && AllTruthful(w, steps)
    ensures Coherent(Exec(w, steps).flow)
    ensures w.flow.backup.Some? ==>
      Exec(w, steps).flow.backup.Some? && Exec(w, steps).flow.backup.value.identity == w.flow.backup.value.identity
    decreases |steps|
  {
    if steps != [] {
      StepKeepsTheIdentity(w, steps[0]);
      TheIdentityNeverChanges(Next(w, steps[0]), steps[1..]);
    }
  }

  /** Whatever truthful and gated steps follow, the stored identity stays. */
  ghost predicate StaysForGood(w: World, identity: Identity) {
    forall steps | AllGated(w, steps) && AllTruthful(w, steps) ::
      Exec(w, steps).flow.backup.Some? && Exec(w, steps).flow.backup.value.identity == identity
  }

  lemma DeniedOnce(w: World, s: Step)
    requires w.flow.backup.Some? && !Truthful(w, s) && s.setup.identity != w.flow.backup.value.identity
    ensures !StaysForGood(Next(w, s), w.flow.backup.value.identity)
  {
    var v := Next(w, s);
    var keeps, confirms := Acknowledge(s.setup.key), ConfirmSetup(PutFate(true, Some(true)), true);
    var x := Next(v, keeps);
    var steps := [keeps, confirms];
    assert steps[1..] == [confirms] && [confirms][1..] == [];
    assert AllGated(x, [confirms]) by { assert AllGated(Next(x, confirms), []); }
    assert AllTruthful(x, [confirms]) by { assert AllTruthful(Next(x, confirms), []); }
    assert AllGated(v, steps) && AllTruthful(v, steps);
    assert Exec(v, steps) == Exec(x, [confirms]) == Exec(Next(x, confirms), []);
  }

  /**
   * The condition on the directory is exact: once an identity is stored, it stays for good
   * after a step if and only if the step was not a setup that a denial let mint another.
   * A setup draws its identity at random, so never the stored one.
   */
  lemma OnlyADenialEndangers(w: World, s: Step)
    requires Coherent(w.flow) && w.flow.backup.Some?
    requires s.BeginSetup? ==> s.setup.identity != w.flow.backup.value.identity
    ensures Truthful(w, s) <==> StaysForGood(Next(w, s), w.flow.backup.value.identity)
  {
    if Truthful(w, s) {
      StepKeepsTheIdentity(w, s);
      forall steps | AllGated(Next(w, s), steps) && AllTruthful(Next(w, s), steps)
        ensures Exec(Next(w, s), steps).flow.backup.Some?
        ensures Exec(Next(w, s), steps).flow.backup.value.identity == w.flow.backup.value.identity
      {
        TheIdentityNeverChanges(Next(w, s), steps);
      }
    } else {
      DeniedOnce(w, s);
    }
  }

  /** A directory that denies a stored backup once is enough to have it replaced by another identity. */
  lemma ADeniedBackupIsReplaced(w: World, identity: Identity, key: RecoveryKey)
    requires w.flow.backup.Some? && w.flow.pending.None? && identity != w.flow.backup.value.identity && key in w.kept
    ensures var steps := [BeginSetup(SetupEnv(true, true, Some(false), identity, key)),
                          ConfirmSetup(PutFate(true, Some(true)), true)];
      && AllGated(w, steps) && !AllTruthful(w, steps)
      && Exec(w, steps).flow.backup == Some(Backup(identity, key))
  {
    var begin := BeginSetup(SetupEnv(true, true, Some(false), identity, key));
    var confirm := ConfirmSetup(PutFate(true, Some(true)), true);
    var began := Next(w, begin);
    assert [begin, confirm][1..] == [confirm] && [confirm][1..] == [];
    assert AllGated(began, [confirm]) by { assert AllGated(Next(began, confirm), []); }
    assert Exec(w, [begin, confirm]) == Exec(began, [confirm]) == Exec(Next(began, confirm), []);
  }

  // --- What the user is told ----------------------------------------------------------------

  /** Nothing but a confirmation touches what is stored. */
  lemma OnlyConfirmationWrites(w: World, s: Step)
    ensures Next(w, s).flow.backup != w.flow.backup ==>
      (s.ConfirmSetup? || s.ConfirmRotation?) && s.put.applied
  {
  }

  /** A setup shows a key exactly where the directory answers that no backup exists: the one that waits, or a new one, which then does. */
  lemma SetupShowsExactly(f: Flow, env: SetupEnv)
    ensures var shown, g := ShownAtSetup(f, env), BeganSetup(f, env);
      && (shown.Some? <==> env.hasKey && env.directory && env.present == Some(false))
      && (shown.Some? ==> g.pending.Some? && g.pending.value.key == shown.value)
      && (f.pending.Some? || shown.None? ==> g == f)
      && (f.pending.None? && shown.Some? ==> g == f.(pending := Some(Pending(env.identity, env.key, false))))
  {
  }

  /** A rotation shows one exactly where none of a setup waits, and one of its own does or the presented key opened the backup. */
  lemma RotationShowsExactly(f: Flow, env: RotationEnv)
    ensures var shown, g := ShownAtRotation(f, env), BeganRotation(f, env);
      var opens := env.reachable && f.backup.Some? && env.current == Some(f.backup.value.key);
      && (shown.Some? <==> env.hasKey && env.directory && f.pending.None? && (f.rotation.Some? || opens))
      && (shown.Some? ==> g.rotation.Some? && g.rotation.value.key == shown.value)
      && (f.rotation.Some? || shown.None? ==> g == f)
      && (f.rotation.None? && shown.Some? ==> g == f.(rotation := Some(Rotation(f.backup.value.identity, env.key))))
  {
  }

  /** While a key waits to be confirmed, asking again shows that same key. */
  lemma TheSameKeyIsShown(f: Flow, again: SetupEnv, more: RotationEnv)
    requires Coherent(f)
    ensures f.pending.Some? && ShownAtSetup(f, again).Some? ==> ShownAtSetup(f, again).value == f.pending.value.key
    ensures f.rotation.Some? && ShownAtRotation(f, more).Some? ==> ShownAtRotation(f, more).value == f.rotation.value.key
    ensures f.pending.Some? ==> ShownAtRotation(f, more).None? && BeganRotation(f, more) == f
    ensures f.rotation.Some? && again.present == Some(f.backup.Some?) ==> ShownAtSetup(f, again).None?
  {
  }

  /**
   * A confirmed rotation leaves the shown key opening the same identity. A failed one
   * tells the user that the old key still works; that is so exactly where the upload was
   * not applied. Where it was, the key on screen is the one that does.
   */
  lemma WhichKeyWorks(f: Flow, put: PutFate, previous: RecoveryKey)
    requires Coherent(f) && f.rotation.Some? && f.backup.Some? && previous == f.backup.value.key && previous != f.rotation.value.key
    ensures var g := ConfirmedRotation(f, put);
      && g.backup.Some?
      && (Open(g.backup.value, previous).Some? <==> !put.applied)
      && (Open(g.backup.value, f.rotation.value.key).Some? <==> put.applied)
      && (put.applied ==> Open(g.backup.value, f.rotation.value.key) == Open(f.backup.value, previous))
      && (!RotationSucceeds(f, put) ==> g.rotation == f.rotation)
  {
  }

  /** A confirmed setup or rotation is over, one that was not confirmed still waits, and neither touches the other. */
  lemma ConfirmedIsOver(f: Flow, put: PutFate, published: bool)
    ensures var g := ConfirmedSetup(f, put, published);
      && (g.pending.None? <==>
          f.pending.None? || ((f.pending.value.stored || put.reply == Some(true)) && published))
      && g.rotation == f.rotation
    ensures var g := ConfirmedRotation(f, put);
      && (g.rotation.None? <==> f.rotation.None? || put.reply == Some(true)) && g.pending == f.pending
  {
  }

  /** Nothing waits, and an identity is stored. */
  predicate AtRest(f: Flow) {
    f.pending.None? && f.rotation.None? && f.backup.Some?
  }

  lemma StepStaysAtRest(w: World, s: Step)
    requires AtRest(w.flow) && Truthful(w, s) && !s.BeginRotation?
    ensures AtRest(Next(w, s).flow) && Next(w, s).flow.backup == w.flow.backup
  {
  }

  lemma {:induction false} StaysAtRest(w: World, steps: seq<Step>)
    requires AtRest(w.flow) && AllTruthful(w, steps) && forall s | s in steps :: !s.BeginRotation?
    ensures AtRest(Exec(w, steps).flow) && Exec(w, steps).flow.backup == w.flow.backup
    decreases |steps|
  {
    if steps != [] {
      StepStaysAtRest(w, steps[0]);
      StaysAtRest(Next(w, steps[0]), steps[1..]);
    }
  }

  /** At rest, a key is shown for rotation exactly to whoever presents the key that opens the backup; it is new, and waits. */
  lemma OnlyTheCurrentKeyRotates(f: Flow, env: RotationEnv)
    requires AtRest(f)
    ensures ShownAtRotation(f, env).Some? <==> env.hasKey && env.directory && env.reachable && env.current == Some(f.backup.value.key)
    ensures ShownAtRotation(f, env).Some? ==>
      && ShownAtRotation(f, env).value == env.key
      && BeganRotation(f, env) == f.(rotation := Some(Rotation(f.backup.value.identity, env.key)))
    ensures ShownAtRotation(f, env).None? ==> BeganRotation(f, env) == f
  {
  }

  /**
   * Once a rotation is confirmed the next one starts over. Over every truthful run, until
   * another begins, a key is shown for rotation exactly to whoever presents the one that
   * opens the backup: the key just confirmed, if the upload was really stored.
   */
  lemma AfterARotationTheNewKeyIsAsked(w: World, put: PutFate, steps: seq<Step>, env: RotationEnv)
    requires Coherent(w.flow) && RotationSucceeds(w.flow, put)
    requires AllTruthful(Next(w, ConfirmRotation(put)), steps) && forall s | s in steps :: !s.BeginRotation?
    ensures var f := Exec(Next(w, ConfirmRotation(put)), steps).flow;
      var opens := if put.applied then w.flow.rotation.value.key else w.flow.backup.value.key;
      && (ShownAtRotation(f, env).Some? <==> env.hasKey && env.directory && env.reachable && env.current == Some(opens))
      && (ShownAtRotation(f, env).Some? ==>
          && ShownAtRotation(f, env).value == env.key
          && BeganRotation(f, env).rotation == Some(Rotation(w.flow.rotation.value.identity, env.key)))
  {
    var v := Next(w, ConfirmRotation(put));
    StaysAtRest(v, steps);
    OnlyTheCurrentKeyRotates(Exec(v, steps).flow, env);
  }

  /** And once a setup is confirmed nothing of it waits, so what a later setup shows is a key of its own. */
  lemma AfterASetupNothingWaits(w: World, put: PutFate, env: SetupEnv)
    requires SetupSucceeds(w.flow, put, true)
    ensures var f := Next(w, ConfirmSetup(put, true)).flow;
      && ShownAtSetup(f, env) == (if env.hasKey && env.directory && env.present == Some(false) then Some(env.key) else None)
      && (ShownAtSetup(f, env).Some? ==> BeganSetup(f, env).pending == Some(Pending(env.identity, env.key, false)))
  {
  }

  /** A retry after the backup was stored uploads nothing again; a retry before it uploads the same. */
  lemma RetriesAgree(f: Flow, first: PutFate, second: PutFate, published: bool)
    requires f.pending.Some?
    ensures var g := ConfirmedSetup(f, first, false);
      && g.pending.Some? && g.pending.value.identity == f.pending.value.identity && g.pending.value.key == f.pending.value.key
      && (first.reply == Some(true) ==> ConfirmedSetup(g, second, published).backup == g.backup)
      && (!f.pending.value.stored && first.applied ==> ConfirmedSetup(g, second, published).backup == g.backup)
  {
  }
}
