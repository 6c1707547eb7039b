/** Somebody once known to have keys is not written to in the clear. */
module MessengerLaws {
  import opened Words
  import opened Layout
  import opened Keys
  import E = Envelopes
  import opened Manifests
  import opened ManifestLaws
  import opened PinLaws
  import opened SignatureLaws
  import opened Messenger

  datatype Step =
    | Send(to: Name, text: Bytes, env: SendEnv)
    | Look(who: Name, directory: bool, query: Query, saved: bool)
    | Trust(event: Event)            // anything else that touches the trust record
    | SignOff
    | Restart

  function Next(u: Setup, s: Session, step: Step): Session {
    match step
    case Send(to, text, env) => AfterSend(u, s, to, env)
    case Look(who, directory, q, saved) => Asked(u, s, directory, q, saved)
    case Trust(e) => s.(book := ManifestLaws.Client(u.sch, u.text, u.me).Next(s.book, e))
    case SignOff => s.(keys := map[])
    case Restart => Session(map[], SignedOn(s.book))
  }

  function Run(u: Setup, s: Session, steps: seq<Step>): Session
    decreases |steps|
  {
    if steps == [] then s else Run(u, Next(u, s, steps[0]), steps[1..])
  }

  predicate Saves(step: Step) {
    match step
    case Send(_, _, env) => env.saved
    case Look(_, _, _, saved) => saved
    case Trust(e) => !e.SignOn? && e.saved
    case SignOff => true
    case Restart => true
  }

  /** Every key set is stored as some text, and real notes list at least one key. */
  predicate Proper(step: Step) {
    step.Trust? ==> !step.event.SignOn? && (step.event.Note? ==> step.event.keys != [])
  }

  /** Whoever's keys are cached has a record of having published them. */
  predicate Recorded(s: Session) {
    forall who | who in s.keys :: s.keys[who] != [] && PublishedBefore(s.book, who)
  }

  predicate Lasting(s: Session, step: Step) {
    !step.Restart? || InSync(s.book)
  }

  lemma NotingRecords(t: KeyText, b: Book, who: Name, keys: seq<PublicKey>, saved: bool, p: Name)
    requires t.Faithful() && keys != []
    ensures PublishedBefore(Noted(t, b, who, keys, saved), p) <==> p == who || PublishedBefore(b, p)
    ensures Noted(t, b, who, keys, saved).memo == b.memo
  {
    t.StoredNamesTheSet(keys, keys);
  }

  /** The manifest teaches keys of somebody else. */
  predicate Teaches(u: Setup, s: Session, sm: SignedManifest, saved: bool) {
    && sm.present && !IsSelf(u.me, sm.name)
    && Verifying(u.sch, u.me, s.book, sm, saved).devices.Some?
    && Verifying(u.sch, u.me, s.book, sm, saved).devices.value != []
  }

  lemma CheckingKeepsRecords(u: Setup, b: Book, sm: SignedManifest, saved: bool, p: Name)
    ensures PublishedBefore(b, p) <==> PublishedBefore(Verifying(u.sch, u.me, b, sm, saved).book, p)
  {
  }

  /** Believing a manifest of somebody else, with a device we can encrypt to, is remembered for good. */
  lemma BelievingRecords(u: Setup, s: Session, sm: SignedManifest, saved: bool, p: Name)
    requires u.text.Faithful()
    ensures var t := LearnedFrom(u, s, sm, saved);
      && (PublishedBefore(t.book, p) <==> PublishedBefore(s.book, p) || (p == sm.name && Teaches(u, s, sm, saved)))
      && (Holds(t, p) <==> Holds(s, p) || (p == sm.name && Teaches(u, s, sm, saved)))
      && (p in t.keys && p !in s.keys ==> t.keys[p] != [])
      && (p in s.keys && s.keys[p] != [] ==> p in t.keys && t.keys[p] != [])
  {
    CheckingKeepsRecords(u, s.book, sm, saved, p);
    if Teaches(u, s, sm, saved) {
      var v := Verifying(u.sch, u.me, s.book, sm, saved);
      var keys := Canonical(Boxes(v.devices.value));
      CanonicalIsNotEmpty(Boxes(v.devices.value));
      NotingRecords(u.text, v.book, sm.name, keys, saved, p);
    }
  }

  /** An answer that is neither in order nor memoized teaches no key and changes nothing. */
  lemma UnsignedTeachesNothing(u: Setup, s: Session, sm: SignedManifest, saved: bool)
    requires !Remembered(u.sch, s.book, sm) && !InOrder(u.sch, sm)
    ensures LearnedFrom(u, s, sm, saved) == s
  {
    BelievedExactlyWhere(u.sch, u.me, s.book, NEWCOMER, sm, saved, u.ours);
  }

  lemma AskingKeeps(u: Setup, s: Session, directory: bool, q: Query, saved: bool, p: Name)
    requires u.text.Faithful()
    ensures PublishedBefore(s.book, p) ==> PublishedBefore(Asked(u, s, directory, q, saved).book, p)
    ensures Recorded(s) ==> Recorded(Asked(u, s, directory, q, saved))
  {
    if directory && q.reply.Some? {
      forall who ensures PublishedBefore(s.book, who) ==> PublishedBefore(Asked(u, s, directory, q, saved).book, who) {
        BelievingRecords(u, s, q.reply.value, saved, who);
      }
      if Recorded(s) {
        forall who | who in Asked(u, s, directory, q, saved).keys
          ensures Asked(u, s, directory, q, saved).keys[who] != [] && PublishedBefore(Asked(u, s, directory, q, saved).book, who) {
          BelievingRecords(u, s, q.reply.value, saved, who);
        }
      }
    }
  }

  lemma TrustKeeps(u: Setup, b: Book, e: Event, p: Name)
    requires u.text.Faithful() && !e.SignOn? && (e.Note? ==> e.keys != [])
    requires PublishedBefore(b, p)
    ensures PublishedBefore(ManifestLaws.Client(u.sch, u.text, u.me).Next(b, e), p)
  {
    match e
    case Publish(kp, devices, directory, server, saved) =>
      PinMovesOnlyWhenStored(ManifestLaws.Client(u.sch, u.text, u.me), b, kp, devices, directory, server, saved);
    case Note(who, keys, saved) => NotingRecords(u.text, b, who, keys, saved, p);
    case _ =>
  }

  lemma RecordLasts(u: Setup, s: Session, step: Step, p: Name)
    requires u.text.Faithful() && Proper(step) && Lasting(s, step) && PublishedBefore(s.book, p)
    ensures PublishedBefore(Next(u, s, step).book, p)
  {
    match step
    case Send(to, text, env) => AskingKeeps(u, s, env.directory, env.query, env.saved, p);
    case Look(who, directory, q, saved) => AskingKeeps(u, s, directory, q, saved, p);
    case Trust(e) => TrustKeeps(u, s.book, e, p);
    case _ =>
  }

  lemma CacheStaysRecorded(u: Setup, s: Session, step: Step)
    requires u.text.Faithful() && Proper(step) && Recorded(s)
    ensures Recorded(Next(u, s, step))
  {
    match step
    case Send(to, text, env) => AskingKeeps(u, s, env.directory, env.query, env.saved, to);
    case Look(who, directory, q, saved) => AskingKeeps(u, s, directory, q, saved, who);
    case Trust(e) =>
      forall p | p in s.keys ensures PublishedBefore(Next(u, s, step).book, p) {
        TrustKeeps(u, s.book, e, p);
      }
    case _ =>
  }

  // --- The decision -----------------------------------------------------------------------

  /**
   * To somebody on record, a message goes in the clear exactly where encryption is off or
   * keyless, or the server offers no key directory at all and no keys are cached; and
   * otherwise it goes sealed to the keys held, or not at all.
   */
  lemma InTheClearExactlyWhere(u: Setup, s: Session, to: Name, text: Bytes, env: SendEnv)
    requires u.text.Faithful() && Recorded(s) && PublishedBefore(s.book, to)
    ensures SentAs(u, s, to, text, env) == Clear <==> !Ready(env) || (!Holds(s, to) && !env.directory)
    ensures SentAs(u, s, to, text, env).Cipher? ==>
      var t := AfterSend(u, s, to, env);
      Holds(t, to) && env.keypair.Some? &&
      Some(SentAs(u, s, to, text, env).envelope) == E.Sealed(u.crypto, text, t.keys[to], env.keypair.value, env.dice)
    ensures Ready(env) && Holds(s, to) ==> SentAs(u, s, to, text, env).Cipher?
  {
    AskingKeeps(u, s, env.directory, env.query, env.saved, to);
    if Holds(s, to) {
      CanonicalIsNotEmpty(s.keys[to]);
    }
    var t := AfterSend(u, s, to, env);
    if Holds(t, to) {
      CanonicalIsNotEmpty(t.keys[to]);
    }
  }

  /** The directory answered in time that the account has published nothing. */
  predicate SaysNothingThere(q: Query) {
    q.reply.Some? && q.inTime && !q.reply.value.present
  }

  /**
   * For anybody, on record or not: the clear is where encryption is off or keyless, or
   * where no keys are cached and either no directory is offered, or it answers in time
   * that there is nothing and nothing was ever on record.
   */
  lemma ClearToAnybodyExactlyWhere(u: Setup, s: Session, to: Name, text: Bytes, env: SendEnv)
    ensures SentAs(u, s, to, text, env) == Clear <==>
      !(env.on && env.keypair.Some?)
      || (!Holds(s, to) && (!env.directory || (SaysNothingThere(env.query) && !PublishedBefore(s.book, to))))
  {
  }

  /** The directory was asked, answered in time, and after its answer there are keys of theirs. */
  predicate LearnsInTime(u: Setup, s: Session, to: Name, env: SendEnv) {
    && env.directory && env.query.reply.Some? && env.query.inTime && env.query.reply.value.present
    && Holds(LearnedFrom(u, s, env.query.reply.value, env.saved), to)
  }

  /** And sealed is where encryption is on and keys are cached, or the directory teaches some in time; the envelope is for those. */
  lemma SealedToAnybodyExactlyWhere(u: Setup, s: Session, to: Name, text: Bytes, env: SendEnv)
    ensures SentAs(u, s, to, text, env).Cipher? <==>
      env.on && env.keypair.Some? && (Holds(s, to) || LearnsInTime(u, s, to, env))
    ensures SentAs(u, s, to, text, env).Cipher? ==>
      var keys := if Holds(s, to) then s.keys[to] else LearnedFrom(u, s, env.query.reply.value, env.saved).keys[to];
      Some(SentAs(u, s, to, text, env).envelope) == E.Sealed(u.crypto, text, keys, env.keypair.value, env.dice)
  {
    if Holds(s, to) {
      CanonicalIsNotEmpty(s.keys[to]);
    }
    var t := AfterSend(u, s, to, env);
    if Holds(t, to) {
      CanonicalIsNotEmpty(t.keys[to]);
    }
  }

  /** No message of the run to `p`, sent with encryption on and a directory offered, went in the clear. */
  predicate NeverClear(u: Setup, s: Session, steps: seq<Step>, p: Name)
    decreases |steps|
  {
    steps == [] ||
    ((steps[0].Send? && steps[0].to == p && Ready(steps[0].env) && steps[0].env.directory ==>
      SentAs(u, s, p, steps[0].text, steps[0].env) != Clear)
     && NeverClear(u, Next(u, s, steps[0]), steps[1..], p))
  }

  predicate AllLasting(u: Setup, s: Session, steps: seq<Step>)
    decreases |steps|
  {
    steps == [] || (Proper(steps[0]) && Lasting(s, steps[0]) && AllLasting(u, Next(u, s, steps[0]), steps[1..]))
  }

  /** Once on record, never written to in the clear, whatever the directory answers. */
  lemma {:induction false} OnceKnownNeverClear(u: Setup, s: Session, steps: seq<Step>, p: Name)
    requires u.text.Faithful() && Recorded(s) && PublishedBefore(s.book, p) && AllLasting(u, s, steps)
    ensures NeverClear(u, s, steps, p)
    decreases |steps|
  {
    if steps != [] {
      if steps[0].Send? && steps[0].to == p {
        InTheClearExactlyWhere(u, s, p, steps[0].text, steps[0].env);
      }
      RecordLasts(u, s, steps[0], p);
      CacheStaysRecorded(u, s, steps[0]);
      OnceKnownNeverClear(u, Next(u, s, steps[0]), steps[1..], p);
    }
  }

  lemma SavingStaysInSync(u: Setup, s: Session, step: Step)
    requires u.text.Faithful() && Proper(step) && Saves(step) && InSync(s.book)
    ensures InSync(Next(u, s, step).book)
  {
    match step
    case Send(to, text, env) => AskingStaysInSync(u, s, env.directory, env.query);
    case Look(who, directory, q, saved) => AskingStaysInSync(u, s, directory, q);
    case Trust(e) => SavedStaysInSync(ManifestLaws.Client(u.sch, u.text, u.me), s.book, e);
    case _ =>
  }

  lemma AskingStaysInSync(u: Setup, s: Session, directory: bool, q: Query)
    requires InSync(s.book)
    ensures InSync(Asked(u, s, directory, q, true).book)
  {
    if directory && q.reply.Some? {
      SavedStaysInSync(ManifestLaws.Client(u.sch, u.text, u.me), s.book, Present(q.reply.value, true));
    }
  }

  /** Where every save lands the record outlives every restart; where there is no restart it needs no save. */
  lemma {:induction false} SavedRunsLast(u: Setup, s: Session, steps: seq<Step>)
    requires u.text.Faithful() && forall step | step in steps :: Proper(step)
    requires (InSync(s.book) && forall step | step in steps :: Saves(step)) || forall step | step in steps :: !step.Restart?
    ensures AllLasting(u, s, steps)
    decreases |steps|
  {
    if steps != [] {
      assert steps[0] in steps;
      if InSync(s.book) && Saves(steps[0]) {
        SavingStaysInSync(u, s, steps[0]);
      }
      SavedRunsLast(u, Next(u, s, steps[0]), steps[1..]);
    }
  }

  /** The gap that is left: no directory offered, nothing cached, and the record is not asked. */
  lemma WithoutADirectoryItIsClear(u: Setup, s: Session, p: Name, text: Bytes, env: SendEnv)
    requires PublishedBefore(s.book, p) && Ready(env) && !env.directory
    ensures SentAs(u, Next(u, s, Restart), p, text, env) == Clear
  {
  }

  /**
   * From directory to message: after a peer's manifest is believed, what is sent to them
   * opens for exactly the devices that manifest names, up to 32, and for no other key.
   */
  lemma OnlyListedDevicesRead(
    u: Setup, s: Session, sm: SignedManifest, saved: bool, text: Bytes, env: SendEnv, r: E.SecretKey, keys: set<E.SecretKey>)
    requires Teaches(u, s, sm, saved) && Ready(env)
    requires u.crypto.text.Faithful() && u.crypto.Sized() && u.crypto.Unlocks() && u.crypto.Exact(keys)
    requires env.keypair.value in keys && r in keys
    requires forall p | p in Boxes(Verifying(u.sch, u.me, s.book, sm, saved).devices.value) :: u.crypto.Known(p, keys)
    ensures var boxes := Boxes(Verifying(u.sch, u.me, s.book, sm, saved).devices.value);
      var out := SentAs(u, LearnedFrom(u, s, sm, saved), sm.name, text, env);
      && out.Cipher?
      && var m := E.Opening(u.crypto, out.envelope, u.crypto.pub(env.keypair.value), r);
      && (m == E.Opened(Some(env.dice.stamp), text) <==> u.crypto.pub(r) in Canonical(boxes))
      && (u.crypto.pub(r) !in Canonical(boxes) ==> m.NotForUs? || m.Unreadable?)
  {
    var boxes := Boxes(Verifying(u.sch, u.me, s.book, sm, saved).devices.value);
    var held := Canonical(boxes);
    CanonicalIsIdempotent(boxes);
    CanonicalIsNotEmpty(boxes);
    DistinctOrders(boxes);
    forall p | p in held ensures u.crypto.Known(p, keys) {
      assert p in Set(Distinct(boxes));
    }
    E.OpensForItsRecipientsOnly(u.crypto, text, held, env.keypair.value, env.dice, r, keys);
  }
}
