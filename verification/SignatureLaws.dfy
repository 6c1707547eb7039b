/** Nothing is believed of a device list that nobody signed. */
module SignatureLaws {
  import opened Words
  import opened Layout
  import opened Keys
  import opened Manifests
  import opened ManifestLaws
  import opened PinLaws

  /** The bytes are a current manifest for the account they are presented as, and signed by the identity they name. */
  predicate InOrder(sch: Scheme, sm: SignedManifest) {
    && sm.alg == ALG_ED25519
    && sch.decode(sm.bytes).Some?
    && var m := sch.decode(sm.bytes).value;
    && m.version == VERSION && m.name == sm.name && 0 < m.counter <= INT64_MAX
    && m.identity.alg == ALG_ED25519 && |m.identity.bytes| == 32
    && sch.verifies(m.identity.bytes, sm.bytes, sm.signature)
  }

  /**
   * What is not in the memo is believed exactly where it is in order and its counter is
   * acceptable; the devices are then those of the signed bytes. Otherwise nothing about
   * the book or our own standing changes.
   */
  lemma BelievedExactlyWhere(sch: Scheme, me: Name, b: Book, st: Standing, sm: SignedManifest, saved: bool, ours: PublicKey)
    requires !Remembered(sch, b, sm)
    ensures var v := Verifying(sch, me, b, sm, saved);
      && (v.devices.Some? <==>
          sm.present && sm.bytes != [] && InOrder(sch, sm)
          && var m := sch.decode(sm.bytes).value;
             Acceptable(b, me, sm.name, m.identity.bytes, m.counter, sch.digest(sm.bytes)))
      && (v.devices.Some? ==> v.devices.value == DevicesFrom(sch.decode(sm.bytes).value.devices))
      && (v.devices.None? ==> v.book == b && StandingAfter(sch, me, b, st, sm, ours) == st)
  {
  }

  // --- What is in the memo ------------------------------------------------------------------

  /** The event vouches for bytes with this digest as a manifest of `who`: they came in order, or we signed them. */
  ghost predicate VouchesFor(c: Client, e: Event, who: Name, d: Digest) {
    match e
    case Present(sm, _) => sm.name == who && c.sch.digest(sm.bytes) == d && InOrder(c.sch, sm)
    case Publish(kp, devices, _, _, _) =>
      who == c.me && exists sent: Sent :: Signed(c, kp, devices, sent) && c.sch.digest(sent.bytes) == d
    case _ => false
  }

  ghost predicate SomeVouches(c: Client, past: seq<Event>, who: Name, d: Digest) {
    exists e :: e in past && VouchesFor(c, e, who, d)
  }

  ghost predicate AllVouchedFor(c: Client, past: seq<Event>, b: Book) {
    forall who | who in b.memo :: SomeVouches(c, past, who, b.memo[who].sum)
  }

  lemma MorePastStillVouches(c: Client, past: seq<Event>, e: Event, who: Name, d: Digest)
    requires SomeVouches(c, past, who, d)
    ensures SomeVouches(c, past + [e], who, d)
  {
    var o :| o in past && VouchesFor(c, o, who, d);
    assert o in past + [e];
  }

  lemma NewMemoIsVouchedFor(c: Client, b: Book, e: Event, who: Name)
    requires who in c.Next(b, e).memo && !(who in b.memo && b.memo[who] == c.Next(b, e).memo[who])
    ensures VouchesFor(c, e, who, c.Next(b, e).memo[who].sum)
  {
    match e
    case Present(sm, saved) =>
      BelievedExactlyWhere(c.sch, c.me, b, NEWCOMER, sm, saved, seq(32, i => 0));
    case Publish(kp, devices, directory, server, saved) =>
      PinMovesOnlyWhenStored(c, b, kp, devices, directory, server, saved);
    case _ =>
  }

  lemma StepIsVouchedFor(c: Client, past: seq<Event>, b: Book, e: Event)
    requires AllVouchedFor(c, past, b)
    ensures AllVouchedFor(c, past + [e], c.Next(b, e))
  {
    var d := c.Next(b, e);
    forall who | who in d.memo ensures SomeVouches(c, past + [e], who, d.memo[who].sum) {
      if who in b.memo && b.memo[who] == d.memo[who] {
        MorePastStillVouches(c, past, e, who, d.memo[who].sum);
      } else {
        NewMemoIsVouchedFor(c, b, e, who);
        assert e in past + [e];
      }
    }
  }

  lemma {:induction false} RunIsVouchedFor(c: Client, past: seq<Event>, b: Book, events: seq<Event>)
    requires AllVouchedFor(c, past, b)
    ensures AllVouchedFor(c, past + events, c.Run(b, events))
    decreases |events|
  {
    if events == [] {
      assert past + events == past;
    } else {
      StepIsVouchedFor(c, past, b, events[0]);
      RunIsVouchedFor(c, past + [events[0]], c.Next(b, events[0]), events[1..]);
      assert past + [events[0]] + events[1..] == past + events;
    }
  }

  /**
   * The signature defence, memo included: whatever a directory answers, over every run
   * from sign-on, devices are taken from bytes only if those bytes are in order as
   * presented, or came in order before, or are a statement we signed ourselves.
   */
  lemma BelievedWasSigned(c: Client, f: TrustFile, events: seq<Event>, sm: SignedManifest, saved: bool)
    requires var b := c.Run(SignedOn(Book(map[], UNPINNED, map[], f)), events);
      Verifying(c.sch, c.me, b, sm, saved).devices.Some?
    ensures InOrder(c.sch, sm) || SomeVouches(c, events, sm.name, c.sch.digest(sm.bytes))
  {
    var start := SignedOn(Book(map[], UNPINNED, map[], f));
    assert [] + events == events;
    RunIsVouchedFor(c, [], start, events);
    var b := c.Run(start, events);
    if !Remembered(c.sch, b, sm) {
      BelievedExactlyWhere(c.sch, c.me, b, NEWCOMER, sm, saved, seq(32, i => 0));
    }
  }

  /** For somebody else's account, digests naming their bytes, it was a signature over these very bytes. */
  lemma PeersAreBelievedOnlySigned(c: Client, f: TrustFile, events: seq<Event>, sm: SignedManifest, saved: bool)
    requires c.sch.Collisionless() && !IsSelf(c.me, sm.name) && c.me != ""
    requires var b := c.Run(SignedOn(Book(map[], UNPINNED, map[], f)), events);
      Verifying(c.sch, c.me, b, sm, saved).devices.Some?
    ensures exists signature :: InOrder(c.sch, sm.(alg := ALG_ED25519, signature := signature))
  {
    BelievedWasSigned(c, f, events, sm, saved);
    if InOrder(c.sch, sm) {
      assert InOrder(c.sch, sm.(alg := ALG_ED25519, signature := sm.signature));
    } else {
      var e :| e in events && VouchesFor(c, e, sm.name, c.sch.digest(sm.bytes));
      assert e.Present? && e.sm.bytes == sm.bytes;
      assert InOrder(c.sch, sm.(alg := ALG_ED25519, signature := e.sm.signature));
    }
  }
}
