/** Counters, forks, verified identities and the memo, over every run of a session or many. */
module PinLaws {
  import opened Words
  import opened Layout
  import opened Keys
  import opened Manifests
  import opened ManifestLaws

  // --- The memo -------------------------------------------------------------------------

  /** `m`, whose bytes hash to `d`, is what the pin of `who` was made from, or comes from an identity our own pin ignores. */
  predicate Held(b: Book, me: Name, who: Name, m: Manifest, d: Digest)
    requires |m.identity.bytes| == 32
  {
    || PinOf(b, me, who) == Pin(Some(m.identity.bytes), m.counter, Some(d))
    || (IsSelf(me, who) && OtherIdentity(b.self, m.identity.bytes))
  }

  /** `bytes` are a manifest of `who` that was accepted, and `memo` is what it taught. */
  predicate Backed(c: Client, b: Book, who: Name, memo: Memo, bytes: Bytes) {
    && c.sch.decode(bytes).Some?
    && var m := c.sch.decode(bytes).value;
    && m.version == VERSION && m.identity.alg == ALG_ED25519 && |m.identity.bytes| == 32 && m.name == who
    && (!IsSelf(c.me, who) ==> 0 < m.counter <= INT64_MAX)
    && memo.devices == DevicesFrom(m.devices)
    && Held(b, c.me, who, m, memo.sum)
  }

  ghost predicate Vouches(c: Client, b: Book, who: Name)
    requires who in b.memo
  {
    forall bytes | c.sch.digest(bytes) == b.memo[who].sum :: Backed(c, b, who, b.memo[who], bytes)
  }

  ghost predicate MemoSound(c: Client, b: Book) {
    forall who | who in b.memo :: Vouches(c, b, who)
  }

  /** A step that leaves one account's memo and pin alone leaves its memo sound. */
  lemma UntouchedStaysSound(c: Client, b: Book, d: Book, who: Name)
    requires MemoSound(c, b) && who in d.memo && who in b.memo && d.memo[who] == b.memo[who]
    requires PinOf(d, c.me, who) == PinOf(b, c.me, who) || PinOf(b, c.me, who).key.None?
    ensures Vouches(c, d, who)
  {
    forall bytes | c.sch.digest(bytes) == d.memo[who].sum ensures Backed(c, d, who, d.memo[who], bytes) {
      assert Vouches(c, b, who);
    }
  }

  lemma AcceptedIsSound(c: Client, b: Book, sm: SignedManifest, saved: bool)
    requires c.sch.Collisionless() && FullCheck(c.sch, c.me, b, sm, saved).devices.Some?
    ensures var d := FullCheck(c.sch, c.me, b, sm, saved).book; sm.name in d.memo && Vouches(c, d, sm.name)
  {
    var d := FullCheck(c.sch, c.me, b, sm, saved).book;
    forall bytes | c.sch.digest(bytes) == d.memo[sm.name].sum ensures Backed(c, d, sm.name, d.memo[sm.name], bytes) {
      assert bytes == sm.bytes;
    }
  }

  lemma PublishedIsSound(c: Client, b: Book, kp: IdentityKey, devices: seq<Device>, sent: Sent, saved: bool)
    requires c.sch.Collisionless() && c.sch.Faithful() && c.me != "" && Signed(c, kp, devices, sent)
    ensures Vouches(c, Recorded(c.sch, c.me, b, kp, devices, sent, saved), c.me)
  {
    var d := Recorded(c.sch, c.me, b, kp, devices, sent, saved);
    ListingReadsBack(devices);
    forall bytes | c.sch.digest(bytes) == d.memo[c.me].sum ensures Backed(c, d, c.me, d.memo[c.me], bytes) {
      assert bytes == sent.bytes;
    }
  }

  lemma PresentingStaysSound(c: Client, b: Book, sm: SignedManifest, saved: bool)
    requires c.sch.Collisionless() && MemoSound(c, b)
    ensures MemoSound(c, Verifying(c.sch, c.me, b, sm, saved).book)
  {
    var v := Verifying(c.sch, c.me, b, sm, saved);
    if v.book != b {
      AcceptedIsSound(c, b, sm, saved);
      forall who | who in v.book.memo && who != sm.name ensures Vouches(c, v.book, who) {
        UntouchedStaysSound(c, b, v.book, who);
      }
    }
  }

  lemma PublishingStaysSound(c: Client, b: Book, kp: IdentityKey, devices: seq<Device>, directory: bool, server: Server, saved: bool)
    requires c.sch.Collisionless() && c.sch.Faithful() && MemoSound(c, b)
    ensures MemoSound(c, Publishing(c.sch, c.me, b, kp, devices, directory, server, saved).book)
  {
    var r := Publishing(c.sch, c.me, b, kp, devices, directory, server, saved);
    PinMovesOnlyWhenStored(c, b, kp, devices, directory, server, saved);
    if r.outcome == Published {
      PublishedIsSound(c, b, kp, devices, r.sent[|r.sent| - 1], saved);
      forall who | who in r.book.memo && who != c.me ensures Vouches(c, r.book, who) {
        UntouchedStaysSound(c, b, r.book, who);
      }
    }
  }

  lemma MemoStaysSound(c: Client, b: Book, e: Event)
    requires c.sch.Collisionless() && c.sch.Faithful() && MemoSound(c, b)
    ensures MemoSound(c, c.Next(b, e))
  {
    match e
    case Present(sm, saved) => PresentingStaysSound(c, b, sm, saved);
    case Publish(kp, devices, directory, server, saved) => PublishingStaysSound(c, b, kp, devices, directory, server, saved);
    case SignOn =>
    case _ =>
      var d := c.Next(b, e);
      forall who | who in d.memo ensures Vouches(c, d, who) {
        UntouchedStaysSound(c, b, d, who);
      }
  }

  lemma {:induction false} MemoIsSoundInARun(c: Client, b: Book, events: seq<Event>)
    requires c.sch.Collisionless() && c.sch.Faithful() && MemoSound(c, b)
    ensures MemoSound(c, c.Run(b, events))
    decreases |events|
  {
    if events != [] {
      MemoStaysSound(c, b, events[0]);
      MemoIsSoundInARun(c, c.Next(b, events[0]), events[1..]);
    }
  }

  predicate CorrectlySigned(c: Client, sm: SignedManifest) {
    && sm.alg == ALG_ED25519 && sm.present && sm.bytes != []
    && c.sch.decode(sm.bytes).Some?
    && |c.sch.decode(sm.bytes).value.identity.bytes| == 32
    && c.sch.verifies(c.sch.decode(sm.bytes).value.identity.bytes, sm.bytes, sm.signature)
  }

  /**
   * The memo answers as the whole check would, and the whole check would change nothing,
   * for every correctly signed repeat, exactly where the counter is in range. Only a
   * statement of our own can be out of it.
   */
  lemma MemoAnswersAsTheCheckWould(c: Client, events: seq<Event>, f: TrustFile, sm: SignedManifest, saved: bool)
    requires c.sch.Collisionless() && c.sch.Faithful()
    requires var b := c.Run(SignedOn(Book(map[], UNPINNED, map[], f)), events); Remembered(c.sch, b, sm)
    requires CorrectlySigned(c, sm)
    ensures var b := c.Run(SignedOn(Book(map[], UNPINNED, map[], f)), events);
      var fast, full := Verifying(c.sch, c.me, b, sm, saved), FullCheck(c.sch, c.me, b, sm, saved);
      var counter := c.sch.decode(sm.bytes).value.counter;
      && ((full.devices == fast.devices && full.book.(file := b.file) == fast.book) <==> 0 < counter <= INT64_MAX)
      && (!IsSelf(c.me, sm.name) ==> 0 < counter <= INT64_MAX)
  {
    var start := SignedOn(Book(map[], UNPINNED, map[], f));
    MemoIsSoundInARun(c, start, events);
    MemoAgrees(c, c.Run(start, events), sm, saved);
  }

  lemma MemoAgrees(c: Client, b: Book, sm: SignedManifest, saved: bool)
    requires MemoSound(c, b) && Remembered(c.sch, b, sm) && CorrectlySigned(c, sm)
    ensures var fast, full := Verifying(c.sch, c.me, b, sm, saved), FullCheck(c.sch, c.me, b, sm, saved);
      var counter := c.sch.decode(sm.bytes).value.counter;
      && ((full.devices == fast.devices && full.book.(file := b.file) == fast.book) <==> 0 < counter <= INT64_MAX)
      && (!IsSelf(c.me, sm.name) ==> 0 < counter <= INT64_MAX)
  {
    assert Vouches(c, b, sm.name);
    assert Backed(c, b, sm.name, b.memo[sm.name], sm.bytes);
    var m := c.sch.decode(sm.bytes).value;
    if 0 < m.counter <= INT64_MAX {
      assert Checked(c.sch, sm) == Some(m);
      AcceptingAgain(b, c.me, sm.name, m, c.sch.digest(sm.bytes), saved);
      var memo := b.memo[sm.name := b.memo[sm.name]];
      assert memo == b.memo;
    }
  }

  lemma AcceptingAgain(b: Book, me: Name, who: Name, m: Manifest, d: Digest, saved: bool)
    requires |m.identity.bytes| == 32 && Held(b, me, who, m, d)
    ensures Acceptable(b, me, who, m.identity.bytes, m.counter, d)
    ensures Accepting(b, me, who, m.identity.bytes, m.counter, d, saved).(file := b.file) == b
  {
    if !IsSelf(me, who) {
      assert EntryOf(b, who).identity.key.Some?;
      assert b.peers[who := b.peers[who]] == b.peers;
    }
  }

  // --- Counters --------------------------------------------------------------------------

  lemma SavedStaysInSync(c: Client, b: Book, e: Event)
    requires Saved(e) && InSync(b)
    ensures InSync(c.Next(b, e))
  {
    match e
    case Publish(kp, devices, directory, server, saved) =>
      PinMovesOnlyWhenStored(c, b, kp, devices, directory, server, saved);
    case _ =>
  }

  /** A step that reads only what was written: a restart needs every save to have landed. */
  predicate Durable(b: Book, events: seq<Event>) {
    (InSync(b) && Landed(events)) || forall e | e in events :: !e.SignOn?
  }

  /** `q` is `p`, or beats it, or fills in a digest `p` never recorded. */
  predicate NotBehind(p: Pin, q: Pin) {
    q == p || q.counter > p.counter || (q.counter == p.counter && p.digest == None)
  }

  /**
   * While a peer's pinned identity stays, its counter never falls and its digest never
   * changes without the counter rising. Whatever happens, only the user's own verdict
   * moves the identity they verified.
   */
  lemma PeerPinClimbs(c: Client, b: Book, e: Event, p: Name)
    requires !IsSelf(c.me, p) && Durable(b, [e])
    ensures var pin, next := EntryOf(b, p).identity, EntryOf(c.Next(b, e), p).identity;
      pin.key.Some? && next.key == pin.key ==> NotBehind(pin, next)
    ensures EntryOf(c.Next(b, e), p).verified != EntryOf(b, p).verified ==>
      (e.Confirm? || e.Unconfirm?) && e.who == p
  {
    assert [e][0] == e;
    match e
    case Publish(kp, devices, directory, server, saved) =>
      PinMovesOnlyWhenStored(c, b, kp, devices, directory, server, saved);
    case _ =>
  }

  /** The pinned identity of `p` is `key` before, during and after the run. */
  predicate Keeps(c: Client, b: Book, events: seq<Event>, p: Name, key: Bytes32)
    decreases |events|
  {
    && EntryOf(b, p).identity.key == Some(key)
    && (events != [] ==> Keeps(c, c.Next(b, events[0]), events[1..], p, key))
  }

  lemma DurableNext(c: Client, b: Book, events: seq<Event>)
    requires events != [] && Durable(b, events)
    ensures Durable(b, [events[0]]) && Durable(c.Next(b, events[0]), events[1..])
  {
    if InSync(b) && Landed(events) {
      assert Saved(events[0]);
      SavedStaysInSync(c, b, events[0]);
    }
  }

  lemma {:induction false} PeerPinClimbsInARun(c: Client, b: Book, events: seq<Event>, p: Name, key: Bytes32)
    requires !IsSelf(c.me, p) && Durable(b, events) && Keeps(c, b, events, p, key)
    ensures var end := EntryOf(c.Run(b, events), p).identity; end.key == Some(key) && NotBehind(EntryOf(b, p).identity, end)
    decreases |events|
  {
    if events != [] {
      DurableNext(c, b, events);
      PeerPinClimbs(c, b, events[0], p);
      PeerPinClimbsInARun(c, c.Next(b, events[0]), events[1..], p, key);
    }
  }

  /** `sm` is in order and speaks for `p` under `key`. */
  predicate SpeaksFor(c: Client, sm: SignedManifest, p: Name, key: Bytes32) {
    && sm.name == p && sm.present && sm.bytes != []
    && Checked(c.sch, sm).Some? && Checked(c.sch, sm).value.identity.bytes == key
  }

  lemma AcceptedIsPinned(c: Client, b: Book, sm: SignedManifest, p: Name, key: Bytes32, saved: bool)
    requires c.sch.Collisionless() && MemoSound(c, b) && !IsSelf(c.me, p) && SpeaksFor(c, sm, p, key)
    requires Verifying(c.sch, c.me, b, sm, saved).devices.Some?
    ensures EntryOf(Verifying(c.sch, c.me, b, sm, saved).book, p).identity ==
      Pin(Some(key), Checked(c.sch, sm).value.counter, Some(c.sch.digest(sm.bytes)))
  {
    if Remembered(c.sch, b, sm) {
      RememberedIsPinned(c, b, sm, p, key);
    }
  }

  lemma RememberedIsPinned(c: Client, b: Book, sm: SignedManifest, p: Name, key: Bytes32)
    requires MemoSound(c, b) && !IsSelf(c.me, p) && SpeaksFor(c, sm, p, key) && Remembered(c.sch, b, sm)
    ensures EntryOf(b, p).identity == Pin(Some(key), Checked(c.sch, sm).value.counter, Some(c.sch.digest(sm.bytes)))
  {
    assert Vouches(c, b, p);
    assert Backed(c, b, p, b.memo[p], sm.bytes);
  }

  lemma BehindIsRefused(c: Client, b: Book, pin: Pin, sm: SignedManifest, p: Name, key: Bytes32, saved: bool)
    requires MemoSound(c, b) && !IsSelf(c.me, p) && SpeaksFor(c, sm, p, key)
    requires EntryOf(b, p).identity == pin && pin.key == Some(key) && pin.digest.Some?
    requires Checked(c.sch, sm).value.counter < pin.counter
      || (Checked(c.sch, sm).value.counter == pin.counter && pin.digest != Some(c.sch.digest(sm.bytes)))
    ensures Verifying(c.sch, c.me, b, sm, saved) == Verdict(b, None)
  {
    if Remembered(c.sch, b, sm) {
      RememberedIsPinned(c, b, sm, p, key);
    }
  }

  /**
   * The rollback defence. Once a manifest of a peer is believed, then as long as their
   * identity stays pinned no manifest of that identity at or below its counter is ever
   * believed again, except that manifest itself.
   */
  lemma NoRollback(c: Client, b: Book, first: SignedManifest, events: seq<Event>, later: SignedManifest, p: Name, key: Bytes32, saved: bool)
    requires c.sch.Collisionless() && c.sch.Faithful() && MemoSound(c, b) && !IsSelf(c.me, p)
    requires SpeaksFor(c, first, p, key) && SpeaksFor(c, later, p, key)
    requires Verifying(c.sch, c.me, b, first, true).devices.Some?
    requires var seen := Verifying(c.sch, c.me, b, first, true).book;
      Durable(seen, events) && Keeps(c, seen, events, p, key)
    requires Checked(c.sch, later).value.counter <= Checked(c.sch, first).value.counter && later.bytes != first.bytes
    ensures var seen := Verifying(c.sch, c.me, b, first, true).book;
      Verifying(c.sch, c.me, c.Run(seen, events), later, saved) == Verdict(c.Run(seen, events), None)
  {
    var seen := Verifying(c.sch, c.me, b, first, true).book;
    MemoStaysSound(c, b, Present(first, true));
    assert c.Next(b, Present(first, true)) == seen;
    AcceptedIsPinned(c, b, first, p, key, true);
    MemoIsSoundInARun(c, seen, events);
    PeerPinClimbsInARun(c, seen, events, p, key);
    PinKeepsADigest(c, seen, events, p, key);
    var end := c.Run(seen, events);
    BehindIsRefused(c, end, EntryOf(end, p).identity, later, p, key, saved);
  }

  /** A recorded digest is never lost while the identity stays. */
  lemma {:induction false} PinKeepsADigest(c: Client, b: Book, events: seq<Event>, p: Name, key: Bytes32)
    requires !IsSelf(c.me, p) && Durable(b, events) && Keeps(c, b, events, p, key)
    requires EntryOf(b, p).identity.digest.Some?
    ensures EntryOf(c.Run(b, events), p).identity.digest.Some?
    decreases |events|
  {
    if events != [] {
      DurableNext(c, b, events);
      DigestStays(c, b, events[0], p);
      PinKeepsADigest(c, c.Next(b, events[0]), events[1..], p, key);
    }
  }

  lemma DigestStays(c: Client, b: Book, e: Event, p: Name)
    requires !IsSelf(c.me, p) && Durable(b, [e]) && EntryOf(b, p).identity.key.Some?
    requires EntryOf(b, p).identity.digest.Some?
    ensures EntryOf(c.Next(b, e), p).identity.digest.Some?
  {
    assert [e][0] == e;
    match e
    case Publish(kp, devices, directory, server, saved) =>
      PinMovesOnlyWhenStored(c, b, kp, devices, directory, server, saved);
    case _ =>
  }

  /** A statement of ours above our pin is news to the memo. */
  lemma NewsToTheMemo(c: Client, b: Book, kp: IdentityKey, devices: seq<Device>, sent: Sent)
    requires c.sch.Faithful() && MemoSound(c, b) && c.me != "" && Signed(c, kp, devices, sent)
    requires b.self.key == Some(kp.public) ==> b.self.counter < sent.counter
    requires b.self.key.None? || b.self.key == Some(kp.public)
    ensures !Remembered(c.sch, b, Echo(c, kp, sent))
  {
    if c.me in b.memo {
      assert Vouches(c, b, c.me);
      assert !Backed(c, b, c.me, b.memo[c.me], sent.bytes);
    }
  }

  /** An upload that was stored but never answered is accepted when next read. */
  lemma LostReplyHeals(c: Client, b: Book, kp: IdentityKey, devices: seq<Device>, server: Server, saved: bool)
    requires c.sch.Faithful() && MemoSound(c, b) && c.me != "" && b.self.counter < INT64_MAX
    requires b.self.key.None? || b.self.key == Some(kp.public)
    requires Publishing(c.sch, c.me, b, kp, devices, true, server, saved).outcome == Unanswered
    ensures var r := Publishing(c.sch, c.me, b, kp, devices, true, server, saved);
      && r.book == b && r.sent != []
      && Verifying(c.sch, c.me, b, Echo(c, kp, r.sent[|r.sent| - 1]), saved).devices == Some(devices)
  {
    PublishingClimbs(c, b, kp, devices, true, server, saved);
    AttemptsClimb(c, b, kp, devices, server, saved, 0, NextCounter(b.self));
    AttemptsSign(c, b, kp, devices, server, saved, 0, NextCounter(b.self));
    PinMovesOnlyWhenStored(c, b, kp, devices, true, server, saved);
    var r := Publishing(c.sch, c.me, b, kp, devices, true, server, saved);
    var last := r.sent[|r.sent| - 1];
    assert last in r.sent;
    if |r.sent| == 2 {
      assert Beats(r.sent, server, 0, 1);
    }
    NewsToTheMemo(c, b, kp, devices, last);
    EchoIsBelieved(c, b, kp, devices, last, saved);
  }

  /** Our own count never falls, whichever identity it is kept under, short of wrapping. */
  lemma OwnPinClimbs(c: Client, b: Book, e: Event)
    requires Durable(b, [e]) && (b.self.key.None? ==> b.self.counter == 0)
    requires e.Publish? ==> b.self.counter < U64_MAX
    ensures c.Next(b, e).self.counter >= b.self.counter
    ensures c.Next(b, e).self.key != b.self.key ==> e.Publish? || b.self.key.None?
    ensures c.Next(b, e).self.counter == b.self.counter ==>
      c.Next(b, e).self == b.self || b.self.digest == None
  {
    assert [e][0] == e;
    match e
    case Publish(kp, devices, directory, server, saved) =>
      PinMovesOnlyWhenStored(c, b, kp, devices, directory, server, saved);
    case _ =>
  }

  /** Our account stays under `key` throughout, and is never published from a counter that would wrap. */
  predicate KeepsOwn(c: Client, b: Book, events: seq<Event>, key: Bytes32)
    decreases |events|
  {
    && b.self.key == Some(key)
    && (events != [] ==>
        (events[0].Publish? ==> b.self.counter < U64_MAX) && KeepsOwn(c, c.Next(b, events[0]), events[1..], key))
  }

  lemma OwnDigestStays(c: Client, b: Book, e: Event)
    requires Durable(b, [e]) && b.self.digest.Some?
    ensures c.Next(b, e).self.digest.Some?
  {
    assert [e][0] == e;
    match e
    case Publish(kp, devices, directory, server, saved) =>
      PinMovesOnlyWhenStored(c, b, kp, devices, directory, server, saved);
    case _ =>
  }

  lemma {:induction false} OwnPinClimbsInARun(c: Client, b: Book, events: seq<Event>, key: Bytes32)
    requires Durable(b, events) && KeepsOwn(c, b, events, key) && b.self.digest.Some?
    ensures var end := c.Run(b, events).self;
      end.key == Some(key) && end.digest.Some? && NotBehind(b.self, end)
    decreases |events|
  {
    if events != [] {
      DurableNext(c, b, events);
      OwnPinClimbs(c, b, events[0]);
      OwnDigestStays(c, b, events[0]);
      OwnPinClimbsInARun(c, c.Next(b, events[0]), events[1..], key);
    }
  }

  lemma RememberedIsOwnPin(c: Client, b: Book, sm: SignedManifest, key: Bytes32)
    requires MemoSound(c, b) && c.me != "" && SpeaksFor(c, sm, c.me, key) && Remembered(c.sch, b, sm)
    requires b.self.key == Some(key)
    ensures b.self == Pin(Some(key), Checked(c.sch, sm).value.counter, Some(c.sch.digest(sm.bytes)))
  {
    assert Vouches(c, b, c.me);
    assert Backed(c, b, c.me, b.memo[c.me], sm.bytes);
  }

  lemma BehindOwnIsRefused(c: Client, b: Book, sm: SignedManifest, key: Bytes32, saved: bool)
    requires MemoSound(c, b) && c.me != "" && SpeaksFor(c, sm, c.me, key)
    requires b.self.key == Some(key) && b.self.digest.Some?
    requires Checked(c.sch, sm).value.counter < b.self.counter
      || (Checked(c.sch, sm).value.counter == b.self.counter && b.self.digest != Some(c.sch.digest(sm.bytes)))
    ensures Verifying(c.sch, c.me, b, sm, saved) == Verdict(b, None)
  {
    if Remembered(c.sch, b, sm) {
      RememberedIsOwnPin(c, b, sm, key);
    }
  }

  /**
   * The rollback defence for our own account. Once our pin stands at a statement, then as
   * long as it stays under that identity no other statement of it at or below that
   * counter is believed again, by memo or by check.
   */
  lemma NoOwnRollback(c: Client, b: Book, events: seq<Event>, bytes: Bytes, later: SignedManifest, key: Bytes32, saved: bool)
    requires c.sch.Collisionless() && c.sch.Faithful() && MemoSound(c, b) && c.me != ""
    requires b.self.digest == Some(c.sch.digest(bytes))
    requires Durable(b, events) && KeepsOwn(c, b, events, key)
    requires SpeaksFor(c, later, c.me, key)
    requires Checked(c.sch, later).value.counter <= b.self.counter && later.bytes != bytes
    ensures Verifying(c.sch, c.me, c.Run(b, events), later, saved) == Verdict(c.Run(b, events), None)
  {
    MemoIsSoundInARun(c, b, events);
    OwnPinClimbsInARun(c, b, events, key);
    BehindOwnIsRefused(c, c.Run(b, events), later, key, saved);
  }

  /** So after a stored publish a server cannot bring back an older device list of ours, nor another at the same counter. */
  lemma PublishedIsNotRolledBack(
    c: Client, b: Book, kp: IdentityKey, devices: seq<Device>, server: Server, landed: bool,
    events: seq<Event>, later: SignedManifest, saved: bool)
    requires c.sch.Collisionless() && c.sch.Faithful() && MemoSound(c, b)
    requires Publishing(c.sch, c.me, b, kp, devices, true, server, landed).outcome == Published
    requires var r := Publishing(c.sch, c.me, b, kp, devices, true, server, landed);
      && r.sent != []
      && Durable(r.book, events) && KeepsOwn(c, r.book, events, kp.public)
      && SpeaksFor(c, later, c.me, kp.public)
      && Checked(c.sch, later).value.counter <= r.sent[|r.sent| - 1].counter
      && later.bytes != r.sent[|r.sent| - 1].bytes
    ensures var r := Publishing(c.sch, c.me, b, kp, devices, true, server, landed);
      Verifying(c.sch, c.me, c.Run(r.book, events), later, saved) == Verdict(c.Run(r.book, events), None)
  {
    var r := Publishing(c.sch, c.me, b, kp, devices, true, server, landed);
    PinMovesOnlyWhenStored(c, b, kp, devices, true, server, landed);
    PublishingStaysSound(c, b, kp, devices, true, server, landed);
    NoOwnRollback(c, r.book, events, r.sent[|r.sent| - 1].bytes, later, kp.public, saved);
  }

  /**
   * A device signs itself out exactly where a statement of its own account that it had
   * not memoized is believed and is either under another identity than the one pinned, or
   * does not list a device that was listed before.
   */
  lemma SignsOutExactlyWhere(c: Client, b: Book, st: Standing, sm: SignedManifest, ours: PublicKey)
    requires !st.signedOut
    ensures StandingAfter(c.sch, c.me, b, st, sm, ours).signedOut <==>
      (IsSelf(c.me, sm.name) && sm.present && sm.bytes != [] && !Remembered(c.sch, b, sm)
       && Verifying(c.sch, c.me, b, sm, false).devices.Some?
       && (OtherIdentity(b.self, Checked(c.sch, sm).value.identity.bytes)
           || (st.linked && ours !in Boxes(Verifying(c.sch, c.me, b, sm, false).devices.value))))
  {
  }

  /** So no replay of an older list of ours, however it is signed, moves a device's standing or signs it out. */
  lemma ReplayMovesNothing(
    c: Client, b: Book, events: seq<Event>, bytes: Bytes, later: SignedManifest, key: Bytes32, st: Standing, ours: PublicKey)
    requires c.sch.Collisionless() && c.sch.Faithful() && MemoSound(c, b) && c.me != ""
    requires b.self.digest == Some(c.sch.digest(bytes))
    requires Durable(b, events) && KeepsOwn(c, b, events, key)
    requires SpeaksFor(c, later, c.me, key)
    requires Checked(c.sch, later).value.counter <= b.self.counter && later.bytes != bytes
    ensures StandingAfter(c.sch, c.me, c.Run(b, events), st, later, ours) == st
  {
    NoOwnRollback(c, b, events, bytes, later, key, false);
  }

  /**
   * Why the saves matter: a pin that was not written is gone after a restart, and the
   * older manifest it would have refused is believed.
   */
  lemma UnsavedPinIsForgotten(c: Client, older: SignedManifest, newer: SignedManifest, p: Name, key: Bytes32)
    requires c.sch.Collisionless() && !IsSelf(c.me, p) && SpeaksFor(c, older, p, key) && SpeaksFor(c, newer, p, key)
    requires Checked(c.sch, older).value.counter < Checked(c.sch, newer).value.counter
    ensures var start := SignedOn(Book(map[], UNPINNED, map[], TrustFile(map[], UNPINNED)));
      var run := [Present(newer, false), SignOn];
      && Verifying(c.sch, c.me, start, newer, false).devices.Some?
      && Verifying(c.sch, c.me, c.Next(start, Present(newer, false)), older, false).devices.None?
      && Verifying(c.sch, c.me, c.Run(start, run), older, false).devices.Some?
  {
    var start := SignedOn(Book(map[], UNPINNED, map[], TrustFile(map[], UNPINNED)));
    var run := [Present(newer, false), SignOn];
    var once := c.Next(start, run[0]);
    assert run[1..] == [SignOn] && [SignOn][1..] == [];
    assert c.Run(start, run) == c.Run(once, [SignOn]) == c.Run(SignedOn(once), []);
    assert SignedOn(once) == start;
    assert older.bytes != newer.bytes;
  }
}
