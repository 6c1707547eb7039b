/** What no directory can do to the identities and device lists we hold. */
module ManifestLaws {
  import opened Words
  import opened Layout
  import opened Keys
  import opened Manifests

  datatype Event =
    | Present(sm: SignedManifest, saved: bool)
    | Publish(kp: IdentityKey, devices: seq<Device>, directory: bool, server: Server, saved: bool)
    | Note(who: Name, keys: seq<PublicKey>, saved: bool)
    | Confirm(who: Name, saved: bool)
    | Unconfirm(who: Name, saved: bool)
    | SignOn

  datatype Client = Client(sch: Scheme, text: KeyText, me: Name)
  {
    function Next(b: Book, e: Event): Book {
      match e
      case Present(sm, saved) => Verifying(sch, me, b, sm, saved).book
      case Publish(kp, devices, directory, server, saved) => Publishing(sch, me, b, kp, devices, directory, server, saved).book
      case Note(who, keys, saved) => Noted(text, b, who, keys, saved)
      case Confirm(who, saved) => Confirmed(b, who, saved)
      case Unconfirm(who, saved) => Unconfirmed(b, who, saved)
      case SignOn => SignedOn(b)
    }

    function Run(b: Book, events: seq<Event>): Book
      decreases |events|
    {
      if events == [] then b else Run(Next(b, events[0]), events[1..])
    }
  }

  // --- The file ---------------------------------------------------------------------------

  predicate Saved(e: Event) {
    e.SignOn? || e.saved
  }

  /** Every save of the run landed. */
  predicate Landed(events: seq<Event>) {
    forall e | e in events :: Saved(e)
  }

  predicate InSync(b: Book) {
    b.file.peers == b.peers && b.file.self == b.self
  }

  // --- Publishing ---------------------------------------------------------------------------

  /** The `i`-th statement beats the one before it and what the server answered to it. */
  predicate Beats(sent: seq<Sent>, server: Server, n: nat, i: nat)
    requires 0 < i < |sent|
  {
    && server.Answer(n + i - 1).RefusedAt?
    && sent[i].counter > sent[i - 1].counter
    && sent[i].counter == server.Answer(n + i - 1).counter + 1 <= INT64_MAX
  }

  lemma {:induction false} AttemptsClimb(c: Client, b: Book, kp: IdentityKey, devices: seq<Device>, server: Server, saved: bool,
                                         n: nat, counter: u64)
    requires n <= 2
    ensures var r := Attempts(c.sch, c.me, b, kp, devices, server, saved, n, counter);
      && |r.sent| <= 2 - n
      && (r.sent != [] ==> r.sent[0].counter == counter)
      && (forall i | 0 < i < |r.sent| :: Beats(r.sent, server, n, i))
    decreases 2 - n
  {
    if n < 2 && Built(c.sch, c.me, kp.public, counter, devices).Some? && server.Answer(n).RefusedAt?
       && counter <= server.Answer(n).counter < INT64_MAX {
      AttemptsClimb(c, b, kp, devices, server, saved, n + 1, server.Answer(n).counter + 1);
    }
  }

  /** A statement the run sent, in the bytes the account's identity signed. */
  predicate Signed(c: Client, kp: IdentityKey, devices: seq<Device>, sent: Sent) {
    c.sch.encode(Statement(c.me, kp.public, sent.counter, devices)) == Some(sent.bytes)
  }

  lemma {:induction false} AttemptsSign(c: Client, b: Book, kp: IdentityKey, devices: seq<Device>, server: Server, saved: bool,
                                        n: nat, counter: u64)
    requires n <= 2
    ensures var r := Attempts(c.sch, c.me, b, kp, devices, server, saved, n, counter);
      && (forall s | s in r.sent :: Signed(c, kp, devices, s))
      && (r.outcome == Unanswered || r.outcome == Published ==> r.sent != [])
    decreases 2 - n
  {
    if n < 2 && Built(c.sch, c.me, kp.public, counter, devices).Some? && server.Answer(n).RefusedAt?
       && counter <= server.Answer(n).counter < INT64_MAX {
      AttemptsSign(c, b, kp, devices, server, saved, n + 1, server.Answer(n).counter + 1);
      var rest := Attempts(c.sch, c.me, b, kp, devices, server, saved, n + 1, server.Answer(n).counter + 1).sent;
      var first := Sent(counter, Built(c.sch, c.me, kp.public, counter, devices).value);
      forall s | s in [first] + rest ensures Signed(c, kp, devices, s) {
        assert s == first || s in rest;
      }
    }
  }

  lemma {:induction false} AttemptsRecord(c: Client, b: Book, kp: IdentityKey, devices: seq<Device>, server: Server, saved: bool,
                                          n: nat, counter: u64)
    requires n <= 2
    ensures var r := Attempts(c.sch, c.me, b, kp, devices, server, saved, n, counter);
      && (r.outcome != Published ==> r.book == b)
      && (r.outcome == Published ==>
          (r.sent != [] && server.Answer(n + |r.sent| - 1) == Stored
           && r.book == Recorded(c.sch, c.me, b, kp, devices, r.sent[|r.sent| - 1], saved)))
    decreases 2 - n
  {
    if n < 2 && Built(c.sch, c.me, kp.public, counter, devices).Some? && server.Answer(n).RefusedAt?
       && counter <= server.Answer(n).counter < INT64_MAX {
      AttemptsRecord(c, b, kp, devices, server, saved, n + 1, server.Answer(n).counter + 1);
    }
  }

  /**
   * Against any server at most two statements are signed, the second above both the
   * first and the counter the server reported. All of them stay in range exactly where
   * the pin leaves room, and the pin moves only for a stored publish, to what was stored.
   */
  lemma PublishingClimbs(c: Client, b: Book, kp: IdentityKey, devices: seq<Device>, directory: bool, server: Server, saved: bool)
    ensures var r := Publishing(c.sch, c.me, b, kp, devices, directory, server, saved);
      && |r.sent| <= 2
      && (|r.sent| == 2 ==>
          (server.first.RefusedAt? && r.sent[1].counter > r.sent[0].counter && r.sent[1].counter > server.first.counter))
      && (r.sent != [] ==>
          ((forall s | s in r.sent :: 0 < s.counter <= INT64_MAX) <==> b.self.counter < INT64_MAX))
  {
    if directory && c.me != "" && |devices| <= MAX_DEVICES {
      AttemptsClimb(c, b, kp, devices, server, saved, 0, NextCounter(b.self));
      var r := Publishing(c.sch, c.me, b, kp, devices, directory, server, saved);
      if |r.sent| == 1 {
        assert r.sent == [r.sent[0]] && r.sent[0].counter == NextCounter(b.self);
      } else if |r.sent| == 2 {
        assert r.sent == [r.sent[0], r.sent[1]] && r.sent[0].counter == NextCounter(b.self);
        assert Beats(r.sent, server, 0, 1);
      }
    }
  }

  /** The pin moves only for a publish the server says it stored: to exactly that statement, and up. */
  lemma PinMovesOnlyWhenStored(c: Client, b: Book, kp: IdentityKey, devices: seq<Device>, directory: bool, server: Server, saved: bool)
    ensures var r := Publishing(c.sch, c.me, b, kp, devices, directory, server, saved);
      && (r.outcome != Published ==> r.book == b)
      && (r.outcome == Published ==>
          r.sent != [] &&
          var last := r.sent[|r.sent| - 1];
          && server.Answer(|r.sent| - 1) == Stored
          && Signed(c, kp, devices, last)
          && r.book == Recorded(c.sch, c.me, b, kp, devices, last, saved)
          && (b.self.counter < U64_MAX ==> last.counter > b.self.counter))
  {
    if directory && c.me != "" && |devices| <= MAX_DEVICES {
      AttemptsClimb(c, b, kp, devices, server, saved, 0, NextCounter(b.self));
      AttemptsSign(c, b, kp, devices, server, saved, 0, NextCounter(b.self));
      AttemptsRecord(c, b, kp, devices, server, saved, 0, NextCounter(b.self));
      var r := Publishing(c.sch, c.me, b, kp, devices, directory, server, saved);
      if |r.sent| == 2 {
        assert Beats(r.sent, server, 0, 1);
      }
      if r.outcome == Published {
        assert r.sent[|r.sent| - 1] in r.sent;
      }
    }
  }

  /** A statement at this counter can be built and fits. */
  predicate Fits(c: Client, kp: IdentityKey, devices: seq<Device>, counter: u64) {
    var bytes := c.sch.encode(Statement(c.me, kp.public, counter, devices));
    bytes.Some? && |bytes.value| <= MAX_MANIFEST_LEN
  }

  /** The server already holds a counter at or above ours, with room for another above it. */
  predicate Outbid(reply: Reply, counter: u64) {
    reply.RefusedAt? && counter <= reply.counter < INT64_MAX
  }

  /**
   * Publishing succeeds exactly where the first statement, one above our pin, is stored,
   * or is refused for a counter the server already holds and the second, one above that,
   * is stored. What was sent is those statements and no others.
   */
  lemma PublishedExactlyWhere(c: Client, b: Book, kp: IdentityKey, devices: seq<Device>, directory: bool, server: Server, saved: bool)
    ensures var r := Publishing(c.sch, c.me, b, kp, devices, directory, server, saved);
      var first := NextCounter(b.self);
      var may := directory && c.me != "" && |devices| <= MAX_DEVICES;
      && (r.outcome == Published <==>
          && may && Fits(c, kp, devices, first)
          && (server.first == Stored
              || (Outbid(server.first, first) && Fits(c, kp, devices, server.first.counter + 1) && server.second == Stored)))
      && (|r.sent| >= 1 <==> may && Fits(c, kp, devices, first))
      && (|r.sent| == 2 <==>
          may && Fits(c, kp, devices, first) && Outbid(server.first, first) && Fits(c, kp, devices, server.first.counter + 1))
      && (|r.sent| >= 1 ==> r.sent[0].counter == first)
      && (|r.sent| == 2 ==> r.sent[1].counter == server.first.counter + 1)
  {
    if directory && c.me != "" && |devices| <= MAX_DEVICES && Fits(c, kp, devices, NextCounter(b.self)) {
      var rest := Attempts(c.sch, c.me, b, kp, devices, server, saved, 1, if Outbid(server.first, NextCounter(b.self)) then server.first.counter + 1 else 0);
      assert |rest.sent| <= 1 by {
        AttemptsClimb(c, b, kp, devices, server, saved, 1, if Outbid(server.first, NextCounter(b.self)) then server.first.counter + 1 else 0);
      }
      assert Attempts(c.sch, c.me, b, kp, devices, server, saved, 2, 0).sent == [];
    }
  }

  /** What the last answer makes of the statement it is an answer to. */
  function Told(reply: Reply, counter: u64, last: bool): Outcome {
    match reply
    case Stored => Published
    case NoAnswer => Unanswered
    case BoundElsewhere => WrongIdentity
    case RefusedAt(held) =>
      if held < counter then NotNewer
      else if held >= INT64_MAX then TopOfRange
      else if last then LostTwice
      else CannotEncode   // there was room for a second statement, and it could not be built
  }

  /** Every way publishing ends. */
  lemma PublishingEnds(c: Client, b: Book, kp: IdentityKey, devices: seq<Device>, directory: bool, server: Server, saved: bool)
    ensures var r := Publishing(c.sch, c.me, b, kp, devices, directory, server, saved);
      r.outcome ==
        if !directory then NoDirectory
        else if c.me == "" then NotSignedOn
        else if |devices| > MAX_DEVICES then TooManyDevices
        else if r.sent == [] then CannotEncode
        else Told(server.Answer(|r.sent| - 1), r.sent[|r.sent| - 1].counter, |r.sent| == 2)
  {
    if directory && c.me != "" && |devices| <= MAX_DEVICES && Outbid(server.first, NextCounter(b.self)) {
      AttemptsClimb(c, b, kp, devices, server, saved, 0, NextCounter(b.self));
      assert Attempts(c.sch, c.me, b, kp, devices, server, saved, 2, 0) == PublishRun(b, [], LostTwice);
    }
  }

  lemma {:induction false} ListingReadsBack(devices: seq<Device>)
    ensures DevicesFrom(Listing(devices)) == devices
  {
    if devices != [] {
      ListingReadsBack(devices[1..]);
      assert UsableDevice(ListingOf(devices[0])) == Some(devices[0]);
    }
  }

  /** The server handing back exactly what it stored. */
  function Echo(c: Client, kp: IdentityKey, sent: Sent): SignedManifest {
    SignedManifest(c.me, true, sent.bytes, ALG_ED25519, c.sch.sign(kp, sent.bytes))
  }

  lemma EchoIsInOrder(c: Client, kp: IdentityKey, devices: seq<Device>, sent: Sent)
    requires c.sch.Faithful() && Signed(c, kp, devices, sent)
    ensures Checked(c.sch, Echo(c, kp, sent)) ==
      if 0 < sent.counter <= INT64_MAX then Some(Statement(c.me, kp.public, sent.counter, devices)) else None
    ensures sent.bytes != []
  {
  }

  /** Reading back a statement under a pin it was made from, or that it beats. */
  lemma EchoIsBelieved(c: Client, b: Book, kp: IdentityKey, devices: seq<Device>, sent: Sent, saved: bool)
    requires c.sch.Faithful() && c.me != "" && Signed(c, kp, devices, sent) && !Remembered(c.sch, b, Echo(c, kp, sent))
    requires b.self.key.None? || b.self == Pin(Some(kp.public), sent.counter, Some(c.sch.digest(sent.bytes)))
      || (b.self.key == Some(kp.public) && b.self.counter < sent.counter)
    ensures Verifying(c.sch, c.me, b, Echo(c, kp, sent), saved).devices ==
      if 0 < sent.counter <= INT64_MAX then Some(devices) else None
  {
    EchoIsInOrder(c, kp, devices, sent);
    ListingReadsBack(devices);
  }

  /**
   * What we published is what we read back: at once, and after a restart exactly where
   * the counter stayed in range, which it does where the pin left room.
   */
  lemma PublishedIsReadBack(c: Client, b: Book, kp: IdentityKey, devices: seq<Device>, server: Server, anySave: bool)
    requires c.sch.Faithful() && c.me != ""
    requires Publishing(c.sch, c.me, b, kp, devices, true, server, true).outcome == Published
    ensures var r := Publishing(c.sch, c.me, b, kp, devices, true, server, true);
      r.sent != [] &&
      var last := r.sent[|r.sent| - 1];
      && Verifying(c.sch, c.me, r.book, Echo(c, kp, last), anySave) == Verdict(r.book, Some(devices))
      && Verifying(c.sch, c.me, SignedOn(r.book), Echo(c, kp, last), anySave).devices ==
         (if 0 < last.counter <= INT64_MAX then Some(devices) else None)
      && (b.self.counter < INT64_MAX ==> 0 < last.counter <= INT64_MAX)
  {
    PublishingClimbs(c, b, kp, devices, true, server, true);
    PinMovesOnlyWhenStored(c, b, kp, devices, true, server, true);
    var r := Publishing(c.sch, c.me, b, kp, devices, true, server, true);
    var last := r.sent[|r.sent| - 1];
    assert last in r.sent;
    EchoIsInOrder(c, kp, devices, last);
    EchoIsBelieved(c, SignedOn(r.book), kp, devices, last, anySave);
  }
}
