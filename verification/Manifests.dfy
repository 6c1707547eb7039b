/**
 * Signed device lists: which of them to believe, how an account publishes its own, and
 * what is remembered of every account's identity.
 */
module Manifests {
  import opened Words
  import opened Layout
  import opened Keys

  type Name = string
  type Digest = Bytes

  const VERSION := 2
  const ALG_X25519 := 1
  const ALG_ED25519 := 2
  const MAX_DEVICES := 5
  const MAX_MANIFEST_LEN := 16384

  datatype Key = Key(alg: nat, bytes: Bytes)
  datatype Listed = Listed(box: Key, sign: Key)
  datatype Manifest = Manifest(version: nat, name: Name, counter: u64, identity: Key, devices: seq<Listed>)
  datatype Device = Device(box: PublicKey, sign: Option<Bytes32>)

  /** A directory's answer about an account: bytes, and a signature over exactly those bytes. */
  datatype SignedManifest = SignedManifest(name: Name, present: bool, bytes: Bytes, alg: nat, signature: Bytes)

  /** An identity, the highest counter accepted under it, and which statement that was. */
  datatype Pin = Pin(key: Option<Bytes32>, counter: u64, digest: Option<Digest>)

  datatype Entry = Entry(verified: Option<Bytes32>, seen: string, identity: Pin)

  datatype Memo = Memo(sum: Digest, devices: seq<Device>)

  datatype TrustFile = TrustFile(peers: map<Name, Entry>, self: Pin)

  datatype Book = Book(peers: map<Name, Entry>, self: Pin, memo: map<Name, Memo>, file: TrustFile)

  /** What this machine knows of its own place: the devices listed, whether it is one, whether it has been signed out for good. */
  datatype Standing = Standing(devices: seq<PublicKey>, linked: bool, signedOut: bool)

  const NEWCOMER := Standing([], false, false)

  const UNPINNED := Pin(None, 0, None)
  const STRANGER := Entry(None, "", UNPINNED)

  datatype IdentityKey = IdentityKey(public: Bytes32, secret: Bytes)

  /** Encoding, hashing and signing, as functions. */
  datatype Scheme = Scheme(
    encode: Manifest -> Option<Bytes>,
    decode: Bytes -> Option<Manifest>,
    digest: Bytes -> Digest,
    sign: (IdentityKey, Bytes) -> Bytes,
    verifies: (Bytes32, Bytes, Bytes) -> bool)
  {
    ghost predicate Collisionless() {
      forall a, b :: digest(a) == digest(b) ==> a == b
    }

    ghost predicate Faithful() {
      && (forall m :: encode(m).Some? ==> decode(encode(m).value) == Some(m) && encode(m).value != [])
      && (forall k: IdentityKey, b: Bytes :: verifies(k.public, b, sign(k, b)))
    }
  }

  // --- Believing ----------------------------------------------------------------------

  predicate IsSelf(me: Name, who: Name) {
    me != "" && me == who
  }

  function EntryOf(b: Book, who: Name): Entry {
    if who in b.peers then b.peers[who] else STRANGER
  }

  /** The pin that governs manifests of `who`. */
  function PinOf(b: Book, me: Name, who: Name): Pin {
    if IsSelf(me, who) then b.self else EntryOf(b, who).identity
  }

  /** The manifest the pin was made from, seen again; a pin without a digest takes any at its counter. */
  predicate Reread(pin: Pin, counter: u64, digest: Digest) {
    counter == pin.counter && (pin.digest == None || pin.digest == Some(digest))
  }

  predicate OtherIdentity(pin: Pin, key: Bytes32) {
    pin.key.Some? && pin.key != Some(key)
  }

  /** A high-water mark scoped to an identity: a different one starts its own count. */
  predicate Acceptable(b: Book, me: Name, who: Name, key: Bytes32, counter: u64, digest: Digest) {
    var pin := PinOf(b, me, who);
    || OtherIdentity(pin, key)
    || (IsSelf(me, who) && pin.key.None?)
    || Reread(pin, counter, digest)
    || counter > pin.counter
  }

  /** Our own pin is not moved to another identity; a peer's is, leaving their verified one alone. */
  function Accepting(b: Book, me: Name, who: Name, key: Bytes32, counter: u64, digest: Digest, saved: bool): Book {
    var pin := Pin(Some(key), counter, Some(digest));
    if IsSelf(me, who) then
      if OtherIdentity(b.self, key) then b
      else b.(self := pin, file := if saved then b.file.(self := pin) else b.file)
    else
      WithPeers(b, b.peers[who := EntryOf(b, who).(identity := pin)], saved)
  }

  function WithPeers(b: Book, peers: map<Name, Entry>, saved: bool): Book {
    b.(peers := peers, file := if saved then b.file.(peers := peers) else b.file)
  }

  /** What the signature vouches for, if everything about it is in order. */
  function Checked(sch: Scheme, sm: SignedManifest): Option<Manifest> {
    if sm.alg != ALG_ED25519 then None
    else
      match sch.decode(sm.bytes)
      case None => None
      case Some(m) =>
        if m.version == VERSION && m.identity.alg == ALG_ED25519 && |m.identity.bytes| == 32
           && sch.verifies(m.identity.bytes, sm.bytes, sm.signature)
           && m.name == sm.name && 0 < m.counter <= INT64_MAX
        then Some(m) else None
  }

  function UsableDevice(d: Listed): Option<Device> {
    if d.box.alg != ALG_X25519 || |d.box.bytes| != 32 then None
    else Some(Device(d.box.bytes,
                     if d.sign.alg == ALG_ED25519 && |d.sign.bytes| == 32 then Some(d.sign.bytes) else None))
  }

  /** Devices whose keys we cannot encrypt to are skipped. */
  function DevicesFrom(listed: seq<Listed>): seq<Device> {
    if listed == [] then []
    else match UsableDevice(listed[0])
         case Some(d) => [d] + DevicesFrom(listed[1..])
         case None => DevicesFrom(listed[1..])
  }

  datatype Verdict = Verdict(book: Book, devices: Option<seq<Device>>)

  function FullCheck(sch: Scheme, me: Name, b: Book, sm: SignedManifest, saved: bool): Verdict {
    match Checked(sch, sm)
    case None => Verdict(b, None)
    case Some(m) =>
      var d := sch.digest(sm.bytes);
      if Acceptable(b, me, sm.name, m.identity.bytes, m.counter, d) then
        var c := Accepting(b, me, sm.name, m.identity.bytes, m.counter, d, saved);
        var devices := DevicesFrom(m.devices);
        Verdict(c.(memo := c.memo[sm.name := Memo(d, devices)]), Some(devices))
      else Verdict(b, None)
  }

  function Boxes(devices: seq<Device>): seq<PublicKey> {
    if devices == [] then [] else [devices[0].box] + Boxes(devices[1..])
  }

  /**
   * A manifest of our own account, believed: under another identity than the pinned one
   * the account was replaced; not listing us is a removal only if we were listed before.
   */
  function SelfSeen(st: Standing, pin: Pin, key: Bytes32, devices: seq<Device>, ours: PublicKey): Standing {
    var boxes := Canonical(Boxes(devices));
    if OtherIdentity(pin, key) then Standing(boxes, false, true)
    else Standing(boxes, ours in Boxes(devices), st.signedOut || (st.linked && ours !in Boxes(devices)))
  }

  predicate Remembered(sch: Scheme, b: Book, sm: SignedManifest) {
    sm.name in b.memo && b.memo[sm.name].sum == sch.digest(sm.bytes)
  }

  function Verifying(sch: Scheme, me: Name, b: Book, sm: SignedManifest, saved: bool): Verdict {
    if !sm.present || sm.bytes == [] then Verdict(b, None)
    else if Remembered(sch, b, sm) then Verdict(b, Some(b.memo[sm.name].devices))
    else FullCheck(sch, me, b, sm, saved)
  }

  /** Where a manifest leaves us; one already memoized says nothing new. */
  function StandingAfter(sch: Scheme, me: Name, b: Book, st: Standing, sm: SignedManifest, ours: PublicKey): Standing {
    if !sm.present || sm.bytes == [] || Remembered(sch, b, sm) || !IsSelf(me, sm.name) then st
    else
      var v := FullCheck(sch, me, b, sm, false);
      if v.devices.None? then st
      else SelfSeen(st, v.book.self, Checked(sch, sm).value.identity.bytes, v.devices.value, ours)
  }

  // --- Publishing ----------------------------------------------------------------------

  datatype Reply = NoAnswer | Stored | BoundElsewhere | RefusedAt(counter: u64)

  /** How the server answers a first and a second attempt. */
  datatype Server = Server(first: Reply, second: Reply)
  {
    function Answer(n: nat): Reply {
      if n == 0 then first else second
    }
  }

  datatype Outcome =
    | Published
    | NoDirectory | NotSignedOn | TooManyDevices | CannotEncode
    | Unanswered | WrongIdentity | NotNewer | TopOfRange | LostTwice

  datatype Sent = Sent(counter: u64, bytes: Bytes)

  datatype PublishRun = PublishRun(book: Book, sent: seq<Sent>, outcome: Outcome)

  function ListingOf(d: Device): Listed {
    Listed(Key(ALG_X25519, d.box), match d.sign case Some(k) => Key(ALG_ED25519, k) case None => Key(0, []))
  }

  function Listing(devices: seq<Device>): seq<Listed> {
    if devices == [] then [] else [ListingOf(devices[0])] + Listing(devices[1..])
  }

  function Statement(me: Name, identity: Bytes32, counter: u64, devices: seq<Device>): Manifest {
    Manifest(VERSION, me, counter, Key(ALG_ED25519, identity), Listing(devices))
  }

  function Built(sch: Scheme, me: Name, identity: Bytes32, counter: u64, devices: seq<Device>): Option<Bytes> {
    match sch.encode(Statement(me, identity, counter, devices))
    case None => None
    case Some(b) => if |b| > MAX_MANIFEST_LEN then None else Some(b)
  }

  /** One above the highest counter seen for this account; 1 if none was. */
  function NextCounter(pin: Pin): u64 {
    if pin.counter == 0 then 1 else Add64(pin.counter, 1)
  }

  function Recorded(sch: Scheme, me: Name, b: Book, kp: IdentityKey, devices: seq<Device>, sent: Sent, saved: bool): Book {
    var pin := Pin(Some(kp.public), sent.counter, Some(sch.digest(sent.bytes)));
    b.(self := pin, memo := b.memo[me := Memo(sch.digest(sent.bytes), devices)],
       file := if saved then b.file.(self := pin) else b.file)
  }

  /** The attempts from the `n`-th on, signing at `counter`. */
  function Attempts(sch: Scheme, me: Name, b: Book, kp: IdentityKey, devices: seq<Device>, server: Server, saved: bool,
                    n: nat, counter: u64): PublishRun
    requires n <= 2
    decreases 2 - n
  {
    if n == 2 then PublishRun(b, [], LostTwice)
    else
      match Built(sch, me, kp.public, counter, devices)
      case None => PublishRun(b, [], CannotEncode)
      case Some(bytes) =>
        var sent := Sent(counter, bytes);
        match server.Answer(n)
        case NoAnswer => PublishRun(b, [sent], Unanswered)
        case BoundElsewhere => PublishRun(b, [sent], WrongIdentity)
        case Stored => PublishRun(Recorded(sch, me, b, kp, devices, sent, saved), [sent], Published)
        case RefusedAt(held) =>
          if held < counter then PublishRun(b, [sent], NotNewer)
          else if held >= INT64_MAX then PublishRun(b, [sent], TopOfRange)
          else
            var rest := Attempts(sch, me, b, kp, devices, server, saved, n + 1, held + 1);
            rest.(sent := [sent] + rest.sent)
  }

  function Publishing(sch: Scheme, me: Name, b: Book, kp: IdentityKey, devices: seq<Device>, directory: bool,
                      server: Server, saved: bool): PublishRun {
    if !directory then PublishRun(b, [], NoDirectory)
    else if me == "" then PublishRun(b, [], NotSignedOn)
    else if |devices| > MAX_DEVICES then PublishRun(b, [], TooManyDevices)
    else Attempts(sch, me, b, kp, devices, server, saved, 0, NextCounter(b.self))
  }

  function Others(devices: seq<Device>, box: PublicKey): seq<Device> {
    if devices == [] then []
    else if devices[0].box == box then Others(devices[1..], box)
    else [devices[0]] + Others(devices[1..], box)
  }

  /** The devices of the last manifest, this machine in its present form last. */
  function CurrentDevices(b: Book, me: Name, ours: Device): seq<Device> {
    Others(if me in b.memo then b.memo[me].devices else [], ours.box) + [ours]
  }

  // --- What is remembered of a peer ------------------------------------------------------

  function Noted(t: KeyText, b: Book, who: Name, keys: seq<PublicKey>, saved: bool): Book {
    var e := EntryOf(b, who);
    if e.seen == t.Stored(keys) then b
    else WithPeers(b, b.peers[who := e.(seen := t.Stored(keys))], saved)
  }

  function Confirmed(b: Book, who: Name, saved: bool): Book {
    var e := EntryOf(b, who);
    if e.identity.key.None? then b
    else WithPeers(b, b.peers[who := e.(verified := e.identity.key)], saved)
  }

  /** Dropping a verification keeps the pin, and with it the counter to beat. */
  function Unconfirmed(b: Book, who: Name, saved: bool): Book {
    var e := EntryOf(b, who).(verified := None);
    WithPeers(b, if e.seen == "" && e.identity.key.None? then b.peers - {who} else b.peers[who := e], saved)
  }

  predicate PublishedBefore(b: Book, who: Name) {
    who in b.peers && b.peers[who].seen != ""
  }

  /** Signing on reads the file and forgets what was memoized. */
  function SignedOn(b: Book): Book {
    b.(peers := b.file.peers, self := b.file.self, memo := map[])
  }

  class TrustBook {
    var peers: map<Name, Entry>
    var selfPin: Pin
    var memo: map<Name, Memo>
    var file: TrustFile
    var standing: Standing

    ghost function State(): Book
      reads this
    {
      Book(peers, selfPin, memo, file)
    }

    constructor (f: TrustFile)
      ensures State() == SignedOn(Book(map[], UNPINNED, map[], f)) && standing == NEWCOMER
    {
      peers, selfPin, memo, file, standing := f.peers, f.self, map[], f, NEWCOMER;
    }

    method SavePeers(saved: bool)
      modifies `file
      ensures State() == WithPeers(old(State()), old(peers), saved)
    {
      if saved {
        file := file.(peers := peers);
      }
    }

    method SetSelfPin(pin: Pin, saved: bool)
      modifies `selfPin, `file
      ensures State() == old(State()).(self := pin, file := if saved then old(file).(self := pin) else old(file))
    {
      selfPin := pin;
      if saved {
        file := file.(self := pin);
      }
    }

    method AcceptCounter(me: Name, who: Name, key: Bytes32, counter: u64, digest: Digest, saved: bool) returns (ok: bool)
      modifies `peers, `selfPin, `file
      ensures ok <==> Acceptable(old(State()), me, who, key, counter, digest)
      ensures State() == if ok then Accepting(old(State()), me, who, key, counter, digest, saved) else old(State())
    {
      if IsSelf(me, who) {
        var pinned := selfPin;
        if pinned.key.None? {
        } else if pinned.key != Some(key) {
          return true;
        } else if counter == pinned.counter && (pinned.digest == Some(digest) || pinned.digest == None) {
        } else if counter <= pinned.counter {
          return false;
        }
        SetSelfPin(Pin(Some(key), counter, Some(digest)), saved);
        return true;
      }
      var entry := if who in peers then peers[who] else STRANGER;
      var prev := entry.identity;
      var changed := prev.key.Some? && prev.key != Some(key);
      var same := !changed && counter == prev.counter && (prev.digest == Some(digest) || prev.digest == None);
      if !changed && !same && counter <= prev.counter {
        return false;
      }
      entry := entry.(identity := Pin(Some(key), counter, Some(digest)));
      peers := peers[who := entry];
      SavePeers(saved);
      ok := true;
    }

    /** `ours` is this machine's own box key. */
    method VerifyManifest(sch: Scheme, me: Name, ours: PublicKey, sm: SignedManifest, saved: bool)
      returns (devices: Option<seq<Device>>)
      modifies this
      ensures Verdict(State(), devices) == Verifying(sch, me, old(State()), sm, saved)
      ensures standing == StandingAfter(sch, me, old(State()), old(standing), sm, ours)
    {
      if !sm.present || |sm.bytes| == 0 {
        return None;
      }
      var sum := sch.digest(sm.bytes);
      if sm.name in memo && memo[sm.name].sum == sum {
        return Some(memo[sm.name].devices);
      }
      if sm.alg != ALG_ED25519 {
        return None;
      }
      var decoded := sch.decode(sm.bytes);
      if decoded.None? {
        return None;
      }
      var m := decoded.value;
      if m.version != VERSION || m.identity.alg != ALG_ED25519 || |m.identity.bytes| != 32 {
        return None;
      }
      if !sch.verifies(m.identity.bytes, sm.bytes, sm.signature) || m.name != sm.name {
        return None;
      }
      if m.counter == 0 || m.counter > INT64_MAX {
        return None;
      }
      var ok := AcceptCounter(me, sm.name, m.identity.bytes, m.counter, sum, saved);
      if !ok {
        return None;
      }
      var found := UsableDevices(m.devices);
      memo := memo[sm.name := Memo(sum, found)];
      if IsSelf(me, sm.name) {
        OnSelfManifest(m.identity.bytes, found, ours);
      }
      devices := Some(found);
    }

    method OnSelfManifest(key: Bytes32, devices: seq<Device>, ours: PublicKey)
      modifies `standing
      ensures standing == SelfSeen(old(standing), selfPin, key, devices, ours)
    {
      var boxes := DedupeKeys(Boxes(devices));
      standing := standing.(devices := boxes);
      if selfPin.key.Some? && selfPin.key != Some(key) {
        standing := standing.(linked := false, signedOut := true);
        return;
      }
      var wasLinked := standing.linked;
      var listed := Lists(devices, ours);
      standing := standing.(linked := listed);
      if listed || !wasLinked {
        return;
      }
      standing := standing.(signedOut := true);
    }

    method PublishManifest(sch: Scheme, me: Name, kp: IdentityKey, devices: seq<Device>, directory: bool, server: Server, saved: bool)
      returns (outcome: Outcome, sent: seq<Sent>)
      modifies this
      ensures PublishRun(State(), sent, outcome) == Publishing(sch, me, old(State()), kp, devices, directory, server, saved)
      ensures standing == if outcome == Published then old(standing).(devices := Canonical(Boxes(devices)), linked := true) else old(standing)
    {
      sent := [];
      if !directory {
        return NoDirectory, sent;
      }
      if me == "" {
        return NotSignedOn, sent;
      }
      if |devices| > MAX_DEVICES {
        return TooManyDevices, sent;
      }
      var counter: u64 := if selfPin.counter == 0 then 1 else Add64(selfPin.counter, 1);
      ghost var b := State();
      ghost var whole := Attempts(sch, me, b, kp, devices, server, saved, 0, counter);
      for attempt := 0 to 2
        invariant State() == b && standing == old(standing)
        invariant whole == Prefixed(sent, Attempts(sch, me, b, kp, devices, server, saved, attempt, counter))
      {
        ghost var before := sent;
        var manifest := Built(sch, me, kp.public, counter, devices);
        if manifest.None? {
          outcome := CannotEncode;
          return;
        }
        var now := Sent(counter, manifest.value);
        sent := sent + [now];
        var reply := server.Answer(attempt);
        AttemptsStep(sch, me, b, kp, devices, server, saved, attempt, counter, now, before);
        if reply.NoAnswer? {
          outcome := Unanswered;
          return;
        }
        if reply.BoundElsewhere? {
          outcome := WrongIdentity;
          return;
        }
        if reply.Stored? {
          Record(sch, me, kp, devices, now, saved);
          outcome := Published;
          return;
        }
        if reply.counter < counter {
          outcome := NotNewer;
          return;
        }
        if reply.counter >= INT64_MAX {
          outcome := TopOfRange;
          return;
        }
        counter := reply.counter + 1;
      }
      outcome := LostTwice;
    }

    method Record(sch: Scheme, me: Name, kp: IdentityKey, devices: seq<Device>, sent: Sent, saved: bool)
      modifies this
      ensures State() == Recorded(sch, me, old(State()), kp, devices, sent, saved)
      ensures standing == old(standing).(devices := Canonical(Boxes(devices)), linked := true)
    {
      var sum := sch.digest(sent.bytes);
      SetSelfPin(Pin(Some(kp.public), sent.counter, Some(sum)), saved);
      memo := memo[me := Memo(sum, devices)];
      var boxes := DedupeKeys(Boxes(devices));
      standing := standing.(devices := boxes, linked := true);
    }

    method Devices(me: Name, ours: Device) returns (out: seq<Device>)
      ensures out == CurrentDevices(State(), me, ours)
    {
      var known := if me in memo then memo[me].devices else [];
      out := [];
      for i := 0 to |known|
        invariant Others(known, ours.box) == out + Others(known[i..], ours.box)
      {
        if known[i].box != ours.box {
          out := out + [known[i]];
        }
      }
      assert known[|known|..] == [] && out + [] == out;
      out := out + [ours];
    }

    method NotePeerKey(t: KeyText, who: Name, keys: seq<PublicKey>, saved: bool)
      modifies `peers, `file
      ensures State() == Noted(t, old(State()), who, keys, saved)
    {
      var encoded := t.EncodeKeys(keys);
      var entry := if who in peers then peers[who] else STRANGER;
      if entry.seen == encoded {
        return;
      }
      peers := peers[who := entry.(seen := encoded)];
      SavePeers(saved);
    }

    method MarkVerified(who: Name, saved: bool)
      modifies `peers, `file
      ensures State() == Confirmed(old(State()), who, saved)
    {
      var entry := if who in peers then peers[who] else STRANGER;
      if entry.identity.key.None? {
        return;
      }
      peers := peers[who := entry.(verified := entry.identity.key)];
      SavePeers(saved);
    }

    method Unverify(who: Name, saved: bool)
      modifies `peers, `file
      ensures State() == Unconfirmed(old(State()), who, saved)
    {
      var entry := (if who in peers then peers[who] else STRANGER).(verified := None);
      if entry.seen == "" && entry.identity.key.None? {
        peers := peers - {who};
      } else {
        peers := peers[who := entry];
      }
      SavePeers(saved);
    }

    method PeerHasPublishedBefore(who: Name) returns (yes: bool)
      ensures yes <==> PublishedBefore(State(), who)
    {
      yes := who in peers && peers[who].seen != "";
    }

    method SignOn()
      modifies this
      ensures State() == SignedOn(old(State())) && standing == NEWCOMER
    {
      peers, selfPin, memo, standing := file.peers, file.self, map[], NEWCOMER;
    }
  }

  function Prefixed(sent: seq<Sent>, r: PublishRun): PublishRun {
    r.(sent := sent + r.sent)
  }

  /** One attempt, its statement already sent. */
  lemma AttemptsStep(sch: Scheme, me: Name, b: Book, kp: IdentityKey, devices: seq<Device>, server: Server, saved: bool,
                     n: nat, counter: u64, now: Sent, before: seq<Sent>)
    requires n < 2 && Built(sch, me, kp.public, counter, devices) == Some(now.bytes) && now.counter == counter
    ensures Prefixed(before, Attempts(sch, me, b, kp, devices, server, saved, n, counter)) ==
      match server.Answer(n)
      case NoAnswer => PublishRun(b, before + [now], Unanswered)
      case BoundElsewhere => PublishRun(b, before + [now], WrongIdentity)
      case Stored => PublishRun(Recorded(sch, me, b, kp, devices, now, saved), before + [now], Published)
      case RefusedAt(held) =>
        if held < counter then PublishRun(b, before + [now], NotNewer)
        else if held >= INT64_MAX then PublishRun(b, before + [now], TopOfRange)
        else Prefixed(before + [now], Attempts(sch, me, b, kp, devices, server, saved, n + 1, held + 1))
  {
    if server.Answer(n).RefusedAt? && counter <= server.Answer(n).counter < INT64_MAX {
      var rest := Attempts(sch, me, b, kp, devices, server, saved, n + 1, server.Answer(n).counter + 1);
      assert before + ([now] + rest.sent) == before + [now] + rest.sent;
    }
  }

  method Lists(devices: seq<Device>, ours: PublicKey) returns (listed: bool)
    ensures listed <==> ours in Boxes(devices)
  {
    for i := 0 to |devices|
      invariant ours in Boxes(devices) <==> ours in Boxes(devices[i..])
    {
      if devices[i].box == ours {
        return true;
      }
    }
    listed := false;
  }

  method UsableDevices(listed: seq<Listed>) returns (out: seq<Device>)
    ensures out == DevicesFrom(listed)
  {
    out := [];
    for i := 0 to |listed|
      invariant DevicesFrom(listed) == out + DevicesFrom(listed[i..])
    {
      match UsableDevice(listed[i])
      case Some(d) => out := out + [d];
      case None =>
    }
    assert listed[|listed|..] == [] && out + [] == out;
  }
}
