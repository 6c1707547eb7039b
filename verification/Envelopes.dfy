/** Messages sealed to every device of an account, and opened by whichever of them can. */
module Envelopes {
  import opened Words
  import opened Layout
  import opened Keys

  type SecretKey = Bytes32
  type Nonce = b: Bytes | |b| == 24 witness seq(24, i => 0 as byte)
  type MessageId = b: Bytes | |b| == 16 witness seq(16, i => 0 as byte)

  const SEALED_KEY_LEN := 48                 // a 32-byte secret under a 16-byte tag
  const WRAPPED_LEN := 24 + SEALED_KEY_LEN   // one recipient's slot
  const HEADER_LEN := 1 + 24 + 1
  const STAMP_LEN := 8 + 16

  const PREFIX_V1 := "\U{1b}BENCO-E2EE:v1:"
  const PREFIX_V2 := "\U{1b}BENCO-E2EE:v2:"
  const PREFIX_V3 := "\U{1b}BENCO-E2EE:v3:"
  const PREFIX_V4 := "\U{1b}BENCO-E2EE:v4:"

  /** When the sender says a message was sent (milliseconds), and its random name. */
  datatype Stamp = Stamp(sentAt: u64, id: MessageId)

  datatype OpenedMessage = Opened(stamp: Option<Stamp>, text: Bytes) | NotForUs | Unreadable

  /**
   * Public-key boxes, secret boxes and base64. A box opens for the pair of keys it was
   * sealed between, whichever of the two holds the secret half.
   */
  datatype Crypto = Crypto(
    pub: SecretKey -> PublicKey,
    seal: (Bytes, Nonce, PublicKey, SecretKey) -> Bytes,
    open: (Bytes, Nonce, PublicKey, SecretKey) -> Option<Bytes>,
    lock: (Bytes, Nonce, Bytes32) -> Bytes,
    unlock: (Bytes, Nonce, Bytes32) -> Option<Bytes>,
    text: Text)
  {
    ghost predicate Sized() {
      forall m, n, to, s :: |seal(m, n, to, s)| == |m| + 16
    }

    ghost predicate SamePair(to: PublicKey, s: SecretKey, from: PublicKey, r: SecretKey) {
      (to == pub(r) && from == pub(s)) || (to == from && pub(s) == pub(r))
    }

    /** Among the key pairs in play, a box opens exactly for the pair it was sealed between. */
    ghost predicate Exact(keys: set<SecretKey>) {
      forall m, n, s, r, to, from | s in keys && r in keys && to in keys && from in keys ::
        open(seal(m, n, pub(to), s), n, pub(from), r) ==
        if SamePair(pub(to), s, pub(from), r) then Some(m) else None
    }

    ghost predicate Unlocks() {
      forall m, n, k :: unlock(lock(m, n, k), n, k) == Some(m)
    }

    /** A key that belongs to one of `keys`. */
    ghost predicate Known(p: PublicKey, keys: set<SecretKey>) {
      exists k :: k in keys && pub(k) == p
    }

    lemma OpensFor(keys: set<SecretKey>, m: Bytes, n: Nonce, to: PublicKey, s: SecretKey, r: SecretKey)
      requires Exact(keys) && s in keys && r in keys && Known(to, keys)
      ensures open(seal(m, n, to, s), n, pub(s), r) == if to == pub(r) then Some(m) else None
    {
      var k :| k in keys && pub(k) == to;
      assert SamePair(pub(k), s, pub(s), r) <==> to == pub(r);
    }
  }

  /** What randomness a sealing draws. */
  datatype Dice = Dice(messageKey: Bytes32, bodyNonce: Nonce, stamp: Stamp, nonce: nat -> Nonce)

  function Framed(st: Stamp, text: Bytes): Bytes {
    BE64(st.sentAt) + st.id + text
  }

  function Unframed(raw: Bytes): OpenedMessage {
    if |raw| < STAMP_LEN then Unreadable
    else Opened(Some(Stamp(FromBE64(raw[..8]), raw[8..24])), raw[24..])
  }

  lemma FramedReadsBack(st: Stamp, text: Bytes)
    ensures Unframed(Framed(st, text)) == Opened(Some(st), text)
  {
    Words64(st.sentAt);
    var raw := Framed(st, text);
    assert raw[..8] == BE64(st.sentAt) && raw[8..24] == st.id && raw[24..] == text;
  }

  // --- Sealing ---------------------------------------------------------------------

  function Slot(c: Crypto, to: PublicKey, n: Nonce, key: Bytes32, s: SecretKey): Bytes {
    n + c.seal(key, n, to, s)
  }

  function Slots(c: Crypto, to: seq<PublicKey>, dice: Dice, s: SecretKey): seq<Bytes> {
    seq(|to|, i requires 0 <= i < |to| => Slot(c, to[i], dice.nonce(i), dice.messageKey, s))
  }

  function Header(version: byte, n: Nonce, count: nat): (h: Bytes)
    requires count < 256
    ensures |h| == HEADER_LEN
  {
    [version] + n + [count as byte]
  }

  function SealedToOne(c: Crypto, text: Bytes, to: PublicKey, s: SecretKey, dice: Dice): string {
    PREFIX_V3 + c.text.encode(dice.nonce(0) + c.seal(Framed(dice.stamp, text), dice.nonce(0), to, s))
  }

  function RawToMany(c: Crypto, text: Bytes, to: seq<PublicKey>, s: SecretKey, dice: Dice): Bytes
    requires |to| < 256
  {
    Header(4, dice.bodyNonce, |to|) + Concat(Slots(c, to, dice, s)) +
    c.lock(Framed(dice.stamp, text), dice.bodyNonce, dice.messageKey)
  }

  function Sealed(c: Crypto, text: Bytes, recipients: seq<PublicKey>, s: SecretKey, dice: Dice): Option<string> {
    var to := Canonical(recipients);
    if to == [] then None
    else if |to| == 1 then Some(SealedToOne(c, text, to[0], s, dice))
    else Some(PREFIX_V4 + c.text.encode(RawToMany(c, text, to, s, dice)))
  }

  method SealFor(c: Crypto, text: Bytes, recipients: seq<PublicKey>, s: SecretKey, dice: Dice) returns (env: Option<string>)
    ensures env == Sealed(c, text, recipients, s, dice)
  {
    var to := DedupeKeys(recipients);
    if |to| == 0 {
      return None;
    }
    if |to| == 1 {
      return Some(SealedToOne(c, text, to[0], s, dice));
    }
    var buf := Header(4, dice.bodyNonce, |to|);
    ghost var slots := Slots(c, to, dice, s);
    for i := 0 to |to|
      invariant buf == Header(4, dice.bodyNonce, |to|) + Concat(slots[..i])
    {
      var wrapped := c.seal(dice.messageKey, dice.nonce(i), to[i], s);
      assert slots[..i + 1] == slots[..i] + [slots[i]];
      ConcatSnoc(slots[..i], slots[i]);
      buf := buf + (dice.nonce(i) + wrapped);
    }
    assert slots[..|to|] == slots;
    buf := buf + c.lock(Framed(dice.stamp, text), dice.bodyNonce, dice.messageKey);
    env := Some(PREFIX_V4 + c.text.encode(buf));
  }

  // --- Opening ---------------------------------------------------------------------

  predicate IsEnvelope(env: string) {
    HasPrefix(env, PREFIX_V1) || HasPrefix(env, PREFIX_V3)
  }

  function Finished(stamped: bool, plain: Bytes): OpenedMessage {
    if stamped then Unframed(plain) else Opened(None, plain)
  }

  function OpenOne(c: Crypto, env: string, from: PublicKey, r: SecretKey): OpenedMessage
    requires IsEnvelope(env)
  {
    match c.text.decode(env[|PREFIX_V1|..])
    case None => Unreadable
    case Some(raw) =>
      if |raw| < 24 then Unreadable
      else match c.open(raw[24..], raw[..24], from, r)
           case None => Unreadable
           case Some(plain) => Finished(HasPrefix(env, PREFIX_V3), plain)
  }

  function HeaderLen(count: nat): nat {
    HEADER_LEN + count * WRAPPED_LEN
  }

  predicate WellFormed(raw: Bytes, version: byte) {
    && |raw| >= HEADER_LEN && raw[0] == version
    && 0 < raw[25] as int <= MAX_RECIPIENTS
    && |raw| >= HeaderLen(raw[25] as int)
  }

  function Unwrapped(c: Crypto, raw: Bytes, i: nat, from: PublicKey, r: SecretKey): Option<Bytes>
    requires HeaderLen(i + 1) <= |raw|
  {
    var off := HeaderLen(i);
    c.open(raw[off + 24..off + WRAPPED_LEN], raw[off..off + 24], from, r)
  }

  /** Go's copy into a 32-byte array: a short source leaves zeros, a long one is cut. */
  function Copied32(b: Bytes): Bytes32 {
    if |b| >= 32 then b[..32] else b + seq(32 - |b|, i => 0)
  }

  function BodyOf(c: Crypto, raw: Bytes, key: Bytes32, stamped: bool): OpenedMessage
    requires |raw| >= HEADER_LEN && HeaderLen(raw[25] as int) <= |raw|
  {
    match c.unlock(raw[HeaderLen(raw[25] as int)..], raw[1..25], key)
    case None => Unreadable
    case Some(plain) => Finished(stamped, plain)
  }

  /** The first slot from `i` on that opens decides. */
  function Scan(c: Crypto, raw: Bytes, i: nat, from: PublicKey, r: SecretKey, stamped: bool): OpenedMessage
    requires |raw| >= HEADER_LEN && HeaderLen(raw[25] as int) <= |raw| && i <= raw[25] as int
    decreases raw[25] as int - i
  {
    if i == raw[25] as int then NotForUs
    else
      assert HeaderLen(i + 1) <= HeaderLen(raw[25] as int);
      match Unwrapped(c, raw, i, from, r)
      case Some(key) => BodyOf(c, raw, Copied32(key), stamped)
      case None => Scan(c, raw, i + 1, from, r, stamped)
  }

  function Version(stamped: bool): byte {
    if stamped then 4 else 2
  }

  function OpenRaw(c: Crypto, raw: Bytes, from: PublicKey, r: SecretKey, stamped: bool): OpenedMessage {
    if WellFormed(raw, Version(stamped)) then Scan(c, raw, 0, from, r, stamped) else Unreadable
  }

  function Opening(c: Crypto, env: string, from: PublicKey, r: SecretKey): OpenedMessage {
    if IsEnvelope(env) then OpenOne(c, env, from, r)
    else if HasPrefix(env, PREFIX_V4) || HasPrefix(env, PREFIX_V2) then
      match c.text.decode(env[|PREFIX_V4|..])
      case None => Unreadable
      case Some(raw) => OpenRaw(c, raw, from, r, HasPrefix(env, PREFIX_V4))
    else Unreadable
  }

  method OpenAny(c: Crypto, env: string, from: PublicKey, r: SecretKey) returns (m: OpenedMessage)
    ensures m == Opening(c, env, from, r)
  {
    if IsEnvelope(env) {
      return OpenOne(c, env, from, r);
    }
    var stamped := HasPrefix(env, PREFIX_V4);
    if !stamped && !HasPrefix(env, PREFIX_V2) {
      return Unreadable;
    }
    var decoded := c.text.decode(env[|PREFIX_V4|..]);
    if decoded.None? {
      return Unreadable;
    }
    var raw := decoded.value;
    var want: byte := if stamped then 4 else 2;
    if |raw| < HEADER_LEN || raw[0] != want {
      return Unreadable;
    }
    var count := raw[25] as int;
    if count == 0 || count > MAX_RECIPIENTS {
      return Unreadable;
    }
    if |raw| < HeaderLen(count) {
      return Unreadable;
    }
    m := TrySlots(c, raw, from, r, stamped);
  }

  method TrySlots(c: Crypto, raw: Bytes, from: PublicKey, r: SecretKey, stamped: bool) returns (m: OpenedMessage)
    requires |raw| >= HEADER_LEN && HeaderLen(raw[25] as int) <= |raw|
    ensures m == Scan(c, raw, 0, from, r, stamped)
  {
    var count := raw[25] as int;
    for i := 0 to count
      invariant Scan(c, raw, i, from, r, stamped) == Scan(c, raw, 0, from, r, stamped)
    {
      assert HeaderLen(i + 1) <= HeaderLen(count);
      var key := Unwrapped(c, raw, i, from, r);
      if key.Some? {
        return BodyOf(c, raw, Copied32(key.value), stamped);
      }
    }
    m := NotForUs;
  }

  // --- What is sealed is opened, by its recipients and nobody else ----------------------

  lemma SlotsAreEven(c: Crypto, to: seq<PublicKey>, dice: Dice, s: SecretKey)
    requires c.Sized()
    ensures AllOf(Slots(c, to, dice, s), WRAPPED_LEN)
    ensures |Concat(Slots(c, to, dice, s))| == |to| * WRAPPED_LEN
  {
    var slots := Slots(c, to, dice, s);
    forall i | 0 <= i < |slots| ensures |slots[i]| == WRAPPED_LEN {
      var n: Nonce := dice.nonce(i);
      assert |n| == 24 && |c.seal(dice.messageKey, n, to[i], s)| == SEALED_KEY_LEN;
    }
    ConcatLength(slots, WRAPPED_LEN);
  }

  lemma SlotIsFound(c: Crypto, text: Bytes, to: seq<PublicKey>, s: SecretKey, dice: Dice, i: nat)
    requires c.Sized() && i < |to| < 256
    ensures var raw := RawToMany(c, text, to, s, dice);
      && HeaderLen(i + 1) <= |raw|
      && raw[HeaderLen(i)..HeaderLen(i) + 24] == dice.nonce(i)
      && raw[HeaderLen(i) + 24..HeaderLen(i) + WRAPPED_LEN] == c.seal(dice.messageKey, dice.nonce(i), to[i], s)
  {
    var slots := Slots(c, to, dice, s);
    var raw := RawToMany(c, text, to, s, dice);
    SlotsAreEven(c, to, dice, s);
    ConcatBlock(slots, WRAPPED_LEN, i);
    var row := Concat(slots);
    SubSlice(raw, HEADER_LEN, row, i * WRAPPED_LEN, (i + 1) * WRAPPED_LEN);
    assert raw[HeaderLen(i)..HeaderLen(i) + WRAPPED_LEN] == slots[i];
    SubSlice(raw, HeaderLen(i), slots[i], 0, 24);
    SubSlice(raw, HeaderLen(i), slots[i], 24, WRAPPED_LEN);
  }

  lemma RawShape(c: Crypto, text: Bytes, to: seq<PublicKey>, s: SecretKey, dice: Dice)
    requires c.Sized() && 0 < |to| <= MAX_RECIPIENTS
    ensures var raw := RawToMany(c, text, to, s, dice);
      && WellFormed(raw, 4) && raw[25] as int == |to| && raw[1..25] == dice.bodyNonce
      && raw[HeaderLen(|to|)..] == c.lock(Framed(dice.stamp, text), dice.bodyNonce, dice.messageKey)
  {
    SlotsAreEven(c, to, dice, s);
    var raw := RawToMany(c, text, to, s, dice);
    assert raw[1..25] == dice.bodyNonce;
  }

  /** Slot `i` yields the message key to the holder of `p`, and nothing to anybody else. */
  ghost predicate IsSlotOf(c: Crypto, raw: Bytes, i: nat, p: PublicKey, key: Bytes32, from: PublicKey, r: SecretKey) {
    && HeaderLen(i + 1) <= |raw|
    && Unwrapped(c, raw, i, from, r) == if p == c.pub(r) then Some(key) else None
  }

  lemma ScanPasses(c: Crypto, raw: Bytes, i: nat, p: PublicKey, key: Bytes32, from: PublicKey, r: SecretKey, stamped: bool)
    requires WellFormed(raw, Version(stamped)) && i < raw[25] as int && IsSlotOf(c, raw, i, p, key, from, r)
    ensures Scan(c, raw, i, from, r, stamped) ==
      if p == c.pub(r) then BodyOf(c, raw, key, stamped) else Scan(c, raw, i + 1, from, r, stamped)
  {
    assert Copied32(key) == key;
  }

  /** If each slot opens exactly for its own key, the scan stops at ours. */
  lemma {:induction false} ScanFinds(
    c: Crypto, raw: Bytes, to: seq<PublicKey>, key: Bytes32, from: PublicKey, r: SecretKey, i: nat, stamped: bool)
    requires WellFormed(raw, Version(stamped)) && raw[25] as int == |to| && i <= |to|
    requires forall j | 0 <= j < |to| :: IsSlotOf(c, raw, j, to[j], key, from, r)
    ensures Scan(c, raw, i, from, r, stamped) ==
      if exists j :: i <= j < |to| && to[j] == c.pub(r) then BodyOf(c, raw, key, stamped) else NotForUs
    decreases |to| - i
  {
    if i < |to| {
      ScanPasses(c, raw, i, to[i], key, from, r, stamped);
      if to[i] != c.pub(r) {
        ScanFinds(c, raw, to, key, from, r, i + 1, stamped);
      }
    }
  }

  lemma SlotOpens(
    c: Crypto, text: Bytes, to: seq<PublicKey>, s: SecretKey, dice: Dice, r: SecretKey, keys: set<SecretKey>, i: nat)
    requires c.Sized() && c.Exact(keys) && s in keys && r in keys && i < |to| < 256 && c.Known(to[i], keys)
    ensures IsSlotOf(c, RawToMany(c, text, to, s, dice), i, to[i], dice.messageKey, c.pub(s), r)
  {
    SlotIsFound(c, text, to, s, dice, i);
    c.OpensFor(keys, dice.messageKey, dice.nonce(i), to[i], s, r);
  }

  lemma OpensSingle(c: Crypto, text: Bytes, to: PublicKey, s: SecretKey, dice: Dice, r: SecretKey, keys: set<SecretKey>)
    requires c.text.Faithful() && c.Exact(keys) && s in keys && r in keys && c.Known(to, keys)
    ensures Opening(c, SealedToOne(c, text, to, s, dice), c.pub(s), r) ==
      if to == c.pub(r) then Opened(Some(dice.stamp), text) else Unreadable
  {
    var n: Nonce := dice.nonce(0);
    var sealed := c.seal(Framed(dice.stamp, text), n, to, s);
    var env := SealedToOne(c, text, to, s, dice);
    var raw: Bytes := n + sealed;
    assert env[|PREFIX_V1|..] == c.text.encode(raw);
    assert raw[..24] == n && raw[24..] == sealed;
    c.OpensFor(keys, Framed(dice.stamp, text), n, to, s, r);
    FramedReadsBack(dice.stamp, text);
  }

  lemma OpensMany(c: Crypto, text: Bytes, to: seq<PublicKey>, s: SecretKey, dice: Dice, r: SecretKey, keys: set<SecretKey>)
    requires c.text.Faithful() && c.Sized() && c.Unlocks() && c.Exact(keys) && s in keys && r in keys
    requires 1 < |to| <= MAX_RECIPIENTS && forall p | p in to :: c.Known(p, keys)
    ensures Opening(c, PREFIX_V4 + c.text.encode(RawToMany(c, text, to, s, dice)), c.pub(s), r) ==
      if c.pub(r) in to then Opened(Some(dice.stamp), text) else NotForUs
  {
    var raw := RawToMany(c, text, to, s, dice);
    var env := PREFIX_V4 + c.text.encode(raw);
    assert env[13] == '4' && PREFIX_V1[13] == '1' && PREFIX_V3[13] == '3';
    assert env[|PREFIX_V4|..] == c.text.encode(raw);
    RawShape(c, text, to, s, dice);
    forall i | 0 <= i < |to| ensures IsSlotOf(c, raw, i, to[i], dice.messageKey, c.pub(s), r) {
      SlotOpens(c, text, to, s, dice, r, keys, i);
    }
    ScanFinds(c, raw, to, dice.messageKey, c.pub(s), r, 0, true);
    FramedReadsBack(dice.stamp, text);
  }

  /**
   * An envelope opens to the same text and stamp for exactly the devices it was sealed
   * to: all that were listed, as long as no more than 32 different ones were.
   */
  lemma OpensForItsRecipientsOnly(
    c: Crypto, text: Bytes, recipients: seq<PublicKey>, s: SecretKey, dice: Dice, r: SecretKey, keys: set<SecretKey>)
    requires c.text.Faithful() && c.Sized() && c.Unlocks() && c.Exact(keys) && s in keys && r in keys
    requires recipients != [] && forall p | p in recipients :: c.Known(p, keys)
    ensures Sealed(c, text, recipients, s, dice).Some?
    ensures var m := Opening(c, Sealed(c, text, recipients, s, dice).value, c.pub(s), r);
      && (m == Opened(Some(dice.stamp), text) <==> c.pub(r) in Canonical(recipients))
      && (c.pub(r) !in Canonical(recipients) ==> m.NotForUs? || m.Unreadable?)
    ensures |Set(recipients)| <= MAX_RECIPIENTS ==> (c.pub(r) in Canonical(recipients) <==> c.pub(r) in recipients)
  {
    var to := Canonical(recipients);
    CanonicalIsNotEmpty(recipients);
    CanonicalListsTheKeys(recipients);
    DistinctOrders(recipients);
    forall p | p in to ensures c.Known(p, keys) {
      assert p in Set(Distinct(recipients));
    }
    assert c.pub(r) in Set(to) <==> c.pub(r) in to;
    assert c.pub(r) in Set(recipients) <==> c.pub(r) in recipients;
    if |to| == 1 {
      OpensSingle(c, text, to[0], s, dice, r, keys);
    } else {
      OpensMany(c, text, to, s, dice, r, keys);
    }
  }

  // --- What no sealing of ours makes ------------------------------------------------------

  /** A single envelope of the form before the stamp. */
  function LegacyToOne(c: Crypto, text: Bytes, to: PublicKey, s: SecretKey, n: Nonce): string {
    PREFIX_V1 + c.text.encode(n + c.seal(text, n, to, s))
  }

  /** The older single form still opens for its recipient alone, to the text itself: it carries no stamp. */
  lemma LegacyOpens(c: Crypto, text: Bytes, to: PublicKey, s: SecretKey, n: Nonce, r: SecretKey, keys: set<SecretKey>)
    requires c.text.Faithful() && c.Exact(keys) && s in keys && r in keys && c.Known(to, keys)
    ensures Opening(c, LegacyToOne(c, text, to, s, n), c.pub(s), r) ==
      if to == c.pub(r) then Opened(None, text) else Unreadable
  {
    var sealed := c.seal(text, n, to, s);
    var env := LegacyToOne(c, text, to, s, n);
    var raw: Bytes := n + sealed;
    assert env[|PREFIX_V1|..] == c.text.encode(raw);
    assert env[13] == '1' && PREFIX_V3[13] == '3';
    assert raw[..24] == n && raw[24..] == sealed;
    c.OpensFor(keys, text, n, to, s, r);
  }

  /** The slotted form of that time: the same slots and body under its own version, the body without a stamp. */
  function LegacyRaw(c: Crypto, text: Bytes, to: seq<PublicKey>, s: SecretKey, dice: Dice): Bytes
    requires |to| < 256
  {
    Header(2, dice.bodyNonce, |to|) + Concat(Slots(c, to, dice, s)) + c.lock(text, dice.bodyNonce, dice.messageKey)
  }

  lemma LegacySlotIsFound(c: Crypto, text: Bytes, to: seq<PublicKey>, s: SecretKey, dice: Dice, i: nat)
    requires c.Sized() && i < |to| < 256
    ensures var raw := LegacyRaw(c, text, to, s, dice);
      && HeaderLen(i + 1) <= |raw|
      && raw[HeaderLen(i)..HeaderLen(i) + 24] == dice.nonce(i)
      && raw[HeaderLen(i) + 24..HeaderLen(i) + WRAPPED_LEN] == c.seal(dice.messageKey, dice.nonce(i), to[i], s)
  {
    var slots := Slots(c, to, dice, s);
    var raw := LegacyRaw(c, text, to, s, dice);
    SlotsAreEven(c, to, dice, s);
    ConcatBlock(slots, WRAPPED_LEN, i);
    SubSlice(raw, HEADER_LEN, Concat(slots), i * WRAPPED_LEN, (i + 1) * WRAPPED_LEN);
    assert raw[HeaderLen(i)..HeaderLen(i) + WRAPPED_LEN] == slots[i];
    SubSlice(raw, HeaderLen(i), slots[i], 0, 24);
    SubSlice(raw, HeaderLen(i), slots[i], 24, WRAPPED_LEN);
  }

  lemma LegacyShape(c: Crypto, text: Bytes, to: seq<PublicKey>, s: SecretKey, dice: Dice)
    requires c.Sized() && 0 < |to| <= MAX_RECIPIENTS
    ensures var raw := LegacyRaw(c, text, to, s, dice);
      && WellFormed(raw, 2) && raw[25] as int == |to| && raw[1..25] == dice.bodyNonce
      && raw[HeaderLen(|to|)..] == c.lock(text, dice.bodyNonce, dice.messageKey)
  {
    SlotsAreEven(c, to, dice, s);
    var raw := LegacyRaw(c, text, to, s, dice);
    assert raw[1..25] == dice.bodyNonce;
  }

  /** It too opens for exactly those it is sealed to, to the text itself. */
  lemma LegacyManyOpen(c: Crypto, text: Bytes, to: seq<PublicKey>, s: SecretKey, dice: Dice, r: SecretKey, keys: set<SecretKey>)
    requires c.text.Faithful() && c.Sized() && c.Unlocks() && c.Exact(keys) && s in keys && r in keys
    requires 0 < |to| <= MAX_RECIPIENTS && forall p | p in to :: c.Known(p, keys)
    ensures Opening(c, PREFIX_V2 + c.text.encode(LegacyRaw(c, text, to, s, dice)), c.pub(s), r) ==
      if c.pub(r) in to then Opened(None, text) else NotForUs
  {
    var raw := LegacyRaw(c, text, to, s, dice);
    var env := PREFIX_V2 + c.text.encode(raw);
    assert env[13] == '2' && PREFIX_V1[13] == '1' && PREFIX_V3[13] == '3' && PREFIX_V4[13] == '4';
    assert env[|PREFIX_V2|..] == c.text.encode(raw);
    LegacyShape(c, text, to, s, dice);
    forall i | 0 <= i < |to| ensures IsSlotOf(c, raw, i, to[i], dice.messageKey, c.pub(s), r) {
      LegacySlotIsFound(c, text, to, s, dice, i);
      c.OpensFor(keys, dice.messageKey, dice.nonce(i), to[i], s, r);
    }
    ScanFinds(c, raw, to, dice.messageKey, c.pub(s), r, 0, false);
  }

  lemma PrefixIs(env: string, prefix: string)
    ensures HasPrefix(env, prefix) <==> |env| >= |prefix| && env[..|prefix|] == prefix
  {
  }

  /**
   * No envelope opens but by its form: a known prefix over text that decodes, and either a
   * nonce and a box, or the version of its prefix, a count from 1 to 32 and all the slots
   * that count promises.
   */
  lemma OnlyWellFormedOpens(c: Crypto, env: string, from: PublicKey, r: SecretKey)
    requires Opening(c, env, from, r) != Unreadable
    ensures |env| >= |PREFIX_V1|
    ensures var prefix, decoded := env[..|PREFIX_V1|], c.text.decode(env[|PREFIX_V1|..]);
      && prefix in {PREFIX_V1, PREFIX_V2, PREFIX_V3, PREFIX_V4} && decoded.Some?
      && var raw := decoded.value;
         if prefix in {PREFIX_V1, PREFIX_V3} then |raw| >= 24
         else
           && |raw| >= 26 && raw[0] == (if prefix == PREFIX_V4 then 4 else 2)
           && 1 <= raw[25] as int <= 32 && |raw| >= 26 + 72 * raw[25] as int
  {
    PrefixIs(env, PREFIX_V1);
    PrefixIs(env, PREFIX_V2);
    PrefixIs(env, PREFIX_V3);
    PrefixIs(env, PREFIX_V4);
  }
}
