/** Handing a chain to the people who need it: the room broadcast and the invitation's bundle. */
module ChainDist {
  import opened Words
  import opened Layout
  import opened Ratchet
  import opened Keys
  import opened Envelopes

  const ID_LEN := 8
  const LABEL_LEN := 8
  const SLOT_LEN := LABEL_LEN + 24 + SEALED_KEY_LEN
  const BROADCAST_HEADER := 1 + ID_LEN + 4 + 2
  const MAX_SLOTS := 580
  const ENTRY_LEN := ID_LEN + 4 + 32
  const BROADCAST_PREFIX := "\U{1b}BENCO-CHAINDIST:v1:"

  type Label = b: Bytes | |b| == 8 witness seq(8, i => 0 as byte)

  datatype KeyPair = KeyPair(public: PublicKey, secret: SecretKey)

  datatype Broadcast = Broadcast(body: string) | NoRecipients | TooManyRecipients | BadChainId

  datatype Received = View(view: ChainView) | NoSlotForUs | SlotFailed | MalformedBroadcast

  // --- Broadcasting -------------------------------------------------------------------

  /** The keys without their repeats, in the order first listed. */
  function Firsts(keys: seq<PublicKey>): seq<PublicKey> {
    if keys == [] then []
    else
      var rest := Firsts(keys[..|keys| - 1]);
      var k := keys[|keys| - 1];
      if k in rest then rest else rest + [k]
  }

  lemma {:induction false} FirstsSame(keys: seq<PublicKey>)
    ensures Set(Firsts(keys)) == Set(keys)
    ensures |Firsts(keys)| <= |keys|
  {
    if keys != [] {
      var init := keys[..|keys| - 1];
      FirstsSame(init);
      assert keys == init + [keys[|keys| - 1]];
      SetOfAppend(init, keys[|keys| - 1]);
      SetOfAppend(Firsts(init), keys[|keys| - 1]);
    }
  }

  method DistinctKeys(keys: seq<PublicKey>) returns (out: seq<PublicKey>)
    ensures out == Firsts(keys)
  {
    out := [];
    var seen: set<PublicKey> := {};
    for i := 0 to |keys|
      invariant out == Firsts(keys[..i]) && seen == Set(out)
    {
      assert keys[..i + 1][..i] == keys[..i];
      if keys[i] !in seen {
        SetOfAppend(out, keys[i]);
        seen := seen + {keys[i]};
        out := out + [keys[i]];
      }
    }
    assert keys[..|keys|] == keys;
  }

  function Slot(c: Crypto, labelOf: PublicKey -> Label, v: ChainView, to: PublicKey, n: Nonce, s: SecretKey): Bytes {
    labelOf(to) + n + c.seal(v.state, n, to, s)
  }

  function Slots(c: Crypto, labelOf: PublicKey -> Label, v: ChainView, to: seq<PublicKey>, s: SecretKey, nonce: nat -> Nonce): seq<Bytes> {
    seq(|to|, i requires 0 <= i < |to| => Slot(c, labelOf, v, to[i], nonce(i), s))
  }

  function BroadcastHeader(v: ChainView, count: nat): Bytes
    requires count <= MAX_SLOTS
  {
    [1] + v.id + BE32(v.index) + BE16(count)
  }

  function RawBroadcast(c: Crypto, labelOf: PublicKey -> Label, v: ChainView, to: seq<PublicKey>, s: SecretKey, nonce: nat -> Nonce): Bytes
    requires |to| <= MAX_SLOTS
  {
    BroadcastHeader(v, |to|) + Concat(Slots(c, labelOf, v, to, s, nonce))
  }

  function Broadcasting(
    c: Crypto, labelOf: PublicKey -> Label, v: ChainView, recipients: seq<PublicKey>, s: SecretKey, nonce: nat -> Nonce): Broadcast
  {
    var to := Firsts(recipients);
    if to == [] then NoRecipients
    else if |to| > MAX_SLOTS then TooManyRecipients
    else if |v.id| != ID_LEN then BadChainId
    else Broadcast(BROADCAST_PREFIX + c.text.encode(RawBroadcast(c, labelOf, v, to, s, nonce)))
  }

  method EncodeChainBroadcast(
    c: Crypto, labelOf: PublicKey -> Label, v: ChainView, recipients: seq<PublicKey>, s: SecretKey, nonce: nat -> Nonce)
    returns (b: Broadcast)
    ensures b == Broadcasting(c, labelOf, v, recipients, s, nonce)
  {
    var to := DistinctKeys(recipients);
    if |to| == 0 {
      return NoRecipients;
    }
    if |to| > MAX_SLOTS {
      return TooManyRecipients;
    }
    if |v.id| != ID_LEN {
      return BadChainId;
    }
    var buf := BroadcastHeader(v, |to|);
    ghost var slots := Slots(c, labelOf, v, to, s, nonce);
    for i := 0 to |to|
      invariant buf == BroadcastHeader(v, |to|) + Concat(slots[..i])
    {
      var sealed := c.seal(v.state, nonce(i), to[i], s);
      assert slots[..i + 1] == slots[..i] + [slots[i]];
      ConcatSnoc(slots[..i], slots[i]);
      buf := buf + (labelOf(to[i]) + nonce(i) + sealed);
    }
    assert slots[..|to|] == slots;
    b := Broadcast(BROADCAST_PREFIX + c.text.encode(buf));
  }

  // --- Receiving ----------------------------------------------------------------------

  function SlotAt(i: nat): nat {
    BROADCAST_HEADER + i * SLOT_LEN
  }

  function CountOf(raw: Bytes): nat
    requires |raw| >= BROADCAST_HEADER
  {
    FromBE16(raw[13..15])
  }

  predicate WellFormedBroadcast(raw: Bytes) {
    && |raw| >= BROADCAST_HEADER && raw[0] == 1
    && 0 < CountOf(raw) <= MAX_SLOTS && |raw| >= SlotAt(CountOf(raw))
  }

  /** Our own labels; of two keys of ours with one label, the later stands. */
  function Mine(labelOf: PublicKey -> Label, ours: seq<KeyPair>): map<Label, KeyPair> {
    if ours == [] then map[]
    else
      var kp := ours[|ours| - 1];
      Mine(labelOf, ours[..|ours| - 1])[labelOf(kp.public) := kp]
  }

  function OpenAs(c: Crypto, sealed: Bytes, n: Nonce, senders: seq<PublicKey>, r: SecretKey): Option<Bytes32> {
    if senders == [] then None
    else
      match c.open(sealed, n, senders[0], r)
      case Some(state) => if |state| == 32 then Some(state) else OpenAs(c, sealed, n, senders[1..], r)
      case None => OpenAs(c, sealed, n, senders[1..], r)
  }

  function OpenSlot(c: Crypto, raw: Bytes, i: nat, senders: seq<PublicKey>, r: SecretKey): Option<Bytes32>
    requires SlotAt(i + 1) <= |raw|
  {
    var off := SlotAt(i);
    OpenAs(c, raw[off + LABEL_LEN + 24..off + SLOT_LEN], raw[off + LABEL_LEN..off + LABEL_LEN + 24], senders, r)
  }

  function LabelAt(raw: Bytes, i: nat): Label
    requires SlotAt(i + 1) <= |raw|
  {
    raw[SlotAt(i)..SlotAt(i) + LABEL_LEN]
  }

  /** A slot bearing our label that does not open is passed over, not final. */
  function Walk(c: Crypto, raw: Bytes, i: nat, mine: map<Label, KeyPair>, senders: seq<PublicKey>, failed: bool): Received
    requires WellFormedBroadcast(raw) && i <= CountOf(raw)
    decreases CountOf(raw) - i
  {
    if i == CountOf(raw) then if failed then SlotFailed else NoSlotForUs
    else
      assert SlotAt(i + 1) <= SlotAt(CountOf(raw));
      var l := LabelAt(raw, i);
      if l !in mine then Walk(c, raw, i + 1, mine, senders, failed)
      else
        match OpenSlot(c, raw, i, senders, mine[l].secret)
        case Some(state) => View(ChainView(raw[1..9], state, FromBE32(raw[9..13])))
        case None => Walk(c, raw, i + 1, mine, senders, true)
  }

  function Receiving(c: Crypto, labelOf: PublicKey -> Label, body: string, ours: seq<KeyPair>, senders: seq<PublicKey>): Received {
    if !HasPrefix(body, BROADCAST_PREFIX) then MalformedBroadcast
    else
      match c.text.decode(body[|BROADCAST_PREFIX|..])
      case None => MalformedBroadcast
      case Some(raw) =>
        if WellFormedBroadcast(raw) then Walk(c, raw, 0, Mine(labelOf, ours), senders, false) else MalformedBroadcast
  }

  method DecodeChainBroadcast(c: Crypto, labelOf: PublicKey -> Label, body: string, ours: seq<KeyPair>, senders: seq<PublicKey>)
    returns (got: Received)
    ensures got == Receiving(c, labelOf, body, ours, senders)
  {
    if !HasPrefix(body, BROADCAST_PREFIX) {
      return MalformedBroadcast;
    }
    var decoded := c.text.decode(body[|BROADCAST_PREFIX|..]);
    if decoded.None? {
      return MalformedBroadcast;
    }
    var raw := decoded.value;
    if |raw| < BROADCAST_HEADER || raw[0] != 1 {
      return MalformedBroadcast;
    }
    var count := FromBE16(raw[13..15]);
    if count == 0 || count > MAX_SLOTS || |raw| < BROADCAST_HEADER + count * SLOT_LEN {
      return MalformedBroadcast;
    }
    var mine: map<Label, KeyPair> := map[];
    for i := 0 to |ours|
      invariant mine == Mine(labelOf, ours[..i])
    {
      assert ours[..i + 1][..i] == ours[..i];
      mine := mine[labelOf(ours[i].public) := ours[i]];
    }
    assert ours[..|ours|] == ours;
    var failed := false;
    for i := 0 to count
      invariant Walk(c, raw, i, mine, senders, failed) == Walk(c, raw, 0, mine, senders, false)
    {
      assert SlotAt(i + 1) <= SlotAt(count);
      var l := LabelAt(raw, i);
      if l in mine {
        var state := TrySenders(c, raw, i, senders, mine[l].secret);
        if state.Some? {
          return View(ChainView(raw[1..9], state.value, FromBE32(raw[9..13])));
        }
        failed := true;
      }
    }
    got := if failed then SlotFailed else NoSlotForUs;
  }

  method TrySenders(c: Crypto, raw: Bytes, i: nat, senders: seq<PublicKey>, r: SecretKey) returns (state: Option<Bytes32>)
    requires SlotAt(i + 1) <= |raw|
    ensures state == OpenSlot(c, raw, i, senders, r)
  {
    var off := SlotAt(i);
    var n: Nonce := raw[off + LABEL_LEN..off + LABEL_LEN + 24];
    var sealed := raw[off + LABEL_LEN + 24..off + SLOT_LEN];
    for j := 0 to |senders|
      invariant OpenAs(c, sealed, n, senders, r) == OpenAs(c, sealed, n, senders[j..], r)
    {
      var found := c.open(sealed, n, senders[j], r);
      if found.Some? && |found.value| == 32 {
        return Some(found.value);
      }
    }
    state := None;
  }

  // --- Bundles --------------------------------------------------------------------------

  function EntryBytes(v: ChainView): Bytes {
    v.id + BE32(v.index) + v.state
  }

  function Entries(views: seq<ChainView>): seq<Bytes> {
    seq(|views|, i requires 0 <= i < |views| => EntryBytes(views[i]))
  }

  function RawBundle(views: seq<ChainView>): Bytes
    requires |views| <= MAX_SLOTS
  {
    BE16(|views|) + Concat(Entries(views))
  }

  predicate Nameable(views: seq<ChainView>) {
    forall v :: v in views ==> |v.id| == ID_LEN
  }

  method EncodeChainBundle(c: Crypto, views: seq<ChainView>) returns (s: Option<string>)
    ensures s.Some? <==> |views| <= MAX_SLOTS && Nameable(views)
    ensures s.Some? ==> s.value == c.text.encode(RawBundle(views))
  {
    if |views| > MAX_SLOTS {
      return None;
    }
    var buf := BE16(|views|);
    ghost var entries := Entries(views);
    for i := 0 to |views|
      invariant buf == BE16(|views|) + Concat(entries[..i])
      invariant Nameable(views[..i])
    {
      assert views[i] in views;
      if |views[i].id| != ID_LEN {
        return None;
      }
      assert entries[..i + 1] == entries[..i] + [entries[i]];
      ConcatSnoc(entries[..i], entries[i]);
      buf := buf + (views[i].id + BE32(views[i].index) + views[i].state);
      assert views[..i + 1] == views[..i] + [views[i]];
    }
    assert entries[..|views|] == entries && views[..|views|] == views;
    s := Some(c.text.encode(buf));
  }

  function EntryAt(i: nat): nat {
    2 + i * ENTRY_LEN
  }

  function ParsedEntry(raw: Bytes, i: nat): ChainView
    requires EntryAt(i + 1) <= |raw|
  {
    var off := EntryAt(i);
    ChainView(raw[off..off + 8], raw[off + 12..off + ENTRY_LEN], FromBE32(raw[off + 8..off + 12]))
  }

  predicate IsBundle(raw: Bytes) {
    && |raw| >= 2 && FromBE16(raw[..2]) <= MAX_SLOTS
    && |raw| == EntryAt(FromBE16(raw[..2]))
  }

  function ParsedBundle(raw: Bytes): seq<ChainView>
    requires IsBundle(raw)
  {
    seq(FromBE16(raw[..2]), i requires 0 <= i < FromBE16(raw[..2]) =>
      assert EntryAt(i + 1) <= EntryAt(FromBE16(raw[..2])); ParsedEntry(raw, i))
  }

  /** The empty text is an empty bundle; anything else must have exactly the length its count says. */
  method DecodeChainBundle(c: Crypto, s: string) returns (views: Option<seq<ChainView>>)
    ensures s == "" ==> views == Some([])
    ensures s != "" ==> (views.Some? <==> c.text.decode(s).Some? && IsBundle(c.text.decode(s).value))
    ensures s != "" && views.Some? ==> views.value == ParsedBundle(c.text.decode(s).value)
  {
    if s == "" {
      return Some([]);
    }
    var decoded := c.text.decode(s);
    if decoded.None? {
      return None;
    }
    var raw := decoded.value;
    if |raw| < 2 {
      return None;
    }
    var count := FromBE16(raw[..2]);
    if count > MAX_SLOTS || |raw| != 2 + count * ENTRY_LEN {
      return None;
    }
    var out: seq<ChainView> := [];
    for i := 0 to count
      invariant out == ParsedBundle(raw)[..i]
    {
      assert EntryAt(i + 1) <= EntryAt(count);
      out := out + [ParsedEntry(raw, i)];
    }
    views := Some(out);
  }

  lemma EntriesAreEven(views: seq<ChainView>)
    requires Nameable(views)
    ensures AllOf(Entries(views), ENTRY_LEN) && |Concat(Entries(views))| == |views| * ENTRY_LEN
  {
    ConcatLength(Entries(views), ENTRY_LEN);
  }

  lemma EntryReadsBack(views: seq<ChainView>, i: nat)
    requires Nameable(views) && i < |views| <= MAX_SLOTS
    ensures EntryAt(i + 1) <= |RawBundle(views)| && ParsedEntry(RawBundle(views), i) == views[i]
  {
    var raw := RawBundle(views);
    var row := Concat(Entries(views));
    EntriesAreEven(views);
    ConcatBlock(Entries(views), ENTRY_LEN, i);
    var e := EntryBytes(views[i]);
    SubSlice(raw, 2, row, i * ENTRY_LEN, (i + 1) * ENTRY_LEN);
    assert raw[EntryAt(i)..EntryAt(i) + ENTRY_LEN] == e;
    assert views[i] in views && |views[i].id| == ID_LEN && |e| == ENTRY_LEN;
    ThreeParts(views[i].id, BE32(views[i].index), views[i].state);
    SubSlice(raw, EntryAt(i), e, 0, 8);
    SubSlice(raw, EntryAt(i), e, 8, 12);
    SubSlice(raw, EntryAt(i), e, 12, ENTRY_LEN);
    Words32(views[i].index);
  }

  /** A bundle reads back as the views it was made from. */
  lemma BundleRoundTrip(views: seq<ChainView>)
    requires Nameable(views) && |views| <= MAX_SLOTS
    ensures IsBundle(RawBundle(views)) && ParsedBundle(RawBundle(views)) == views
  {
    var raw := RawBundle(views);
    EntriesAreEven(views);
    assert raw[..2] == BE16(|views|);
    Words16(|views|);
    forall i | 0 <= i < |views| ensures EntryAt(i + 1) <= |raw| && ParsedEntry(raw, i) == views[i] {
      EntryReadsBack(views, i);
    }
  }

  lemma ParsedEntryWritesBack(raw: Bytes, i: nat)
    requires EntryAt(i + 1) <= |raw|
    ensures EntryBytes(ParsedEntry(raw, i)) == raw[EntryAt(i)..EntryAt(i + 1)]
  {
    var off := EntryAt(i);
    Words32Back(raw[off + 8..off + 12]);
    assert raw[off..off + ENTRY_LEN] == raw[off..off + 8] + raw[off + 8..off + 12] + raw[off + 12..off + ENTRY_LEN];
  }

  predicate StandsAt(raw: Bytes, v: ChainView, i: nat) {
    EntryAt(i + 1) <= |raw| && v == ParsedEntry(raw, i)
  }

  lemma {:induction false} RowOfEntries(raw: Bytes, views: seq<ChainView>)
    requires EntryAt(|views|) <= |raw|
    requires forall i | 0 <= i < |views| :: StandsAt(raw, views[i], i)
    ensures Concat(Entries(views)) == raw[2..EntryAt(|views|)]
    decreases |views|
  {
    if views != [] {
      var n := |views| - 1;
      var init, last := views[..n], views[n];
      assert StandsAt(raw, last, n);
      RowOfEntries(raw, init);
      ParsedEntryWritesBack(raw, n);
      assert views == init + [last];
      OneEntryMore(init, last);
      assert raw[2..EntryAt(n + 1)] == raw[2..EntryAt(n)] + raw[EntryAt(n)..EntryAt(n + 1)];
    }
  }

  lemma OneEntryMore(views: seq<ChainView>, v: ChainView)
    ensures Concat(Entries(views + [v])) == Concat(Entries(views)) + EntryBytes(v)
  {
    assert Entries(views + [v]) == Entries(views) + [EntryBytes(v)];
    ConcatSnoc(Entries(views), EntryBytes(v));
  }

  /** And every byte string the reader accepts is what the writer makes of the views it read. */
  lemma BundleWritesBack(raw: Bytes)
    requires IsBundle(raw)
    ensures Nameable(ParsedBundle(raw)) && RawBundle(ParsedBundle(raw)) == raw
  {
    var views := ParsedBundle(raw);
    forall i | 0 <= i < |views| ensures StandsAt(raw, views[i], i) {
      assert EntryAt(i + 1) <= EntryAt(|views|);
    }
    RowOfEntries(raw, views);
    Words16Back(raw[..2]);
    assert raw == raw[..2] + raw[2..];
  }
}
