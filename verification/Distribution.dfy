/** A new chain reaches every device it is meant for, in however many messages that takes, and no other. */
module Distribution {
  import opened Words
  import opened Layout
  import opened Ratchet
  import opened Keys
  import opened Envelopes
  import D = ChainDist

  const MAX_PAYLOAD := 65535

  // --- One broadcast ------------------------------------------------------------------

  lemma SlotsAreEven(c: Crypto, labelOf: PublicKey -> D.Label, v: ChainView, to: seq<PublicKey>, s: SecretKey, nonce: nat -> Nonce)
    requires c.Sized()
    ensures AllOf(D.Slots(c, labelOf, v, to, s, nonce), D.SLOT_LEN)
    ensures |Concat(D.Slots(c, labelOf, v, to, s, nonce))| == |to| * D.SLOT_LEN
  {
    var slots := D.Slots(c, labelOf, v, to, s, nonce);
    forall i | 0 <= i < |slots| ensures |slots[i]| == D.SLOT_LEN {
      var n: Nonce := nonce(i);
      var l: D.Label := labelOf(to[i]);
      assert |l| == 8 && |n| == 24 && |c.seal(v.state, n, to[i], s)| == SEALED_KEY_LEN;
    }
    ConcatLength(slots, D.SLOT_LEN);
  }

  lemma HeaderReadsBack(c: Crypto, labelOf: PublicKey -> D.Label, v: ChainView, to: seq<PublicKey>, s: SecretKey, nonce: nat -> Nonce)
    requires c.Sized() && |v.id| == D.ID_LEN && 0 < |to| <= D.MAX_SLOTS
    ensures var raw := D.RawBroadcast(c, labelOf, v, to, s, nonce);
      && D.WellFormedBroadcast(raw) && D.CountOf(raw) == |to|
      && raw[1..9] == v.id && FromBE32(raw[9..13]) == v.index
      && |raw| == D.SlotAt(|to|)
  {
    var raw := D.RawBroadcast(c, labelOf, v, to, s, nonce);
    SlotsAreEven(c, labelOf, v, to, s, nonce);
    assert raw[1..9] == v.id && raw[9..13] == BE32(v.index) && raw[13..15] == BE16(|to|);
    Words32(v.index);
    Words16(|to|);
  }

  /** The bytes of slot `i`: the label of its key, then the state sealed to it. */
  lemma SlotReadsBack(
    c: Crypto, labelOf: PublicKey -> D.Label, v: ChainView, to: seq<PublicKey>, s: SecretKey, nonce: nat -> Nonce, i: nat)
    requires c.Sized() && |v.id| == D.ID_LEN && i < |to| <= D.MAX_SLOTS
    ensures var raw := D.RawBroadcast(c, labelOf, v, to, s, nonce);
      var off := D.SlotAt(i);
      && D.SlotAt(i + 1) <= |raw|
      && D.LabelAt(raw, i) == labelOf(to[i])
      && raw[off + 8..off + 32] == nonce(i)
      && raw[off + 32..off + D.SLOT_LEN] == c.seal(v.state, nonce(i), to[i], s)
  {
    var slots := D.Slots(c, labelOf, v, to, s, nonce);
    var raw := D.RawBroadcast(c, labelOf, v, to, s, nonce);
    var row := Concat(slots);
    SlotsAreEven(c, labelOf, v, to, s, nonce);
    ConcatBlock(slots, D.SLOT_LEN, i);
    var off := D.SlotAt(i);
    var l: Bytes, n: Bytes, sealed := labelOf(to[i]), nonce(i), c.seal(v.state, nonce(i), to[i], s);
    assert |l| == 8 && |n| == 24 && |sealed| == SEALED_KEY_LEN;
    assert slots[i] == l + n + sealed;
    ThreeParts(l, n, sealed);
    SubSlice(raw, D.BROADCAST_HEADER, row, i * D.SLOT_LEN, (i + 1) * D.SLOT_LEN);
    assert raw[off..off + D.SLOT_LEN] == slots[i];
    SubSlice(raw, off, slots[i], 0, 8);
    SubSlice(raw, off, slots[i], 8, 32);
    SubSlice(raw, off, slots[i], 32, D.SLOT_LEN);
  }

  /** Keys we may hold: properly paired, and none of them the sender's own. */
  ghost predicate Holder(c: Crypto, ours: seq<D.KeyPair>, s: SecretKey, keys: set<SecretKey>) {
    forall kp | kp in ours :: kp.secret in keys && kp.public == c.pub(kp.secret) && kp.public != c.pub(s)
  }

  ghost predicate AllKnown(c: Crypto, ps: seq<PublicKey>, keys: set<SecretKey>) {
    forall p | p in ps :: c.Known(p, keys)
  }

  lemma OpensBetween(c: Crypto, keys: set<SecretKey>, m: Bytes, n: Nonce, to: PublicKey, s: SecretKey, from: PublicKey, r: SecretKey)
    requires c.Exact(keys) && s in keys && r in keys && c.Known(to, keys) && c.Known(from, keys) && c.pub(r) != c.pub(s)
    ensures c.open(c.seal(m, n, to, s), n, from, r) == if to == c.pub(r) && from == c.pub(s) then Some(m) else None
  {
    var k :| k in keys && c.pub(k) == to;
    var f :| f in keys && c.pub(f) == from;
    assert c.SamePair(c.pub(k), s, c.pub(f), r) <==> (to == c.pub(r) && from == c.pub(s));
  }

  lemma {:induction false} OpenAsOwn(
    c: Crypto, keys: set<SecretKey>, st: Bytes32, n: Nonce, to: PublicKey, s: SecretKey, senders: seq<PublicKey>, r: SecretKey)
    requires c.Exact(keys) && s in keys && r in keys && c.Known(to, keys) && AllKnown(c, senders, keys) && c.pub(r) != c.pub(s)
    ensures D.OpenAs(c, c.seal(st, n, to, s), n, senders, r) ==
      if to == c.pub(r) && c.pub(s) in senders then Some(st) else None
  {
    if senders != [] {
      OpensBetween(c, keys, st, n, to, s, senders[0], r);
      OpenAsOwn(c, keys, st, n, to, s, senders[1..], r);
    }
  }

  lemma {:induction false} MineAreOurs(labelOf: PublicKey -> D.Label, ours: seq<D.KeyPair>)
    ensures forall l | l in D.Mine(labelOf, ours) ::
      D.Mine(labelOf, ours)[l] in ours && labelOf(D.Mine(labelOf, ours)[l].public) == l
  {
    if ours != [] {
      MineAreOurs(labelOf, ours[..|ours| - 1]);
    }
  }

  /** Slot `i` is addressed to one of the keys we look for. */
  ghost predicate Hit(labelOf: PublicKey -> D.Label, mine: map<D.Label, D.KeyPair>, p: PublicKey) {
    labelOf(p) in mine && mine[labelOf(p)].public == p
  }

  ghost predicate IsSlot(
    c: Crypto, labelOf: PublicKey -> D.Label, raw: Bytes, i: nat, v: ChainView, p: PublicKey,
    mine: map<D.Label, D.KeyPair>, senders: seq<PublicKey>, s: SecretKey)
  {
    && D.SlotAt(i + 1) <= |raw|
    && D.LabelAt(raw, i) == labelOf(p)
    && (labelOf(p) in mine ==>
        D.OpenSlot(c, raw, i, senders, mine[labelOf(p)].secret) ==
        if mine[labelOf(p)].public == p && c.pub(s) in senders then Some(v.state) else None)
  }

  lemma WalkPasses(
    c: Crypto, labelOf: PublicKey -> D.Label, raw: Bytes, v: ChainView, p: PublicKey,
    mine: map<D.Label, D.KeyPair>, senders: seq<PublicKey>, s: SecretKey, i: nat, failed: bool)
    requires D.WellFormedBroadcast(raw) && i < D.CountOf(raw)
    requires raw[1..9] == v.id && FromBE32(raw[9..13]) == v.index && c.pub(s) in senders
    requires IsSlot(c, labelOf, raw, i, v, p, mine, senders, s)
    ensures D.Walk(c, raw, i, mine, senders, failed) ==
      if Hit(labelOf, mine, p) then D.View(v)
      else D.Walk(c, raw, i + 1, mine, senders, failed || labelOf(p) in mine)
  {
  }

  ghost predicate AnyHit(labelOf: PublicKey -> D.Label, mine: map<D.Label, D.KeyPair>, to: seq<PublicKey>, i: nat) {
    exists j :: i <= j < |to| && Hit(labelOf, mine, to[j])
  }

  ghost predicate AnyLabel(labelOf: PublicKey -> D.Label, mine: map<D.Label, D.KeyPair>, to: seq<PublicKey>, i: nat) {
    exists j :: i <= j < |to| && labelOf(to[j]) in mine
  }

  lemma {:induction false} WalkFinds(
    c: Crypto, labelOf: PublicKey -> D.Label, raw: Bytes, v: ChainView, to: seq<PublicKey>,
    mine: map<D.Label, D.KeyPair>, senders: seq<PublicKey>, s: SecretKey, i: nat, failed: bool)
    requires D.WellFormedBroadcast(raw) && D.CountOf(raw) == |to| && i <= |to|
    requires raw[1..9] == v.id && FromBE32(raw[9..13]) == v.index && c.pub(s) in senders
    requires forall j | 0 <= j < |to| :: IsSlot(c, labelOf, raw, j, v, to[j], mine, senders, s)
    ensures D.Walk(c, raw, i, mine, senders, failed) ==
      if AnyHit(labelOf, mine, to, i) then D.View(v)
      else if failed || AnyLabel(labelOf, mine, to, i) then D.SlotFailed
      else D.NoSlotForUs
    decreases |to| - i
  {
    if i < |to| {
      WalkPasses(c, labelOf, raw, v, to[i], mine, senders, s, i, failed);
      if !Hit(labelOf, mine, to[i]) {
        WalkFinds(c, labelOf, raw, v, to, mine, senders, s, i + 1, failed || labelOf(to[i]) in mine);
      }
    }
  }

  lemma SlotsOfBroadcast(
    c: Crypto, labelOf: PublicKey -> D.Label, v: ChainView, to: seq<PublicKey>, s: SecretKey, nonce: nat -> Nonce,
    ours: seq<D.KeyPair>, senders: seq<PublicKey>, keys: set<SecretKey>, i: nat)
    requires c.Sized() && c.Exact(keys) && s in keys && |v.id| == D.ID_LEN && i < |to| <= D.MAX_SLOTS
    requires AllKnown(c, to, keys) && AllKnown(c, senders, keys) && Holder(c, ours, s, keys)
    ensures IsSlot(c, labelOf, D.RawBroadcast(c, labelOf, v, to, s, nonce), i, v, to[i], D.Mine(labelOf, ours), senders, s)
  {
    SlotReadsBack(c, labelOf, v, to, s, nonce, i);
    MineAreOurs(labelOf, ours);
    var mine := D.Mine(labelOf, ours);
    if labelOf(to[i]) in mine {
      OpenAsOwn(c, keys, v.state, nonce(i), to[i], s, senders, mine[labelOf(to[i])].secret);
    }
  }

  // --- Broadcasts nobody of ours made ---------------------------------------------------

  /** The bytes are a broadcast: its version, a count from 1 to 580, and all the slots that count promises. */
  predicate InForm(raw: Bytes) {
    && |raw| >= 15 && raw[0] == 1
    && 1 <= FromBE16(raw[13..15]) <= 580 && |raw| >= 15 + 80 * FromBE16(raw[13..15])
  }

  /** Malformed is exactly what is not the prefix over text that decodes to bytes in form. */
  lemma MalformedExactly(c: Crypto, labelOf: PublicKey -> D.Label, body: string, ours: seq<D.KeyPair>, senders: seq<PublicKey>)
    ensures D.Receiving(c, labelOf, body, ours, senders).MalformedBroadcast? <==>
      !(D.BROADCAST_PREFIX <= body
        && c.text.decode(body[|D.BROADCAST_PREFIX|..]).Some?
        && InForm(c.text.decode(body[|D.BROADCAST_PREFIX|..]).value))
  {
    if D.BROADCAST_PREFIX <= body && c.text.decode(body[|D.BROADCAST_PREFIX|..]).Some? {
      var raw := c.text.decode(body[|D.BROADCAST_PREFIX|..]).value;
      if D.WellFormedBroadcast(raw) {
        FirstSlotDecides(c, raw, 0, D.Mine(labelOf, ours), senders, false);
      }
    }
  }

  /** One of the senders opens the box to 32 bytes; the first who does decides which. */
  lemma {:induction false} AnySenderOpens(c: Crypto, sealed: Bytes, n: Nonce, senders: seq<PublicKey>, r: SecretKey)
    ensures var st := D.OpenAs(c, sealed, n, senders, r);
      && (st.Some? <==> exists p :: p in senders && c.open(sealed, n, p, r).Some? && |c.open(sealed, n, p, r).value| == 32)
      && (st.Some? ==> exists p :: p in senders && c.open(sealed, n, p, r) == Some(st.value))
  {
    if senders != [] {
      AnySenderOpens(c, sealed, n, senders[1..], r);
      assert senders == [senders[0]] + senders[1..];
    }
  }

  /** Slot `j` bears a label of ours. */
  predicate Ours(raw: Bytes, j: nat, mine: map<D.Label, D.KeyPair>)
    requires D.WellFormedBroadcast(raw) && j < D.CountOf(raw)
  {
    assert D.SlotAt(j + 1) <= D.SlotAt(D.CountOf(raw));
    D.LabelAt(raw, j) in mine
  }

  predicate OpensHere(c: Crypto, raw: Bytes, j: nat, mine: map<D.Label, D.KeyPair>, senders: seq<PublicKey>)
    requires D.WellFormedBroadcast(raw) && j < D.CountOf(raw)
  {
    assert D.SlotAt(j + 1) <= D.SlotAt(D.CountOf(raw));
    Ours(raw, j, mine) && D.OpenSlot(c, raw, j, senders, mine[D.LabelAt(raw, j)].secret).Some?
  }

  /** Of any broadcast in form the first slot of ours that opens gives the view; failing that it says whether one was ours. */
  lemma {:induction false} FirstSlotDecides(
    c: Crypto, raw: Bytes, i: nat, mine: map<D.Label, D.KeyPair>, senders: seq<PublicKey>, failed: bool)
    requires D.WellFormedBroadcast(raw) && i <= D.CountOf(raw)
    ensures var got := D.Walk(c, raw, i, mine, senders, failed);
      && !got.MalformedBroadcast?
      && (got.View? <==> exists j: nat :: i <= j < D.CountOf(raw) && OpensHere(c, raw, j, mine, senders))
      && (got.NoSlotForUs? <==> !failed && forall j: nat | i <= j < D.CountOf(raw) :: !Ours(raw, j, mine))
      && (got.View? ==> got.view.id == raw[1..9] && got.view.index == FromBE32(raw[9..13]))
    decreases D.CountOf(raw) - i
  {
    if i < D.CountOf(raw) {
      assert D.SlotAt(i + 1) <= D.SlotAt(D.CountOf(raw));
      if !OpensHere(c, raw, i, mine, senders) {
        FirstSlotDecides(c, raw, i + 1, mine, senders, failed || Ours(raw, i, mine));
      }
    }
  }

  lemma FirstsListTheSame(recipients: seq<PublicKey>, p: PublicKey)
    ensures p in D.Firsts(recipients) <==> p in recipients
  {
    D.FirstsSame(recipients);
    assert p in Set(D.Firsts(recipients)) <==> p in Set(recipients);
  }

  lemma ReceivingWalks(
    c: Crypto, labelOf: PublicKey -> D.Label, v: ChainView, recipients: seq<PublicKey>, s: SecretKey, nonce: nat -> Nonce,
    ours: seq<D.KeyPair>, senders: seq<PublicKey>)
    requires c.text.Faithful() && c.Sized() && D.Broadcasting(c, labelOf, v, recipients, s, nonce).Broadcast?
    ensures var raw := D.RawBroadcast(c, labelOf, v, D.Firsts(recipients), s, nonce);
      && D.WellFormedBroadcast(raw) && D.CountOf(raw) == |D.Firsts(recipients)|
      && raw[1..9] == v.id && FromBE32(raw[9..13]) == v.index
      && D.Receiving(c, labelOf, D.Broadcasting(c, labelOf, v, recipients, s, nonce).body, ours, senders) ==
         D.Walk(c, raw, 0, D.Mine(labelOf, ours), senders, false)
  {
    var raw := D.RawBroadcast(c, labelOf, v, D.Firsts(recipients), s, nonce);
    var body := D.Broadcasting(c, labelOf, v, recipients, s, nonce).body;
    assert body[|D.BROADCAST_PREFIX|..] == c.text.encode(raw);
    HeaderReadsBack(c, labelOf, v, D.Firsts(recipients), s, nonce);
  }

  /**
   * A broadcast yields the sent view exactly to whoever looks for a key it is sealed to,
   * however many slots bear the same label, and never yields any other view.
   */
  lemma BroadcastOpens(
    c: Crypto, labelOf: PublicKey -> D.Label, v: ChainView, recipients: seq<PublicKey>, s: SecretKey, nonce: nat -> Nonce,
    ours: seq<D.KeyPair>, senders: seq<PublicKey>, keys: set<SecretKey>)
    requires c.text.Faithful() && c.Sized() && c.Exact(keys) && s in keys && c.pub(s) in senders
    requires AllKnown(c, recipients, keys) && AllKnown(c, senders, keys) && Holder(c, ours, s, keys)
    requires D.Broadcasting(c, labelOf, v, recipients, s, nonce).Broadcast?
    ensures var got := D.Receiving(c, labelOf, D.Broadcasting(c, labelOf, v, recipients, s, nonce).body, ours, senders);
      && (got == D.View(v) <==> exists p :: p in recipients && Hit(labelOf, D.Mine(labelOf, ours), p))
      && (got == D.View(v) || got == D.NoSlotForUs || got == D.SlotFailed)
      && (got == D.NoSlotForUs <==> forall p :: p in recipients ==> labelOf(p) !in D.Mine(labelOf, ours))
  {
    var to, mine := D.Firsts(recipients), D.Mine(labelOf, ours);
    forall p ensures p in to <==> p in recipients {
      FirstsListTheSame(recipients, p);
    }
    var raw := D.RawBroadcast(c, labelOf, v, to, s, nonce);
    ReceivingWalks(c, labelOf, v, recipients, s, nonce, ours, senders);
    forall j | 0 <= j < |to| ensures IsSlot(c, labelOf, raw, j, v, to[j], mine, senders, s) {
      SlotsOfBroadcast(c, labelOf, v, to, s, nonce, ours, senders, keys, j);
    }
    WalkFinds(c, labelOf, raw, v, to, mine, senders, s, 0, false);
    AnyOfList(labelOf, mine, to);
  }

  lemma AnyOfList(labelOf: PublicKey -> D.Label, mine: map<D.Label, D.KeyPair>, to: seq<PublicKey>)
    ensures AnyHit(labelOf, mine, to, 0) <==> exists p :: p in to && Hit(labelOf, mine, p)
    ensures AnyLabel(labelOf, mine, to, 0) <==> exists p :: p in to && labelOf(p) in mine
  {
  }

  /** The case of one device with one key: the view if it was addressed, nothing if not. */
  lemma OneDevice(
    c: Crypto, labelOf: PublicKey -> D.Label, v: ChainView, recipients: seq<PublicKey>, s: SecretKey, nonce: nat -> Nonce,
    kp: D.KeyPair, senders: seq<PublicKey>, keys: set<SecretKey>)
    requires c.text.Faithful() && c.Sized() && c.Exact(keys) && s in keys && c.pub(s) in senders
    requires AllKnown(c, recipients, keys) && AllKnown(c, senders, keys) && Holder(c, [kp], s, keys)
    requires D.Broadcasting(c, labelOf, v, recipients, s, nonce).Broadcast?
    ensures var got := D.Receiving(c, labelOf, D.Broadcasting(c, labelOf, v, recipients, s, nonce).body, [kp], senders);
      && (kp.public in recipients ==> got == D.View(v))
      && (kp.public !in recipients ==> got == D.NoSlotForUs || got == D.SlotFailed)
  {
    BroadcastOpens(c, labelOf, v, recipients, s, nonce, [kp], senders, keys);
    assert [kp][..0] == [];
    assert D.Mine(labelOf, [kp]) == map[labelOf(kp.public) := kp];
    if kp.public in recipients {
      assert Hit(labelOf, D.Mine(labelOf, [kp]), kp.public);
    }
  }

  lemma BroadcastFits(c: Crypto, labelOf: PublicKey -> D.Label, v: ChainView, recipients: seq<PublicKey>, s: SecretKey, nonce: nat -> Nonce)
    requires c.Sized() && c.text.FourForThree() && D.Broadcasting(c, labelOf, v, recipients, s, nonce).Broadcast?
    ensures |D.Broadcasting(c, labelOf, v, recipients, s, nonce).body| <= MAX_PAYLOAD
  {
    HeaderReadsBack(c, labelOf, v, D.Firsts(recipients), s, nonce);
  }

  // --- The chunk loop -----------------------------------------------------------------

  function Devices(members: seq<string>, self: string, keys: map<string, seq<PublicKey>>): seq<PublicKey> {
    if members == [] then []
    else (if members[0] != self && members[0] in keys then keys[members[0]] else []) + Devices(members[1..], self, keys)
  }

  function Chunk(recipients: seq<PublicKey>, start: nat): seq<PublicKey>
    requires start <= |recipients|
  {
    recipients[start..if start + D.MAX_SLOTS < |recipients| then start + D.MAX_SLOTS else |recipients|]
  }

  /** What one send of the chunk starting at `start` carries. */
  function ChunkBroadcast(
    c: Crypto, labelOf: PublicKey -> D.Label, v: ChainView, recipients: seq<PublicKey>, s: SecretKey, nonce: (nat, nat) -> Nonce,
    start: nat): D.Broadcast
    requires start <= |recipients|
  {
    D.Broadcasting(c, labelOf, v, Chunk(recipients, start), s, i => nonce(start, i))
  }

  ghost predicate Carries(
    c: Crypto, labelOf: PublicKey -> D.Label, v: ChainView, recipients: seq<PublicKey>, s: SecretKey, nonce: (nat, nat) -> Nonce,
    body: string, start: nat)
  {
    && start <= |recipients|
    && ChunkBroadcast(c, labelOf, v, recipients, s, nonce, start) == D.Broadcast(body)
  }

  /**
   * Sends the chain to every listed device, 580 at a time. `connected` is whether we are
   * in the room at all, `sends(k)` whether the k-th message leaves; a failure stops the
   * loop and leaves the chain unshared.
   */
  method SendChain(
    c: Crypto, labelOf: PublicKey -> D.Label, v: ChainView, members: seq<string>, self: string,
    peerKeys: map<string, seq<PublicKey>>, ours: Option<SecretKey>, nonce: (nat, nat) -> Nonce, connected: bool, sends: nat -> bool)
    returns (bodies: seq<string>, shared: bool)
    ensures var to := Devices(members, self, peerKeys);
      && (to == [] ==> shared && bodies == [])
      && (to != [] && (ours.None? || !connected) ==> !shared && bodies == [])
      && (to != [] && ours.Some? && connected ==>
          && (forall k | 0 <= k < |bodies| :: Carries(c, labelOf, v, to, ours.value, nonce, bodies[k], k * D.MAX_SLOTS))
          && (shared <==> |bodies| * D.MAX_SLOTS >= |to|)
          && (forall k | 0 <= k < |bodies| :: sends(k))
          && (!shared ==> |v.id| != D.ID_LEN || !sends(|bodies|)))
  {
    bodies, shared := [], false;
    var to := GatherDevices(members, self, peerKeys);
    if |to| == 0 {
      shared := true;
      return;
    }
    if ours.None? {
      return;
    }
    if !connected {
      return;
    }
    var start := 0;
    while start < |to|
      invariant start == |bodies| * D.MAX_SLOTS
      invariant |bodies| > 0 ==> (|bodies| - 1) * D.MAX_SLOTS < |to|
      invariant forall k | 0 <= k < |bodies| :: Carries(c, labelOf, v, to, ours.value, nonce, bodies[k], k * D.MAX_SLOTS)
      invariant forall k | 0 <= k < |bodies| :: sends(k)
    {
      ChunkIsSendable(to, start);
      var b := D.EncodeChainBroadcast(c, labelOf, v, Chunk(to, start), ours.value, i => nonce(start, i));
      assert b == ChunkBroadcast(c, labelOf, v, to, ours.value, nonce, start);
      if !b.Broadcast? {
        return;
      }
      if !sends(|bodies|) {
        return;
      }
      bodies := bodies + [b.body];
      start := start + D.MAX_SLOTS;
    }
    shared := true;
  }

  lemma ChunkIsSendable(recipients: seq<PublicKey>, start: nat)
    requires start < |recipients|
    ensures 0 < |D.Firsts(Chunk(recipients, start))| <= D.MAX_SLOTS
  {
    var chunk := Chunk(recipients, start);
    D.FirstsSame(chunk);
    assert chunk[0] in Set(chunk);
  }

  method GatherDevices(members: seq<string>, self: string, peerKeys: map<string, seq<PublicKey>>) returns (to: seq<PublicKey>)
    ensures to == Devices(members, self, peerKeys)
  {
    to := [];
    for i := 0 to |members|
      invariant Devices(members, self, peerKeys) == to + Devices(members[i..], self, peerKeys)
    {
      var more := if members[i] != self && members[i] in peerKeys then peerKeys[members[i]] else [];
      assert Devices(members[i..], self, peerKeys) == more + Devices(members[i + 1..], self, peerKeys);
      to := to + more;
    }
    assert members[|members|..] == [] && to + [] == to;
  }

  lemma {:induction false} DevicesListsAll(members: seq<string>, self: string, keys: map<string, seq<PublicKey>>, p: PublicKey)
    ensures p in Devices(members, self, keys) <==> exists m :: m in members && m != self && m in keys && p in keys[m]
  {
    if members != [] {
      DevicesListsAll(members[1..], self, keys, p);
      assert members == [members[0]] + members[1..];
    }
  }

  /** Every listed device falls into the chunk its place in the list says. */
  lemma ChunkOf(recipients: seq<PublicKey>, i: nat)
    requires i < |recipients|
    ensures var start := i / D.MAX_SLOTS * D.MAX_SLOTS; start <= i && recipients[i] in Chunk(recipients, start)
  {
    var start := i / D.MAX_SLOTS * D.MAX_SLOTS;
    assert Chunk(recipients, start)[i - start] == recipients[i];
  }

  ghost predicate Reads(
    c: Crypto, labelOf: PublicKey -> D.Label, bodies: seq<string>, kp: D.KeyPair, senders: seq<PublicKey>, v: ChainView)
  {
    exists k :: 0 <= k < |bodies| && D.Receiving(c, labelOf, bodies[k], [kp], senders) == D.View(v)
  }

  /** Everything sent for `to`, as `SendChain` promises it. */
  ghost predicate SentAll(
    c: Crypto, labelOf: PublicKey -> D.Label, v: ChainView, to: seq<PublicKey>, s: SecretKey, nonce: (nat, nat) -> Nonce,
    bodies: seq<string>)
  {
    && |bodies| * D.MAX_SLOTS >= |to|
    && forall k | 0 <= k < |bodies| :: Carries(c, labelOf, v, to, s, nonce, bodies[k], k * D.MAX_SLOTS)
  }

  lemma ChunkDevice(
    c: Crypto, labelOf: PublicKey -> D.Label, v: ChainView, to: seq<PublicKey>, s: SecretKey, nonce: (nat, nat) -> Nonce,
    body: string, start: nat, kp: D.KeyPair, senders: seq<PublicKey>, keys: set<SecretKey>)
    requires c.text.Faithful() && c.Sized() && c.Exact(keys) && s in keys && c.pub(s) in senders
    requires AllKnown(c, to, keys) && AllKnown(c, senders, keys) && Holder(c, [kp], s, keys)
    requires Carries(c, labelOf, v, to, s, nonce, body, start)
    ensures kp.public in Chunk(to, start) ==> D.Receiving(c, labelOf, body, [kp], senders) == D.View(v)
    ensures kp.public !in Chunk(to, start) ==> !D.Receiving(c, labelOf, body, [kp], senders).View?
  {
    OneDevice(c, labelOf, v, Chunk(to, start), s, i => nonce(start, i), kp, senders, keys);
  }

  /**
   * Once a chain is marked shared, every known device of every other member has read it
   * from one of the messages sent, and no other device reads any view from any of them.
   * Each message fits the transport.
   */
  lemma EveryDeviceIsReached(
    c: Crypto, labelOf: PublicKey -> D.Label, v: ChainView, members: seq<string>, self: string,
    peerKeys: map<string, seq<PublicKey>>, s: SecretKey, nonce: (nat, nat) -> Nonce, bodies: seq<string>,
    kp: D.KeyPair, senders: seq<PublicKey>, keys: set<SecretKey>)
    requires c.text.Faithful() && c.Sized() && c.Exact(keys) && s in keys && c.pub(s) in senders
    requires AllKnown(c, Devices(members, self, peerKeys), keys) && AllKnown(c, senders, keys) && Holder(c, [kp], s, keys)
    requires SentAll(c, labelOf, v, Devices(members, self, peerKeys), s, nonce, bodies)
    ensures Reads(c, labelOf, bodies, kp, senders, v) <==>
      exists m :: m in members && m != self && m in peerKeys && kp.public in peerKeys[m]
    ensures forall k | 0 <= k < |bodies| ::
      D.Receiving(c, labelOf, bodies[k], [kp], senders).View? ==> D.Receiving(c, labelOf, bodies[k], [kp], senders) == D.View(v)
  {
    var to := Devices(members, self, peerKeys);
    DevicesListsAll(members, self, peerKeys, kp.public);
    forall k | 0 <= k < |bodies|
      ensures D.Receiving(c, labelOf, bodies[k], [kp], senders).View? ==>
        kp.public in to && D.Receiving(c, labelOf, bodies[k], [kp], senders) == D.View(v)
    {
      ChunkDevice(c, labelOf, v, to, s, nonce, bodies[k], k * D.MAX_SLOTS, kp, senders, keys);
    }
    if kp.public in to {
      var i :| 0 <= i < |to| && to[i] == kp.public;
      ChunkOf(to, i);
      var k := i / D.MAX_SLOTS;
      assert k < |bodies|;
      ChunkDevice(c, labelOf, v, to, s, nonce, bodies[k], k * D.MAX_SLOTS, kp, senders, keys);
    }
  }

  lemma EveryMessageFits(
    c: Crypto, labelOf: PublicKey -> D.Label, v: ChainView, to: seq<PublicKey>, s: SecretKey, nonce: (nat, nat) -> Nonce,
    body: string, start: nat)
    requires c.Sized() && c.text.FourForThree() && Carries(c, labelOf, v, to, s, nonce, body, start)
    ensures |body| <= MAX_PAYLOAD && |Chunk(to, start)| <= D.MAX_SLOTS
  {
    BroadcastFits(c, labelOf, v, Chunk(to, start), s, i => nonce(start, i));
  }
}
