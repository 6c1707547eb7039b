/** What a believed device list makes of us and of what is remembered of its account. */
module DeviceLists {
  import opened Words
  import opened Layout
  import opened Keys
  import opened Manifests
  import opened ManifestLaws
  import opened SignatureLaws

  /** A statement at this counter is behind the pin, or is another statement at the pin's own counter. */
  predicate Behind(pin: Pin, counter: u64, digest: Digest) {
    counter < pin.counter || (counter == pin.counter && pin.digest.Some? && pin.digest != Some(digest))
  }

  /**
   * A manifest in order is refused only for its counter, and only under the identity
   * pinned: another identity starts its own count, and the first one seen of our own
   * account any count.
   */
  lemma RefusedExactlyWhere(sch: Scheme, me: Name, b: Book, sm: SignedManifest, saved: bool)
    requires !Remembered(sch, b, sm) && sm.present && sm.bytes != [] && InOrder(sch, sm)
    ensures var m, pin := sch.decode(sm.bytes).value, if me != "" && me == sm.name then b.self else EntryOf(b, sm.name).identity;
      Verifying(sch, me, b, sm, saved).devices.None? <==>
        && (pin.key == Some(m.identity.bytes) || (pin.key.None? && !(me != "" && me == sm.name)))
        && Behind(pin, m.counter, sch.digest(sm.bytes))
  {
  }

  /** Once believed it is remembered, and answers again without a check. */
  lemma BelievedIsRemembered(sch: Scheme, me: Name, b: Book, sm: SignedManifest, saved: bool, again: bool)
    requires Verifying(sch, me, b, sm, saved).devices.Some?
    ensures var v := Verifying(sch, me, b, sm, saved); Verifying(sch, me, v.book, sm, again) == v
  {
  }

  /** A peer believed under whatever identity is pinned to it, at that statement; whom the user verified stays verified. */
  lemma BelievedPinsThePeer(sch: Scheme, me: Name, b: Book, sm: SignedManifest, saved: bool)
    requires !Remembered(sch, b, sm) && !IsSelf(me, sm.name) && Verifying(sch, me, b, sm, saved).devices.Some?
    ensures var m, e := sch.decode(sm.bytes).value, EntryOf(b, sm.name);
      var d := Verifying(sch, me, b, sm, saved).book;
      && |m.identity.bytes| == 32
      && d.self == b.self
      && d.peers == b.peers[sm.name := e.(identity := Pin(Some(m.identity.bytes), m.counter, Some(sch.digest(sm.bytes))))]
      && d.file == if saved then b.file.(peers := d.peers) else b.file
  {
  }

  // --- Which of the listed devices are used ---------------------------------------------------

  /** We can encrypt to the device: its box key is an X25519 key of the right length. */
  predicate Encryptable(l: Listed) {
    l.box.alg == ALG_X25519 && |l.box.bytes| == 32
  }

  lemma FirstDevice(l: Listed, rest: seq<Listed>)
    ensures DevicesFrom([l] + rest) == DevicesFrom([l]) + DevicesFrom(rest)
  {
    assert ([l] + rest)[1..] == rest && [l][1..] == [];
  }

  lemma {:induction false} DevicesInTurn(a: seq<Listed>, b: seq<Listed>)
    ensures DevicesFrom(a + b) == DevicesFrom(a) + DevicesFrom(b)
  {
    if a == [] {
      assert a + b == b;
    } else {
      FirstDevice(a[0], a[1..] + b);
      FirstDevice(a[0], a[1..]);
      DevicesInTurn(a[1..], b);
      assert a == [a[0]] + a[1..] && a + b == [a[0]] + (a[1..] + b);
    }
  }

  /**
   * Exactly the devices we can encrypt to are used, in the order listed; a signing key is
   * kept where it is an Ed25519 key, and its absence costs the device nothing.
   */
  lemma UsableExactly(before: seq<Listed>, l: Listed, after: seq<Listed>)
    ensures var here := DevicesFrom([l]);
      && DevicesFrom(before + [l] + after) == DevicesFrom(before) + here + DevicesFrom(after)
      && |here| == (if Encryptable(l) then 1 else 0)
      && (Encryptable(l) ==>
          && here[0].box == l.box.bytes
          && (here[0].sign.Some? <==> l.sign.alg == ALG_ED25519 && |l.sign.bytes| == 32)
          && (here[0].sign.Some? ==> here[0].sign.value == l.sign.bytes))
    ensures DevicesFrom([]) == []
  {
    DevicesInTurn(before + [l], after);
    DevicesInTurn(before, [l]);
    assert [l][1..] == [];
  }

  // --- Our own place in the list ------------------------------------------------------------------

  /**
   * After a statement of our own account that is news: the devices are the ones it lists;
   * we are linked exactly where it is under our pinned identity and lists us; and a
   * sign-out, once it has happened, stays.
   */
  lemma StandingExactly(sch: Scheme, me: Name, b: Book, st: Standing, sm: SignedManifest, ours: PublicKey, saved: bool)
    requires !Remembered(sch, b, sm) && me != "" && sm.name == me && Verifying(sch, me, b, sm, saved).devices.Some?
    ensures var s, listed := StandingAfter(sch, me, b, st, sm, ours), Boxes(Verifying(sch, me, b, sm, saved).devices.value);
      var other := b.self.key.Some? && b.self.key.value != sch.decode(sm.bytes).value.identity.bytes;
      && s.devices == Canonical(listed)
      && (s.linked <==> !other && ours in listed)
      && (s.signedOut <==> other || st.signedOut || (st.linked && ours !in listed))
  {
  }

  /** A statement of anybody else says nothing of us. */
  lemma OthersMoveNoStanding(sch: Scheme, me: Name, b: Book, st: Standing, sm: SignedManifest, ours: PublicKey)
    requires me == "" || sm.name != me
    ensures StandingAfter(sch, me, b, st, sm, ours) == st
  {
  }

  lemma {:induction false} OthersExactly(devices: seq<Device>, box: PublicKey)
    ensures forall d :: d in Others(devices, box) <==> d in devices && d.box != box
    ensures (forall d | d in devices :: d.box != box) ==> Others(devices, box) == devices
  {
    if devices != [] {
      OthersExactly(devices[1..], box);
      assert devices == [devices[0]] + devices[1..];
    }
  }

  /** The devices we would publish: the others last listed, and this one once, last, as it is now. */
  lemma CurrentExactly(b: Book, me: Name, ours: Device)
    ensures var out, known := CurrentDevices(b, me, ours), if me in b.memo then b.memo[me].devices else [];
      && out != [] && out[|out| - 1] == ours
      && (forall d :: d in out[..|out| - 1] <==> d in known && d.box != ours.box)
      && ((forall d | d in known :: d.box != ours.box) ==> out == known + [ours])
  {
    OthersExactly(if me in b.memo then b.memo[me].devices else [], ours.box);
  }

  // --- The user's own verdict ----------------------------------------------------------------------

  /** Verifying a peer verifies the identity pinned now, if one is; nothing else of them or of anybody changes. */
  lemma ConfirmsExactly(b: Book, who: Name, saved: bool)
    ensures var d, pinned := Confirmed(b, who, saved), EntryOf(b, who).identity.key;
      && EntryOf(d, who) == (if pinned.Some? then EntryOf(b, who).(verified := pinned) else EntryOf(b, who))
      && (forall p | p != who :: EntryOf(d, p) == EntryOf(b, p))
      && d.self == b.self && d.memo == b.memo
  {
  }

  /** Dropping the verdict drops that alone: a pinned identity, its counter and the record of keys stay. */
  lemma UnconfirmsExactly(b: Book, who: Name, saved: bool)
    ensures var d, e := Unconfirmed(b, who, saved), EntryOf(b, who);
      && EntryOf(d, who) == (if e.seen == "" && e.identity.key.None? then STRANGER else e.(verified := None))
      && (forall p | p != who :: EntryOf(d, p) == EntryOf(b, p))
      && d.self == b.self && d.memo == b.memo
  {
  }

  /** The record of a peer's keys is always of the latest set noted, and of nothing else. */
  lemma NotesExactly(t: KeyText, b: Book, who: Name, keys: seq<PublicKey>, saved: bool)
    ensures var d := Noted(t, b, who, keys, saved);
      && EntryOf(d, who) == EntryOf(b, who).(seen := t.Stored(keys))
      && (forall p | p != who :: EntryOf(d, p) == EntryOf(b, p))
      && d.self == b.self && d.memo == b.memo
  {
  }

  /** Signing on starts from the file, with nothing memoized; a save that landed is all there, one that did not is not. */
  lemma SigningOnReadsTheFile(b: Book)
    ensures var d := SignedOn(b); InSync(d) && d.file == b.file && d.memo == map[]
  {
  }
}
