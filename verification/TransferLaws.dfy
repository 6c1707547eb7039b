/** An import adds what was missing, once, and vouches for none of it. */
module TransferLaws {
  import opened Words
  import opened Transfers

  // --- Which messages are the same -----------------------------------------------------------

  predicate Named(m: Message) {
    '\0' !in m.from && '\0' !in m.to
  }

  function FirstNul(s: string): nat {
    if s == "" || s[0] == '\0' then 0 else 1 + FirstNul(s[1..])
  }

  lemma {:induction false} FirstNulOf(a: string, x: string)
    requires '\0' !in a
    ensures FirstNul(a + "\0" + x) == |a|
  {
    if a != "" {
      FirstNulOf(a[1..], x);
      assert (a + "\0" + x)[1..] == a[1..] + "\0" + x;
    }
  }

  /** Two texts without a NUL, each followed by one, read apart again. */
  lemma SplitAtNul(a: string, x: string, b: string, y: string)
    requires '\0' !in a && '\0' !in b && a + "\0" + x == b + "\0" + y
    ensures a == b && x == y
  {
    var s := a + "\0" + x;
    FirstNulOf(a, x);
    FirstNulOf(b, y);
    assert a == s[..|a|] == b;
    assert x == s[|a| + 1..] == y;
  }

  function Joined(a: string, b: string, c: string, d: string, e: string): string {
    a + "\0" + (b + "\0" + (c + "\0" + (d + "\0" + e)))
  }

  predicate NoNul(a: string) {
    '\0' !in a
  }

  lemma JoinedApart(a: string, b: string, c: string, d: string, e: string, a': string, b': string, c': string, d': string, e': string)
    requires NoNul(a) && NoNul(b) && NoNul(c) && NoNul(d) && NoNul(a') && NoNul(b') && NoNul(c') && NoNul(d')
    requires Joined(a, b, c, d, e) == Joined(a', b', c', d', e')
    ensures a == a' && b == b' && c == c' && d == d' && e == e'
  {
    SplitAtNul(a, b + "\0" + (c + "\0" + (d + "\0" + e)), a', b' + "\0" + (c' + "\0" + (d' + "\0" + e')));
    SplitAtNul(b, c + "\0" + (d + "\0" + e), b', c' + "\0" + (d' + "\0" + e'));
    SplitAtNul(c, d + "\0" + e, c', d' + "\0" + e');
    SplitAtNul(d, e, d', e');
  }

  function Arrow(m: Message): string {
    if m.outgoing then ">" else "<"
  }

  lemma JoinedIsFlat(a: string, b: string, c: string, d: string, e: string)
    ensures Joined(a, b, c, d, e) == a + "\0" + b + "\0" + c + "\0" + d + "\0" + e
  {
  }

  lemma KeyIsJoined(c: Clock, m: Message)
    ensures c.KeyOf(m) == Joined(Arrow(m), m.from, m.to, c.show(Second(m.at)), m.text)
  {
    JoinedIsFlat(Arrow(m), m.from, m.to, c.show(Second(m.at)), m.text);
  }

  /** A message is known by its direction, the two names, the second it was sent in and its text. */
  lemma KeyNamesTheMessage(c: Clock, m: Message, n: Message)
    requires c.Exact() && Named(m) && Named(n)
    ensures c.KeyOf(m) == c.KeyOf(n) <==>
      (m.outgoing == n.outgoing && m.from == n.from && m.to == n.to && Second(m.at) == Second(n.at) && m.text == n.text)
  {
    KeyIsJoined(c, m);
    KeyIsJoined(c, n);
    if c.KeyOf(m) == c.KeyOf(n) {
      assert NoNul(Arrow(m)) && NoNul(Arrow(n)) && NoNul(c.show(Second(m.at))) && NoNul(c.show(Second(n.at)));
      JoinedApart(Arrow(m), m.from, m.to, c.show(Second(m.at)), m.text, Arrow(n), n.from, n.to, c.show(Second(n.at)), n.text);
    }
  }

  // --- What is unseen ---------------------------------------------------------------------------

  lemma {:induction false} UnseenSplits(key: Message -> string, seen: set<string>, a: seq<Message>, b: seq<Message>)
    ensures Unseen(key, seen, a + b) == Unseen(key, seen, a) + Unseen(key, seen + KeysIn(key, Unseen(key, seen, a)), b)
    decreases |a|
  {
    if a == [] {
      assert a + b == b && seen + KeysIn(key, []) == seen;
    } else {
      assert (a + b)[1..] == a[1..] + b;
      var k := key(a[0]);
      if k in seen {
        UnseenSplits(key, seen, a[1..], b);
      } else {
        UnseenSplits(key, seen + {k}, a[1..], b);
        var rest := Unseen(key, seen + {k}, a[1..]);
        KeysOfCons(key, a[0], rest);
        assert seen + {k} + KeysIn(key, rest) == seen + KeysIn(key, [a[0]] + rest);
      }
    }
  }

  lemma KeysOfCons(key: Message -> string, m: Message, s: seq<Message>)
    ensures KeysIn(key, [m] + s) == {key(m)} + KeysIn(key, s)
  {
    var r := [m] + s;
    assert r[0] == m;
    forall x | x in s ensures x in r {
      var i :| 0 <= i < |s| && s[i] == x;
      assert r[i + 1] == x;
    }
  }

  lemma {:induction false} UnseenCovers(key: Message -> string, seen: set<string>, msgs: seq<Message>)
    ensures KeysIn(key, msgs) <= seen + KeysIn(key, Unseen(key, seen, msgs))
    ensures KeysIn(key, msgs) <= seen <==> Unseen(key, seen, msgs) == []
    ensures forall m | m in Unseen(key, seen, msgs) :: m in msgs && key(m) !in seen
    decreases |msgs|
  {
    if msgs != [] {
      assert msgs == [msgs[0]] + msgs[1..];
      KeysOfCons(key, msgs[0], msgs[1..]);
      if key(msgs[0]) in seen {
        UnseenCovers(key, seen, msgs[1..]);
      } else {
        UnseenCovers(key, seen + {key(msgs[0])}, msgs[1..]);
        KeysOfCons(key, msgs[0], Unseen(key, seen + {key(msgs[0])}, msgs[1..]));
      }
    }
  }

  lemma KeysOfSameMessages(key: Message -> string, a: seq<Message>, b: seq<Message>)
    requires multiset(a) == multiset(b)
    ensures KeysIn(key, a) == KeysIn(key, b)
  {
    forall m ensures m in a <==> m in b {
      assert m in multiset(a) <==> m in multiset(b);
    }
  }

  lemma KeysOfSum(key: Message -> string, a: seq<Message>, b: seq<Message>)
    ensures KeysIn(key, a + b) == KeysIn(key, a) + KeysIn(key, b)
  {
    forall m ensures m in a + b <==> m in a || m in b {
    }
  }

  // --- Threads ----------------------------------------------------------------------------------

  function Held(convs: seq<Conversation>, k: Name): Option<Conversation> {
    IndexFinds(convs);
    if k in Index(convs) then Some(convs[Index(convs)[k]]) else None
  }

  function Messages(convs: seq<Conversation>, k: Name): seq<Message> {
    match Held(convs, k)
    case Some(t) => t.messages
    case None => []
  }

  /** Everything the bundle brings for one thread, cleaned, in order. */
  function Brought(incoming: seq<Conversation>, k: Name, now: Time): seq<Message> {
    if incoming == [] then []
    else (if incoming[0].screenName == k then Cleaned(incoming[0].messages, now) else []) + Brought(incoming[1..], k, now)
  }

  lemma HeldAppend(convs: seq<Conversation>, t: Conversation, k: Name)
    ensures Held(convs + [t], k) == if k == t.key then Some(t) else Held(convs, k)
  {
    assert (convs + [t])[..|convs|] == convs;
    IndexFinds(convs);
  }

  lemma HeldUpdate(convs: seq<Conversation>, i: nat, t: Conversation, k: Name)
    requires i < |convs| && t.key == convs[i].key && t.key in Index(convs) && Index(convs)[t.key] == i
    ensures Held(convs[i := t], k) == if k == t.key then Some(t) else Held(convs, k)
  {
    IndexFinds(convs);
    SameKeysSameIndex(convs, convs[i := t]);
  }

  lemma HeldAfterOne(c: Clock, convs: seq<Conversation>, arriving: Conversation, now: Time, k: Name)
    ensures var gained, cur := Gained(c, convs, arriving, now), Current(convs, arriving);
      Held(MergeOne(c, convs, arriving, now), k) ==
      if k == arriving.screenName && k != "" && gained != [] then Some(cur.(messages := ByTime(cur.messages + gained)))
      else Held(convs, k)
  {
    var gained, cur := Gained(c, convs, arriving, now), Current(convs, arriving);
    var t := cur.(messages := ByTime(cur.messages + gained));
    IndexFinds(convs);
    if arriving.screenName != "" && gained != [] {
      if arriving.screenName in Index(convs) {
        HeldUpdate(convs, Index(convs)[arriving.screenName], t, k);
      } else {
        HeldAppend(convs, t, k);
      }
    }
  }

  /** What the bundle brings that the thread does not have. */
  function Missing(c: Clock, convs: seq<Conversation>, incoming: seq<Conversation>, now: Time, k: Name): seq<Message> {
    Unseen(c.KeyOfThread(), KeysIn(c.KeyOfThread(), Messages(convs, k)), Brought(incoming, k, now))
  }

  /** What one transferred thread brings for `k`. */
  function Part(arriving: Conversation, k: Name, now: Time): seq<Message> {
    if arriving.screenName == k then Cleaned(arriving.messages, now) else []
  }

  lemma OneStepConserves(c: Clock, convs: seq<Conversation>, arriving: Conversation, now: Time, k: Name)
    requires k != ""
    ensures var key, b, d := c.KeyOfThread(), Messages(convs, k), MergeOne(c, convs, arriving, now);
      var gained := Unseen(key, KeysIn(key, b), Part(arriving, k, now));
      && multiset(Messages(d, k)) == multiset(b) + multiset(gained)
      && KeysIn(key, Messages(d, k)) == KeysIn(key, b) + KeysIn(key, gained)
      && (gained != [] ==> Ordered(Messages(d, k)))
      && (gained == [] ==> Held(d, k) == Held(convs, k))
  {
    var key, b := c.KeyOfThread(), Messages(convs, k);
    HeldAfterOne(c, convs, arriving, now, k);
    var gained := Unseen(key, KeysIn(key, b), Part(arriving, k, now));
    if gained != [] {
      assert Current(convs, arriving).messages == b;
      ByTimeIsAStableSort(b + gained, 0);
      KeysOfSum(key, b, gained);
      KeysOfSameMessages(key, ByTime(b + gained), b + gained);
    }
  }

  lemma MissingSplits(c: Clock, convs: seq<Conversation>, incoming: seq<Conversation>, now: Time, k: Name)
    requires k != "" && incoming != []
    ensures var key, b, d := c.KeyOfThread(), Messages(convs, k), MergeOne(c, convs, incoming[0], now);
      Missing(c, convs, incoming, now, k) ==
      Unseen(key, KeysIn(key, b), Part(incoming[0], k, now)) + Missing(c, d, incoming[1..], now, k)
  {
    var key, b := c.KeyOfThread(), Messages(convs, k);
    OneStepConserves(c, convs, incoming[0], now, k);
    UnseenSplits(key, KeysIn(key, b), Part(incoming[0], k, now), Brought(incoming[1..], k, now));
  }

  /**
   * Conservation. Each thread ends with what it had and what it missed, no more and no
   * less, in order of time; a thread that missed nothing is left exactly as it was.
   */
  lemma {:induction false} ImportConserves(c: Clock, convs: seq<Conversation>, incoming: seq<Conversation>, now: Time, k: Name)
    requires k != ""
    ensures var missing, after := Missing(c, convs, incoming, now, k), Messages(Merged(c, convs, incoming, now), k);
      && multiset(after) == multiset(Messages(convs, k)) + multiset(missing)
      && (missing != [] ==> Ordered(after))
      && (missing == [] ==> Held(Merged(c, convs, incoming, now), k) == Held(convs, k))
    decreases |incoming|
  {
    if incoming != [] {
      OneStepConserves(c, convs, incoming[0], now, k);
      MissingSplits(c, convs, incoming, now, k);
      ImportConserves(c, MergeOne(c, convs, incoming[0], now), incoming[1..], now, k);
    }
  }

  // --- What else a thread is ------------------------------------------------------------------------

  /** The same thread but for its messages and whether they are read. */
  predicate SameThread(t: Conversation, u: Conversation) {
    u.key == t.key && u.screenName == t.screenName && u.hidden == t.hidden
  }

  /** The first thread of that name to bring anything. */
  function FirstToBring(incoming: seq<Conversation>, k: Name): Option<Conversation> {
    if incoming == [] then None
    else if incoming[0].screenName == k && incoming[0].messages != [] then Some(incoming[0])
    else FirstToBring(incoming[1..], k)
  }

  /** A thread as `k` would first be entered: under that name, read, and hidden as it was where it came from. */
  predicate Entered(u: Conversation, k: Name, hidden: bool) {
    u.key == k && u.screenName == k && u.hidden == hidden && u.unread == 0
  }

  ghost predicate KeptOrEntered(before: Option<Conversation>, after: Option<Conversation>, incoming: seq<Conversation>, k: Name) {
    match before
    case Some(t) => after.Some? && SameThread(t, after.value) && (after.value.unread == t.unread || after.value.unread == 0)
    case None =>
      match FirstToBring(incoming, k)
      case None => after.None?
      case Some(first) => after.Some? && Entered(after.value, k, first.hidden)
  }

  /** What one transferred thread does to the one held under `k`. */
  predicate OneOn(before: Option<Conversation>, after: Option<Conversation>, arriving: Conversation, k: Name) {
    match before
    case Some(t) => after.Some? && SameThread(t, after.value) && after.value.unread == t.unread
    case None =>
      if arriving.screenName == k && arriving.messages != []
      then after.Some? && Entered(after.value, k, arriving.hidden)
      else after.None?
  }

  lemma OneThreadOn(c: Clock, convs: seq<Conversation>, arriving: Conversation, now: Time, k: Name)
    requires k != ""
    ensures OneOn(Held(convs, k), Held(MergeOne(c, convs, arriving, now), k), arriving, k)
  {
    HeldAfterOne(c, convs, arriving, now, k);
    IndexFinds(convs);
    if Held(convs, k).None? && arriving.screenName == k {
      CleanedSaysTheSame(arriving.messages, now);
      var cleaned := Cleaned(arriving.messages, now);
      UnseenCovers(c.KeyOfThread(), {}, cleaned);
      assert KeysIn(c.KeyOfThread(), Current(convs, arriving).messages) == {};
      if cleaned != [] {
        assert c.KeyOfThread()(cleaned[0]) in KeysIn(c.KeyOfThread(), cleaned);
      }
    }
  }

  lemma {:induction false} ThreadsMerge(c: Clock, convs: seq<Conversation>, incoming: seq<Conversation>, now: Time, k: Name)
    requires k != ""
    ensures KeptOrEntered(Held(convs, k), Held(Merged(c, convs, incoming, now), k), incoming, k)
    decreases |incoming|
  {
    if incoming != [] {
      OneThreadOn(c, convs, incoming[0], now, k);
      ThreadsMerge(c, MergeOne(c, convs, incoming[0], now), incoming[1..], now, k);
    }
  }

  /**
   * Besides its messages an import leaves a thread as it was, read or not; and a thread
   * that was not there is entered where the bundle brings something for it, hidden if the
   * first to bring anything was.
   */
  lemma ThreadsAreKeptOrEntered(c: Clock, convs: seq<Conversation>, incoming: seq<Conversation>, now: Time, k: Name)
    requires k != ""
    ensures KeptOrEntered(Held(convs, k), Held(Installed(c, convs, incoming, now), k), incoming, k)
  {
    ThreadsMerge(c, convs, incoming, now, k);
    HeldAllRead(Merged(c, convs, incoming, now), k);
    if !Changes(c, convs, incoming, now) {
      UnchangedIsSame(c, convs, incoming, now);
    }
  }

  // --- Importing twice -----------------------------------------------------------------------------

  predicate NoFutureStamps(incoming: seq<Conversation>, now: Time) {
    forall t | t in incoming :: forall m | m in t.messages :: m.at <= now
  }

  lemma {:induction false} CleanedTheSame(msgs: seq<Message>, now: Time, later: Time)
    requires now <= later && forall m | m in msgs :: m.at <= now
    ensures Cleaned(msgs, now) == Cleaned(msgs, later)
  {
    if msgs != [] {
      CleanedTheSame(msgs[1..], now, later);
    }
  }

  lemma {:induction false} BroughtTheSame(incoming: seq<Conversation>, k: Name, now: Time, later: Time)
    requires now <= later && NoFutureStamps(incoming, now)
    ensures Brought(incoming, k, now) == Brought(incoming, k, later)
  {
    if incoming != [] {
      BroughtTheSame(incoming[1..], k, now, later);
      CleanedTheSame(incoming[0].messages, now, later);
    }
  }

  lemma {:induction false} NothingNewChangesNothing(c: Clock, convs: seq<Conversation>, incoming: seq<Conversation>, now: Time)
    requires forall k | k != "" :: Missing(c, convs, incoming, now, k) == []
    ensures !Changes(c, convs, incoming, now)
    decreases |incoming|
  {
    if incoming != [] {
      var key := c.KeyOfThread();
      var first, rest := incoming[0], incoming[1..];
      if first.screenName != "" {
        assert Missing(c, convs, incoming, now, first.screenName) == [];
        MissingSplits(c, convs, incoming, now, first.screenName);
        assert Gained(c, convs, first, now) == [];
      }
      forall k | k != "" ensures Missing(c, convs, rest, now, k) == [] {
        assert Missing(c, convs, incoming, now, k) == [];
        MissingSplits(c, convs, incoming, now, k);
      }
      NothingNewChangesNothing(c, convs, rest, now);
    }
  }

  /** Where nothing changed the fold is the identity. */
  lemma {:induction false} UnchangedIsSame(c: Clock, convs: seq<Conversation>, incoming: seq<Conversation>, now: Time)
    requires !Changes(c, convs, incoming, now)
    ensures Merged(c, convs, incoming, now) == convs
    decreases |incoming|
  {
    if incoming != [] {
      UnchangedIsSame(c, MergeOne(c, convs, incoming[0], now), incoming[1..], now);
    }
  }

  lemma {:induction false} AllReadKeeps(convs: seq<Conversation>)
    ensures |AllRead(convs)| == |convs|
    ensures forall i | 0 <= i < |convs| :: AllRead(convs)[i] == convs[i].(unread := 0)
  {
    if convs != [] {
      AllReadKeeps(convs[1..]);
    }
  }

  lemma HeldAllRead(convs: seq<Conversation>, k: Name)
    ensures Held(AllRead(convs), k) ==
      match Held(convs, k)
      case Some(t) => Some(t.(unread := 0))
      case None => None
    ensures Messages(AllRead(convs), k) == Messages(convs, k)
  {
    AllReadKeeps(convs);
    SameKeysSameIndex(convs, AllRead(convs));
    IndexFinds(convs);
  }

  /**
   * Conservation in the store. Each thread ends with what it had and what it missed, in
   * order of time. An import that adds nothing anywhere touches nothing; one that adds
   * something leaves every other thread as it was, but read.
   */
  lemma InstallConserves(c: Clock, convs: seq<Conversation>, incoming: seq<Conversation>, now: Time, k: Name)
    requires k != ""
    ensures var missing, store := Missing(c, convs, incoming, now, k), Installed(c, convs, incoming, now);
      && multiset(Messages(store, k)) == multiset(Messages(convs, k)) + multiset(missing)
      && (missing != [] ==> Ordered(Messages(store, k)))
      && (!Changes(c, convs, incoming, now) ==> store == convs && missing == [])
      && (Changes(c, convs, incoming, now) && missing == [] ==>
          match Held(convs, k)
          case Some(t) => Held(store, k) == Some(t.(unread := 0))
          case None => Held(store, k).None?)
  {
    ImportConserves(c, convs, incoming, now, k);
    HeldAllRead(Merged(c, convs, incoming, now), k);
    if !Changes(c, convs, incoming, now) {
      UnchangedMissesNothing(c, convs, incoming, now, k);
    }
  }

  lemma UnchangedMissesNothing(c: Clock, convs: seq<Conversation>, incoming: seq<Conversation>, now: Time, k: Name)
    requires k != "" && !Changes(c, convs, incoming, now)
    ensures Missing(c, convs, incoming, now, k) == []
  {
    UnchangedIsSame(c, convs, incoming, now);
    ImportConserves(c, convs, incoming, now, k);
    var missing := Missing(c, convs, incoming, now, k);
    assert |multiset(Messages(convs, k)) + multiset(missing)| == |multiset(Messages(convs, k))| + |multiset(missing)|;
    assert |multiset(missing)| == |missing|;
  }

  /** What a thread knows after an import: what it knew, and what the bundle brought. */
  lemma KeysAfterImport(c: Clock, convs: seq<Conversation>, incoming: seq<Conversation>, now: Time, k: Name)
    requires k != ""
    ensures var key := c.KeyOfThread();
      KeysIn(key, Messages(Installed(c, convs, incoming, now), k)) ==
      KeysIn(key, Messages(convs, k)) + KeysIn(key, Brought(incoming, k, now))
  {
    var key, b := c.KeyOfThread(), Messages(convs, k);
    var missing := Missing(c, convs, incoming, now, k);
    InstallConserves(c, convs, incoming, now, k);
    KeysOfSum(key, b, missing);
    KeysOfSameMessages(key, Messages(Installed(c, convs, incoming, now), k), b + missing);
    UnseenCovers(key, KeysIn(key, b), Brought(incoming, k, now));
    assert KeysIn(key, missing) <= KeysIn(key, Brought(incoming, k, now));
  }

  /** An import leaves the store as it is exactly where it misses nothing in any thread. */
  lemma InertExactly(c: Clock, store: seq<Conversation>, again: seq<Conversation>, later: Time)
    ensures Installed(c, store, again, later) == store <==> forall k | k != "" :: Missing(c, store, again, later, k) == []
  {
    if forall k | k != "" :: Missing(c, store, again, later, k) == [] {
      NothingNewChangesNothing(c, store, again, later);
    } else {
      var k :| k != "" && Missing(c, store, again, later, k) != [];
      InstallConserves(c, store, again, later, k);
      var missing := Missing(c, store, again, later, k);
      assert |multiset(Messages(store, k)) + multiset(missing)| == |multiset(Messages(store, k))| + |multiset(missing)|;
      assert |multiset(missing)| == |missing|;
    }
  }

  /**
   * Exactly when a second import, of the same bundle or another, at any time, changes
   * nothing: where every message it brings is, by its key at that time, one the thread
   * already had or the first import brought.
   */
  lemma ImportingAgainExactly(
    c: Clock, convs: seq<Conversation>, incoming: seq<Conversation>, now: Time, again: seq<Conversation>, later: Time)
    ensures var key, once := c.KeyOfThread(), Installed(c, convs, incoming, now);
      Installed(c, once, again, later) == once <==>
      forall k | k != "" ::
        KeysIn(key, Brought(again, k, later)) <= KeysIn(key, Messages(convs, k)) + KeysIn(key, Brought(incoming, k, now))
  {
    var key, once := c.KeyOfThread(), Installed(c, convs, incoming, now);
    InertExactly(c, once, again, later);
    forall k | k != ""
      ensures Missing(c, once, again, later, k) == [] <==>
        KeysIn(key, Brought(again, k, later)) <= KeysIn(key, Messages(convs, k)) + KeysIn(key, Brought(incoming, k, now))
    {
      KeysAfterImport(c, convs, incoming, now, k);
      UnseenCovers(key, KeysIn(key, Messages(once, k)), Brought(again, k, later));
    }
  }

  /** So importing the same bundle again, at any later time, changes nothing, if none of its stamps was ahead. */
  lemma ImportingTwiceIsImportingOnce(c: Clock, convs: seq<Conversation>, incoming: seq<Conversation>, now: Time, later: Time)
    requires now <= later && NoFutureStamps(incoming, now)
    ensures var once := Installed(c, convs, incoming, now); Installed(c, once, incoming, later) == once
  {
    ImportingAgainExactly(c, convs, incoming, now, incoming, later);
    forall k | k != "" ensures Brought(incoming, k, now) == Brought(incoming, k, later) {
      BroughtTheSame(incoming, k, now, later);
    }
  }

  /** One message alone in a bundle. */
  function Alone(k: Name, m: Message): seq<Conversation> {
    [Conversation(k, k, [m], 0, false)]
  }

  lemma BroughtAlone(k: Name, m: Message, now: Time, n: Name)
    ensures Brought(Alone(k, m), n, now) == if n == k then [Sanitized(m, now)] else []
  {
    assert Alone(k, m)[1..] == [] && [m][1..] == [];
    assert Cleaned([m], now) == [Sanitized(m, now)];
  }

  lemma UnseenOne(key: Message -> string, seen: set<string>, m: Message)
    ensures Unseen(key, seen, [m]) == if key(m) in seen then [] else [m]
  {
    assert [m][1..] == [];
  }

  lemma OnlyMessage(c: Clock, k: Name, m: Message, now: Time)
    requires k != ""
    ensures Messages(Installed(c, [], Alone(k, m), now), k) == [Sanitized(m, now)]
  {
    BroughtAlone(k, m, now, k);
    UnseenOne(c.KeyOfThread(), {}, Sanitized(m, now));
    InstallConserves(c, [], Alone(k, m), now, k);
    assert KeysIn(c.KeyOfThread(), Messages([], k)) == {};
    OnlyOne(Messages(Installed(c, [], Alone(k, m), now), k), Sanitized(m, now));
  }

  lemma MissingAlone(c: Clock, once: seq<Conversation>, k: Name, m: Message, held: Message, later: Time)
    requires k != "" && Messages(once, k) == [held]
    ensures Missing(c, once, Alone(k, m), later, k) ==
      if c.KeyOf(Sanitized(m, later)) == c.KeyOf(held) then [] else [Sanitized(m, later)]
    ensures forall n | n != k :: Missing(c, once, Alone(k, m), later, n) == []
  {
    var key := c.KeyOfThread();
    assert KeysIn(key, [held]) == {key(held)};
    BroughtAlone(k, m, later, k);
    UnseenOne(key, {key(held)}, Sanitized(m, later));
    forall n | n != k ensures Missing(c, once, Alone(k, m), later, n) == [] {
      BroughtAlone(k, m, later, n);
    }
  }

  lemma AgainOntoOne(c: Clock, once: seq<Conversation>, k: Name, m: Message, held: Message, later: Time)
    requires k != "" && Messages(once, k) == [held]
    ensures Installed(c, once, Alone(k, m), later) == once <==> c.KeyOf(Sanitized(m, later)) == c.KeyOf(held)
  {
    MissingAlone(c, once, k, m, held, later);
    if c.KeyOf(Sanitized(m, later)) == c.KeyOf(held) {
      NothingNewChangesNothing(c, once, Alone(k, m), later);
    } else {
      InstallConserves(c, once, Alone(k, m), later, k);
      assert |multiset([held]) + multiset([Sanitized(m, later)])| == 2;
      assert |multiset([held])| == 1;
    }
  }

  /**
   * The case of one message into an empty store: a stamp that was ahead is clamped to
   * each import's own clock, so the message comes in again exactly where the two clamped
   * stamps fall into different seconds.
   */
  lemma AheadOfTheClockComesTwice(c: Clock, k: Name, m: Message, now: Time, later: Time)
    requires c.Exact() && Named(m) && k != "" && now <= later
    ensures var once := Installed(c, [], Alone(k, m), now);
      && Messages(once, k) == [Sanitized(m, now)]
      && (Installed(c, once, Alone(k, m), later) == once <==> Second(Clamped(m.at, now)) == Second(Clamped(m.at, later)))
  {
    OnlyMessage(c, k, m, now);
    AgainOntoOne(c, Installed(c, [], Alone(k, m), now), k, m, Sanitized(m, now), later);
    KeyNamesTheMessage(c, Sanitized(m, now), Sanitized(m, later));
  }

  lemma OnlyOne(s: seq<Message>, m: Message)
    requires multiset(s) == multiset([m])
    ensures s == [m]
  {
    assert |multiset(s)| == |s| && |multiset([m])| == 1;
    assert s[0] in multiset(s);
  }

  // --- What an import keeps of a message -------------------------------------------------------------

  /** `m` says what `o` said, between the same two, the same way, at the same time or at the clock if `o` was ahead of it. */
  predicate SaysTheSame(o: Message, m: Message, now: Time) {
    && m.from == o.from && m.to == o.to && m.text == o.text && m.outgoing == o.outgoing
    && m.at <= now && (m.at == o.at || (o.at > now && m.at == now))
  }

  /** The two lists stand one to one, in order. */
  predicate OneToOne(os: seq<Message>, ms: seq<Message>, now: Time) {
    |os| == |ms| && forall i | 0 <= i < |os| :: SaysTheSame(os[i], ms[i], now)
  }

  /** The bundle's own messages for one thread, as they were sent. */
  function Originals(incoming: seq<Conversation>, k: Name): seq<Message> {
    if incoming == [] then []
    else (if incoming[0].screenName == k then incoming[0].messages else []) + Originals(incoming[1..], k)
  }

  lemma {:induction false} CleanedSaysTheSame(msgs: seq<Message>, now: Time)
    ensures OneToOne(msgs, Cleaned(msgs, now), now)
  {
    if msgs != [] {
      CleanedSaysTheSame(msgs[1..], now);
    }
  }

  /** Whatever the bundle brings for a thread is, message for message and in order, what its threads of that name said. */
  lemma {:induction false} BroughtSaysTheSame(incoming: seq<Conversation>, k: Name, now: Time)
    ensures OneToOne(Originals(incoming, k), Brought(incoming, k, now), now)
  {
    if incoming != [] {
      CleanedSaysTheSame(incoming[0].messages, now);
      BroughtSaysTheSame(incoming[1..], k, now);
    }
  }

  lemma {:induction false} OriginalsHold(incoming: seq<Conversation>, k: Name)
    ensures forall o :: o in Originals(incoming, k) <==> exists t :: t in incoming && t.screenName == k && o in t.messages
  {
    if incoming != [] {
      OriginalsHold(incoming[1..], k);
      var rest := incoming[1..];
      assert incoming == [incoming[0]] + rest;
      forall o ensures o in Originals(incoming, k) <==> exists t :: t in incoming && t.screenName == k && o in t.messages {
        if t :| t in incoming && t.screenName == k && o in t.messages {
          assert t == incoming[0] || t in rest;
        }
      }
    }
  }

  /** No name in the list holds a NUL, as no normalized name does. */
  predicate AllNamed(s: seq<Message>) {
    forall m | m in s :: Named(m)
  }

  lemma OneToOneFinds(os: seq<Message>, ms: seq<Message>, now: Time, o: Message) returns (m: Message)
    requires OneToOne(os, ms, now) && o in os
    ensures m in ms && SaysTheSame(o, m, now)
  {
    var i :| 0 <= i < |os| && os[i] == o;
    m := ms[i];
  }

  lemma OneToOneFindsBack(os: seq<Message>, ms: seq<Message>, now: Time, m: Message) returns (o: Message)
    requires OneToOne(os, ms, now) && m in ms
    ensures o in os && SaysTheSame(o, m, now)
  {
    var i :| 0 <= i < |ms| && ms[i] == m;
    o := os[i];
  }

  lemma StoreHolds(c: Clock, convs: seq<Conversation>, incoming: seq<Conversation>, now: Time, k: Name)
    requires k != ""
    ensures var missing := Missing(c, convs, incoming, now, k);
      forall m :: m in Messages(Installed(c, convs, incoming, now), k) <==> m in Messages(convs, k) || m in missing
  {
    InstallConserves(c, convs, incoming, now, k);
    var missing, store := Missing(c, convs, incoming, now, k), Messages(Installed(c, convs, incoming, now), k);
    forall m ensures m in store <==> m in Messages(convs, k) || m in missing {
      assert m in multiset(store) <==> m in multiset(Messages(convs, k)) || m in multiset(missing);
    }
  }

  /**
   * Every message of the bundle is in its thread afterwards: in the same direction, under
   * the same names and with the same words, in the second of its stamp, or of the clock's
   * where it was ahead.
   */
  lemma EveryMessageArrives(c: Clock, convs: seq<Conversation>, incoming: seq<Conversation>, now: Time, t: Conversation, o: Message)
    returns (m: Message)
    requires c.Exact() && t in incoming && o in t.messages && t.screenName != ""
    requires AllNamed(Messages(convs, t.screenName)) && AllNamed(Originals(incoming, t.screenName))
    ensures m in Messages(Installed(c, convs, incoming, now), t.screenName)
    ensures m.outgoing == o.outgoing && m.from == o.from && m.to == o.to && m.text == o.text
    ensures Second(m.at) == Second(if o.at > now then now else o.at)
  {
    var k, key := t.screenName, c.KeyOfThread();
    var brought, missing := Brought(incoming, k, now), Missing(c, convs, incoming, now, k);
    OriginalsHold(incoming, k);
    BroughtSaysTheSame(incoming, k, now);
    var b := OneToOneFinds(Originals(incoming, k), brought, now, o);
    UnseenCovers(key, KeysIn(key, Messages(convs, k)), brought);
    assert key(b) in KeysIn(key, brought);
    StoreHolds(c, convs, incoming, now, k);
    m :| (m in Messages(convs, k) || m in missing) && key(m) == key(b);
    if m !in Messages(convs, k) {
      var back := OneToOneFindsBack(Originals(incoming, k), brought, now, m);
    }
    KeyNamesTheMessage(c, m, b);
  }

  /** And nothing else is: what was not there before is what some message of the bundle for that thread said. */
  lemma NothingIsInvented(c: Clock, convs: seq<Conversation>, incoming: seq<Conversation>, now: Time, k: Name, m: Message)
    returns (t: Conversation, o: Message)
    requires k != "" && m in Messages(Installed(c, convs, incoming, now), k) && m !in Messages(convs, k)
    ensures t in incoming && t.screenName == k && o in t.messages && SaysTheSame(o, m, now)
  {
    StoreHolds(c, convs, incoming, now, k);
    UnseenCovers(c.KeyOfThread(), KeysIn(c.KeyOfThread(), Messages(convs, k)), Brought(incoming, k, now));
    BroughtSaysTheSame(incoming, k, now);
    o := OneToOneFindsBack(Originals(incoming, k), Brought(incoming, k, now), now, m);
    OriginalsHold(incoming, k);
    t :| t in incoming && t.screenName == k && o in t.messages;
  }

  // --- What an import does not grant -----------------------------------------------------------------

  lemma {:induction false} CleanedIsSanitized(msgs: seq<Message>, now: Time)
    ensures forall m | m in Cleaned(msgs, now) :: exists o :: o in msgs && m == Sanitized(o, now)
  {
    if msgs != [] {
      CleanedIsSanitized(msgs[1..], now);
      assert msgs == [msgs[0]] + msgs[1..];
    }
  }

  lemma {:induction false} BroughtIsSanitized(incoming: seq<Conversation>, k: Name, now: Time)
    ensures forall m | m in Brought(incoming, k, now) :: exists o: Message :: m == Sanitized(o, now)
  {
    if incoming != [] {
      BroughtIsSanitized(incoming[1..], k, now);
      CleanedIsSanitized(incoming[0].messages, now);
    }
  }

  /** No lock, signature or sender check in a thread after an import was not there before it, and nothing new is ahead of the clock. */
  lemma NoBadgeIsImported(c: Clock, convs: seq<Conversation>, incoming: seq<Conversation>, now: Time, k: Name, m: Message)
    requires k != "" && m in Messages(Installed(c, convs, incoming, now), k) && m !in Messages(convs, k)
    ensures !m.encrypted && !m.senderVerified && !m.signed && !m.forged && m.transferred && m.id == "" && m.at <= now
    ensures m.envelope.None?
  {
    InstallConserves(c, convs, incoming, now, k);
    assert m in multiset(Messages(Installed(c, convs, incoming, now), k));
    var missing := Missing(c, convs, incoming, now, k);
    assert m in missing;
    UnseenCovers(c.KeyOfThread(), KeysIn(c.KeyOfThread(), Messages(convs, k)), Brought(incoming, k, now));
    BroughtIsSanitized(incoming, k, now);
  }
}
