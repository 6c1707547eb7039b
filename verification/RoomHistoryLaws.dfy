/** When importing room history twice is importing it once. */
module RoomHistoryLaws {
  import opened Words
  import opened Transfers
  import opened TransferLaws

  lemma {:induction false} OrderedIsSorted(s: seq<Message>)
    requires Ordered(s)
    ensures ByTime(s) == s
  {
    if s != [] {
      OrderedTail(s);
      OrderedIsSorted(s[1..]);
      assert s == [s[0]] + s[1..];
    }
  }

  lemma {:induction false} PlacedBetween(m: Message, a: seq<Message>, b: seq<Message>)
    requires forall x | x in a :: x.at < m.at
    requires b == [] || m.at <= b[0].at
    ensures Placed(m, a + b) == a + [m] + b
  {
    if a == [] {
      assert a + b == b;
    } else {
      PlacedBetween(m, a[1..], b);
      assert (a + b)[1..] == a[1..] + b;
      assert a + [m] + b == [a[0]] + (a[1..] + [m] + b);
    }
  }

  lemma SameMembers(d: seq<Message>)
    ensures forall x :: x in ByTime(d) <==> x in d
  {
    ByTimeIsAStableSort(d, 0);
    forall x ensures x in ByTime(d) <==> x in d {
      assert x in multiset(ByTime(d)) <==> x in multiset(d);
    }
  }

  lemma PlacedAfterOlder(m: Message, d: seq<Message>, sorted: seq<Message>, rest: seq<Message>)
    requires (forall y | y in d :: y.at < m.at) && (forall x :: x in sorted <==> x in d)
    requires rest == [] || m.at <= rest[0].at
    ensures Placed(m, sorted + rest) == sorted + ([m] + rest)
  {
    PlacedBetween(m, sorted, rest);
    assert sorted + [m] + rest == sorted + ([m] + rest);
  }

  predicate AllOlder(d: seq<Message>, s: seq<Message>) {
    forall x, y | x in s && y in d :: y.at < x.at
  }

  /** Messages older than all of `s` sort before it and leave it alone. */
  lemma {:induction false} OlderGoFirst(s: seq<Message>, d: seq<Message>)
    requires Ordered(s) && AllOlder(d, s)
    ensures ByTime(s + d) == ByTime(d) + s
  {
    if s == [] {
      assert s + d == d && ByTime(d) + s == ByTime(d);
    } else {
      assert s == [s[0]] + s[1..] && (s + d)[1..] == s[1..] + d;
      assert s[0] in s;
      OlderGoFirst(s[1..], d);
      SameMembers(d);
      PlacedAfterOlder(s[0], d, ByTime(d), s[1..]);
    }
  }

  lemma {:induction false} AtTimeSum(a: seq<Message>, b: seq<Message>, t: Time)
    ensures AtTime(a + b, t) == AtTime(a, t) + AtTime(b, t)
  {
    if a == [] {
      assert a + b == b;
    } else {
      AtTimeSum(a[1..], b, t);
      assert (a + b)[1..] == a[1..] + b;
    }
  }

  lemma {:induction false} AtTimeMembers(s: seq<Message>, t: Time)
    ensures forall m :: m in AtTime(s, t) <==> m in s && m.at == t
  {
    if s != [] {
      AtTimeMembers(s[1..], t);
      assert s == [s[0]] + s[1..];
    }
  }

  lemma HeadOfTie(p: seq<Message>, s: seq<Message>, d: seq<Message>, t: Time)
    requires s != [] && s[0].at == t && AtTime(p + s, t) == AtTime(s + d, t) && AtTime(p, t) != []
    ensures s[0] in AtTime(p, t)
  {
    AtTimeSum(p, s, t);
    AtTimeSum(s, d, t);
    FirstOfSum(AtTime(p, t), AtTime(s, t), AtTime(s, t), AtTime(d, t), s[0]);
  }

  /** No message of `d` is as old as the oldest of `s`, if `d` sorts before `s` though it came after. */
  lemma NoTie(p: seq<Message>, s: seq<Message>, d: seq<Message>)
    requires s != [] && multiset(p) == multiset(d) && s[0] !in d
    requires AtTime(p + s, s[0].at) == AtTime(s + d, s[0].at)
    ensures AtTime(p, s[0].at) == []
  {
    AtTimeMembers(p, s[0].at);
    assert s[0] !in multiset(d);
    assert s[0] !in p;
    if AtTime(p, s[0].at) != [] {
      HeadOfTie(p, s, d, s[0].at);
    }
  }

  lemma RestBefore(r: seq<Message>, s: seq<Message>, d: seq<Message>)
    requires multiset(r) == multiset(s + d) && |r| == |s| + |d| && r[|d|..] == s
    ensures multiset(r[..|d|]) == multiset(d) && r == r[..|d|] + s
  {
    var p := r[..|d|];
    assert r == p + s;
    assert multiset(p) + multiset(s) == multiset(s) + multiset(d);
    assert multiset(p) == (multiset(p) + multiset(s)) - multiset(s);
    assert multiset(d) == (multiset(s) + multiset(d)) - multiset(s);
  }

  /** If adding `d` to a full room leaves it as it was, all of `d` is strictly older. */
  lemma OnlyOlderIsDropped(s: seq<Message>, d: seq<Message>, m: Message)
    requires s != [] && m in d && (forall x | x in d :: x !in s)
    requires |ByTime(s + d)| == |s| + |d| && ByTime(s + d)[|d|..] == s
    ensures m.at < s[0].at
  {
    var r := ByTime(s + d);
    ByTimeIsAStableSort(s + d, s[0].at);
    RestBefore(r, s, d);
    var p := r[..|d|];
    NoTie(p, s, d);
    AtTimeMembers(p, s[0].at);
    assert m in multiset(p);
    var i :| 0 <= i < |p| && p[i] == m;
    assert r[i] == m && r[|d|] == s[0];
  }

  lemma FirstOfSum(a: seq<Message>, b: seq<Message>, x: seq<Message>, y: seq<Message>, first: Message)
    requires a + b == x + y && a != [] && x != [] && x[0] == first
    ensures a[0] == first
  {
    assert (a + b)[0] == a[0] && (x + y)[0] == x[0];
  }

  /** What an import leaves out of a room although it brought it. */
  function LeftOut(key: Message -> string, room: seq<Message>, msgs: seq<Message>): seq<Message> {
    Unseen(key, KeysIn(key, room), msgs)
  }

  lemma NothingIsLeftOut(key: Message -> string, held: seq<Message>, msgs: seq<Message>)
    requires |held| + |LeftOut(key, held, msgs)| <= MAX_MESSAGES
    ensures LeftOut(key, RoomThread(held, key, msgs), msgs) == []
  {
    var seen := KeysIn(key, held);
    var u := Unseen(key, seen, msgs);
    var once := RoomThread(held, key, msgs);
    UnseenCovers(key, seen, msgs);
    if u != [] {
      ByTimeIsAStableSort(held + u, 0);
      KeysOfSum(key, held, u);
      KeysOfSameMessages(key, once, held + u);
    }
    UnseenCovers(key, KeysIn(key, once), msgs);
  }

  lemma ShortRoomsKeepAll(key: Message -> string, held: seq<Message>, msgs: seq<Message>)
    ensures var once := RoomThread(held, key, msgs); LeftOut(key, once, msgs) != [] ==> |once| == MAX_MESSAGES
    ensures LeftOut(key, held, msgs) != [] ==> Ordered(RoomThread(held, key, msgs))
  {
    var u := LeftOut(key, held, msgs);
    if |held| + |u| <= MAX_MESSAGES {
      NothingIsLeftOut(key, held, msgs);
    }
    if u != [] {
      ByTimeIsAStableSort(held + u, 0);
    }
  }

  /**
   * Merging one list twice changes nothing the second time exactly where whatever the
   * first merge left out is strictly older than everything it kept. In a room that is not
   * full nothing is left out.
   */
  lemma MergingTwice(key: Message -> string, held: seq<Message>, msgs: seq<Message>)
    ensures var once := RoomThread(held, key, msgs);
      RoomThread(once, key, msgs) == once <==> forall m | m in LeftOut(key, once, msgs) :: once == [] || m.at < once[0].at
    ensures |held| + |LeftOut(key, held, msgs)| <= MAX_MESSAGES ==> LeftOut(key, RoomThread(held, key, msgs), msgs) == []
  {
    var once := RoomThread(held, key, msgs);
    var d := LeftOut(key, once, msgs);
    ShortRoomsKeepAll(key, held, msgs);
    if |held| + |LeftOut(key, held, msgs)| <= MAX_MESSAGES {
      NothingIsLeftOut(key, held, msgs);
    }
    if d != [] {
      UnseenCovers(key, KeysIn(key, held), msgs);
      UnseenCovers(key, KeysIn(key, once), msgs);
      assert LeftOut(key, held, msgs) != [];
      ASecondRound(key, once, d);
    }
  }

  lemma OlderAreDropped(once: seq<Message>, d: seq<Message>)
    requires |once| == MAX_MESSAGES && Ordered(once) && d != [] && forall m | m in d :: m.at < once[0].at
    ensures Newest(ByTime(once + d)) == once
  {
    forall x, y | x in once && y in d ensures y.at < x.at {   // every kept message is at least as late as the first
      var i :| 0 <= i < |once| && once[i] == x;
      assert once[0].at <= once[i].at;
    }
    OlderGoFirst(once, d);
    ByTimeIsAStableSort(d, 0);
    assert (ByTime(d) + once)[|d|..] == once;
  }

  lemma ASecondRound(key: Message -> string, once: seq<Message>, d: seq<Message>)
    requires d != [] && |once| == MAX_MESSAGES && Ordered(once)
    requires forall m | m in d :: key(m) !in KeysIn(key, once)
    ensures Newest(ByTime(once + d)) == once <==> forall m | m in d :: m.at < once[0].at
  {
    if forall m | m in d :: m.at < once[0].at {
      OlderAreDropped(once, d);
    } else {
      var m :| m in d && m.at >= once[0].at;
      ByTimeIsAStableSort(once + d, 0);
      if Newest(ByTime(once + d)) == once {
        OnlyOlderIsDropped(once, d, m);
      }
    }
  }

  lemma RoomsStaySmall(key: Message -> string, held: seq<Message>, msgs: seq<Message>)
    requires |held| <= MAX_MESSAGES
    ensures |RoomThread(held, key, msgs)| <= MAX_MESSAGES
  {
  }

  /**
   * Exactly when messages offered to a room leave it as it is: none is missing, or the
   * room is full and in order and every missing one is strictly older than all it holds.
   */
  lemma OfferingExactly(key: Message -> string, room: seq<Message>, offered: seq<Message>)
    requires |room| <= MAX_MESSAGES
    ensures var d := LeftOut(key, room, offered);
      RoomThread(room, key, offered) == room <==>
      d == [] || (|room| == MAX_MESSAGES && Ordered(room) && forall m | m in d :: m.at < room[0].at)
  {
    var d := LeftOut(key, room, offered);
    UnseenCovers(key, KeysIn(key, room), offered);
    if d != [] {
      ByTimeIsAStableSort(room + d, 0);
      if |room| == MAX_MESSAGES {
        if RoomThread(room, key, offered) == room {
          SuffixOrdered(ByTime(room + d), |d|);
        }
        if Ordered(room) {
          ASecondRound(key, room, d);
        }
      }
    }
  }

  lemma SuffixOrdered(s: seq<Message>, i: nat)
    requires Ordered(s) && i <= |s|
    ensures Ordered(s[i..])
  {
  }

  /**
   * Importing a room's history again, at any later time, changes nothing exactly where
   * every message that lands and is not in the room is strictly older than all a full
   * room holds. A stamp ahead of the clock may land as a new message each time.
   */
  lemma ImportingARoomTwice(c: Clock, held: seq<Message>, msgs: seq<Message>, now: Time, later: Time)
    requires |held| <= MAX_MESSAGES
    ensures var key := c.KeyOfRoom();
      var once := RoomThread(held, key, LandedAll(msgs, now));
      var d := LeftOut(key, once, LandedAll(msgs, later));
      RoomThread(once, key, LandedAll(msgs, later)) == once <==>
      d == [] || (|once| == MAX_MESSAGES && Ordered(once) && forall m | m in d :: m.at < once[0].at)
  {
    var key := c.KeyOfRoom();
    RoomsStaySmall(key, held, LandedAll(msgs, now));
    OfferingExactly(key, RoomThread(held, key, LandedAll(msgs, now)), LandedAll(msgs, later));
  }

  lemma FirstImport(key: Message -> string, msgs: seq<Message>)
    requires msgs != [] && Ordered(msgs) && Unseen(key, {}, msgs) == msgs
    ensures RoomThread([], key, msgs) == Newest(msgs)
  {
    OrderedIsSorted(msgs);
    assert KeysIn(key, []) == {} && [] + msgs == msgs;
  }

  lemma OneTooMany(key: Message -> string, msgs: seq<Message>, t: Time)
    requires |msgs| == MAX_MESSAGES + 1 && forall m | m in msgs :: m.at == t
    requires forall i, j | 0 <= i < j < |msgs| :: key(msgs[i]) != key(msgs[j])
    ensures RoomThread([], key, msgs) == msgs[1..] && key(msgs[0]) !in KeysIn(key, msgs[1..])
  {
    AllNew(key, {}, msgs);
    FirstImport(key, msgs);
  }

  /** One message more than a room holds, all at one instant, comes in differently the second time. */
  lemma OneTooManyAtOnce(key: Message -> string, msgs: seq<Message>, t: Time)
    requires |msgs| == MAX_MESSAGES + 1 && forall m | m in msgs :: m.at == t
    requires forall i, j | 0 <= i < j < |msgs| :: key(msgs[i]) != key(msgs[j])
    ensures var once := RoomThread([], key, msgs); RoomThread(once, key, msgs) != once
  {
    OneTooMany(key, msgs, t);
    var once := msgs[1..];
    var seen := KeysIn(key, once);
    UnseenCovers(key, seen, msgs);
    assert msgs[0] in msgs && once[0] in msgs;
    assert key(msgs[0]) in KeysIn(key, LeftOut(key, once, msgs));
    var m :| m in LeftOut(key, once, msgs) && key(m) == key(msgs[0]);
    assert m in msgs;
    MergingTwice(key, [], msgs);
  }

  lemma {:induction false} AllNew(key: Message -> string, seen: set<string>, msgs: seq<Message>)
    requires forall i | 0 <= i < |msgs| :: key(msgs[i]) !in seen
    requires forall i, j | 0 <= i < j < |msgs| :: key(msgs[i]) != key(msgs[j])
    ensures Unseen(key, seen, msgs) == msgs
    decreases |msgs|
  {
    if msgs != [] {
      AllNew(key, seen + {key(msgs[0])}, msgs[1..]);
    }
  }

  // --- What a room keeps ------------------------------------------------------------------

  /** In a room a message is known by its author, the second it was sent in and its text. */
  lemma RoomKeyNamesTheMessage(c: Clock, m: Message, n: Message)
    requires c.Exact() && Named(m) && Named(n)
    ensures c.RoomKeyOf(m) == c.RoomKeyOf(n) <==> m.from == n.from && Second(m.at) == Second(n.at) && m.text == n.text
  {
    RoomKeyIsSplit(c, m);
    RoomKeyIsSplit(c, n);
    if c.RoomKeyOf(m) == c.RoomKeyOf(n) {
      SplitAtNul(m.from, c.show(Second(m.at)) + "\0" + m.text, n.from, c.show(Second(n.at)) + "\0" + n.text);
      SplitAtNul(c.show(Second(m.at)), m.text, c.show(Second(n.at)), n.text);
    }
  }

  lemma RoomKeyIsSplit(c: Clock, m: Message)
    ensures c.RoomKeyOf(m) == m.from + "\0" + (c.show(Second(m.at)) + "\0" + m.text)
  {
  }

  /** Room messages land one to one, in order, saying what they said. */
  lemma {:induction false} LandedSaysTheSame(msgs: seq<Message>, now: Time)
    ensures OneToOne(msgs, LandedAll(msgs, now), now)
  {
    if msgs != [] {
      LandedSaysTheSame(msgs[1..], now);
    }
  }

  lemma NoneNewerBefore(all: seq<Message>, n: nat, d: Message, m: Message)
    requires Ordered(all) && n <= |all| && d in all[..n] && m in all[n..]
    ensures d.at <= m.at
  {
    var i :| 0 <= i < n && all[i] == d;
    var j :| n <= j < |all| && all[j] == m;
  }

  lemma NewestDropsTheOldest(all: seq<Message>) returns (dropped: seq<Message>)
    requires Ordered(all)
    ensures all == dropped + Newest(all) && multiset(dropped) + multiset(Newest(all)) == multiset(all)
    ensures |dropped| == Max(|all| - MAX_MESSAGES, 0) && Ordered(Newest(all))
    ensures forall d, m | d in dropped && m in Newest(all) :: d.at <= m.at
  {
    var n: nat := Max(|all| - MAX_MESSAGES, 0);
    dropped := all[..n];
    assert Newest(all) == all[n..] && all == all[..n] + all[n..];
    assert Ordered(all[n..]) by {
      SuffixOrdered(all, n);
    }
    forall d, m | d in dropped && m in Newest(all) ensures d.at <= m.at {
      NoneNewerBefore(all, n, d, m);
    }
  }

  /**
   * Conservation in a room. What it held and what it lacked is either kept or dropped;
   * only what is beyond a thousand is dropped, and nothing dropped is newer than anything
   * kept. A room that lacked nothing is left as it was.
   */
  lemma RoomConserves(key: Message -> string, held: seq<Message>, msgs: seq<Message>) returns (dropped: seq<Message>)
    ensures var missing, room := LeftOut(key, held, msgs), RoomThread(held, key, msgs);
      && (missing == [] ==> room == held && dropped == [])
      && (missing != [] ==>
          && multiset(dropped) + multiset(room) == multiset(held) + multiset(missing)
          && |dropped| == Max(|held| + |missing| - MAX_MESSAGES, 0)
          && Ordered(room)
          && forall d, m | d in dropped && m in room :: d.at <= m.at)
  {
    var missing := LeftOut(key, held, msgs);
    dropped := [];
    if missing != [] {
      ByTimeIsAStableSort(held + missing, 0);
      dropped := NewestDropsTheOldest(ByTime(held + missing));
    }
  }

  // --- What catch-up relays ---------------------------------------------------------------

  /** What is served says who, when and what, and carries an envelope or words, never both. */
  predicate ServesFaithfully(m: Message, r: CatchupMessage, self: Name) {
    && r.from == (if m.outgoing && m.from == "" then self else m.from)
    && r.at == Second(m.at)
    && (m.envelope.Some? ==> r.envelope == m.envelope && r.text == "")
    && (m.envelope.None? ==> r.envelope.None? && r.text == m.text && !m.encrypted)
  }

  /** A message may be relayed: it is newer than asked, nobody faked it, and it can be sent on as it came. */
  predicate MayRelay(m: Message, since: Time) {
    m.at > since && !m.forged && (m.encrypted ==> m.envelope.Some?)
  }

  lemma FirstServed(m: Message, rest: seq<Message>, since: Time, self: Name)
    ensures Served([m] + rest, since, self) == Served([m], since, self) + Served(rest, since, self)
  {
    assert ([m] + rest)[1..] == rest && [m][1..] == [];
  }

  lemma {:induction false} ServedInTurn(a: seq<Message>, b: seq<Message>, since: Time, self: Name)
    ensures Served(a + b, since, self) == Served(a, since, self) + Served(b, since, self)
  {
    if a == [] {
      assert a + b == b;
    } else {
      FirstServed(a[0], a[1..] + b, since, self);
      FirstServed(a[0], a[1..], since, self);
      ServedInTurn(a[1..], b, since, self);
      assert a == [a[0]] + a[1..] && a + b == [a[0]] + (a[1..] + b);
    }
  }

  /**
   * Catch-up serves exactly what may be relayed, in the room's order and each as it came:
   * with its envelope and no words, or with its words if it was never encrypted. So says
   * the place of any one message among those before and after it.
   */
  lemma ServedExactly(before: seq<Message>, m: Message, after: seq<Message>, since: Time, self: Name)
    ensures var here := Served([m], since, self);
      && Served(before + [m] + after, since, self) == Served(before, since, self) + here + Served(after, since, self)
      && |here| == (if MayRelay(m, since) then 1 else 0)
      && (MayRelay(m, since) ==> ServesFaithfully(m, here[0], self))
    ensures Served([], since, self) == []
  {
    ServedInTurn(before + [m], after, since, self);
    ServedInTurn(before, [m], since, self);
    assert [m][1..] == [];
  }

  lemma {:induction false} LandedHasNoEnvelope(msgs: seq<Message>, now: Time)
    ensures forall m | m in LandedAll(msgs, now) :: m.encrypted && m.envelope.None? && m.transferred && m.at <= now
    ensures forall m | m in LandedAll(msgs, now) :: !m.senderVerified && !m.signed && !m.forged && m.id == ""
  {
    if msgs != [] {
      LandedHasNoEnvelope(msgs[1..], now);
    }
  }

  lemma {:induction false} ServedComeFromTheRoom(room: seq<Message>, since: Time, self: Name)
    ensures forall r | r in Served(room, since, self) :: exists m :: m in room && Servable(m, since) && r == ServedAs(m, self)
  {
    if room != [] {
      ServedComeFromTheRoom(room[1..], since, self);
      assert room == [room[0]] + room[1..];
    }
  }

  lemma RoomHoldsOldAndBrought(key: Message -> string, held: seq<Message>, msgs: seq<Message>, m: Message)
    requires m in RoomThread(held, key, msgs)
    ensures m in held || m in msgs
  {
    var u := Unseen(key, KeysIn(key, held), msgs);
    UnseenCovers(key, KeysIn(key, held), msgs);
    SameMembers(held + u);
    if u != [] {
      assert m in ByTime(held + u);
      assert m in held + u;
    }
  }

  /**
   * What an import adds to a room vouches for nothing and can be handed on by nobody: no
   * sender check or signature, no envelope, and the lock that keeps its words from being
   * served as if they had never been encrypted.
   */
  lemma NoBadgeIntoARoom(key: Message -> string, held: seq<Message>, msgs: seq<Message>, now: Time, m: Message, since: Time)
    requires m in RoomThread(held, key, LandedAll(msgs, now)) && m !in held
    ensures m.transferred && !m.senderVerified && !m.signed && !m.forged && m.id == "" && m.at <= now
    ensures m.encrypted && m.envelope.None? && !MayRelay(m, since)
  {
    RoomHoldsOldAndBrought(key, held, LandedAll(msgs, now), m);
    LandedHasNoEnvelope(msgs, now);
  }

  /** Whatever is served to a returning member after an import was held before it: imported words are read here and relayed nowhere. */
  lemma ImportedHistoryIsNotRelayed(
    key: Message -> string, held: seq<Message>, msgs: seq<Message>, now: Time, since: Time, self: Name, r: CatchupMessage)
    requires r in Served(RoomThread(held, key, LandedAll(msgs, now)), since, self)
    ensures exists m :: m in held && Servable(m, since) && r == ServedAs(m, self)
  {
    var room := RoomThread(held, key, LandedAll(msgs, now));
    ServedComeFromTheRoom(room, since, self);
    var m :| m in room && Servable(m, since) && r == ServedAs(m, self);
    RoomHoldsOldAndBrought(key, held, LandedAll(msgs, now), m);
    LandedHasNoEnvelope(msgs, now);
  }
}
