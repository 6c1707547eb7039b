/** Message history handed from one of an account's devices to another. */
module Transfers {
  import opened Words

  type Name = string

  /** Nanoseconds, and the whole second they fall in. */
  type Time = int

  const NANOS := 1_000_000_000
  const MAX_MESSAGES := 1000

  function Second(t: Time): int {
    t / NANOS
  }

  /** `id` is the resend handle; a transferred message never has its envelope. */
  datatype Message = Message(
    from: Name, to: Name, text: string, at: Time, outgoing: bool, id: string,
    encrypted: bool, senderVerified: bool, signed: bool, forged: bool, transferred: bool,
    envelope: Option<string>)

  datatype Conversation = Conversation(key: Name, screenName: Name, messages: seq<Message>, unread: nat, hidden: bool)

  function Clamped(at: Time, now: Time): Time {
    if at > now then now else at
  }

  /** Relayed history: readable, and vouched for by nothing. Its envelope did not travel. */
  function Sanitized(m: Message, now: Time): Message {
    m.(encrypted := false, senderVerified := false, signed := false, forged := false, transferred := true, id := "",
       envelope := None, at := Clamped(m.at, now))
  }

  /** For a room the lock is set: encrypted without an envelope is what catch-up will not relay. */
  function SanitizedForRoom(m: Message, now: Time): Message {
    Sanitized(m, now).(encrypted := true)
  }

  /** Renders a second as text. */
  datatype Clock = Clock(show: int -> string)
  {
    ghost predicate Exact() {
      && (forall a, b :: show(a) == show(b) ==> a == b)
      && (forall a :: '\0' !in show(a))
    }

    function KeyOf(m: Message): string {
      (if m.outgoing then ">" else "<") + "\0" + m.from + "\0" + m.to + "\0" + show(Second(m.at)) + "\0" + m.text
    }

    function KeyOfThread(): Message -> string {
      m => KeyOf(m)
    }

    function KeyOfRoom(): Message -> string {
      m => RoomKeyOf(m)
    }

    function RoomKeyOf(m: Message): string {
      m.from + "\0" + show(Second(m.at)) + "\0" + m.text
    }
  }

  // --- Sorting by time -------------------------------------------------------------------

  predicate Ordered(s: seq<Message>) {
    forall i, j :: 0 <= i < j < |s| ==> s[i].at <= s[j].at
  }

  function Placed(m: Message, s: seq<Message>): seq<Message> {
    if s == [] || m.at <= s[0].at then [m] + s else [s[0]] + Placed(m, s[1..])
  }

  /** The library's stable sort. */
  function ByTime(s: seq<Message>): seq<Message> {
    if s == [] then [] else Placed(s[0], ByTime(s[1..]))
  }

  function AtTime(s: seq<Message>, t: Time): seq<Message> {
    if s == [] then []
    else if s[0].at == t then [s[0]] + AtTime(s[1..], t)
    else AtTime(s[1..], t)
  }

  lemma OrderedTail(s: seq<Message>)
    requires Ordered(s) && s != []
    ensures Ordered(s[1..]) && forall m | m in s[1..] :: s[0].at <= m.at
  {
  }

  lemma OrderedCons(m: Message, s: seq<Message>)
    requires Ordered(s) && forall x | x in s :: m.at <= x.at
    ensures Ordered([m] + s)
  {
    var r := [m] + s;
    forall i, j | 0 <= i < j < |r| ensures r[i].at <= r[j].at {
      assert r[j] == s[j - 1];
      if i > 0 { assert r[i] == s[i - 1]; }
    }
  }

  lemma {:induction false} PlacedIsOrdered(m: Message, s: seq<Message>)
    requires Ordered(s)
    ensures Ordered(Placed(m, s)) && multiset(Placed(m, s)) == multiset([m]) + multiset(s)
  {
    if s == [] {
    } else if m.at <= s[0].at {
      OrderedTail(s);
      assert s == [s[0]] + s[1..];
      OrderedCons(m, s);
    } else {
      OrderedTail(s);
      PlacedIsOrdered(m, s[1..]);
      var r := Placed(m, s[1..]);
      forall x | x in r ensures s[0].at <= x.at {
        assert x in multiset(r);
      }
      OrderedCons(s[0], r);
      assert s == [s[0]] + s[1..];
    }
  }

  lemma AtTimeCons(m: Message, s: seq<Message>, t: Time)
    ensures AtTime([m] + s, t) == (if m.at == t then [m] else []) + AtTime(s, t)
  {
    assert ([m] + s)[1..] == s;
  }

  lemma {:induction false} PlacedAtTime(m: Message, s: seq<Message>, t: Time)
    ensures AtTime(Placed(m, s), t) == (if m.at == t then [m] else []) + AtTime(s, t)
  {
    if s == [] || m.at <= s[0].at {
      AtTimeCons(m, s, t);
    } else {
      PlacedAtTime(m, s[1..], t);
      AtTimeCons(s[0], Placed(m, s[1..]), t);
    }
  }

  /** Sorting reorders, orders, and keeps the order of messages at the same instant. */
  lemma {:induction false} ByTimeIsAStableSort(s: seq<Message>, t: Time)
    ensures Ordered(ByTime(s)) && multiset(ByTime(s)) == multiset(s) && |ByTime(s)| == |s|
    ensures AtTime(ByTime(s), t) == AtTime(s, t)
  {
    if s != [] {
      ByTimeIsAStableSort(s[1..], t);
      PlacedIsOrdered(s[0], ByTime(s[1..]));
      PlacedAtTime(s[0], ByTime(s[1..]), t);
      assert s == [s[0]] + s[1..];
      assert |multiset(ByTime(s))| == |ByTime(s)| && |multiset(s)| == |s|;
    }
  }

  // --- Merging -----------------------------------------------------------------------------

  function KeysIn(key: Message -> string, s: seq<Message>): set<string> {
    set m | m in s :: key(m)
  }

  /** What of `msgs` is not yet seen, in order, each key once. */
  function Unseen(key: Message -> string, seen: set<string>, msgs: seq<Message>): seq<Message>
    decreases |msgs|
  {
    if msgs == [] then []
    else if key(msgs[0]) in seen then Unseen(key, seen, msgs[1..])
    else [msgs[0]] + Unseen(key, seen + {key(msgs[0])}, msgs[1..])
  }

  function Cleaned(msgs: seq<Message>, now: Time): seq<Message> {
    if msgs == [] then [] else [Sanitized(msgs[0], now)] + Cleaned(msgs[1..], now)
  }

  function Thread(held: seq<Message>, key: Message -> string, msgs: seq<Message>): seq<Message> {
    var unseen := Unseen(key, KeysIn(key, held), msgs);
    if unseen == [] then held else ByTime(held + unseen)
  }

  /** The newest thousand. */
  function Newest(s: seq<Message>): seq<Message> {
    if |s| > MAX_MESSAGES then s[|s| - MAX_MESSAGES..] else s
  }

  function RoomThread(held: seq<Message>, key: Message -> string, msgs: seq<Message>): seq<Message> {
    var unseen := Unseen(key, KeysIn(key, held), msgs);
    if unseen == [] then held else Newest(ByTime(held + unseen))
  }

  method AppendUnseen(key: Message -> string, held: seq<Message>, msgs: seq<Message>) returns (all: seq<Message>, added: bool)
    ensures all == held + Unseen(key, KeysIn(key, held), msgs)
    ensures added <==> Unseen(key, KeysIn(key, held), msgs) != []
  {
    var seen: set<string> := {};
    for i := 0 to |held|
      invariant seen == KeysIn(key, held[..i])
    {
      assert held[..i + 1] == held[..i] + [held[i]];
      seen := seen + {key(held[i])};
    }
    assert held[..|held|] == held;
    all, added := held, false;
    ghost var unseen := Unseen(key, seen, msgs);
    for i := 0 to |msgs|
      invariant held + unseen == all + Unseen(key, seen, msgs[i..])
      invariant !added ==> all == held
      invariant added ==> |all| > |held|
    {
      var k := key(msgs[i]);
      if k !in seen {
        seen := seen + {k};
        all := all + [msgs[i]];
        added := true;
      }
    }
    assert msgs[|msgs|..] == [] && all + [] == all;
  }

  function LandedAll(msgs: seq<Message>, now: Time): seq<Message> {
    if msgs == [] then [] else [SanitizedForRoom(msgs[0], now)] + LandedAll(msgs[1..], now)
  }

  /** A room's history after the import of a transferred one. */
  method ImportRoomHistory(c: Clock, held: seq<Message>, msgs: seq<Message>, now: Time) returns (room: seq<Message>)
    ensures room == RoomThread(held, c.KeyOfRoom(), LandedAll(msgs, now))
  {
    var landed: seq<Message> := [];
    for i := 0 to |msgs|
      invariant LandedAll(msgs, now) == landed + LandedAll(msgs[i..], now)
    {
      landed := landed + [SanitizedForRoom(msgs[i], now)];
    }
    assert msgs[|msgs|..] == [] && landed + [] == landed;
    room := MergeRoomMessages(c, held, landed);
  }

  /** One message as it is served to a returning member: its envelope, or its text if it never had one. */
  datatype CatchupMessage = CatchupMessage(from: Name, at: int, envelope: Option<string>, text: string)

  predicate Servable(m: Message, since: Time) {
    m.at > since && !m.forged && (m.envelope.Some? || !m.encrypted)
  }

  function ServedAs(m: Message, self: Name): CatchupMessage {
    CatchupMessage(if m.outgoing && m.from == "" then self else m.from, Second(m.at), m.envelope,
                   if m.envelope.Some? then "" else m.text)
  }

  function Served(room: seq<Message>, since: Time, self: Name): seq<CatchupMessage> {
    if room == [] then []
    else (if Servable(room[0], since) then [ServedAs(room[0], self)] else []) + Served(room[1..], since, self)
  }

  method ServeOne(m: Message, since: Time, self: Name) returns (served: Option<CatchupMessage>)
    ensures served == if Servable(m, since) then Some(ServedAs(m, self)) else None
  {
    if m.at <= since {
      return None;
    }
    if m.forged {
      return None;
    }
    var from := if m.outgoing && m.from == "" then self else m.from;
    if m.envelope.Some? {
      return Some(CatchupMessage(from, Second(m.at), m.envelope, ""));
    }
    if m.encrypted {
      return None;
    }
    served := Some(CatchupMessage(from, Second(m.at), None, m.text));
  }

  lemma ServedNext(room: seq<Message>, i: nat, since: Time, self: Name)
    requires i < |room|
    ensures Served(room[i..], since, self) ==
      (if Servable(room[i], since) then [ServedAs(room[i], self)] else []) + Served(room[i + 1..], since, self)
  {
    assert room[i..][0] == room[i] && room[i..][1..] == room[i + 1..];
  }

  method RoomHistorySince(room: seq<Message>, since: Time, self: Name) returns (out: seq<CatchupMessage>)
    ensures out == Served(room, since, self)
  {
    out := [];
    for i := 0 to |room|
      invariant Served(room, since, self) == out + Served(room[i..], since, self)
    {
      var served := ServeOne(room[i], since, self);
      ServedNext(room, i, since, self);
      if served.Some? {
        out := out + [served.value];
      }
    }
    assert room[|room|..] == [] && out + [] == out;
  }

  method MergeRoomMessages(c: Clock, held: seq<Message>, msgs: seq<Message>) returns (room: seq<Message>)
    ensures room == RoomThread(held, c.KeyOfRoom(), msgs)
  {
    var all, added := AppendUnseen(c.KeyOfRoom(), held, msgs);
    if !added {
      return held;
    }
    var sorted := ByTime(all);
    room := if |sorted| > MAX_MESSAGES then sorted[|sorted| - MAX_MESSAGES..] else sorted;
  }

  // --- Conversations -------------------------------------------------------------------------

  /** The place of a thread in the list; the later one if a name stands twice. */
  function Index(convs: seq<Conversation>): map<Name, nat> {
    if convs == [] then map[]
    else Index(convs[..|convs| - 1])[convs[|convs| - 1].key := |convs| - 1]
  }

  lemma {:induction false} IndexFinds(convs: seq<Conversation>)
    ensures forall k | k in Index(convs) :: Index(convs)[k] < |convs| && convs[Index(convs)[k]].key == k
    ensures forall i | 0 <= i < |convs| :: convs[i].key in Index(convs)
  {
    if convs != [] {
      IndexFinds(convs[..|convs| - 1]);
    }
  }

  function Current(convs: seq<Conversation>, arriving: Conversation): Conversation {
    IndexFinds(convs);
    var k := arriving.screenName;
    if k in Index(convs) then convs[Index(convs)[k]] else Conversation(k, k, [], 0, arriving.hidden)
  }

  /** What one transferred thread adds to the one held under its name. */
  function Gained(c: Clock, convs: seq<Conversation>, arriving: Conversation, now: Time): seq<Message> {
    Unseen(c.KeyOfThread(), KeysIn(c.KeyOfThread(), Current(convs, arriving).messages), Cleaned(arriving.messages, now))
  }

  function MergeOne(c: Clock, convs: seq<Conversation>, arriving: Conversation, now: Time): seq<Conversation> {
    var gained := Gained(c, convs, arriving, now);
    var k := arriving.screenName;
    var cur := Current(convs, arriving);
    IndexFinds(convs);
    if k == "" || gained == [] then convs
    else
      var thread := cur.(messages := ByTime(cur.messages + gained));
      if k in Index(convs) then convs[Index(convs)[k] := thread] else convs + [thread]
  }

  function Merged(c: Clock, convs: seq<Conversation>, incoming: seq<Conversation>, now: Time): seq<Conversation>
    decreases |incoming|
  {
    if incoming == [] then convs else Merged(c, MergeOne(c, convs, incoming[0], now), incoming[1..], now)
  }

  /** Whether any transferred thread adds a message. */
  predicate Changes(c: Clock, convs: seq<Conversation>, incoming: seq<Conversation>, now: Time)
    decreases |incoming|
  {
    incoming != [] &&
    ((incoming[0].screenName != "" && Gained(c, convs, incoming[0], now) != [])
     || Changes(c, MergeOne(c, convs, incoming[0], now), incoming[1..], now))
  }

  /** Threads as they are restored: everything in them is read. */
  function AllRead(convs: seq<Conversation>): seq<Conversation> {
    if convs == [] then [] else [convs[0].(unread := 0)] + AllRead(convs[1..])
  }

  /** The store after an import: touched only if something was added, and then all of it is read. */
  function Installed(c: Clock, convs: seq<Conversation>, incoming: seq<Conversation>, now: Time): seq<Conversation> {
    if Changes(c, convs, incoming, now) then AllRead(Merged(c, convs, incoming, now)) else convs
  }

  lemma {:induction false} SameKeysSameIndex(a: seq<Conversation>, b: seq<Conversation>)
    requires |a| == |b| && forall i | 0 <= i < |a| :: a[i].key == b[i].key
    ensures Index(a) == Index(b)
  {
    if a != [] {
      SameKeysSameIndex(a[..|a| - 1], b[..|b| - 1]);
    }
  }

  method CleanAll(msgs: seq<Message>, now: Time) returns (out: seq<Message>)
    ensures out == Cleaned(msgs, now)
  {
    out := [];
    for i := 0 to |msgs|
      invariant Cleaned(msgs, now) == out + Cleaned(msgs[i..], now)
    {
      out := out + [Sanitized(msgs[i], now)];
    }
    assert msgs[|msgs|..] == [] && out + [] == out;
  }

  /** Folds one transferred thread into those held. */
  method FoldThread(c: Clock, convs: seq<Conversation>, index: map<Name, nat>, arriving: Conversation, now: Time)
    returns (merged: seq<Conversation>, reindexed: map<Name, nat>, added: bool)
    requires index == Index(convs)
    ensures merged == MergeOne(c, convs, arriving, now) && reindexed == Index(merged)
    ensures added <==> arriving.screenName != "" && Gained(c, convs, arriving, now) != []
  {
    merged, reindexed, added := convs, index, false;
    var k := arriving.screenName;
    if k == "" {
      return;
    }
    IndexFinds(convs);
    var cur := Conversation(k, k, [], 0, arriving.hidden);
    if k in index {
      cur := convs[index[k]];
    }
    var cleaned := CleanAll(arriving.messages, now);
    var all;
    all, added := AppendUnseen(c.KeyOfThread(), cur.messages, cleaned);
    if !added {
      return;
    }
    cur := cur.(messages := ByTime(all));
    if k in index {
      merged := convs[index[k] := cur];
      SameKeysSameIndex(convs, merged);
    } else {
      merged := convs + [cur];
      reindexed := index[k := |convs|];
      assert merged[..|merged| - 1] == convs;
    }
  }

  method MarkAllRead(convs: seq<Conversation>) returns (read: seq<Conversation>)
    ensures read == AllRead(convs)
  {
    read := [];
    for i := 0 to |convs|
      invariant AllRead(convs) == read + AllRead(convs[i..])
    {
      read := read + [convs[i].(unread := 0)];
    }
    assert convs[|convs|..] == [] && read + [] == read;
  }

  /** Folds transferred threads into those held, and restores them all only if that added something. */
  method MergeTransferredConversations(c: Clock, convs: seq<Conversation>, incoming: seq<Conversation>, now: Time)
    returns (store: seq<Conversation>)
    ensures store == Installed(c, convs, incoming, now)
  {
    var merged, changed := FoldThreads(c, convs, incoming, now);
    if !changed {
      return convs;
    }
    store := MarkAllRead(merged);
  }

  method FoldThreads(c: Clock, convs: seq<Conversation>, incoming: seq<Conversation>, now: Time)
    returns (merged: seq<Conversation>, changed: bool)
    ensures merged == Merged(c, convs, incoming, now)
    ensures changed <==> Changes(c, convs, incoming, now)
  {
    merged, changed := convs, false;
    var index := IndexAll(merged);
    for i := 0 to |incoming|
      invariant index == Index(merged)
      invariant Merged(c, convs, incoming, now) == Merged(c, merged, incoming[i..], now)
      invariant Changes(c, convs, incoming, now) <==> changed || Changes(c, merged, incoming[i..], now)
    {
      var added;
      merged, index, added := FoldThread(c, merged, index, incoming[i], now);
      changed := changed || added;
    }
  }

  method IndexAll(convs: seq<Conversation>) returns (index: map<Name, nat>)
    ensures index == Index(convs)
  {
    index := map[];
    for i := 0 to |convs|
      invariant index == Index(convs[..i])
    {
      assert convs[..i + 1][..i] == convs[..i];
      index := index[convs[i].key := i];
    }
    assert convs[..|convs|] == convs;
  }

  /** Unions two name lists, each name once, in the order first met. */
  method MergeNames(a: seq<Name>, b: seq<Name>) returns (out: seq<Name>)
    ensures forall n :: n in out <==> n != "" && (n in a || n in b)
    ensures forall i, j | 0 <= i < j < |out| :: out[i] != out[j]
  {
    out := [];
    var both := a + b;
    for i := 0 to |both|
      invariant forall n :: n in out <==> n != "" && n in both[..i]
      invariant forall i, j | 0 <= i < j < |out| :: out[i] != out[j]
    {
      assert both[..i + 1] == both[..i] + [both[i]];
      if both[i] != "" && both[i] !in out {
        out := out + [both[i]];
      }
    }
    assert both[..|both|] == both;
  }
}
