/** A set of device keys in its canonical order, and its stored text. */
module Keys {
  import opened Words
  import opened Layout

  const MAX_RECIPIENTS := 32

  type PublicKey = Bytes32

  /** Byte-wise order of equally long keys. */
  predicate Less(a: Bytes, b: Bytes) {
    if a == [] || b == [] then |a| < |b|
    else a[0] < b[0] || (a[0] == b[0] && Less(a[1..], b[1..]))
  }

  predicate Ascending(s: seq<PublicKey>) {
    forall i, j :: 0 <= i < j < |s| ==> Less(s[i], s[j])
  }

  function Set(s: seq<PublicKey>): set<PublicKey> {
    set k | k in s
  }

  function Insert(k: PublicKey, s: seq<PublicKey>): seq<PublicKey> {
    if s == [] then [k]
    else if k == s[0] then s
    else if Less(k, s[0]) then [k] + s
    else [s[0]] + Insert(k, s[1..])
  }

  /** The set of keys, in order. */
  function Distinct(keys: seq<PublicKey>): seq<PublicKey> {
    if keys == [] then [] else Insert(keys[0], Distinct(keys[1..]))
  }

  function Capped(s: seq<PublicKey>): seq<PublicKey> {
    if |s| > MAX_RECIPIENTS then s[..MAX_RECIPIENTS] else s
  }

  function Canonical(keys: seq<PublicKey>): seq<PublicKey> {
    Capped(Distinct(keys))
  }

  // --- The order -----------------------------------------------------------------

  lemma {:induction false} LessTransitive(a: Bytes, b: Bytes, c: Bytes)
    requires Less(a, b) && Less(b, c)
    ensures Less(a, c)
  {
    if a != [] && b != [] && c != [] && a[0] == b[0] == c[0] {
      LessTransitive(a[1..], b[1..], c[1..]);
    }
  }

  lemma {:induction false} LessIsStrict(a: Bytes)
    ensures !Less(a, a)
  {
    if a != [] {
      LessIsStrict(a[1..]);
    }
  }

  lemma {:induction false} LessIsAsymmetric(a: Bytes, b: Bytes)
    ensures !(Less(a, b) && Less(b, a))
  {
    if a != [] && b != [] {
      LessIsAsymmetric(a[1..], b[1..]);
    }
  }

  lemma {:induction false} LessIsTotal(a: Bytes, b: Bytes)
    ensures Less(a, b) || a == b || Less(b, a)
  {
    if a != [] && b != [] && a[0] == b[0] {
      LessIsTotal(a[1..], b[1..]);
      assert a == [a[0]] + a[1..] && b == [b[0]] + b[1..];
    }
  }

  lemma PrependAscends(k: PublicKey, s: seq<PublicKey>)
    requires Ascending(s) && forall x | x in s :: Less(k, x)
    ensures Ascending([k] + s)
  {
    var r := [k] + s;
    forall i, j | 0 <= i < j < |r| ensures Less(r[i], r[j]) {
      assert r[j] == s[j - 1];
      if i > 0 {
        assert r[i] == s[i - 1];
      }
    }
  }

  lemma SetOfPrepend(k: PublicKey, s: seq<PublicKey>)
    ensures Set([k] + s) == {k} + Set(s)
  {
    var r := [k] + s;
    forall x | x in Set(s) ensures x in Set(r) {
      var i :| 0 <= i < |s| && s[i] == x;
      assert r[i + 1] == x;
    }
    assert r[0] == k;
  }

  lemma SetOfFirst(s: seq<PublicKey>)
    requires s != []
    ensures Set(s) == {s[0]} + Set(s[1..])
  {
    assert s == [s[0]] + s[1..];
    SetOfPrepend(s[0], s[1..]);
  }

  lemma SetOfAppend(s: seq<PublicKey>, k: PublicKey)
    ensures Set(s + [k]) == Set(s) + {k}
  {
    var r := s + [k];
    assert r[|s|] == k;
    forall x | x in Set(s) ensures x in Set(r) {
      var i :| 0 <= i < |s| && s[i] == x;
      assert r[i] == x;
    }
  }

  lemma {:induction false} InsertKeepsOrder(k: PublicKey, s: seq<PublicKey>)
    requires Ascending(s)
    ensures Ascending(Insert(k, s))
    ensures Set(Insert(k, s)) == Set(s) + {k}
  {
    if s == [] {
    } else if k == s[0] {
    } else if Less(k, s[0]) {
      forall x | x in s ensures Less(k, x) {
        var i :| 0 <= i < |s| && s[i] == x;
        if i > 0 { LessTransitive(k, s[0], s[i]); }
      }
      PrependAscends(k, s);
      SetOfPrepend(k, s);
    } else {
      LessIsTotal(k, s[0]);
      InsertKeepsOrder(k, s[1..]);
      var t := Insert(k, s[1..]);
      forall x | x in t ensures Less(s[0], x) {
        assert x in Set(t);
        assert x == k || x in s[1..];
      }
      PrependAscends(s[0], t);
      SetOfPrepend(s[0], t);
      SetOfFirst(s);
    }
  }

  lemma {:induction false} DistinctOrders(keys: seq<PublicKey>)
    ensures Ascending(Distinct(keys)) && Set(Distinct(keys)) == Set(keys)
  {
    if keys != [] {
      DistinctOrders(keys[1..]);
      InsertKeepsOrder(keys[0], Distinct(keys[1..]));
      SetOfFirst(keys);
    }
  }

  /** A set of keys has one ascending listing. */
  lemma {:induction false} OneAscendingListing(a: seq<PublicKey>, b: seq<PublicKey>)
    requires Ascending(a) && Ascending(b) && Set(a) == Set(b)
    ensures a == b
    decreases |a|
  {
    AscendingSize(a);
    AscendingSize(b);
    if a != [] {
      LeastFirst(a, b);
      LeastFirst(b, a);
      LessIsAsymmetric(a[0], b[0]);
      WithoutFirst(a);
      WithoutFirst(b);
      OneAscendingListing(a[1..], b[1..]);
      assert a == [a[0]] + a[1..] && b == [b[0]] + b[1..];
    }
  }

  lemma LeastFirst(a: seq<PublicKey>, b: seq<PublicKey>)
    requires Ascending(a) && a != [] && b != [] && Set(b) <= Set(a)
    ensures a[0] == b[0] || Less(a[0], b[0])
  {
    assert b[0] in Set(b);
    var i :| 0 <= i < |a| && a[i] == b[0];
  }

  lemma WithoutFirst(a: seq<PublicKey>)
    requires Ascending(a) && a != []
    ensures Ascending(a[1..]) && Set(a[1..]) == Set(a) - {a[0]}
  {
    LessIsStrict(a[0]);
    assert a[0] !in a[1..];
    assert a == [a[0]] + a[1..];
  }

  /** The canonical form depends only on which keys are listed. */
  lemma CanonicalForgetsOrder(a: seq<PublicKey>, b: seq<PublicKey>)
    requires Set(a) == Set(b)
    ensures Canonical(a) == Canonical(b)
  {
    DistinctOrders(a);
    DistinctOrders(b);
    OneAscendingListing(Distinct(a), Distinct(b));
  }

  lemma CanonicalIsIdempotent(keys: seq<PublicKey>)
    ensures Ascending(Canonical(keys))
    ensures Canonical(Canonical(keys)) == Canonical(keys)
  {
    DistinctOrders(keys);
    DistinctOrders(Canonical(keys));
    OneAscendingListing(Distinct(Canonical(keys)), Canonical(keys));
  }

  function Below(keys: set<PublicKey>, k: PublicKey): set<PublicKey> {
    set x | x in keys && Less(x, k)
  }

  /** A key is dropped exactly where 32 smaller ones are listed. */
  lemma CanonicalKeeps(keys: seq<PublicKey>, k: PublicKey)
    requires k in keys
    ensures k in Canonical(keys) <==> |Below(Set(keys), k)| < MAX_RECIPIENTS
    ensures |Set(keys)| <= MAX_RECIPIENTS ==> k in Canonical(keys)
  {
    var d := Distinct(keys);
    DistinctOrders(keys);
    AscendingSize(d);
    assert k in Set(d);
    var i :| 0 <= i < |d| && d[i] == k;
    SmallerOnes(d, i);
    if i < MAX_RECIPIENTS {
      assert Canonical(keys)[i] == k;
    } else {
      NotAmongTheFirst(d, i, MAX_RECIPIENTS);
    }
  }

  lemma NotAmongTheFirst(d: seq<PublicKey>, i: nat, n: nat)
    requires Ascending(d) && n <= i < |d|
    ensures d[i] !in d[..n]
  {
    LessIsStrict(d[i]);
  }

  lemma SmallerOnes(d: seq<PublicKey>, i: nat)
    requires Ascending(d) && i < |d|
    ensures |Below(Set(d), d[i])| == i
  {
    AscendingSize(d[..i]);
    forall x | x in Below(Set(d), d[i]) ensures x in Set(d[..i]) {
      var j :| 0 <= j < |d| && d[j] == x;
      LessIsStrict(d[i]);
      LessIsAsymmetric(d[i], d[j]);
      assert j < i;
      assert d[..i][j] == x;
    }
    assert Below(Set(d), d[i]) == Set(d[..i]);
  }

  lemma {:induction false} AscendingSize(d: seq<PublicKey>)
    requires Ascending(d)
    ensures |Set(d)| == |d|
  {
    if d != [] {
      WithoutFirst(d);
      AscendingSize(d[1..]);
      assert d[0] in Set(d);
    }
  }

  // --- Sorting and compacting ------------------------------------------------------

  function InsertAll(k: PublicKey, s: seq<PublicKey>): seq<PublicKey> {
    if s == [] || !Less(s[0], k) then [k] + s else [s[0]] + InsertAll(k, s[1..])
  }

  /** The library's sort. */
  function Sorted(keys: seq<PublicKey>): seq<PublicKey> {
    if keys == [] then [] else InsertAll(keys[0], Sorted(keys[1..]))
  }

  predicate NeverFalls(s: seq<PublicKey>) {
    forall i, j :: 0 <= i < j < |s| ==> !Less(s[j], s[i])
  }

  lemma NotBelow(x: Bytes, y: Bytes, k: Bytes)
    requires !Less(x, y) && !Less(y, k)
    ensures !Less(x, k)
  {
    LessIsTotal(k, y);
    if Less(x, k) && Less(k, y) {
      LessTransitive(x, k, y);
    }
  }

  lemma PrependNeverFalls(k: PublicKey, s: seq<PublicKey>)
    requires NeverFalls(s) && forall x | x in s :: !Less(x, k)
    ensures NeverFalls([k] + s)
  {
    var r := [k] + s;
    forall i, j | 0 <= i < j < |r| ensures !Less(r[j], r[i]) {
      assert r[j] == s[j - 1];
      if i > 0 {
        assert r[i] == s[i - 1];
      }
    }
  }

  lemma {:induction false} InsertAllSorts(k: PublicKey, s: seq<PublicKey>)
    requires NeverFalls(s)
    ensures NeverFalls(InsertAll(k, s)) && Set(InsertAll(k, s)) == Set(s) + {k} && |InsertAll(k, s)| == |s| + 1
  {
    if s == [] {
    } else if !Less(s[0], k) {
      forall x | x in s ensures !Less(x, k) {
        var i :| 0 <= i < |s| && s[i] == x;
        if i > 0 { NotBelow(s[i], s[0], k); }
      }
      PrependNeverFalls(k, s);
      SetOfPrepend(k, s);
    } else {
      InsertAllSorts(k, s[1..]);
      var t := InsertAll(k, s[1..]);
      LessIsAsymmetric(s[0], k);
      forall x | x in t ensures !Less(x, s[0]) {
        assert x in Set(t);
        assert x == k || x in s[1..];
      }
      PrependNeverFalls(s[0], t);
      SetOfPrepend(s[0], t);
      SetOfFirst(s);
    }
  }

  lemma {:induction false} SortedSorts(keys: seq<PublicKey>)
    ensures NeverFalls(Sorted(keys)) && Set(Sorted(keys)) == Set(keys) && |Sorted(keys)| == |keys|
  {
    if keys != [] {
      SortedSorts(keys[1..]);
      InsertAllSorts(keys[0], Sorted(keys[1..]));
      SetOfFirst(keys);
    }
  }

  lemma AppendAscends(s: seq<PublicKey>, k: PublicKey)
    requires Ascending(s) && s != [] && Less(s[|s| - 1], k)
    ensures Ascending(s + [k])
  {
    forall i | 0 <= i < |s| ensures Less(s[i], k) {
      if i < |s| - 1 {
        LessTransitive(s[i], s[|s| - 1], k);
      }
    }
  }

  /** Drops repeats from a sorted array in one pass, writing behind where it reads; `n` is what is left. */
  method Compact(a: array<PublicKey>) returns (n: nat)
    requires a.Length > 0 && NeverFalls(a[..])
    modifies a
    ensures n <= a.Length
    ensures Ascending(a[..n]) && Set(a[..n]) == Set(old(a[..]))
  {
    ghost var s := a[..];
    n := 1;
    var i := 1;
    assert a[..1] == [s[0]] == s[..1];
    while i < a.Length
      invariant 1 <= n <= i <= a.Length
      invariant forall j :: i <= j < a.Length ==> a[j] == s[j]
      invariant Ascending(a[..n]) && Set(a[..n]) == Set(s[..i])
      invariant a[n - 1] == s[i - 1]
    {
      ghost var kept := a[..n];
      assert s[..i + 1] == s[..i] + [s[i]];
      SetOfAppend(s[..i], s[i]);
      if a[i] != a[n - 1] {
        LessIsTotal(s[i - 1], s[i]);
        AppendAscends(kept, s[i]);
        SetOfAppend(kept, s[i]);
        a[n] := a[i];
        n := n + 1;
        assert a[..n] == kept + [s[i]];
      } else {
        assert kept[n - 1] == s[i];
      }
      i := i + 1;
    }
    assert s[..i] == s;
  }

  lemma CanonicalListsTheKeys(keys: seq<PublicKey>)
    ensures |Canonical(keys)| <= MAX_RECIPIENTS
    ensures |Set(keys)| <= MAX_RECIPIENTS ==> Set(Canonical(keys)) == Set(keys)
  {
    DistinctOrders(keys);
    AscendingSize(Distinct(keys));
  }

  lemma ListedIsDistinct(a: seq<PublicKey>, keys: seq<PublicKey>)
    requires Ascending(a) && Set(a) == Set(keys)
    ensures a == Distinct(keys)
  {
    DistinctOrders(keys);
    OneAscendingListing(a, Distinct(keys));
  }

  method SortedCopy(keys: seq<PublicKey>) returns (a: array<PublicKey>)
    ensures fresh(a) && a[..] == Sorted(keys) && a.Length == |keys|
  {
    SortedSorts(keys);
    var sorted := Sorted(keys);
    a := new PublicKey[|keys|](i requires 0 <= i < |sorted| => sorted[i]);
  }

  /** Sorts a copy of the keys and compacts it in place. */
  method DedupeKeys(keys: seq<PublicKey>) returns (out: seq<PublicKey>)
    ensures Ascending(out) && |out| <= MAX_RECIPIENTS
    ensures |Set(keys)| <= MAX_RECIPIENTS ==> Set(out) == Set(keys)
    ensures out == Canonical(keys)
  {
    if |keys| == 0 {
      out := [];
    } else {
      out := SortAndCompact(keys);
    }
    CanonicalIsIdempotent(keys);
    CanonicalListsTheKeys(keys);
  }

  method SortAndCompact(keys: seq<PublicKey>) returns (out: seq<PublicKey>)
    requires |keys| > 0
    ensures out == Canonical(keys)
  {
    SortedSorts(keys);
    var a := SortedCopy(keys);
    var n := Compact(a);
    out := a[..n];
    ListedIsDistinct(out, keys);
    if n > MAX_RECIPIENTS {
      out := out[..MAX_RECIPIENTS];
    }
  }

  /** Whether every key seen before is still listed: what separates a new machine from a removal. */
  method KeysOnlyAdded(before: seq<PublicKey>, after: seq<PublicKey>) returns (only: bool)
    ensures only <==> Set(before) <= Set(after)
  {
    if |before| == 0 {
      return true;
    }
    var have: set<PublicKey> := {};
    for i := 0 to |after|
      invariant have == Set(after[..i])
    {
      assert after[..i + 1] == after[..i] + [after[i]];
      have := have + {after[i]};
    }
    assert after[..|after|] == after;
    for i := 0 to |before|
      invariant Set(before[..i]) <= Set(after)
    {
      if before[i] !in have {
        assert before[i] in Set(before);
        return false;
      }
      assert before[..i + 1] == before[..i] + [before[i]];
    }
    assert before[..|before|] == before;
    only := true;
  }

  // --- The stored text ----------------------------------------------------------------

  /** One key as text and back. */
  datatype KeyText = KeyText(encode: PublicKey -> string, decode: string -> Option<PublicKey>)
  {
    ghost predicate Faithful() {
      forall k :: decode(encode(k)) == Some(k) && !Blank(encode(k)) && ',' !in encode(k)
    }

    function Decoded(parts: seq<string>): seq<PublicKey> {
      if parts == [] then []
      else match decode(parts[0])
           case Some(k) => [k] + Decoded(parts[1..])
           case None => Decoded(parts[1..])
    }

    function Encoded(keys: seq<PublicKey>): seq<string> {
      if keys == [] then [] else [encode(keys[0])] + Encoded(keys[1..])
    }

    function Stored(keys: seq<PublicKey>): string {
      Join(Encoded(Canonical(keys)))
    }

    function Parsed(s: string): seq<PublicKey> {
      if Blank(s) then [] else Canonical(Decoded(Split(s)))
    }

    method EncodeKeys(keys: seq<PublicKey>) returns (s: string)
      ensures s == Stored(keys)
    {
      var sorted := DedupeKeys(keys);
      var parts := EncodeEach(sorted);
      s := Join(parts);
    }

    method EncodeEach(keys: seq<PublicKey>) returns (parts: seq<string>)
      ensures parts == Encoded(keys)
    {
      parts := [];
      for i := 0 to |keys|
        invariant Encoded(keys) == parts + Encoded(keys[i..])
      {
        parts := parts + [encode(keys[i])];
      }
      assert keys[|keys|..] == [] && parts + [] == parts;
    }

    /** Entries that do not parse are skipped. */
    method DecodeKeys(s: string) returns (keys: seq<PublicKey>)
      ensures keys == Parsed(s)
    {
      if Blank(s) {
        return [];
      }
      var parts := Split(s);
      var out: seq<PublicKey> := [];
      for i := 0 to |parts|
        invariant Decoded(parts) == out + Decoded(parts[i..])
      {
        match decode(parts[i])
        case Some(k) => out := out + [k];
        case None =>
      }
      assert parts[|parts|..] == [] && out + [] == out;
      keys := DedupeKeys(out);
    }

    lemma {:induction false} DecodesItsOwn(keys: seq<PublicKey>)
      requires Faithful()
      ensures Decoded(Encoded(keys)) == keys
      ensures |Encoded(keys)| == |keys|
      ensures forall p :: p in Encoded(keys) ==> ',' !in p && !Blank(p)
    {
      if keys != [] {
        DecodesItsOwn(keys[1..]);
      }
    }

    /** Reading back what was stored yields the canonical set. */
    lemma KeysRoundTrip(keys: seq<PublicKey>)
      requires Faithful()
      ensures Parsed(Stored(keys)) == Canonical(keys)
    {
      var c := Canonical(keys);
      DecodesItsOwn(c);
      CanonicalIsIdempotent(keys);
      if c == [] {
      } else {
        SplitUndoesJoin(Encoded(c));
        JoinIsBlankOnlyWhereItsWordsAre(Encoded(c));
      }
    }

    /**
     * The stored text is a name for the set: two lists of at most 32 keys are stored
     * alike exactly where they list the same keys.
     */
    lemma StoredNamesTheSet(a: seq<PublicKey>, b: seq<PublicKey>)
      requires Faithful()
      ensures Stored(a) == Stored(b) <==> Canonical(a) == Canonical(b)
      ensures |Set(a)| <= MAX_RECIPIENTS && |Set(b)| <= MAX_RECIPIENTS ==> (Stored(a) == Stored(b) <==> Set(a) == Set(b))
      ensures Stored(a) == "" <==> a == []
    {
      KeysRoundTrip(a);
      KeysRoundTrip(b);
      CanonicalListsTheKeys(a);
      CanonicalListsTheKeys(b);
      if Set(a) == Set(b) {
        CanonicalForgetsOrder(a, b);
      }
      if a != [] {
        CanonicalIsNotEmpty(a);
        assert Parsed("") == [];
      }
    }
  }

  lemma CanonicalIsNotEmpty(keys: seq<PublicKey>)
    requires keys != []
    ensures Canonical(keys) != []
  {
    DistinctOrders(keys);
    assert keys[0] in Set(Distinct(keys));
  }

  /** Nothing but white space, which the reader trims away. */
  predicate Blank(s: string) {
    forall c :: c in s ==> c in " \t\n\r"
  }

  function Join(parts: seq<string>): string {
    if parts == [] then ""
    else if |parts| == 1 then parts[0]
    else parts[0] + "," + Join(parts[1..])
  }

  function Split(s: string): (parts: seq<string>)
    ensures parts != []
  {
    if s == "" then [""]
    else if s[0] == ',' then [""] + Split(s[1..])
    else
      var rest := Split(s[1..]);
      [[s[0]] + rest[0]] + rest[1..]
  }

  lemma {:induction false} SplitWord(w: string, rest: string)
    requires ',' !in w
    ensures Split(w + "," + rest) == [w] + Split(rest)
    ensures Split(w) == [w]
  {
    var whole := w + "," + rest;
    if w == "" {
      assert whole[1..] == rest;
    } else {
      SplitWord(w[1..], rest);
      assert whole[1..] == w[1..] + "," + rest;
      assert whole[0] == w[0] && [w[0]] + w[1..] == w;
    }
  }

  lemma {:induction false} SplitUndoesJoin(parts: seq<string>)
    requires parts != [] && forall p :: p in parts ==> ',' !in p
    ensures Split(Join(parts)) == parts
  {
    if |parts| == 1 {
      SplitWord(parts[0], "");
    } else {
      SplitUndoesJoin(parts[1..]);
      SplitWord(parts[0], Join(parts[1..]));
    }
  }

  lemma JoinIsBlankOnlyWhereItsWordsAre(parts: seq<string>)
    requires parts != [] && !Blank(parts[0])
    ensures !Blank(Join(parts))
  {
    var c :| c in parts[0] && c !in " \t\n\r";
    assert c in Join(parts);
  }
}
