/** How the wire formats lay bytes out: big-endian words and rows of equal blocks. */
module Layout {
  import opened Words

  type Bytes = seq<byte>

  function BE16(n: nat): (b: Bytes)
    requires n < 0x1_0000
    ensures |b| == 2
  {
    [(n / 256) as byte, (n % 256) as byte]
  }

  function FromBE16(b: Bytes): (n: nat)
    requires |b| == 2
    ensures n < 0x1_0000
  {
    b[0] as int * 256 + b[1] as int
  }

  function BE32(n: u32): (b: Bytes)
    ensures |b| == 4
  {
    BE16(n / 0x1_0000) + BE16(n % 0x1_0000)
  }

  function FromBE32(b: Bytes): u32
    requires |b| == 4
  {
    FromBE16(b[..2]) * 0x1_0000 + FromBE16(b[2..])
  }

  function BE64(n: u64): (b: Bytes)
    ensures |b| == 8
  {
    BE32(n / 0x1_0000_0000) + BE32(n % 0x1_0000_0000)
  }

  function FromBE64(b: Bytes): u64
    requires |b| == 8
  {
    FromBE32(b[..4]) * 0x1_0000_0000 + FromBE32(b[4..])
  }

  lemma Words16(n: nat)
    requires n < 0x1_0000
    ensures FromBE16(BE16(n)) == n
  {
  }

  lemma Words16Back(b: Bytes)
    requires |b| == 2
    ensures BE16(FromBE16(b)) == b
  {
    assert FromBE16(b) / 256 == b[0] as int;
  }

  lemma Words32(n: u32)
    ensures FromBE32(BE32(n)) == n
  {
    var hi, lo := n / 0x1_0000, n % 0x1_0000;
    assert BE32(n)[..2] == BE16(hi) && BE32(n)[2..] == BE16(lo);
    Words16(hi);
    Words16(lo);
  }

  lemma Words32Back(b: Bytes)
    requires |b| == 4
    ensures BE32(FromBE32(b)) == b
  {
    Words16Back(b[..2]);
    Words16Back(b[2..]);
    assert FromBE32(b) / 0x1_0000 == FromBE16(b[..2]);
    assert b == b[..2] + b[2..];
  }

  lemma Words64(n: u64)
    ensures FromBE64(BE64(n)) == n
  {
    var hi, lo := n / 0x1_0000_0000, n % 0x1_0000_0000;
    assert BE64(n)[..4] == BE32(hi) && BE64(n)[4..] == BE32(lo);
    Words32(hi);
    Words32(lo);
  }

  function Concat(blocks: seq<Bytes>): Bytes {
    if blocks == [] then [] else blocks[0] + Concat(blocks[1..])
  }

  ghost predicate AllOf(blocks: seq<Bytes>, width: nat) {
    forall i :: 0 <= i < |blocks| ==> |blocks[i]| == width
  }

  lemma {:induction false} ConcatSnoc(blocks: seq<Bytes>, b: Bytes)
    ensures Concat(blocks + [b]) == Concat(blocks) + b
  {
    if blocks == [] {
      assert blocks + [b] == [b];
      assert [b][1..] == [];
    } else {
      ConcatSnoc(blocks[1..], b);
      assert (blocks + [b])[1..] == blocks[1..] + [b];
    }
  }

  lemma {:induction false} ConcatLength(blocks: seq<Bytes>, width: nat)
    requires AllOf(blocks, width)
    ensures |Concat(blocks)| == |blocks| * width
  {
    if blocks != [] {
      ConcatLength(blocks[1..], width);
      assert |blocks| * width == width + (|blocks| - 1) * width;
    }
  }

  lemma {:induction false} ConcatAppend(a: seq<Bytes>, b: seq<Bytes>)
    ensures Concat(a + b) == Concat(a) + Concat(b)
  {
    if a == [] {
      assert a + b == b;
    } else {
      ConcatAppend(a[1..], b);
      var first, rest := a[0], a[1..];
      assert (a + b)[0] == first && (a + b)[1..] == rest + b;
      assert Concat(a + b) == first + (Concat(rest) + Concat(b)) == (first + Concat(rest)) + Concat(b);
    }
  }

  lemma ThreeParts(x: Bytes, y: Bytes, z: Bytes)
    ensures (x + y + z)[..|x|] == x
    ensures (x + y + z)[|x|..|x| + |y|] == y
    ensures (x + y + z)[|x| + |y|..] == z
  {
  }

  lemma ConcatAround(before: seq<Bytes>, b: Bytes, after: seq<Bytes>)
    ensures Concat(before + [b] + after) == Concat(before) + b + Concat(after)
  {
    ConcatAppend(before + [b], after);
    ConcatSnoc(before, b);
  }

  /** In a row of equal blocks, block `i` is found at offset `i * width`. */
  lemma ConcatBlock(blocks: seq<Bytes>, width: nat, i: nat)
    requires AllOf(blocks, width) && i < |blocks|
    ensures 0 <= i * width <= (i + 1) * width <= |Concat(blocks)|
    ensures Concat(blocks)[i * width..(i + 1) * width] == blocks[i]
  {
    var before, after := blocks[..i], blocks[i + 1..];
    assert blocks == before + [blocks[i]] + after;
    ConcatAround(before, blocks[i], after);
    ConcatLength(before, width);
    var from := |Concat(before)|;
    assert from == i * width && from + width == (i + 1) * width;
    ThreeParts(Concat(before), blocks[i], Concat(after));
  }

  /** A part of a known stretch of bytes. */
  lemma SubSlice(raw: Bytes, off: nat, s: Bytes, a: nat, b: nat)
    requires off + |s| <= |raw| && raw[off..off + |s|] == s && a <= b <= |s|
    ensures raw[off + a..off + b] == s[a..b]
  {
    var x, y := raw[off + a..off + b], s[a..b];
    forall k | 0 <= k < b - a ensures x[k] == y[k] {
      assert x[k] == raw[off + (a + k)] == raw[off..off + |s|][a + k];
    }
    assert x == y;
  }

  /** Bytes carried as text. Base64 is one such pair of functions. */
  datatype Text = Text(encode: Bytes -> string, decode: string -> Option<Bytes>)
  {
    ghost predicate Faithful() {
      forall b :: decode(encode(b)) == Some(b)
    }

    /** Four characters for every three bytes, the last group padded. */
    ghost predicate FourForThree() {
      forall b :: |encode(b)| == (|b| + 2) / 3 * 4
    }
  }

  predicate HasPrefix(s: string, prefix: string) {
    prefix <= s
  }
}
