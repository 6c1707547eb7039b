/** Per-sender message chains: a forward-only hash ratchet. */
module Ratchet {
  import opened Words

  /** A chain is named by eight random bytes; the hex text of the source stands for them. */
  type ChainId = seq<byte>

  const MAX_CHAIN_SKIP: int := 100000
  const MAX_CONTINUITY_CHECK: int := 10000

  /** Our own outbound chain: `index` is the position the next message will use. */
  datatype Chain = Chain(id: ChainId, state: Bytes32, index: u32)
  {
    function View(): ChainView {
      ChainView(id, state, index)
    }
  }

  /** Somebody's chain as we hold it: the state that belongs to `index`. */
  datatype ChainView = ChainView(id: ChainId, state: Bytes32, index: u32)

  datatype KeyResult = Key(key: Bytes32) | Rewind | SkipTooLarge

  /**
   * The two derivations of a chain state, left arbitrary: everything proved here
   * holds for every pair of functions, so nothing rests on a property of SHA-256.
   */
  datatype Kdf = Kdf(step: Bytes32 -> Bytes32, messageKey: Bytes32 -> Bytes32)
  {
    function Wind(s: Bytes32, n: nat): Bytes32
      decreases n
    {
      if n == 0 then s else Wind(step(s), n - 1)
    }

    /** The chain state of `v` at position `n`. */
    function StateAt(v: ChainView, n: int): Bytes32
      requires v.index <= n
    {
      Wind(v.state, n - v.index)
    }

    /** Winding forward is refused when it would not move, or would hash too far. */
    predicate Movable(from: u32, to: u32) {
      from < to && to - from <= MAX_CHAIN_SKIP
    }

    function Advance(v: ChainView, to: u32): ChainView {
      if Movable(v.index, to) then ChainView(v.id, StateAt(v, to), to) else v
    }

    function AdvanceChain(c: Chain, to: u32): Chain {
      if Movable(c.index, to) then Chain(c.id, Wind(c.state, to - c.index), to) else c
    }

    function MessageKey(v: ChainView, index: u32): KeyResult {
      if index < v.index then Rewind
      else if index - v.index > MAX_CHAIN_SKIP then SkipTooLarge
      else Key(messageKey(StateAt(v, index)))
    }

    /** Whether `v` is the same chain as `prior`, reaching no less far back. */
    predicate Continues(v: ChainView, prior: ChainView) {
      && v.id == prior.id
      && v.index <= prior.index
      && prior.index - v.index <= MAX_CONTINUITY_CHECK
      && StateAt(v, prior.index) == prior.state
    }

    /** From position `from` on, `v` and `w` are the same chain. */
    ghost predicate Agree(v: ChainView, w: ChainView, from: int) {
      && v.id == w.id
      && v.index <= from
      && w.index <= from
      && forall n :: from <= n ==> StateAt(v, n) == StateAt(w, n)
    }

    // The source's own loops, proved against the definitions above.

    method DoAdvance(v: ChainView, to: u32) returns (w: ChainView, ok: bool)
      ensures ok <==> v.index < to <= v.index + MAX_CHAIN_SKIP
      ensures !ok ==> w == v
      ensures ok ==> w.index == to && Agree(v, w, to)
      ensures w == Advance(v, to)
    {
      if to <= v.index {
        return v, false;
      }
      if to - v.index > MAX_CHAIN_SKIP {
        return v, false;
      }
      var state := WindLoop(v.state, v.index, to);
      w, ok := ChainView(v.id, state, to), true;
      AdvanceAgrees(v, to);
    }

    method DoAdvanceChain(c: Chain, to: u32) returns (d: Chain, ok: bool)
      ensures ok <==> c.index < to <= c.index + MAX_CHAIN_SKIP
      ensures !ok ==> d == c
      ensures ok ==> d.index == to && Agree(c.View(), d.View(), to)
      ensures d == AdvanceChain(c, to)
    {
      if to <= c.index {
        return c, false;
      }
      if to - c.index > MAX_CHAIN_SKIP {
        return c, false;
      }
      var state := WindLoop(c.state, c.index, to);
      d, ok := Chain(c.id, state, to), true;
      AdvanceAgrees(c.View(), to);
    }

    method DoMessageKey(v: ChainView, index: u32) returns (r: KeyResult)
      ensures r == MessageKey(v, index)
    {
      if index < v.index {
        return Rewind;
      }
      if index - v.index > MAX_CHAIN_SKIP {
        return SkipTooLarge;
      }
      var state := WindLoop(v.state, v.index, index);
      r := Key(messageKey(state));
    }

    method DoContinues(v: ChainView, prior: ChainView) returns (b: bool)
      ensures b <==> Continues(v, prior)
      ensures b ==> Agree(v, prior, prior.index)
    {
      if v.id != prior.id || v.index > prior.index {
        return false;
      }
      if prior.index - v.index > MAX_CONTINUITY_CHECK {
        return false;
      }
      var s := WindLoop(v.state, v.index, prior.index);
      b := s == prior.state;
      if b {
        ContinuesAgrees(v, prior);
      }
    }

    method WindLoop(state: Bytes32, from: u32, to: u32) returns (s: Bytes32)
      requires from <= to
      ensures s == Wind(state, to - from)
    {
      s := state;
      var i: int := from;
      while i < to
        invariant from <= i <= to
        invariant s == Wind(state, i - from)
      {
        WindAdd(state, i - from, 1);
        assert Wind(s, 1) == step(s);
        s := step(s);
        i := i + 1;
      }
    }

    lemma {:induction false} WindAdd(s: Bytes32, a: nat, b: nat)
      ensures Wind(s, a + b) == Wind(Wind(s, a), b)
      decreases a
    {
      if a != 0 {
        WindAdd(step(s), a - 1, b);
      }
    }

    /** Winding a view forward keeps every state it can still reach. */
    lemma AdvanceAgrees(v: ChainView, to: u32)
      ensures Agree(v, Advance(v, to), Max(v.index, Advance(v, to).index))
    {
      if Movable(v.index, to) {
        var w := Advance(v, to);
        forall n | to <= n ensures StateAt(v, n) == StateAt(w, n) {
          WindAdd(v.state, to - v.index, n - to);
        }
      }
    }

    /**
     * Continuity is identity: an offered state that hashes forward to the one held
     * yields the same states from there on, whoever offered it.
     */
    lemma ContinuesAgrees(v: ChainView, prior: ChainView)
      requires Continues(v, prior)
      ensures Agree(v, prior, prior.index)
    {
      forall n | prior.index <= n ensures StateAt(v, n) == StateAt(prior, n) {
        WindAdd(v.state, prior.index - v.index, n - prior.index);
      }
    }

    lemma AgreeTransitive(u: ChainView, v: ChainView, w: ChainView, a: int, b: int)
      requires Agree(u, v, a) && Agree(v, w, b)
      ensures Agree(u, w, Max(a, b))
    {
    }

    /**
     * Taking a continuous view in place of a held one never yields a different key,
     * and it costs a readable key exactly where the longer walk passes the skip cap.
     */
    lemma ContinuousReadBack(v: ChainView, prior: ChainView, n: u32)
      requires Continues(v, prior)
      ensures prior.index <= n ==>
        (MessageKey(v, n) == MessageKey(prior, n)
         <==> n <= v.index + MAX_CHAIN_SKIP || n > prior.index + MAX_CHAIN_SKIP)
      ensures v.index <= n < prior.index ==> MessageKey(prior, n).Rewind? && MessageKey(v, n).Key?
    {
      ContinuesAgrees(v, prior);
    }
  }
}
