/** Block-wise consumption of a stream: what a hash's buffered update does, for any step function. */
module Buffering {
  /** A state together with the input not yet consumed. */
  datatype Held<S, B> = Held(state: S, pending: seq<B>)

  function Consume<S, B>(step: (S, seq<B>) -> S, size: nat, s: S, all: seq<B>): (r: Held<S, B>)
    requires size > 0
    ensures |r.pending| < size
    decreases |all|
  {
    if |all| < size then Held(s, all) else Consume(step, size, step(s, all[..size]), all[size..])
  }

  /** The effect of one update: whole blocks are consumed, the rest stays buffered. */
  function Absorb<S, B>(step: (S, seq<B>) -> S, size: nat, c: Held<S, B>, data: seq<B>): (r: Held<S, B>)
    requires size > 0
    ensures |r.pending| < size
  {
    Consume(step, size, c.state, c.pending + data)
  }

  lemma {:induction false} ConsumeMore<S, B>(step: (S, seq<B>) -> S, size: nat, s: S, a: seq<B>, b: seq<B>)
    requires size > 0
    ensures Absorb(step, size, Consume(step, size, s, a), b) == Consume(step, size, s, a + b)
    decreases |a|
  {
    if |a| >= size {
      ConsumeMore(step, size, step(s, a[..size]), a[size..], b);
      assert (a + b)[..size] == a[..size] && (a + b)[size..] == a[size..] + b;
    }
  }

  lemma ConsumeStep<S, B>(step: (S, seq<B>) -> S, size: nat, s: S, all: seq<B>)
    requires size > 0
    ensures Consume(step, size, s, all) ==
            if |all| < size then Held(s, all) else Consume(step, size, step(s, all[..size]), all[size..])
  {
  }

  /** How the input is cut into update calls does not matter. */
  lemma AbsorbSplit<S, B>(step: (S, seq<B>) -> S, size: nat, c: Held<S, B>, a: seq<B>, b: seq<B>)
    requires size > 0
    ensures Absorb(step, size, Absorb(step, size, c, a), b) == Absorb(step, size, c, a + b)
  {
    ConsumeMore(step, size, c.state, c.pending + a, b);
    assert c.pending + a + b == c.pending + (a + b);
  }

  /** A chunk that fits in the buffer: one step when it fills it, none otherwise. */
  lemma AbsorbChunk<S, B>(step: (S, seq<B>) -> S, size: nat, c: Held<S, B>, chunk: seq<B>)
    requires size > 0 && |c.pending| + |chunk| <= size
    ensures Absorb(step, size, c, chunk) ==
            var all := c.pending + chunk;
            if |all| == size then Held(step(c.state, all), []) else Held(c.state, all)
  {
    var all := c.pending + chunk;
    if |all| == size {
      assert all[..size] == all && all[size..] == [];
      assert Consume(step, size, step(c.state, all), []) == Held(step(c.state, all), []);
    }
  }

  lemma AbsorbNone<S, B>(step: (S, seq<B>) -> S, size: nat, c: Held<S, B>)
    requires |c.pending| < size
    ensures Absorb(step, size, c, []) == c
  {
    assert c.pending + [] == c.pending;
  }

  /** The state after the first `n` whole blocks. */
  function Fold<S, B>(step: (S, seq<B>) -> S, size: nat, s: S, data: seq<B>, n: nat): S
    requires n * size <= |data|
  {
    if n == 0 then s
    else
      NextBlock(size, n);
      step(Fold(step, size, s, data, n - 1), data[(n - 1) * size..n * size])
  }

  lemma NextBlock(size: nat, n: nat)
    requires n > 0
    ensures (n - 1) * size + size == n * size && 0 <= (n - 1) * size
  {
    assert (n - 1) * size == n * size - size;
  }

  lemma {:induction false} ConsumeFolds<S, B>(step: (S, seq<B>) -> S, size: nat, s: S, data: seq<B>, n: nat)
    requires size > 0 && n * size <= |data|
    ensures Consume(step, size, s, data) == Consume(step, size, Fold(step, size, s, data, n), data[n * size..])
  {
    if n == 0 {
      assert data[0..] == data;
    } else {
      NextBlock(size, n);
      ConsumeFolds(step, size, s, data, n - 1);
      var i, j := (n - 1) * size, n * size;
      assert data[i..][..size] == data[i..j] && data[i..][size..] == data[j..];
    }
  }

  /** A whole number of blocks leaves their fold and nothing buffered. */
  lemma ConsumeWhole<S, B>(step: (S, seq<B>) -> S, size: nat, s: S, data: seq<B>, n: nat)
    requires size > 0 && n * size == |data|
    ensures Consume(step, size, s, data) == Held(Fold(step, size, s, data, n), [])
  {
    ConsumeFolds(step, size, s, data, n);
    assert data[n * size..] == [];
  }
}
