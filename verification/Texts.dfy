/** Hashes that meet every assumption made of them: self-delimiting texts of the hashed parts. */
module Texts {
  import opened Types
  import opened Archive
  import opened Persist

  /** A number in unary, with its own end mark. */
  function Tally(n: nat): string {
    if n == 0 then "." else "1" + Tally(n - 1)
  }

  function Str(s: string): string {
    Tally(|s|) + s
  }

  lemma {:induction false} TallySplit(n: nat, x: string, m: nat, y: string)
    requires Tally(n) + x == Tally(m) + y
    ensures n == m && x == y
  {
    var s, t := Tally(n) + x, Tally(m) + y;
    assert s[0] == Tally(n)[0] && t[0] == Tally(m)[0];
    if n > 0 && m > 0 {
      assert s[1..] == Tally(n - 1) + x && t[1..] == Tally(m - 1) + y;
      TallySplit(n - 1, x, m - 1, y);
    } else {
      assert x == s[1..] && y == t[1..];
    }
  }

  lemma StrSplit(a: string, x: string, b: string, y: string)
    requires Str(a) + x == Str(b) + y
    ensures a == b && x == y
  {
    assert Tally(|a|) + (a + x) == Str(a) + x && Tally(|b|) + (b + y) == Str(b) + y;
    TallySplit(|a|, a + x, |b|, b + y);
    assert a == (a + x)[..|a|] && b == (b + y)[..|b|];
    assert x == (a + x)[|a|..] && y == (b + y)[|b|..];
  }

  // ---- ids ----

  function IdTexts(ids: seq<Id>): string {
    if ids == [] then "" else Str(ids[0].hex) + IdTexts(ids[1..])
  }

  function Ids(ids: seq<Id>): string {
    Tally(|ids|) + IdTexts(ids)
  }

  lemma {:induction false} IdTextsSplit(a: seq<Id>, x: string, b: seq<Id>, y: string)
    requires |a| == |b| && IdTexts(a) + x == IdTexts(b) + y
    ensures a == b && x == y
  {
    if a == [] {
      assert IdTexts(a) + x == x && IdTexts(b) + y == y;
    } else {
      var s, t := IdTexts(a[1..]) + x, IdTexts(b[1..]) + y;
      assert IdTexts(a) + x == Str(a[0].hex) + s && IdTexts(b) + y == Str(b[0].hex) + t;
      hide IdTexts, Str;
      StrSplit(a[0].hex, s, b[0].hex, t);
      IdTextsSplit(a[1..], x, b[1..], y);
      assert a == [a[0]] + a[1..] && b == [b[0]] + b[1..];
    }
  }

  lemma IdsSplit(a: seq<Id>, x: string, b: seq<Id>, y: string)
    requires Ids(a) + x == Ids(b) + y
    ensures a == b && x == y
  {
    assert Ids(a) + x == Tally(|a|) + (IdTexts(a) + x) && Ids(b) + y == Tally(|b|) + (IdTexts(b) + y);
    TallySplit(|a|, IdTexts(a) + x, |b|, IdTexts(b) + y);
    IdTextsSplit(a, x, b, y);
  }

  // ---- hashed things ----

  function KeyText(key: Option<string>): string {
    match key
    case None => Tally(0)
    case Some(k) => Tally(1) + Str(k)
  }

  lemma KeySplit(a: Option<string>, x: string, b: Option<string>, y: string)
    requires KeyText(a) + x == KeyText(b) + y
    ensures a == b && x == y
  {
    KeyLead(a, x);
    KeyLead(b, y);
    hide Tally, KeyText, Str;
    TallySplit(Flag(a), KeyRest(a) + x, Flag(b), KeyRest(b) + y);
    if a.Some? {
      StrSplit(a.value, x, b.value, y);
    } else {
      assert KeyRest(a) + x == x && KeyRest(b) + y == y;
    }
  }

  function Flag(key: Option<string>): nat {
    if key.Some? then 1 else 0
  }

  function KeyRest(key: Option<string>): string {
    if key.Some? then Str(key.value) else ""
  }

  lemma KeyLead(key: Option<string>, x: string)
    ensures KeyText(key) + x == Tally(Flag(key)) + (KeyRest(key) + x)
  {
    hide Tally, Str;
    if key.None? { assert "" + x == x; }
  }

  function OutputText(o: Output): string {
    Tally(o.value) + (Tally(o.nonce) + (KeyText(o.key) + Str(o.rest)))
  }

  lemma OutputInjective(a: Output, b: Output)
    requires OutputText(a) == OutputText(b)
    ensures a == b
  {
    hide Tally, KeyText, Str;
    TallySplit(a.value, Tally(a.nonce) + (KeyText(a.key) + Str(a.rest)), b.value, Tally(b.nonce) + (KeyText(b.key) + Str(b.rest)));
    TallySplit(a.nonce, KeyText(a.key) + Str(a.rest), b.nonce, KeyText(b.key) + Str(b.rest));
    KeySplit(a.key, Str(a.rest), b.key, Str(b.rest));
    assert Str(a.rest) + "" == Str(b.rest) + "";
    StrSplit(a.rest, "", b.rest, "");
  }

  function InputText(i: Input): string {
    Str(i.outputId.hex) + Str(i.data)
  }

  lemma InputInjective(a: Input, b: Input)
    requires InputText(a) == InputText(b)
    ensures a == b
  {
    hide Str;
    StrSplit(a.outputId.hex, Str(a.data), b.outputId.hex, Str(b.data));
    assert Str(a.data) + "" == Str(b.data) + "";
    StrSplit(a.data, "", b.data, "");
  }

  function TxText(ins: seq<Id>, outs: seq<Id>, time: nat): string {
    Ids(ins) + (Ids(outs) + Tally(time))
  }

  lemma TxInjective(i: seq<Id>, o: seq<Id>, t: nat, i': seq<Id>, o': seq<Id>, t': nat)
    requires TxText(i, o, t) == TxText(i', o', t')
    ensures i == i' && o == o' && t == t'
  {
    hide Ids, Tally;
    IdsSplit(i, Ids(o) + Tally(t), i', Ids(o') + Tally(t'));
    IdsSplit(o, Tally(t), o', Tally(t'));
    assert Tally(t) + "" == Tally(t') + "";
    TallySplit(t, "", t', "");
  }

  function DataText(d: Data): string {
    match d
    case Null => Tally(0)
    case Object(text) => Tally(1) + Str(text)
  }

  lemma DataInjective(a: Data, b: Data)
    requires DataText(a) == DataText(b)
    ensures a == b
  {
    var k, l := if a.Null? then None else Some(a.text), if b.Null? then None else Some(b.text);
    assert DataText(a) == KeyText(k) && DataText(b) == KeyText(l);
    assert KeyText(k) + "" == KeyText(l) + "";
    KeySplit(k, "", l, "");
  }

  function BlockText(txs: seq<Id>, coinbase: Id, prev: Id, time: nat, data: Data): string {
    Ids(txs) + (Str(coinbase.hex) + (Str(prev.hex) + (Tally(time) + DataText(data))))
  }

  lemma BlockInjective(x: seq<Id>, c: Id, p: Id, t: nat, d: Data, x': seq<Id>, c': Id, p': Id, t': nat, d': Data)
    requires BlockText(x, c, p, t, d) == BlockText(x', c', p', t', d')
    ensures x == x' && c == c' && p == p' && t == t' && d == d'
  {
    hide Ids, Str, Tally, DataText;
    var r3, r3' := Tally(t) + DataText(d), Tally(t') + DataText(d');
    var r2, r2' := Str(p.hex) + r3, Str(p'.hex) + r3';
    var r1, r1' := Str(c.hex) + r2, Str(c'.hex) + r2';
    IdsSplit(x, r1, x', r1');
    StrSplit(c.hex, r2, c'.hex, r2');
    StrSplit(p.hex, r3, p'.hex, r3');
    TallySplit(t, DataText(d), t', DataText(d'));
    DataInjective(d, d');
  }

  function TextHashes(): Hashes {
    Hashes(o => Id(OutputText(o)), i => Id(InputText(i)), (i, o, t: nat) => Id(TxText(i, o, t)),
           (x, c, p, t: nat, d) => Id(BlockText(x, c, p, t, d)))
  }

  /** The assumptions on the hashes can be met, all at once. */
  lemma AssumptionsMet()
    ensures Sound(TextHashes()) && NoClash(TextHashes()) && NoTipId(TextHashes())
  {
    var h := TextHashes();
    hide OutputText, InputText, TxText, BlockText;
    forall a, b | h.output(a) == h.output(b) ensures a == b { OutputInjective(a, b); }
    forall a, b | h.input(a) == h.input(b) ensures a == b { InputInjective(a, b); }
    forall i, o, t, i', o', t' | h.tx(i, o, t) == h.tx(i', o', t') ensures i == i' && o == o' && t == t' {
      TxInjective(i, o, t, i', o', t');
    }
    forall x, c, p, t, d, x', c', p', t', d' | h.block(x, c, p, t, d) == h.block(x', c', p', t', d')
      ensures x == x' && c == c' && p == p' && t == t' && d == d'
    {
      BlockInjective(x, c, p, t, d, x', c', p', t', d');
    }
    assert NoClash(h);
    NoClashSound(h);
    forall x, c, p, t: nat, d ensures h.block(x, c, p, t, d).hex != "tip" {
      BlockTextStart(x, c, p, t, d);
    }
  }

  lemma BlockTextStart(txs: seq<Id>, coinbase: Id, prev: Id, time: nat, data: Data)
    ensures BlockText(txs, coinbase, prev, time, data) != "tip"
  {
    hide IdTexts, Str, DataText;
    assert BlockText(txs, coinbase, prev, time, data)[0] == Ids(txs)[0] == Tally(|txs|)[0] != "tip"[0];
  }

  lemma NoClashSound(h: Hashes)
    requires NoClash(h)
    ensures Sound(h)
  {
  }
}
