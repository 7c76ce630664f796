/** The tree of known blocks, main chain and side chains together, seen through their headers. */
module Tree {
  import opened Types
  import opened Kimoto

  type Headers = map<Id, Header>

  function Walk(m: Headers, id: Id, n: nat): seq<Header>
    decreases n
  {
    if n == 0 || id !in m then [] else [m[id]] + Walk(m, m[id].prev, n - 1)
  }

  /** A block's headers back to genesis, itself first. */
  function Ancestors(m: Headers, id: Id): seq<Header> {
    if id in m then Walk(m, id, m[id].height) else []
  }

  /** Parents are known and one lower; only genesis has height one. */
  ghost predicate Rooted(m: Headers, genesis: Id) {
    && genesis in m
    && m[genesis].height == 1
    && (forall id :: id in m && id != genesis ==>
          m[id].prev in m && m[m[id].prev].height >= 1 && m[id].height == m[m[id].prev].height + 1)
  }

  function Work(m: Headers, prev: Id, target: int): int
    requires prev in m
  {
    MAX_WORK - target + m[prev].work
  }

  /** Every block but genesis carries the target its ancestors dictate and the work that follows. */
  ghost predicate Mined(k: Rules, m: Headers, genesis: Id)
    requires Rooted(m, genesis)
  {
    forall id :: id in m && id != genesis ==>
      && m[id].target == Target(k, Ancestors(m, m[id].prev))
      && m[id].work == Work(m, m[id].prev, m[id].target)
  }

  ghost predicate Extends(m: Headers, m': Headers) {
    forall id :: id in m ==> id in m' && m'[id] == m[id]
  }

  lemma {:induction false} WalkKept(m: Headers, m': Headers, genesis: Id, id: Id, n: nat)
    requires Rooted(m, genesis) && Extends(m, m') && id in m && n <= m[id].height
    ensures Walk(m', id, n) == Walk(m, id, n)
    decreases n
  {
    if n > 1 {
      WalkKept(m, m', genesis, m[id].prev, n - 1);
    }
  }

  /** Ancestries are complete: they end at genesis and hold one header per height. */
  lemma {:induction false} WalkWhole(m: Headers, genesis: Id, id: Id, n: nat)
    requires Rooted(m, genesis) && id in m && n <= m[id].height
    ensures |Walk(m, id, n)| == n
    ensures n > 0 ==> Walk(m, id, n)[0] == m[id] && Walk(m, id, n)[1..] == Walk(m, m[id].prev, n - 1)
    ensures n > 1 ==> m[id].prev in m && m[m[id].prev].height == m[id].height - 1
    decreases n
  {
    if n > 1 {
      WalkWhole(m, genesis, m[id].prev, n - 1);
    }
  }

  /** Adding blocks changes no ancestry that was already complete. */
  lemma AncestorsKept(m: Headers, m': Headers, genesis: Id, id: Id)
    requires Rooted(m, genesis) && Extends(m, m') && id in m
    ensures Ancestors(m', id) == Ancestors(m, id)
  {
    WalkKept(m, m', genesis, id, m[id].height);
  }

  /** A correctly mined leaf keeps the tree correctly mined. */
  lemma Grow(k: Rules, m: Headers, genesis: Id, id: Id, hd: Header)
    requires Rooted(m, genesis) && Mined(k, m, genesis) && id !in m
    requires hd.prev in m && hd.height == m[hd.prev].height + 1
    requires hd.target == Target(k, Ancestors(m, hd.prev)) && hd.work == Work(m, hd.prev, hd.target)
    ensures Rooted(m[id := hd], genesis) && Mined(k, m[id := hd], genesis)
  {
    hide Target, Ancestors;
    var m' := m[id := hd];
    assert Rooted(m', genesis);
    forall x | x in m' && x != genesis
      ensures m'[x].target == Target(k, Ancestors(m', m'[x].prev)) && m'[x].work == Work(m', m'[x].prev, m'[x].target)
    {
      AncestorsKept(m, m', genesis, m'[x].prev);
    }
  }

  predicate Legal(hd: Header) {
    0 <= hd.target <= MIN_DIFFICULTY
  }

  lemma {:induction false} WalkLegal(m: Headers, genesis: Id, id: Id, n: nat)
    requires Rooted(m, genesis) && id in m && n <= m[id].height
    requires forall x :: x in m && x != genesis && m[x].height <= m[id].height ==> Legal(m[x])
    ensures Between(0, MIN_DIFFICULTY, Walk(m, id, n))
    decreases n
  {
    if n > 1 {
      WalkLegal(m, genesis, m[id].prev, n - 1);
    }
  }

  lemma {:induction false} TargetLegal(k: Rules, m: Headers, genesis: Id, id: Id)
    requires Rooted(m, genesis) && Mined(k, m, genesis) && id in m && id != genesis
    ensures Legal(m[id])
    decreases m[id].height
  {
    forall x | x in m && x != genesis && m[x].height < m[id].height ensures Legal(m[x]) {
      TargetLegal(k, m, genesis, x);
    }
    var p := m[id].prev;
    WalkLegal(m, genesis, p, m[p].height);
    TargetRange(k, Ancestors(m, p));
  }

  lemma NextTarget(k: Rules, m: Headers, genesis: Id, prev: Id)
    requires Rooted(m, genesis) && Mined(k, m, genesis) && prev in m
    ensures 0 <= Target(k, Ancestors(m, prev)) <= MIN_DIFFICULTY
  {
    forall x | x in m && x != genesis ensures Legal(m[x]) {
      TargetLegal(k, m, genesis, x);
    }
    WalkLegal(m, genesis, prev, m[prev].height);
    TargetRange(k, Ancestors(m, prev));
  }

  /** Every accepted target lies in the legal range, so work strictly grows from parent to child. */
  lemma WorkGrows(k: Rules, m: Headers, genesis: Id, id: Id)
    requires Rooted(m, genesis) && Mined(k, m, genesis) && id in m && id != genesis
    ensures 0 <= m[id].target <= MIN_DIFFICULTY
    ensures m[m[id].prev].work < m[id].work
  {
    TargetLegal(k, m, genesis, id);
  }
}
