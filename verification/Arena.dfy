/**
 One node's part in a fight as it is written: the loop that takes loot from a victim, the resolving of an incoming attack and the
 handler that credits the attacker.
 */
module Arena {
  import opened Ids
  import opened Barter
  import opened Loot

  /** Heaviest first. */
  ghost predicate Descending(gs: seq<Line>) {
    forall i, j :: 0 <= i < j < |gs| ==> Weight(gs[i].item) >= Weight(gs[j].item)
  }

  function Reversed(gs: seq<Line>): (r: seq<Line>)
    ensures |r| == |gs| && forall i :: 0 <= i < |gs| ==> r[i] == gs[|gs| - 1 - i]
  {
    if gs == [] then [] else Reversed(gs[1..]) + [gs[0]]
  }

  lemma ReversedIsGoodsList(s: Stock, gs: seq<Line>)
    requires IsPriceList(s, gs)
    ensures IsGoodsList(s, Reversed(gs)) && Descending(Reversed(gs))
  {
    hide Weight;
    var r := Reversed(gs);
    forall l ensures l in r <==> l in gs {
      if l in gs {
        var i :| 0 <= i < |gs| && gs[i] == l;
        assert r[|gs| - 1 - i] == l;
      }
    }
  }

  lemma {:induction false} WithoutOneMore(s: Stock, loot: seq<Line>, l: Line)
    ensures Without(s, loot + [l]) == Less(Without(s, loot), l)
    decreases |loot|
  {
    if loot == [] {
      assert loot + [l] == [l] && [l][1..] == [];
    } else {
      assert (loot + [l])[1..] == loot[1..] + [l];
      WithoutOneMore(Less(s, loot[0]), loot[1..], l);
    }
  }

  /** Which of the first n statements succeed. */
  function Oks(ok: nat -> bool, n: nat): (r: seq<bool>)
    ensures |r| == n && forall i: nat :: i < n ==> r[i] == ok(i)
  {
    if n == 0 then [] else Oks(ok, n - 1) + [ok(n - 1)]
  }

  lemma {:induction false} KeptOneMore(loot: seq<Line>, l: Line, ok: nat -> bool)
    ensures Kept(loot + [l], Oks(ok, |loot| + 1)) == Kept(loot, Oks(ok, |loot|)) + (if ok(|loot|) then [l] else [])
  {
    assert Oks(ok, |loot| + 1) == Oks(ok, |loot|) + [ok(|loot|)];
    KeptConcat(loot, Oks(ok, |loot|), [l], [ok(|loot|)]);
  }

  lemma {:induction false} KeptConcat(a: seq<Line>, ok: seq<bool>, b: seq<Line>, ok': seq<bool>)
    requires |ok| == |a| && |ok'| == |b|
    ensures Kept(a + b, ok + ok') == Kept(a, ok) + Kept(b, ok')
  {
    if a == [] {
      assert a + b == b && ok + ok' == ok';
    } else {
      var c, oks := a + b, ok + ok';
      var head := if ok[0] then [a[0]] else [];
      assert c[0] == a[0] && oks[0] == ok[0] && c[1..] == a[1..] + b && oks[1..] == ok[1..] + ok';
      KeptConcat(a[1..], ok[1..], b, ok');
      assert Kept(c, oks) == head + Kept(c[1..], oks[1..]);
      assert head + (Kept(a[1..], ok[1..]) + Kept(b, ok')) == (head + Kept(a[1..], ok[1..])) + Kept(b, ok');
    }
  }

  /** Each stack times the fraction, to the nearest unit; if that is nothing of every good, one unit of the first. */
  ghost predicate IsExactLoot(loot: seq<Line>, gs: seq<Line>, p: int, q: int) {
    && (gs == [] ==> loot == [])
    && if exists j :: 0 <= j < |gs| && 2 * gs[j].qty * p + q >= 2 * q then
         forall i :: 0 <= i < |gs| ==> var c := Carried(loot, gs[i].item); 2 * q * c <= 2 * gs[i].qty * p + q < 2 * q * (c + 1)
       else gs != [] ==> loot == [Line(gs[0].item, 1)]
  }

  class Fighters {
    const nodeId: NodeId
    const market: Market
    var resolved: seq<Fight>

    constructor (nodeId: NodeId, market: Market)
      ensures this.nodeId == nodeId && this.market == market && resolved == []
    {
      this.nodeId, this.market, resolved := nodeId, market, [];
    }

    /** Takes a cut of each of the victim's stacks, or one unit of the heaviest good if every cut rounds to nothing.  A line whose update
        fails is loot all the same. */
    method StealLoot(victim: string, p: int, q: int, hit: nat -> bool) returns (loot: seq<Line>, gs: seq<Line>)
      requires IsShare(p, q)
      modifies market`goods
      ensures IsGoodsList(old(StockOf(market.goods, victim)), gs) && Descending(gs) && loot == LootOf(gs, p, q)
      ensures market.goods == old(market.goods)[victim := Swept(Without(old(StockOf(market.goods, victim)), Kept(loot, Oks(hit, |loot|))))]
      ensures IsExactLoot(loot, gs, p, q)
    {
      hide IsExactLoot, Cut, IsPriceList, IsGoodsList, Descending, Weight, Kept;
      var asc := market.ListGoods(victim);
      var s := StockOf(market.goods, victim);
      ReversedIsGoodsList(s, asc);
      gs := Reversed(asc);
      ghost var s0 := s;
      loot := [];
      assert s == Without(s0, Kept([], Oks(hit, 0))) by { NothingKept(s0, hit); }
      assert gs[0..] == gs && [] + Cuts(gs, p, q) == Cuts(gs, p, q);
      var i := 0;
      while i < |gs|
        invariant 0 <= i <= |gs|
        invariant loot + Cuts(gs[i..], p, q) == Cuts(gs, p, q)
        invariant s == Without(s0, Kept(loot, Oks(hit, |loot|))) && market.goods == old(market.goods)
      {
        var n := Cut(gs[i].qty, p, q);
        assert gs[i..][0] == gs[i] && gs[i..][1..] == gs[i + 1..];
        ghost var rest := Cuts(gs[i + 1..], p, q);
        if n > 0 {
          var l := Line(gs[i].item, n);
          TakeOne(s0, loot, l, hit);
          assert loot + ([l] + rest) == (loot + [l]) + rest;
          if hit(|loot|) {
            s := Less(s, l);
          }
          loot := loot + [l];
        } else {
          assert [] + rest == rest;
        }
        i := i + 1;
      }
      assert loot + [] == loot;
      if loot == [] && |gs| > 0 {
        TakeOne(s0, loot, Line(gs[0].item, 1), hit);
        if hit(|loot|) {
          s := Less(s, Line(gs[0].item, 1));
        }
        loot := loot + [Line(gs[0].item, 1)];
      }
      market.goods := market.goods[victim := Swept(s)];
      AllExact(s0, gs, p, q);
    }

    /** addGoods for each line of a bundle; a line whose insert fails is passed over. */
    method AddAll(gid: string, loot: seq<Line>, ok: nat -> bool)
      modifies market`goods
      ensures market.goods == old(market.goods)[gid := With(old(StockOf(market.goods, gid)), Kept(loot, Oks(ok, |loot|)))]
    {
      var s := StockOf(market.goods, gid);
      ghost var s0 := s;
      ghost var oks := Oks(ok, |loot|);
      var i := 0;
      assert loot[0..] == loot && oks[0..] == oks;
      while i < |loot|
        invariant 0 <= i <= |loot| && market.goods == old(market.goods)
        invariant With(s, Kept(loot[i..], oks[i..])) == With(s0, Kept(loot, oks))
      {
        assert loot[i..][1..] == loot[i + 1..] && oks[i..][1..] == oks[i + 1..];
        ghost var rest := Kept(loot[i + 1..], oks[i + 1..]);
        assert Kept(loot[i..], oks[i..]) == (if oks[i] then [loot[i]] else []) + rest;
        if ok(i) {
          assert ([loot[i]] + rest)[1..] == rest;
          s := More(s, loot[i]);
        } else {
          assert [] + rest == rest;
        }
        i := i + 1;
      }
      market.goods := market.goods[gid := s];
    }

    /** A fight within the node: the loot goes straight to the attacker. */
    method TransferLoot(victim: string, attacker: string, p: int, q: int, hit: nat -> bool, ok: nat -> bool)
      returns (loot: seq<Line>, gs: seq<Line>)
      requires IsShare(p, q)
      modifies market`goods
      ensures IsGoodsList(old(StockOf(market.goods, victim)), gs) && Descending(gs) && loot == LootOf(gs, p, q) && IsExactLoot(loot, gs, p, q)
      ensures var robbed := old(market.goods)[victim := Swept(Without(old(StockOf(market.goods, victim)), Kept(loot, Oks(hit, |loot|))))];
              market.goods == robbed[attacker := With(StockOf(robbed, attacker), Kept(loot, Oks(ok, |loot|)))]
    {
      hide Cut, IsGoodsList, LootOf, Without, With, Kept, Descending, IsExactLoot;
      loot, gs := StealLoot(victim, p, q, hit);
      AddAll(attacker, loot, ok);
    }

    /** Resolves a queued attack: takes the loot if the attacker won, and emits the result. */
    method IncomingPvP(request: string, attacker: string, victim: string, won: bool, p: int, q: int, hit: nat -> bool) returns (gs: seq<Line>)
      requires IsShare(p, q)
      modifies this`resolved, market`goods
      ensures won ==> IsGoodsList(old(StockOf(market.goods, victim)), gs) && Descending(gs) && IsExactLoot(Stolen(won, gs, p, q), gs, p, q)
      ensures var loot := Stolen(won, gs, p, q);
              && resolved == old(resolved) + [Fight(nodeId, request, attacker, victim, won, loot)]
              && market.goods == if won then old(market.goods)[victim := Swept(Without(old(StockOf(market.goods, victim)), Kept(loot, Oks(hit, |loot|))))]
                                 else old(market.goods)
    {
      hide Cut, IsPriceList, IsGoodsList, LootOf, Without, Kept, Descending, IsExactLoot;
      var loot := [];
      gs := [];
      if won {
        loot, gs := StealLoot(victim, p, q, hit);
      }
      resolved := resolved + [Fight(nodeId, request, attacker, victim, won, loot)];
    }

    /** The handler of pvp.resolved: credits the attacker only at home and only for fights the hub arranged. */
    method OnResolved(f: Fight, ok: nat -> bool)
      modifies market`goods
      ensures market.goods == if f.request != "" && !StartsWith(f.request, "local:") && StartsWith(f.attacker, nodeId + ":")
                              then old(market.goods)[f.attacker := With(old(StockOf(market.goods, f.attacker)), Kept(f.loot, Oks(ok, |f.loot|)))]
                              else old(market.goods)
    {
      if f.request == "" || StartsWith(f.request, "local:") || !StartsWith(f.attacker, nodeId + ":") {
        return;
      }
      AddAll(f.attacker, f.loot, ok);
    }
  }

  lemma AllExact(s: Stock, gs: seq<Line>, p: int, q: int)
    requires IsShare(p, q) && IsGoodsList(s, gs)
    ensures IsExactLoot(LootOf(gs, p, q), gs, p, q)
  {
    hide Cut, Carried;
    GoodsListLines(s, gs);
    assert gs == [] ==> LootOf(gs, p, q) == [];
    hide LootOf;
    forall i | 0 <= i < |gs|
      ensures if exists j :: 0 <= j < |gs| && 2 * gs[j].qty * p + q >= 2 * q then
                var c := Carried(LootOf(gs, p, q), gs[i].item); 2 * q * c <= 2 * gs[i].qty * p + q < 2 * q * (c + 1)
              else LootOf(gs, p, q) == [Line(gs[0].item, 1)]
    {
      LootExact(gs, p, q, i);
    }
  }

  lemma NothingKept(s: Stock, hit: nat -> bool)
    ensures Without(s, Kept([], Oks(hit, 0))) == s
  {
  }

  lemma TakeOne(s: Stock, loot: seq<Line>, l: Line, hit: nat -> bool)
    ensures var before, after := Without(s, Kept(loot, Oks(hit, |loot|))), Without(s, Kept(loot + [l], Oks(hit, |loot| + 1)));
            after == if hit(|loot|) then Less(before, l) else before
  {
    KeptOneMore(loot, l, hit);
    var kept := Kept(loot, Oks(hit, |loot|));
    WithoutOneMore(s, kept, l);
    assert kept + [] == kept;
  }
}
