/**
 Paying with goods.

 Goods are handed over in whole units, lightest first, until the price is met; what they do not cover becomes a
 debt.  The list of goods comes from the database in no particular order and the sort is not stable, so everything here holds of
 every list sorted by weight.
 */
module Barter {
  import opened Ids
  import opened Events
  import opened Ledger
  import opened Payments
  import opened Engine

  /** One player's goods. */
  type Stock = map<string, int>

  datatype Line = Line(item: string, qty: int)

  const TRADE_GOODS: map<string, nat> := map[
    "trd_brass_fittings" := 8, "trd_lantern_glass" := 5, "trd_bone_buttons" := 3, "trd_copper_wire" := 6, "trd_chalk_dust" := 2,
    "trd_wound_cloth" := 4, "trd_black_salt" := 7, "trd_old_ink" := 5, "trd_vault_brass" := 9]

  /** What a unit is worth; goods nobody knows are worth nothing. */
  function Weight(item: string): (w: nat)
    ensures w <= 9
  {
    if item in TRADE_GOODS then TRADE_GOODS[item] else 0
  }

  /** The nine goods the market knows, and nothing for any other. */
  lemma KnownGoods(item: string)
    ensures Weight("trd_chalk_dust") == 2 && Weight("trd_bone_buttons") == 3 && Weight("trd_wound_cloth") == 4
    ensures Weight("trd_lantern_glass") == 5 && Weight("trd_old_ink") == 5 && Weight("trd_copper_wire") == 6
    ensures Weight("trd_black_salt") == 7 && Weight("trd_brass_fittings") == 8 && Weight("trd_vault_brass") == 9
    ensures Weight(item) > 0 <==>
              item in {"trd_chalk_dust", "trd_bone_buttons", "trd_wound_cloth", "trd_lantern_glass", "trd_old_ink", "trd_copper_wire",
                       "trd_black_salt", "trd_brass_fittings", "trd_vault_brass"}
  {
  }

  // ---- What a stock is worth ----

  function Worth(item: string, qty: int): (v: nat)
    ensures qty > 0 ==> v == qty * Weight(item)
  {
    if qty > 0 then qty * Weight(item) else 0
  }

  ghost function Value(s: Stock): nat
    decreases |s|
  {
    if s == map[] then 0
    else
      var item :| item in s;
      Worth(item, s[item]) + Value(s - {item})
  }

  lemma {:induction false} ValueSplit(s: Stock, item: string)
    requires item in s
    ensures Value(s) == Worth(item, s[item]) + Value(s - {item})
    decreases |s|
  {
    hide Worth;
    var k :| k in s && Value(s) == Worth(k, s[k]) + Value(s - {k});
    if k != item {
      var a, b := s - {k}, s - {item};
      ValueSplit(a, item);
      ValueSplit(b, k);
      assert a - {item} == b - {k};
      assert Value(a) == Worth(item, a[item]) + Value(a - {item});
      assert Value(b) == Worth(k, b[k]) + Value(b - {k});
    }
  }

  lemma ValueUpdate(s: Stock, item: string, qty: int)
    requires item in s
    ensures Value(s[item := qty]) == Value(s) - Worth(item, s[item]) + Worth(item, qty)
  {
    hide Worth;
    ValueSplit(s, item);
    ValueSplit(s[item := qty], item);
    assert s[item := qty] - {item} == s - {item};
  }

  /** DELETE ... WHERE qty <= 0. */
  function Swept(s: Stock): Stock {
    map item | item in s && s[item] > 0 :: s[item]
  }

  lemma {:induction false} SweptValue(s: Stock)
    ensures Value(Swept(s)) == Value(s)
    decreases |s|
  {
    if s != map[] {
      var item :| item in s;
      SweptValue(s - {item});
      ValueSplit(s, item);
      if s[item] > 0 {
        ValueSplit(Swept(s), item);
        assert Swept(s) - {item} == Swept(s - {item});
      } else {
        assert Swept(s) == Swept(s - {item});
      }
    }
  }

  // ---- The list of goods ----

  ghost predicate IsLine(s: Stock, l: Line) {
    l.item in s && s[l.item] == l.qty && l.qty > 0
  }

  /** What is left of the stock is what the list says, each good once, lightest first. */
  ghost predicate IsPriceList(s: Stock, gs: seq<Line>) {
    && (forall l :: l in gs <==> IsLine(s, l))
    && (forall i, j :: 0 <= i < j < |gs| ==> gs[i].item != gs[j].item && Weight(gs[i].item) <= Weight(gs[j].item))
  }

  function Sum(gs: seq<Line>): nat {
    if gs == [] then 0 else Worth(gs[0].item, gs[0].qty) + Sum(gs[1..])
  }

  lemma {:induction false} ValueIsSum(s: Stock, gs: seq<Line>)
    requires IsPriceList(s, gs)
    ensures Value(s) == Sum(gs)
    decreases |gs|
  {
    hide Worth, Value, IsPriceList;
    if gs == [] {
      WorthNothing(s);
    } else {
      HeadIsLine(s, gs);
      ValueSplit(s, gs[0].item);
      TailIsPriceList(s, gs);
      ValueIsSum(s - {gs[0].item}, gs[1..]);
    }
  }

  lemma WorthNothing(s: Stock)
    requires IsPriceList(s, [])
    ensures Value(s) == 0
  {
    hide Worth;
    assert Swept(s) == map[] by {
      assert forall item :: item in s && s[item] > 0 ==> IsLine(s, Line(item, s[item]));
    }
    SweptValue(s);
  }

  lemma HeadIsLine(s: Stock, gs: seq<Line>)
    requires IsPriceList(s, gs) && gs != []
    ensures IsLine(s, gs[0]) && forall i :: 0 <= i < |gs| ==> IsLine(s, gs[i])
  {
    assert forall i :: 0 <= i < |gs| ==> gs[i] in gs;
  }

  lemma TailIsPriceList(s: Stock, gs: seq<Line>)
    requires IsPriceList(s, gs) && gs != []
    ensures IsPriceList(s - {gs[0].item}, gs[1..])
  {
    var g := gs[0];
    assert gs == [g] + gs[1..];
    assert g in gs;
    assert g !in gs[1..];
    forall l ensures l in gs[1..] <==> IsLine(s - {g.item}, l) {
      assert l in gs[1..] <==> l in gs && l != g;
      assert IsLine(s - {g.item}, l) <==> IsLine(s, l) && l.item != g.item;
    }
  }

  // ---- Handing over ----

  /** The inner loop: how many of qty units worth w each are taken for what is still needed. */
  function Units(qty: int, w: nat, need: int): nat
    decreases if qty > 0 then qty else 0
  {
    if qty <= 0 || need <= 0 then 0 else 1 + Units(qty - 1, w, need - w)
  }

  /** As many as it takes, or all: one fewer would not do. */
  lemma {:induction false} UnitsLaw(qty: int, w: nat, need: int)
    ensures var n := Units(qty, w, need);
            && n <= (if qty > 0 then qty else 0)
            && (n < qty ==> n * w >= need)
            && (n > 0 ==> (n - 1) * w < need)
    decreases if qty > 0 then qty else 0
  {
    if qty > 0 && need > 0 {
      UnitsLaw(qty - 1, w, need - w);
      var n := Units(qty - 1, w, need - w);
      assert (n + 1) * w == n * w + w;
      assert n > 0 ==> (n - 1) * w == n * w - w;
    }
  }

  /** What the goods of the list come to when they are handed over for need. */
  function Spent(gs: seq<Line>, need: int): nat
    decreases |gs|
  {
    if gs == [] then 0
    else
      var w := Weight(gs[0].item);
      var paid := Units(gs[0].qty, w, need) * w;
      paid + Spent(gs[1..], need - paid)
  }

  /** The stock after handing over, before empty rows are deleted. */
  function Handed(s: Stock, gs: seq<Line>, need: int): Stock
    decreases |gs|
  {
    if gs == [] then s
    else
      var w := Weight(gs[0].item);
      var n := Units(gs[0].qty, w, need);
      Handed(s[gs[0].item := gs[0].qty - n], gs[1..], need - n * w)
  }

  /** Every row the list speaks of is as the list says, each once. */
  ghost predicate Matches(s: Stock, gs: seq<Line>) {
    && (forall i :: 0 <= i < |gs| ==> IsLine(s, gs[i]))
    && (forall i, j :: 0 <= i < j < |gs| ==> gs[i].item != gs[j].item && Weight(gs[i].item) <= Weight(gs[j].item))
  }

  lemma MatchesTail(s: Stock, gs: seq<Line>, qty: int)
    requires Matches(s, gs) && gs != []
    ensures Matches(s[gs[0].item := qty], gs[1..]) && IsLine(s, gs[0])
  {
  }

  /** The value lost is what was spent. */
  lemma {:induction false} SpentIsLost(s: Stock, gs: seq<Line>, need: int)
    requires Matches(s, gs)
    ensures Value(Handed(s, gs, need)) == Value(s) - Spent(gs, need)
    decreases |gs|
  {
    hide Matches, Value;
    if gs != [] {
      var l, w := gs[0], Weight(gs[0].item);
      var n := Units(l.qty, w, need);
      UnitsLaw(l.qty, w, need);
      MatchesTail(s, gs, l.qty - n);
      ValueUpdate(s, l.item, l.qty - n);
      assert Worth(l.item, l.qty - n) == (l.qty - n) * w;
      assert (l.qty - n) * w == l.qty * w - n * w;
      SpentIsLost(s[l.item := l.qty - n], gs[1..], need - n * w);
    }
  }

  // ---- Updates that fail ----

  /** Which update of which good fails; the goods are counted as paid all the same. */
  type Failing = (string, nat) -> bool

  /** How many of the first n updates of a good take effect. */
  function Effective(item: string, n: nat, fails: Failing): (m: nat)
    ensures m <= n
  {
    if n == 0 then 0 else Effective(item, n - 1, fails) + (if fails(item, n - 1) then 0 else 1)
  }

  /** The stock after handing over with failing updates. */
  function HandedBut(s: Stock, gs: seq<Line>, need: int, fails: Failing): Stock
    decreases |gs|
  {
    if gs == [] then s
    else
      var l, w := gs[0], Weight(gs[0].item);
      var n := Units(l.qty, w, need);
      HandedBut(s[l.item := l.qty - Effective(l.item, n, fails)], gs[1..], need - n * w, fails)
  }

  /** What was counted as paid and is still there. */
  function Unpaid(gs: seq<Line>, need: int, fails: Failing): nat
    decreases |gs|
  {
    if gs == [] then 0
    else
      var l, w := gs[0], Weight(gs[0].item);
      var n := Units(l.qty, w, need);
      (n - Effective(l.item, n, fails)) * w + Unpaid(gs[1..], need - n * w, fails)
  }

  /** The value lost is what was spent less what failed to be taken. */
  lemma {:induction false} FailuresAreKept(s: Stock, gs: seq<Line>, need: int, fails: Failing)
    requires Matches(s, gs)
    ensures Value(HandedBut(s, gs, need, fails)) == Value(s) - Spent(gs, need) + Unpaid(gs, need, fails)
    decreases |gs|
  {
    hide Matches, Value, Units, Weight, Effective;
    if gs != [] {
      var l, w := gs[0], Weight(gs[0].item);
      var n := Units(l.qty, w, need);
      var m := Effective(l.item, n, fails);
      MatchesTail(s, gs, l.qty - m);
      OneLineKept(s, l, need, m);
      FailuresAreKept(s[l.item := l.qty - m], gs[1..], need - n * w, fails);
    }
  }

  lemma OneLineKept(s: Stock, l: Line, need: int, m: nat)
    requires IsLine(s, l) && m <= Units(l.qty, Weight(l.item), need)
    ensures var n, w := Units(l.qty, Weight(l.item), need), Weight(l.item);
            Value(s[l.item := l.qty - m]) == Value(s) - n * w + (n - m) * w
  {
    hide Value, Units, Weight;
    var n, w := Units(l.qty, Weight(l.item), need), Weight(l.item);
    UnitsLaw(l.qty, w, need);
    ValueUpdate(s, l.item, l.qty - m);
    WorthLeft(l.item, l.qty, m);
    assert (n - m) * w == n * w - m * w;
  }

  lemma WorthLeft(item: string, qty: int, m: nat)
    requires 0 < qty && m <= qty
    ensures Worth(item, qty) - Worth(item, qty - m) == m * Weight(item)
  {
    hide Weight;
    assert (qty - m) * Weight(item) == qty * Weight(item) - m * Weight(item);
  }

  lemma {:induction false} AllEffective(item: string, n: nat, fails: Failing)
    requires forall i: string, k: nat :: !fails(i, k)
    ensures Effective(item, n, fails) == n
  {
    if n > 0 {
      AllEffective(item, n - 1, fails);
    }
  }

  /** It is the number of updates that do not fail. */
  lemma {:induction false} EffectiveCounts(item: string, n: nat, fails: Failing)
    ensures Effective(item, n, fails) == |set k: nat | k < n && !fails(item, k)|
  {
    if n > 0 {
      EffectiveCounts(item, n - 1, fails);
      var before, now := set k: nat | k < n - 1 && !fails(item, k), set k: nat | k < n && !fails(item, k);
      assert now == before + (if fails(item, n - 1) then {} else {n - 1});
    }
  }

  lemma {:induction false} NoFailures(s: Stock, gs: seq<Line>, need: int, fails: Failing)
    requires forall i: string, k: nat :: !fails(i, k)
    ensures HandedBut(s, gs, need, fails) == Handed(s, gs, need) && Unpaid(gs, need, fails) == 0
    decreases |gs|
  {
    hide Units, Weight;
    if gs != [] {
      var l, w := gs[0], Weight(gs[0].item);
      var n := Units(l.qty, w, need);
      AllEffective(l.item, n, fails);
      NoFailures(s[l.item := l.qty - n], gs[1..], need - n * w, fails);
    }
  }

  lemma AllUnits(qty: int, w: nat, need: int)
    requires qty > 0 && qty * w <= need
    ensures Units(qty, w, need) * w == qty * w
  {
    var n := Units(qty, w, need);
    UnitsLaw(qty, w, need);
    if n < qty {
      assert (qty - n) * w == qty * w - n * w >= 0;
    }
  }

  /** If the goods do not come to more than the price, all their value goes. */
  lemma {:induction false} SpendsAll(gs: seq<Line>, need: int)
    requires (forall i :: 0 <= i < |gs| ==> gs[i].qty > 0) && Sum(gs) <= need
    ensures Spent(gs, need) == Sum(gs)
    decreases |gs|
  {
    hide Weight, Units;
    if gs != [] {
      var l, w := gs[0], Weight(gs[0].item);
      AllUnits(l.qty, w, need);
      SpendsAll(gs[1..], need - Worth(l.item, l.qty));
    }
  }

  /** How many units of the i-th good are taken. */
  function Taken(gs: seq<Line>, need: int, i: nat): nat
    requires i < |gs|
    decreases |gs|
  {
    var w := Weight(gs[0].item);
    var n := Units(gs[0].qty, w, need);
    if i == 0 then n else Taken(gs[1..], need - n * w, i - 1)
  }

  lemma FirstMeets(qty: int, w: nat, need: int)
    requires need > 0 && qty > 0 && Units(qty, w, need) * w >= need
    ensures Units(qty, w, need) > 0 && Units(qty, w, need) * w - need < w
  {
    var n := Units(qty, w, need);
    UnitsLaw(qty, w, need);
    assert (n - 1) * w == n * w - w;
  }

  /** Otherwise the price is met, and the overpayment is less than a unit of the last good taken is worth. */
  lemma {:induction false} SpendsEnough(gs: seq<Line>, need: int) returns (last: nat)
    requires forall i :: 0 <= i < |gs| ==> gs[i].qty > 0
    requires 0 < need <= Sum(gs)
    ensures need <= Spent(gs, need)
    ensures last < |gs| && Taken(gs, need, last) > 0 && forall j :: last < j < |gs| ==> Taken(gs, need, j) == 0
    ensures Spent(gs, need) - need < Weight(gs[last].item)
    decreases |gs|
  {
    hide Weight, Units;
    var l, w := gs[0], Weight(gs[0].item);
    var n := Units(l.qty, w, need);
    var paid := n * w;
    if paid >= need {
      last := 0;
      FirstMeets(l.qty, w, need);
      SpendsNothing(gs[1..], need - paid);
      forall j | 0 < j < |gs| ensures Taken(gs, need, j) == 0 {
        TakesNothing(gs[1..], need - paid, j - 1);
      }
    } else {
      assert n == l.qty by { TakesAll(l.qty, w, need); }
      assert paid == Worth(l.item, l.qty);
      var k := SpendsEnough(gs[1..], need - paid);
      last := k + 1;
      forall j | last < j < |gs| ensures Taken(gs, need, j) == 0 {
        assert Taken(gs, need, j) == Taken(gs[1..], need - paid, j - 1);
      }
    }
  }

  lemma TakesAll(qty: int, w: nat, need: int)
    requires qty > 0 && Units(qty, w, need) * w < need
    ensures Units(qty, w, need) == qty
  {
    UnitsLaw(qty, w, need);
  }

  lemma {:induction false} TakesNothing(gs: seq<Line>, need: int, i: nat)
    requires need <= 0 && i < |gs|
    ensures Taken(gs, need, i) == 0
    decreases |gs|
  {
    if i > 0 {
      TakesNothing(gs[1..], need, i - 1);
    }
  }

  /** Lightest first: a good is touched only when all goods before it on the list are used up. */
  lemma {:induction false} LightestFirst(gs: seq<Line>, need: int, i: nat, j: nat)
    requires (forall k :: 0 <= k < |gs| ==> gs[k].qty > 0) && i < j < |gs| && Taken(gs, need, j) > 0
    ensures Taken(gs, need, i) == gs[i].qty
    decreases |gs|
  {
    hide Weight, Units;
    var w := Weight(gs[0].item);
    var n := Units(gs[0].qty, w, need);
    var paid := n * w;
    if i > 0 {
      LightestFirst(gs[1..], need - paid, i - 1, j - 1);
    } else if need - paid <= 0 {
      TakesNothing(gs[1..], need - paid, j - 1);
    } else {
      TakesAll(gs[0].qty, w, need);
    }
  }

  /** The rows afterwards: what was listed has lost what was taken, all else is as it was. */
  lemma {:induction false} HandedRows(s: Stock, gs: seq<Line>, need: int, item: string)
    requires Matches(s, gs) && item in s
    ensures var t := Handed(s, gs, need);
            && t.Keys == s.Keys
            && (forall i :: 0 <= i < |gs| && gs[i].item == item ==> t[item] == gs[i].qty - Taken(gs, need, i))
            && ((forall i :: 0 <= i < |gs| ==> gs[i].item != item) ==> t[item] == s[item])
    decreases |gs|
  {
    hide Weight, Units, Matches;
    if gs != [] {
      var l, w := gs[0], Weight(gs[0].item);
      var n := Units(l.qty, w, need);
      var s1 := s[l.item := l.qty - n];
      MatchesTail(s, gs, l.qty - n);
      HandedRows(s1, gs[1..], need - n * w, item);
      var t := Handed(s, gs, need);
      forall i | 0 <= i < |gs| && gs[i].item == item ensures t[item] == gs[i].qty - Taken(gs, need, i) {
        ListedOnce(s, gs);
        if i > 0 {
          assert gs[1..][i - 1] == gs[i];
        }
      }
    }
  }

  /** The same with failing updates: of what was counted as taken, the units whose update failed are still there. */
  lemma {:induction false} HandedButRows(s: Stock, gs: seq<Line>, need: int, fails: Failing, item: string)
    requires Matches(s, gs) && item in s
    ensures var t := HandedBut(s, gs, need, fails);
            && t.Keys == s.Keys
            && (forall i :: 0 <= i < |gs| && gs[i].item == item ==>
                  t[item] == gs[i].qty - |set k: nat | k < Taken(gs, need, i) && !fails(item, k)|)
            && ((forall i :: 0 <= i < |gs| ==> gs[i].item != item) ==> t[item] == s[item])
    decreases |gs|
  {
    hide Weight, Units, Matches, Effective;
    if gs != [] {
      var l, w := gs[0], Weight(gs[0].item);
      var n := Units(l.qty, w, need);
      var m := Effective(l.item, n, fails);
      EffectiveCounts(l.item, n, fails);
      var s1 := s[l.item := l.qty - m];
      MatchesTail(s, gs, l.qty - m);
      HandedButRows(s1, gs[1..], need - n * w, fails, item);
      var t := HandedBut(s, gs, need, fails);
      forall i | 0 <= i < |gs| && gs[i].item == item
        ensures t[item] == gs[i].qty - |set k: nat | k < Taken(gs, need, i) && !fails(item, k)|
      {
        ListedOnce(s, gs);
        if i > 0 {
          assert gs[1..][i - 1] == gs[i];
        }
      }
    }
  }

  lemma ListedOnce(s: Stock, gs: seq<Line>)
    requires Matches(s, gs)
    ensures forall i, j :: 0 <= i < j < |gs| ==> gs[i].item != gs[j].item
  {
  }

  lemma {:induction false} SpendsNothing(gs: seq<Line>, need: int)
    requires need <= 0
    ensures Spent(gs, need) == 0
  {
    if gs != [] {
      SpendsNothing(gs[1..], need);
    }
  }

  lemma PriceListMatches(s: Stock, gs: seq<Line>)
    requires IsPriceList(s, gs)
    ensures Matches(s, gs) && forall i :: 0 <= i < |gs| ==> gs[i].qty > 0
  {
    assert forall i :: 0 <= i < |gs| ==> gs[i] in gs;
  }

  /** Handing over goods for a price: what is consumed is exactly the value lost; goods that do not come to more than the
      price are used up; otherwise the price is met and exceeded by less than one unit of the last good touched. */
  lemma ConsumeLaw(s: Stock, gs: seq<Line>, cost: int)
    requires IsPriceList(s, gs)
    ensures var t, c := Swept(Handed(s, gs, cost)), Spent(gs, cost);
            && Value(t) == Value(s) - c
            && (Value(s) <= cost ==> Value(t) == 0)
            && (cost <= 0 ==> c == 0)
            && (0 < cost <= Value(s) ==>
                  cost <= c && exists last :: 0 <= last < |gs| && Taken(gs, cost, last) > 0 && c - cost < Weight(gs[last].item)
                                              && forall j :: last < j < |gs| ==> Taken(gs, cost, j) == 0)
            && (0 <= cost <= Value(s) ==> cost <= c <= cost + 8)
  {
    hide IsPriceList, Value, Handed, Spent, Sum, Taken, Units;
    PriceListMatches(s, gs);
    ValueIsSum(s, gs);
    SpentIsLost(s, gs, cost);
    SweptValue(Handed(s, gs, cost));
    if Value(s) <= cost {
      SpendsAll(gs, cost);
    }
    if cost <= 0 {
      SpendsNothing(gs, cost);
    } else if cost <= Value(s) {
      var last := SpendsEnough(gs, cost);
    }
  }

  function StockOf(goods: map<string, Stock>, gid: string): Stock {
    if gid in goods then goods[gid] else map[]
  }

  function PlaceLine(l: Line, gs: seq<Line>): seq<Line> {
    if gs == [] || Weight(l.item) < Weight(gs[0].item) then [l] + gs else [gs[0]] + PlaceLine(l, gs[1..])
  }

  ghost predicate SortedLines(gs: seq<Line>) {
    forall i, j :: 0 <= i < j < |gs| ==> gs[i].item != gs[j].item && Weight(gs[i].item) <= Weight(gs[j].item)
  }

  lemma {:induction false} PlaceLineKeeps(l: Line, gs: seq<Line>)
    requires SortedLines(gs) && forall i :: 0 <= i < |gs| ==> gs[i].item != l.item
    ensures SortedLines(PlaceLine(l, gs))
    ensures forall x :: x in PlaceLine(l, gs) <==> x == l || x in gs
  {
    hide Weight;
    if gs != [] {
      assert gs == [gs[0]] + gs[1..];
      if !(Weight(l.item) < Weight(gs[0].item)) {
        PlaceLineKeeps(l, gs[1..]);
        var p := PlaceLine(l, gs[1..]);
        forall j | 0 <= j < |p| ensures gs[0].item != p[j].item && Weight(gs[0].item) <= Weight(p[j].item) {
          assert p[j] in p;
        }
      }
    }
  }

  class Market {
    const store: Store
    var goods: map<string, Stock>

    constructor (store: Store)
      ensures this.store == store && goods == map[]
    {
      this.store, goods := store, map[];
    }

    /** The rows with something in them, sorted by weight. */
    method ListGoods(gid: string) returns (gs: seq<Line>)
      ensures IsPriceList(StockOf(goods, gid), gs)
    {
      hide Weight;
      var s := StockOf(goods, gid);
      gs := [];
      var rest := s.Keys;
      while rest != {}
        invariant rest <= s.Keys && SortedLines(gs)
        invariant forall l :: l in gs <==> IsLine(s, l) && l.item !in rest
        decreases |rest|
      {
        var item :| item in rest;
        if s[item] > 0 {
          forall i | 0 <= i < |gs| ensures gs[i].item != item {
            assert gs[i] in gs;
          }
          PlaceLineKeeps(Line(item, s[item]), gs);
          gs := PlaceLine(Line(item, s[item]), gs);
        }
        rest := rest - {item};
      }
    }

    method GoodsValue(gid: string) returns (total: int)
      ensures total == Value(StockOf(goods, gid))
    {
      hide Value, IsPriceList, Worth;
      var gs := ListGoods(gid);
      ValueIsSum(StockOf(goods, gid), gs);
      PriceListMatches(StockOf(goods, gid), gs);
      total := 0;
      var i := 0;
      while i < |gs|
        invariant 0 <= i <= |gs|
        invariant total + Sum(gs[i..]) == Sum(gs)
      {
        assert gs[i..][1..] == gs[i + 1..];
        total := total + Worth(gs[i].item, gs[i].qty);
        i := i + 1;
      }
    }

    /** Hands over units of one good until the cost is met or it runs out; a unit whose update fails stays, and counts. */
    method HandOver(s: Stock, l: Line, cost: int, before: int, fails: Failing) returns (t: Stock, consumed: int)
      ensures var n := Units(l.qty, Weight(l.item), cost - before);
              t == s[l.item := l.qty - Effective(l.item, n, fails)] && consumed == before + n * Weight(l.item)
    {
      hide Weight;
      var w := Weight(l.item);
      t, consumed := s[l.item := l.qty], before;
      var n := 0;
      while n < l.qty && consumed < cost
        invariant 0 <= n && (n <= l.qty || n == 0)
        invariant consumed == before + n * w && t == s[l.item := l.qty - Effective(l.item, n, fails)]
        invariant n + Units(l.qty - n, w, cost - consumed) == Units(l.qty, w, cost - before)
      {
        if !fails(l.item, n) {
          t := t[l.item := t[l.item] - 1];
        }
        n := n + 1;
        assert n * w == (n - 1) * w + w;
        consumed := consumed + w;
      }
    }

    /** Hands over whole units, lightest first, until the cost is met or nothing is left. */
    method ConsumeForCost(gid: string, cost: int, fails: Failing) returns (consumed: int, gs: seq<Line>)
      modifies this`goods
      ensures IsPriceList(old(StockOf(goods, gid)), gs) && consumed == Spent(gs, cost)
      ensures goods == old(goods)[gid := Swept(HandedBut(old(StockOf(goods, gid)), gs, cost, fails))]
      ensures Value(StockOf(goods, gid)) == old(Value(StockOf(goods, gid))) - consumed + Unpaid(gs, cost, fails)
    {
      hide IsPriceList, Weight, Units, Value, Unpaid, Swept;
      gs := ListGoods(gid);
      assert gs[0..] == gs;
      var s := StockOf(goods, gid);
      PriceListMatches(s, gs);
      FailuresAreKept(s, gs, cost, fails);
      ghost var goal := HandedBut(s, gs, cost, fails);
      SweptValue(goal);
      consumed := 0;
      var i := 0;
      while i < |gs|
        invariant 0 <= i <= |gs|
        invariant consumed + Spent(gs[i..], cost - consumed) == Spent(gs, cost)
        invariant HandedBut(s, gs[i..], cost - consumed, fails) == goal
        invariant goods == old(goods)
      {
        assert gs[i..][0] == gs[i] && gs[i..][1..] == gs[i + 1..];
        s, consumed := HandOver(s, gs[i], cost, consumed, fails);
        i := i + 1;
      }
      goods := goods[gid := Swept(s)];
    }

    /** The same when every update takes effect. */
    method Consume(gid: string, cost: int) returns (consumed: int, gs: seq<Line>)
      modifies this`goods
      ensures IsPriceList(old(StockOf(goods, gid)), gs) && consumed == Spent(gs, cost)
      ensures goods == old(goods)[gid := Swept(Handed(old(StockOf(goods, gid)), gs, cost))]
    {
      hide IsPriceList, Value, Unpaid, Spent, Handed, HandedBut;
      ghost var s := StockOf(goods, gid);
      var none := (item: string, n: nat) => false;
      consumed, gs := ConsumeForCost(gid, cost, none);
      NoFailures(s, gs, cost, none);
    }

    /** Adds what is still owed to the player's debts. */
    method Owe(gid: string, creditor: string, text: string, owed: int, now: int, ts: int, emitted: bool) returns (booked: bool)
      modifies store
      ensures booked == (ObligationId(store.nodeId, old(store.onum) + 1) !in old(store.table))
      ensures Load(store.table, gid) == old(Load(store.table, gid)) + (if booked then owed else 0)
      ensures forall id :: id in old(store.table) ==> id in store.table && store.table[id] == old(store.table)[id]
      ensures var id, terms := ObligationId(store.nodeId, old(store.onum) + 1), Terms(creditor, gid, "debt", text);
              && store.table == (if booked then old(store.table)[id := Obligation(Row(store.nodeId, terms, owed, true), now)] else old(store.table))
              && store.events == old(store.events)
                 + if booked && emitted then [Event(store.nodeId, old(store.num) + 1, ts, DebtCreated(id, store.nodeId, terms, owed))] else []
    {
      hide Load, ObligationId, EventId;
      var terms := Terms(creditor, gid, "debt", text);
      var id := ObligationId(store.nodeId, store.onum + 1);
      if id !in store.table {
        LoadInsert(store.table, gid, id, Obligation(Row(store.nodeId, terms, owed, true), now));
      }
      booked := id !in store.table;
      var r := store.CreateObligation(now, ts, terms, owed, emitted);
    }

    /** Takes goods for a price and books what they do not cover: value lost and new debt make up the price, or nothing
        is owed and less than one unit is overpaid. */
    method Buy(gid: string, price: int, text: string, now: int, ts: int, emitted: bool)
      returns (owed: int, booked: bool)
      modifies this`goods, store
      ensures var lost := old(Value(StockOf(goods, gid))) - Value(StockOf(goods, gid));
              if old(Value(StockOf(goods, gid))) < price then
                && Value(StockOf(goods, gid)) == 0 && lost + owed == price
                && booked == (ObligationId(store.nodeId, old(store.onum) + 1) !in old(store.table))
                && (booked ==> Load(store.table, gid) == old(Load(store.table, gid)) + owed)
              else
                owed == 0 && store.View() == old(store.View()) && (if price <= 0 then lost == 0 else price <= lost <= price + 8)
      ensures booked ==>
                var id, terms := ObligationId(store.nodeId, old(store.onum) + 1), Terms("npc:npc_maren", gid, "debt", text);
                && store.table == old(store.table)[id := Obligation(Row(store.nodeId, terms, owed, true), now)]
                && (emitted ==>
                      store.events == old(store.events) + [Event(store.nodeId, old(store.num) + 1, ts, DebtCreated(id, store.nodeId, terms, owed))])
      ensures forall g :: g != gid ==> StockOf(goods, g) == old(StockOf(goods, g))
    {
      hide Value, Load, IsPriceList, Handed, Spent, Swept, Taken, ObligationId, EventId;
      ghost var s := StockOf(goods, gid);
      var consumed, gs := Consume(gid, price);
      ConsumeLaw(s, gs, price);
      owed, booked := 0, false;
      if consumed < price {
        owed := price - consumed;
        booked := Owe(gid, "npc:npc_maren", text, owed, now, ts, emitted);
      }
    }

    /** Mends a hurt player for 15, on the tab if the goods do not come to that. */
    method Bonesetter(gid: string, hp: int, maxHp: int, now: int, ts: int, emitted: bool)
      returns (hp': int, owed: int, booked: bool)
      modifies this`goods, store
      ensures hp >= maxHp ==> hp' == hp && owed == 0 && goods == old(goods) && store.View() == old(store.View())
      ensures hp < maxHp ==>
                && hp' == maxHp
                && var lost := old(Value(StockOf(goods, gid))) - Value(StockOf(goods, gid));
                if old(Value(StockOf(goods, gid))) < 15 then
                  && Value(StockOf(goods, gid)) == 0 && lost + owed == 15
                  && booked == (ObligationId(store.nodeId, old(store.onum) + 1) !in old(store.table))
                  && (booked ==> Load(store.table, gid) == old(Load(store.table, gid)) + owed)
                else
                  owed == 0 && store.View() == old(store.View()) && 15 <= lost <= 23
      ensures booked ==>
                var id := ObligationId(store.nodeId, old(store.onum) + 1);
                var terms := Terms("npc:npc_bonesetter", gid, "debt", "a mending from the Bonesetter");
                && store.table == old(store.table)[id := Obligation(Row(store.nodeId, terms, owed, true), now)]
                && (emitted ==>
                      store.events == old(store.events) + [Event(store.nodeId, old(store.num) + 1, ts, DebtCreated(id, store.nodeId, terms, owed))])
      ensures forall g :: g != gid ==> StockOf(goods, g) == old(StockOf(goods, g))
    {
      hide Value, Load, IsPriceList, Handed, Spent, Swept, Taken, ObligationId, EventId;
      hp', owed, booked := hp, 0, false;
      if hp >= maxHp {
        return;
      }
      ghost var s := StockOf(goods, gid);
      var val := GoodsValue(gid);
      if val >= 15 {
        var _, gs := Consume(gid, 15);
        ConsumeLaw(s, gs, 15);
      } else {
        var _, gs := Consume(gid, val);
        ConsumeLaw(s, gs, val);
        owed := 15 - val;
        booked := Owe(gid, "npc:npc_bonesetter", "a mending from the Bonesetter", owed, now, ts, emitted);
      }
      hp' := maxHp;
    }

    /** Pays debts with goods: whatever whole units come to, exactly the smaller of debt and goods is settled. */
    method PayDebt(gid: string, clock: nat -> int) returns (applied: int)
      modifies this`goods, store
      ensures old(PositiveOpen(store.table, gid)) ==>
                var debt, val := old(Load(store.table, gid)), old(Value(StockOf(goods, gid)));
                && applied == (if debt <= val then debt else val)
                && applied <= val - Value(StockOf(goods, gid)) <= applied + 8
                && (val <= debt ==> Value(StockOf(goods, gid)) == 0)
                && PositiveOpen(store.table, gid)
      ensures Load(store.table, gid) == old(Load(store.table, gid)) - applied
      ensures old(store.events) <= store.events && MirrorAll(old(store.table), store.events[|old(store.events)|..]) == store.table
    {
      hide Value, Load, IsPriceList, Handed, Spent, Swept, Taken, MirrorAll, PositiveOpen, PayAt, Settles, IsOpenList;
      var debt := store.DebtLoad(gid);
      if PositiveOpen(store.table, gid) {
        LoadNotNegative(store.table, gid);
      }
      applied := 0;
      if debt == 0 {
        NoEventsNoChange(store.table, store.events);
        return;
      }
      var val := GoodsValue(gid);
      if val == 0 {
        NoEventsNoChange(store.table, store.events);
        return;
      }
      var target := if val < debt then val else debt;
      ghost var s := StockOf(goods, gid);
      var consumed, gs := Consume(gid, target);
      ConsumeLaw(s, gs, target);
      var ok, debts;
      applied, ok, debts := store.PayDebt(gid, consumed, clock, Smooth);
    }
  }

  lemma NoEventsNoChange(t: Table, es: seq<Event>)
    ensures MirrorAll(t, es[|es|..]) == t
  {
  }

  lemma LoadNotNegative(t: Table, debtor: string)
    requires PositiveOpen(t, debtor)
    ensures Load(t, debtor) >= 0
    decreases |t|
  {
    if t != map[] {
      var id :| id in t;
      LoadSplit(t, debtor, id);
      LoadNotNegative(t - {id}, debtor);
    }
  }
}
