/**
 Loot across nodes.

 The victim's node takes goods out of the victim's stock and puts them into a pvp.resolved event; the attacker's home node adds them
 when it applies the event.  A request may be resolved any number of times.  For every good, what is held on all nodes plus
 what is in events not yet credited stays what it was, up to what is lost when a node stops between taking and emitting or a credit
 fails, and what doubles when it stops between crediting and marking or a taking fails unnoticed.
 */
module Loot {
  import opened Ids
  import opened Barter

  // ---- Taking ----

  /** A fraction between a quarter and a half. */
  predicate IsShare(p: int, q: int) {
    0 < q <= 4 * p && 2 * p <= q
  }

  /** qty * p / q rounded to the nearest whole number, halves up. */
  function Cut(qty: int, p: int, q: int): int
    requires q > 0
  {
    (2 * qty * p + q) / (2 * q)
  }

  lemma Monotone(a: int, b: int, q: int)
    requires a <= b && q >= 0
    ensures a * q <= b * q
  {
    assert (b - a) * q >= 0;
  }

  lemma DivAtMost(num: int, den: int, k: int)
    requires den > 0 && num < (k + 1) * den
    ensures num / den <= k
  {
    if num / den >= k + 1 {
      Monotone(k + 1, num / den, den);
    }
  }

  lemma DivAtLeast(num: int, den: int, k: int)
    requires den > 0 && k * den <= num
    ensures num / den >= k
  {
    if num / den + 1 <= k {
      Monotone(num / den + 1, k, den);
    }
  }

  lemma CutAtMostHalf(qty: int, p: int, q: int)
    requires IsShare(p, q) && qty >= 0
    ensures Cut(qty, p, q) <= (qty + 1) / 2
  {
    var half := (qty + 1) / 2;
    Monotone(2 * p, q, qty);
    Monotone(qty + 2, 2 * (half + 1), q);
    var a, b := 2 * p * qty, q * qty;
    assert 2 * qty * p == a;
    assert (qty + 2) * q == b + 2 * q;
    assert 2 * (half + 1) * q == (half + 1) * (2 * q);
    DivAtMost(a + q, 2 * q, half);
  }

  /** A cut is never more than half the stack, rounded up, and never negative; of two or more it is at least one. */
  lemma CutBounds(qty: int, p: int, q: int)
    requires IsShare(p, q) && qty >= 0
    ensures 0 <= Cut(qty, p, q) <= (qty + 1) / 2
    ensures qty >= 2 ==> Cut(qty, p, q) >= 1
  {
    CutAtMostHalf(qty, p, q);
    var num := 2 * qty * p + q;
    assert 2 * qty * p == (2 * p) * qty;
    Monotone(0, 2 * p, qty);
    DivAtLeast(num, 2 * q, 0);
    if qty >= 2 {
      Monotone(2, qty, 2 * p);
      assert qty * (2 * p) == 2 * qty * p;
      DivAtLeast(num, 2 * q, 1);
    }
  }

  /** What is taken from the listed goods: a cut of each stack, or one unit of the first if all cuts come to nothing. */
  function Cuts(gs: seq<Line>, p: int, q: int): (loot: seq<Line>)
    requires q > 0
  {
    if gs == [] then []
    else
      var n := Cut(gs[0].qty, p, q);
      (if n > 0 then [Line(gs[0].item, n)] else []) + Cuts(gs[1..], p, q)
  }

  function LootOf(gs: seq<Line>, p: int, q: int): seq<Line>
    requires q > 0
  {
    if gs == [] then [] else if Cuts(gs, p, q) == [] then [Line(gs[0].item, 1)] else Cuts(gs, p, q)
  }

  /** How much of a good a bundle holds; addGoods ignores what is not positive. */
  function Carried(loot: seq<Line>, item: string): nat {
    if loot == [] then 0
    else (if loot[0].item == item && loot[0].qty > 0 then loot[0].qty else 0) + Carried(loot[1..], item)
  }

  function Have(s: Stock, item: string): int {
    if item in s then s[item] else 0
  }

  function Less(s: Stock, l: Line): Stock {
    if l.item in s then s[l.item := s[l.item] - l.qty] else s
  }

  /** UPDATE inventory SET qty = qty - n, line by line. */
  function Without(s: Stock, loot: seq<Line>): Stock
    decreases |loot|
  {
    if loot == [] then s else Without(Less(s, loot[0]), loot[1..])
  }

  function More(s: Stock, l: Line): Stock {
    if l.qty <= 0 then s else s[l.item := Have(s, l.item) + l.qty]
  }

  /** addGoods, line by line. */
  function With(s: Stock, loot: seq<Line>): Stock
    decreases |loot|
  {
    if loot == [] then s else With(More(s, loot[0]), loot[1..])
  }

  ghost predicate Positive(s: Stock) {
    forall item :: item in s ==> s[item] > 0
  }

  /** What stealLoot lists: every good with something in it, once, in an order of its own. */
  ghost predicate IsGoodsList(s: Stock, gs: seq<Line>) {
    && (forall l :: l in gs <==> IsLine(s, l))
    && (forall i, j :: 0 <= i < j < |gs| ==> gs[i].item != gs[j].item)
  }

  lemma {:induction false} WithHas(s: Stock, loot: seq<Line>, item: string)
    ensures Have(With(s, loot), item) == Have(s, item) + Carried(loot, item)
    ensures Positive(s) ==> Positive(With(s, loot))
    decreases |loot|
  {
    if loot != [] {
      WithHas(More(s, loot[0]), loot[1..], item);
    }
  }

  lemma {:induction false} WithoutHas(s: Stock, loot: seq<Line>, item: string)
    requires forall i :: 0 <= i < |loot| ==> loot[i].item in s && loot[i].qty > 0
    ensures Have(Without(s, loot), item) == Have(s, item) - Carried(loot, item)
    ensures Without(s, loot).Keys == s.Keys
    decreases |loot|
  {
    if loot != [] {
      WithoutHas(Less(s, loot[0]), loot[1..], item);
    }
  }

  ghost predicate Distinct(gs: seq<Line>) {
    forall i, j :: 0 <= i < j < |gs| ==> gs[i].item != gs[j].item
  }

  lemma {:induction false} CarriedConcat(a: seq<Line>, b: seq<Line>, item: string)
    ensures Carried(a + b, item) == Carried(a, item) + Carried(b, item)
  {
    if a == [] {
      assert a + b == b;
    } else {
      assert (a + b)[1..] == a[1..] + b;
      CarriedConcat(a[1..], b, item);
    }
  }

  /** Each listed good gives its cut, and nothing else is taken. */
  lemma {:induction false} CutsCarry(gs: seq<Line>, p: int, q: int, item: string)
    requires IsShare(p, q) && Distinct(gs) && forall i :: 0 <= i < |gs| ==> gs[i].qty > 0
    ensures (forall i :: 0 <= i < |gs| ==> gs[i].item != item) ==> Carried(Cuts(gs, p, q), item) == 0
    ensures forall i :: 0 <= i < |gs| && gs[i].item == item ==> Carried(Cuts(gs, p, q), item) == Cut(gs[i].qty, p, q)
  {
    hide Cut;
    if gs != [] {
      var n := Cut(gs[0].qty, p, q);
      CutBounds(gs[0].qty, p, q);
      var first := if n > 0 then [Line(gs[0].item, n)] else [];
      CutsCarry(gs[1..], p, q, item);
      CarriedConcat(first, Cuts(gs[1..], p, q), item);
      assert Carried(first, item) == if gs[0].item == item then n else 0;
      forall i | 0 <= i < |gs| && gs[i].item == item ensures Carried(Cuts(gs, p, q), item) == Cut(gs[i].qty, p, q) {
        if i > 0 {
          assert gs[1..][i - 1].item == item;
        } else {
          assert forall j :: 0 <= j < |gs[1..]| ==> gs[1..][j].item == gs[j + 1].item != item;
        }
      }
    }
  }

  lemma {:induction false} CutsLines(gs: seq<Line>, p: int, q: int, k: nat)
    requires q > 0 && k < |Cuts(gs, p, q)|
    ensures Cuts(gs, p, q)[k].qty > 0 && exists i :: 0 <= i < |gs| && gs[i].item == Cuts(gs, p, q)[k].item
  {
    hide Cut;
    var n := Cut(gs[0].qty, p, q);
    if n > 0 && k == 0 {
      assert gs[0].item == Cuts(gs, p, q)[0].item;
    } else {
      var j := if n > 0 then k - 1 else k;
      CutsLines(gs[1..], p, q, j);
      var i :| 0 <= i < |gs[1..]| && gs[1..][i].item == Cuts(gs[1..], p, q)[j].item;
      assert gs[i + 1].item == Cuts(gs, p, q)[k].item;
    }
  }

  lemma GoodsListLines(s: Stock, gs: seq<Line>)
    requires IsGoodsList(s, gs)
    ensures Distinct(gs) && forall i :: 0 <= i < |gs| ==> IsLine(s, gs[i])
  {
    assert forall i :: 0 <= i < |gs| ==> gs[i] in gs;
  }

  lemma LootLines(s: Stock, gs: seq<Line>, p: int, q: int)
    requires IsShare(p, q) && IsGoodsList(s, gs)
    ensures var loot := LootOf(gs, p, q); forall k :: 0 <= k < |loot| ==> loot[k].item in s && loot[k].qty > 0
  {
    GoodsListLines(s, gs);
    var loot := LootOf(gs, p, q);
    forall k | 0 <= k < |loot| ensures loot[k].item in s && loot[k].qty > 0 {
      if Cuts(gs, p, q) != [] {
        CutsLines(gs, p, q, k);
      }
    }
  }

  /** A theft takes something from a victim who has something, at most half of each stack rounded up, and what the victim is left
      with and what is carried off make up what the victim had. */
  lemma StealLaw(s: Stock, gs: seq<Line>, p: int, q: int, item: string)
    requires IsShare(p, q) && Positive(s) && IsGoodsList(s, gs)
    ensures var loot := LootOf(gs, p, q);
            var t := Swept(Without(s, loot));
            && (s != map[] ==> loot != [] && loot[0].qty >= 1 && Carried(loot, loot[0].item) >= 1)
            && Carried(loot, item) <= (Have(s, item) + 1) / 2
            && Have(t, item) == Have(s, item) - Carried(loot, item)
            && Positive(t)
  {
    hide Cut, Cuts;
    var loot := LootOf(gs, p, q);
    LootLines(s, gs, p, q);
    WithoutHas(s, loot, item);
    GoodsListLines(s, gs);
    CutsCarry(gs, p, q, item);
    if s != map[] {
      var any :| any in s;
      assert IsLine(s, Line(any, s[any]));
      assert Line(any, s[any]) in gs;
    }
    if i :| 0 <= i < |gs| && gs[i].item == item {
      CutBounds(gs[i].qty, p, q);
    }
    assert gs != [] && Cuts(gs, p, q) == [] ==> loot[1..] == [];
  }

  /** A cut is the nearest whole number, halves up. */
  lemma CutIsNearest(qty: int, p: int, q: int)
    requires q > 0
    ensures var c := Cut(qty, p, q); 2 * q * c <= 2 * qty * p + q < 2 * q * (c + 1)
  {
    var num, den := 2 * qty * p + q, 2 * q;
    assert num == den * (num / den) + num % den;
    assert den * (num / den + 1) == den * (num / den) + den;
  }

  /** Of each good the loot has its stack times the fraction, to the nearest unit; unless that is nothing of every good, and then it
      is one unit of the first. */
  lemma LootExact(gs: seq<Line>, p: int, q: int, i: nat)
    requires IsShare(p, q) && Distinct(gs) && (forall j :: 0 <= j < |gs| ==> gs[j].qty > 0) && i < |gs|
    ensures if exists j :: 0 <= j < |gs| && 2 * gs[j].qty * p + q >= 2 * q then
              var c := Carried(LootOf(gs, p, q), gs[i].item); 2 * q * c <= 2 * gs[i].qty * p + q < 2 * q * (c + 1)
            else LootOf(gs, p, q) == [Line(gs[0].item, 1)]
  {
    hide Cut;
    if j :| 0 <= j < |gs| && 2 * gs[j].qty * p + q >= 2 * q {
      GivesAUnit(gs[j].qty, p, q);
      CutsCarry(gs, p, q, gs[j].item);
      CutsCarry(gs, p, q, gs[i].item);
      CutIsNearest(gs[i].qty, p, q);
    } else {
      if Cuts(gs, p, q) != [] {
        CutsFrom(gs, p, q, 0);
        var j :| 0 <= j < |gs| && Cut(gs[j].qty, p, q) > 0;
        NoUnit(gs[j].qty, p, q);
      }
    }
  }

  lemma GivesAUnit(qty: int, p: int, q: int)
    requires q > 0 && 2 * qty * p + q >= 2 * q
    ensures Cut(qty, p, q) > 0
  {
    DivAtLeast(2 * qty * p + q, 2 * q, 1);
  }

  lemma NoUnit(qty: int, p: int, q: int)
    requires q > 0 && 2 * qty * p + q < 2 * q
    ensures Cut(qty, p, q) <= 0
  {
    DivAtMost(2 * qty * p + q, 2 * q, 0);
  }

  lemma {:induction false} CutsFrom(gs: seq<Line>, p: int, q: int, k: nat)
    requires q > 0 && k < |Cuts(gs, p, q)|
    ensures exists i :: 0 <= i < |gs| && Cut(gs[i].qty, p, q) > 0
  {
    hide Cut;
    var n := Cut(gs[0].qty, p, q);
    if n <= 0 {
      CutsFrom(gs[1..], p, q, k);
      var i :| 0 <= i < |gs[1..]| && Cut(gs[1..][i].qty, p, q) > 0;
      assert Cut(gs[i + 1].qty, p, q) > 0;
    }
  }

  // ---- The federation's goods ----

  /** A pvp.resolved event. */
  datatype Fight = Fight(source: NodeId, request: string, attacker: string, victim: string, won: bool, loot: seq<Line>)

  /** Stocks by node and player, the events in the order they were emitted, and which node has marked which of them applied.
      `lost` and `doubled` are history. */
  datatype Spoils = Spoils(
    nodes: set<NodeId>,
    goods: map<(NodeId, string), Stock>,
    fights: seq<Fight>,
    marks: set<(NodeId, nat)>,
    lost: seq<Line>,
    doubled: seq<Line>)

  datatype Raid =
    | Resolve(n: NodeId, request: string, attacker: string, victim: string, won: bool, gs: seq<Line>, p: int, q: int, hit: seq<bool>,
              emitted: bool)
    | Credit(n: NodeId, i: nat, ok: seq<bool>, marked: bool)
    | LocalFight(n: NodeId, request: string, attacker: string, victim: string, won: bool, gs: seq<Line>, p: int, q: int, hit: seq<bool>,
                 ok: seq<bool>)

  function StockAt(goods: map<(NodeId, string), Stock>, k: (NodeId, string)): Stock {
    if k in goods then goods[k] else map[]
  }

  predicate StartsWith(s: string, prefix: string) {
    |prefix| <= |s| && s[..|prefix|] == prefix
  }

  /** Requests the hub made: neither empty nor the mark of a fight within one node. */
  predicate FromHub(request: string) {
    request != "" && !StartsWith(request, "local:")
  }

  /** The guard of the crediting handler. */
  predicate Pays(f: Fight, n: NodeId) {
    FromHub(f.request) && StartsWith(f.attacker, n + ":")
  }

  /** The lines whose insert succeeded, and the others. */
  function Kept(loot: seq<Line>, ok: seq<bool>): seq<Line>
    requires |ok| == |loot|
  {
    if loot == [] then [] else (if ok[0] then [loot[0]] else []) + Kept(loot[1..], ok[1..])
  }

  function Missed(loot: seq<Line>, ok: seq<bool>): seq<Line>
    requires |ok| == |loot|
  {
    if loot == [] then [] else (if ok[0] then [] else [loot[0]]) + Missed(loot[1..], ok[1..])
  }

  function Stolen(won: bool, gs: seq<Line>, p: int, q: int): seq<Line>
    requires q > 0
  {
    if won then LootOf(gs, p, q) else []
  }

  ghost predicate CanRaid(w: Spoils, r: Raid) {
    match r
    case Resolve(n, request, _, victim, won, gs, p, q, hit, _) =>
      n in w.nodes && FromHub(request) && IsShare(p, q) && IsGoodsList(StockAt(w.goods, (n, victim)), gs) && |hit| == |Stolen(won, gs, p, q)|
    case Credit(n, i, ok, _) =>
      n in w.nodes && i < |w.fights| && w.fights[i].source != n && (n, i) !in w.marks && |ok| == |w.fights[i].loot|
    case LocalFight(n, request, _, victim, won, gs, p, q, hit, ok) =>
      n in w.nodes && StartsWith(request, "local:") && IsShare(p, q) && IsGoodsList(StockAt(w.goods, (n, victim)), gs)
      && |hit| == |ok| == |Stolen(won, gs, p, q)|
  }

  function Robbed(goods: map<(NodeId, string), Stock>, k: (NodeId, string), loot: seq<Line>): map<(NodeId, string), Stock> {
    goods[k := Swept(Without(StockAt(goods, k), loot))]
  }

  function Given(goods: map<(NodeId, string), Stock>, k: (NodeId, string), loot: seq<Line>): map<(NodeId, string), Stock> {
    goods[k := With(StockAt(goods, k), loot)]
  }

  ghost function DoRaid(w: Spoils, r: Raid): Spoils
    requires CanRaid(w, r)
  {
    match r
    case Resolve(n, request, attacker, victim, won, gs, p, q, hit, emitted) =>
      var loot := Stolen(won, gs, p, q);
      var w1 := if won then w.(goods := Robbed(w.goods, (n, victim), Kept(loot, hit)), doubled := w.doubled + Missed(loot, hit)) else w;
      if emitted then w1.(fights := w.fights + [Fight(n, request, attacker, victim, won, loot)]) else w1.(lost := w.lost + loot)
    case Credit(n, i, ok, marked) =>
      var f := w.fights[i];
      var w1 := if marked then w.(marks := w.marks + {(n, i)}) else w;
      if !Pays(f, n) then w1
      else
        var w2 := w1.(goods := Given(w.goods, (n, f.attacker), Kept(f.loot, ok)));
        if marked then w2.(lost := w.lost + Missed(f.loot, ok)) else w2.(doubled := w.doubled + Kept(f.loot, ok))
    case LocalFight(n, request, attacker, victim, won, gs, p, q, hit, ok) =>
      var loot := Stolen(won, gs, p, q);
      var w1 := if won then w.(goods := Given(Robbed(w.goods, (n, victim), Kept(loot, hit)), (n, attacker), Kept(loot, ok)),
                               doubled := w.doubled + Missed(loot, hit), lost := w.lost + Missed(loot, ok))
                else w;
      w1.(fights := w.fights + [Fight(n, request, attacker, victim, won, loot)])
  }

  // ---- Counting ----

  ghost function Held(goods: map<(NodeId, string), Stock>, item: string): int
    decreases |goods|
  {
    if goods == map[] then 0
    else
      var k :| k in goods;
      Have(goods[k], item) + Held(goods - {k}, item)
  }

  lemma {:induction false} HeldSplit(goods: map<(NodeId, string), Stock>, k: (NodeId, string), item: string)
    requires k in goods
    ensures Held(goods, item) == Have(goods[k], item) + Held(goods - {k}, item)
    decreases |goods|
  {
    hide Have;
    var j :| j in goods && Held(goods, item) == Have(goods[j], item) + Held(goods - {j}, item);
    if j != k {
      var a, b := goods - {j}, goods - {k};
      HeldSplit(a, k, item);
      HeldSplit(b, j, item);
      assert a - {k} == b - {j};
      assert Held(a, item) == Have(a[k], item) + Held(a - {k}, item);
      assert Held(b, item) == Have(b[j], item) + Held(b - {j}, item);
    }
  }

  lemma HeldUpdate(goods: map<(NodeId, string), Stock>, k: (NodeId, string), s: Stock, item: string)
    ensures Held(goods[k := s], item) == Held(goods, item) - Have(StockAt(goods, k), item) + Have(s, item)
  {
    hide Held;
    var g := goods[k := s];
    HeldSplit(g, k, item);
    if k in goods {
      HeldSplit(goods, k, item);
      assert g - {k} == goods - {k};
    } else {
      assert g - {k} == goods;
    }
  }

  predicate Credited(f: Fight, i: nat, marks: set<(NodeId, nat)>) {
    (RefNode(f.attacker), i) in marks
  }

  /** Loot on its way: in events of hub requests that the attacker's home node has not marked. */
  function Transit(fights: seq<Fight>, marks: set<(NodeId, nat)>, item: string): nat {
    if fights == [] then 0
    else
      var k := |fights| - 1;
      Transit(fights[..k], marks, item)
      + if FromHub(fights[k].request) && !Credited(fights[k], k, marks) then Carried(fights[k].loot, item) else 0
  }

  lemma {:induction false} TransitMark(fights: seq<Fight>, marks: set<(NodeId, nat)>, n: NodeId, i: nat, item: string)
    requires i < |fights| && (n, i) !in marks
    ensures Transit(fights, marks + {(n, i)}, item) ==
            Transit(fights, marks, item) -
            (if FromHub(fights[i].request) && RefNode(fights[i].attacker) == n then Carried(fights[i].loot, item) else 0)
  {
    hide RefNode, FromHub;
    var k := |fights| - 1;
    if i < k {
      TransitMark(fights[..k], marks, n, i, item);
    } else {
      TransitUnmarked(fights[..k], marks, n, i, item);
    }
  }

  lemma {:induction false} TransitUnmarked(fights: seq<Fight>, marks: set<(NodeId, nat)>, n: NodeId, i: nat, item: string)
    requires i >= |fights|
    ensures Transit(fights, marks + {(n, i)}, item) == Transit(fights, marks, item)
  {
    hide RefNode, FromHub;
    if fights != [] {
      TransitUnmarked(fights[..|fights| - 1], marks, n, i, item);
    }
  }

  lemma {:induction false} KeptAndMissed(loot: seq<Line>, ok: seq<bool>, item: string)
    requires |ok| == |loot|
    ensures Carried(Kept(loot, ok), item) + Carried(Missed(loot, ok), item) == Carried(loot, item)
  {
    if loot != [] {
      KeptAndMissed(loot[1..], ok[1..], item);
      var a := if ok[0] then [loot[0]] else [];
      var b := if ok[0] then [] else [loot[0]];
      CarriedConcat(a, Kept(loot[1..], ok[1..]), item);
      CarriedConcat(b, Missed(loot[1..], ok[1..]), item);
    }
  }

  /** What is kept of each good is its line if the line's insert succeeded, and nothing otherwise. */
  lemma {:induction false} KeptExactly(loot: seq<Line>, ok: seq<bool>, i: nat)
    requires |ok| == |loot| && i < |loot| && Distinct(loot) && forall j :: 0 <= j < |loot| ==> loot[j].qty > 0
    ensures Carried(Kept(loot, ok), loot[i].item) == if ok[i] then loot[i].qty else 0
  {
    var first := if ok[0] then [loot[0]] else [];
    CarriedConcat(first, Kept(loot[1..], ok[1..]), loot[i].item);
    if i > 0 {
      KeptExactly(loot[1..], ok[1..], i - 1);
    } else {
      NotKept(loot[1..], ok[1..], loot[0].item);
    }
  }

  lemma {:induction false} NotKept(loot: seq<Line>, ok: seq<bool>, item: string)
    requires |ok| == |loot| && forall j :: 0 <= j < |loot| ==> loot[j].item != item
    ensures Carried(Kept(loot, ok), item) == 0
  {
    if loot != [] {
      var first := if ok[0] then [loot[0]] else [];
      CarriedConcat(first, Kept(loot[1..], ok[1..]), item);
      NotKept(loot[1..], ok[1..], item);
    }
  }

  // ---- The law ----

  ghost predicate GoodsOk(w: Spoils) {
    && (forall n :: n in w.nodes ==> n != "" && ':' !in n)
    && (forall k :: k in w.goods ==> Positive(w.goods[k]))
    && (forall n, i :: (n, i) in w.marks ==> i < |w.fights|)
  }

  /** Everything there is of a good, corrected for what was lost and what doubled. */
  ghost function Books(w: Spoils, item: string): int {
    Held(w.goods, item) + Transit(w.fights, w.marks, item) + Carried(w.lost, item) - Carried(w.doubled, item)
  }

  /** Only the node in the attacker's id credits. */
  lemma OneHome(attacker: string, n: NodeId)
    requires n != "" && ':' !in n
    ensures StartsWith(attacker, n + ":") <==> RefNode(attacker) == n
  {
    if StartsWith(attacker, n + ":") {
      var rest := attacker[|n| + 1..];
      assert attacker == n + ":" + rest;
      RefNodeOfPlayer(n, rest);
    }
  }

  lemma StockPositive(w: Spoils, k: (NodeId, string))
    requires GoodsOk(w)
    ensures Positive(StockAt(w.goods, k))
  {
  }

  lemma {:induction false} WithPositive(s: Stock, loot: seq<Line>)
    requires Positive(s)
    ensures Positive(With(s, loot))
    decreases |loot|
  {
    if loot != [] {
      WithPositive(More(s, loot[0]), loot[1..]);
    }
  }

  lemma TransitGrows(fights: seq<Fight>, marks: set<(NodeId, nat)>, f: Fight, item: string)
    requires forall n, i :: (n, i) in marks ==> i < |fights|
    ensures Transit(fights + [f], marks, item) == Transit(fights, marks, item) + if FromHub(f.request) then Carried(f.loot, item) else 0
  {
    hide FromHub, RefNode;
    assert (fights + [f])[..|fights|] == fights;
  }

  /** A line of goods that are there. */
  predicate IsOf(s: Stock, l: Line) {
    l.item in s && l.qty > 0
  }

  lemma {:induction false} KeptLines(s: Stock, loot: seq<Line>, ok: seq<bool>)
    requires |ok| == |loot| && forall l :: l in loot ==> IsOf(s, l)
    ensures forall l :: l in Kept(loot, ok) ==> IsOf(s, l)
  {
    if loot != [] {
      assert loot == [loot[0]] + loot[1..];
      KeptLines(s, loot[1..], ok[1..]);
    }
  }

  /** Taking only the lines whose statement succeeds. */
  lemma KeptLaw(s: Stock, gs: seq<Line>, p: int, q: int, ok: seq<bool>, item: string)
    requires IsShare(p, q) && Positive(s) && IsGoodsList(s, gs) && |ok| == |LootOf(gs, p, q)|
    ensures var kept := Kept(LootOf(gs, p, q), ok);
            var t := Swept(Without(s, kept));
            Have(t, item) == Have(s, item) - Carried(kept, item) && Positive(t)
  {
    hide LootOf, Without, Carried, IsGoodsList, Kept, Missed;
    var loot := LootOf(gs, p, q);
    var kept := Kept(loot, ok);
    LootLines(s, gs, p, q);
    assert forall l :: l in loot ==> IsOf(s, l);
    KeptLines(s, loot, ok);
    assert forall k :: 0 <= k < |kept| ==> kept[k] in kept;
    WithoutHas(s, kept, item);
    KeptAndMissed(loot, ok, item);
    StealLaw(s, gs, p, q, item);
  }

  lemma RobbedHeld(w: Spoils, k: (NodeId, string), gs: seq<Line>, p: int, q: int, hit: seq<bool>, item: string)
    requires GoodsOk(w) && IsShare(p, q) && IsGoodsList(StockAt(w.goods, k), gs) && |hit| == |LootOf(gs, p, q)|
    ensures var kept := Kept(LootOf(gs, p, q), hit);
            var goods := Robbed(w.goods, k, kept);
            && Held(goods, item) == Held(w.goods, item) - Carried(kept, item)
            && forall j :: j in goods ==> Positive(goods[j])
  {
    hide Held, LootOf, Without, IsGoodsList, Kept, Carried;
    var s, kept := StockAt(w.goods, k), Kept(LootOf(gs, p, q), hit);
    StockPositive(w, k);
    KeptLaw(s, gs, p, q, hit, item);
    HeldUpdate(w.goods, k, Swept(Without(s, kept)), item);
  }

  lemma GivenHeld(goods: map<(NodeId, string), Stock>, k: (NodeId, string), loot: seq<Line>, item: string)
    requires forall j :: j in goods ==> Positive(goods[j])
    ensures Held(Given(goods, k, loot), item) == Held(goods, item) + Carried(loot, item)
    ensures forall j :: j in Given(goods, k, loot) ==> Positive(Given(goods, k, loot)[j])
  {
    hide Held, With;
    var s := StockAt(goods, k);
    WithHas(s, loot, item);
    WithPositive(s, loot);
    HeldUpdate(goods, k, With(s, loot), item);
  }

  lemma ResolveBalances(w: Spoils, r: Raid, item: string)
    requires GoodsOk(w) && r.Resolve? && CanRaid(w, r)
    ensures GoodsOk(DoRaid(w, r)) && Books(DoRaid(w, r), item) == Books(w, item)
  {
    hide Held, Transit, LootOf, IsGoodsList, Robbed, FromHub, Kept, Missed, Carried;
    var Resolve(n, request, attacker, victim, won, gs, p, q, hit, emitted) := r;
    var loot := Stolen(won, gs, p, q);
    if won {
      RobbedHeld(w, (n, victim), gs, p, q, hit, item);
      KeptAndMissed(loot, hit, item);
      CarriedConcat(w.doubled, Missed(loot, hit), item);
    } else {
      assert Carried(loot, item) == 0 by { CarriesNothing(item); }
    }
    if emitted {
      TransitGrows(w.fights, w.marks, Fight(n, request, attacker, victim, won, loot), item);
    } else {
      CarriedConcat(w.lost, loot, item);
    }
  }

  lemma CarriesNothing(item: string)
    ensures Carried([], item) == 0
  {
  }

  lemma CreditBalances(w: Spoils, r: Raid, item: string)
    requires GoodsOk(w) && r.Credit? && CanRaid(w, r)
    ensures GoodsOk(DoRaid(w, r)) && Books(DoRaid(w, r), item) == Books(w, item)
  {
    hide Held, Transit, Given, FromHub, RefNode, StartsWith;
    var Credit(n, i, ok, marked) := r;
    var f := w.fights[i];
    OneHome(f.attacker, n);
    if marked {
      TransitMark(w.fights, w.marks, n, i, item);
    }
    if Pays(f, n) {
      var kept, missed := Kept(f.loot, ok), Missed(f.loot, ok);
      KeptAndMissed(f.loot, ok, item);
      GivenHeld(w.goods, (n, f.attacker), kept, item);
      CarriedConcat(w.lost, missed, item);
      CarriedConcat(w.doubled, kept, item);
    }
  }

  lemma LocalBalances(w: Spoils, r: Raid, item: string)
    requires GoodsOk(w) && r.LocalFight? && CanRaid(w, r)
    ensures GoodsOk(DoRaid(w, r)) && Books(DoRaid(w, r), item) == Books(w, item)
  {
    assert !FromHub(r.request);
    hide Held, Transit, LootOf, IsGoodsList, Robbed, Given, FromHub, Kept, Missed, Carried;
    var LocalFight(n, request, attacker, victim, won, gs, p, q, hit, ok) := r;
    var loot := Stolen(won, gs, p, q);
    if won {
      RobbedHeld(w, (n, victim), gs, p, q, hit, item);
      GivenHeld(Robbed(w.goods, (n, victim), Kept(loot, hit)), (n, attacker), Kept(loot, ok), item);
      KeptAndMissed(loot, hit, item);
      KeptAndMissed(loot, ok, item);
      CarriedConcat(w.doubled, Missed(loot, hit), item);
      CarriedConcat(w.lost, Missed(loot, ok), item);
    }
    TransitGrows(w.fights, w.marks, Fight(n, request, attacker, victim, won, loot), item);
  }

  /** Loot on its way can be credited exactly when the attacker's home is a node other than the one that emitted the event: a node never
      pulls its own events.  Crediting it in one step takes it out of transit. */
  lemma CreditableIff(w: Spoils, i: nat, ok: seq<bool>)
    requires GoodsOk(w) && i < |w.fights| && FromHub(w.fights[i].request) && |ok| == |w.fights[i].loot|
    requires !Credited(w.fights[i], i, w.marks)
    ensures var f := w.fights[i];
            && ((exists n :: CanRaid(w, Credit(n, i, ok, true)) && Pays(f, n)) <==>
                  RefNode(f.attacker) in w.nodes && RefNode(f.attacker) != f.source)
            && forall n, item :: CanRaid(w, Credit(n, i, ok, true)) && Pays(f, n) ==>
                 Transit(w.fights, DoRaid(w, Credit(n, i, ok, true)).marks, item)
                 == Transit(w.fights, w.marks, item) - Carried(f.loot, item)
  {
    hide Transit, StartsWith, RefNode, FromHub, Given;
    var f := w.fights[i];
    var home := RefNode(f.attacker);
    forall n | n in w.nodes ensures Pays(f, n) <==> home == n {
      OneHome(f.attacker, n);
    }
    if home in w.nodes && home != f.source {
      assert CanRaid(w, Credit(home, i, ok, true));
    }
    forall n, item | CanRaid(w, Credit(n, i, ok, true)) && Pays(f, n)
      ensures Transit(w.fights, DoRaid(w, Credit(n, i, ok, true)).marks, item) == Transit(w.fights, w.marks, item) - Carried(f.loot, item)
    {
      TransitMark(w.fights, w.marks, n, i, item);
    }
  }

  // ---- Runs ----

  ghost predicate Raids(w: Spoils, rs: seq<Raid>)
    decreases |rs|
  {
    rs == [] || (CanRaid(w, rs[0]) && Raids(DoRaid(w, rs[0]), rs[1..]))
  }

  ghost function Aftermath(w: Spoils, rs: seq<Raid>): Spoils
    requires Raids(w, rs)
    decreases |rs|
  {
    if rs == [] then w else Aftermath(DoRaid(w, rs[0]), rs[1..])
  }

  /** Over every run, for every good: held on all nodes, in transit and lost make up what was there and what doubled. */
  lemma {:induction false} BooksBalance(w: Spoils, rs: seq<Raid>, item: string)
    requires GoodsOk(w) && Raids(w, rs)
    ensures GoodsOk(Aftermath(w, rs)) && Books(Aftermath(w, rs), item) == Books(w, item)
    decreases |rs|
  {
    hide GoodsOk, Books, CanRaid, DoRaid;
    if rs != [] {
      var r := rs[0];
      if r.Resolve? {
        ResolveBalances(w, r, item);
      } else if r.Credit? {
        CreditBalances(w, r, item);
      } else {
        LocalBalances(w, r, item);
      }
      BooksBalance(DoRaid(w, r), rs[1..], item);
    }
  }

  /** Taking and emitting is one step, crediting and marking is one step, and inserts succeed. */
  predicate AllOk(ok: seq<bool>) {
    forall k :: 0 <= k < |ok| ==> ok[k]
  }

  predicate Smooth(r: Raid) {
    match r
    case Resolve(_, _, _, _, _, _, _, _, hit, emitted) => emitted && AllOk(hit)
    case Credit(_, _, ok, marked) => marked && AllOk(ok)
    case LocalFight(_, _, _, _, _, _, _, _, hit, ok) => AllOk(hit) && AllOk(ok)
  }

  lemma {:induction false} NothingMissed(loot: seq<Line>, ok: seq<bool>)
    requires |ok| == |loot| && AllOk(ok)
    ensures Missed(loot, ok) == [] && Kept(loot, ok) == loot
  {
    if loot != [] {
      NothingMissed(loot[1..], ok[1..]);
    }
  }

  lemma {:induction false} SmoothLosesNothing(w: Spoils, rs: seq<Raid>)
    requires Raids(w, rs) && forall i :: 0 <= i < |rs| ==> Smooth(rs[i])
    ensures Aftermath(w, rs).lost == w.lost && Aftermath(w, rs).doubled == w.doubled
    decreases |rs|
  {
    hide CanRaid, DoRaid;
    if rs != [] {
      assert Smooth(rs[0]);
      SmoothStep(w, rs[0]);
      SmoothLosesNothing(DoRaid(w, rs[0]), rs[1..]);
    }
  }

  lemma SmoothStep(w: Spoils, r: Raid)
    requires CanRaid(w, r) && Smooth(r)
    ensures DoRaid(w, r).lost == w.lost && DoRaid(w, r).doubled == w.doubled
  {
    hide Robbed, Given, LootOf, Stolen, FromHub, StartsWith, IsGoodsList;
    if r.Credit? {
      NothingMissed(w.fights[r.i].loot, r.ok);
    } else {
      NothingMissed(Stolen(r.won, r.gs, r.p, r.q), r.hit);
      if r.LocalFight? {
        NothingMissed(Stolen(r.won, r.gs, r.p, r.q), r.ok);
      }
    }
  }

  /** Conservation: when no step is cut in two, what is held on all nodes plus what is in events not yet credited at the attacker's
      home stays the same for every good, even if a request is resolved twice. */
  lemma LootIsConserved(w: Spoils, rs: seq<Raid>, item: string)
    requires GoodsOk(w) && Raids(w, rs) && forall i :: 0 <= i < |rs| ==> Smooth(rs[i])
    ensures var w' := Aftermath(w, rs);
            Held(w'.goods, item) + Transit(w'.fights, w'.marks, item) == Held(w.goods, item) + Transit(w.fights, w.marks, item)
  {
    hide GoodsOk, Held, Transit, Raids, Aftermath;
    BooksBalance(w, rs, item);
    SmoothLosesNothing(w, rs);
  }
}
