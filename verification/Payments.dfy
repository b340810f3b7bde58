/**
 Paying debts, oldest first.

 A payment goes through the debtor's open obligations in list order; what it covers it resolves, and what is left
 comes off the next one.  The list order is total, so the payment is a function of the table.
 */
module Payments {
  import opened Ids
  import opened Events
  import opened Ledger
  import opened Protocol
  import opened Weights
  import Ticks

  /** A row of the obligations table with its key. */
  datatype Debt = Debt(id: string, ob: Obligation) {
    function Weight(): int { ob.row.weight }
  }

  // ---- The list order ----

  /** Text order, character by character. */
  predicate Below(a: string, b: string) {
    b != [] && (a == [] || a[0] < b[0] || (a[0] == b[0] && Below(a[1..], b[1..])))
  }

  lemma {:induction false} BelowTotal(a: string, b: string)
    ensures a == b || Below(a, b) || Below(b, a)
    ensures !(Below(a, b) && Below(b, a)) && !Below(a, a)
    decreases |a|
  {
    if a != [] {
      BelowTotal(a[1..], a[1..]);
      if b != [] {
        BelowTotal(a[1..], b[1..]);
        assert a == [a[0]] + a[1..] && b == [b[0]] + b[1..];
      }
    }
  }

  lemma {:induction false} BelowTransitive(a: string, b: string, c: string)
    requires Below(a, b) && Below(b, c)
    ensures Below(a, c)
    decreases |a|
  {
    if a != [] && a[0] == b[0] && b[0] == c[0] {
      BelowTransitive(a[1..], b[1..], c[1..]);
    }
  }

  /** ORDER BY created_at, obligation_id. */
  predicate Before(a: Debt, b: Debt) {
    a.ob.createdAt < b.ob.createdAt || (a.ob.createdAt == b.ob.createdAt && Below(a.id, b.id))
  }

  lemma BeforeOrder(a: Debt, b: Debt, c: Debt)
    ensures a.id == b.id || Before(a, b) || Before(b, a)
    ensures !(Before(a, b) && Before(b, a)) && !Before(a, a)
    ensures Before(a, b) && Before(b, c) ==> Before(a, c)
  {
    BelowTotal(a.id, b.id);
    BelowTotal(a.id, a.id);
    if Below(a.id, b.id) && Below(b.id, c.id) {
      BelowTransitive(a.id, b.id, c.id);
    }
  }

  ghost predicate Ordered(l: seq<Debt>) {
    forall i, j :: 0 <= i < j < |l| ==> Before(l[i], l[j])
  }

  ghost predicate IsOpenDebt(t: Table, debtor: string, d: Debt) {
    d.id in t && t[d.id] == d.ob && d.ob.row.open && d.ob.row.terms.debtor == debtor
  }

  /** What OpenDebts returns: the debtor's open obligations, all of them, in order. */
  ghost predicate IsOpenList(t: Table, debtor: string, l: seq<Debt>) {
    Ordered(l) && forall d :: d in l <==> IsOpenDebt(t, debtor, d)
  }

  /** There is only one such list: ties in age are broken by the id. */
  lemma OpenListUnique(t: Table, debtor: string, l: seq<Debt>, m: seq<Debt>)
    requires IsOpenList(t, debtor, l) && IsOpenList(t, debtor, m)
    ensures l == m
  {
    SameElements(l, m);
  }

  /** Text order means: a shorter beginning comes first, and otherwise the first character that differs decides. */
  lemma {:induction false} BelowMeaning(a: string, b: string)
    ensures Below(a, b) <==>
              || (a < b)
              || exists k :: 0 <= k < |a| && k < |b| && a[..k] == b[..k] && a[k] < b[k]
  {
    if a != [] && b != [] && a[0] == b[0] {
      var x, y := a[1..], b[1..];
      BelowMeaning(x, y);
      assert a == [a[0]] + x && b == [b[0]] + y;
      if k :| 0 <= k < |x| && k < |y| && x[..k] == y[..k] && x[k] < y[k] {
        assert a[..k + 1] == [a[0]] + x[..k] && b[..k + 1] == [b[0]] + y[..k];
        assert a[k + 1] < b[k + 1];
      }
      if k :| 0 <= k < |a| && k < |b| && a[..k] == b[..k] && a[k] < b[k] {
        assert a[..k][0] == a[0] || k == 0;
        assert x[..k - 1] == a[..k][1..] && y[..k - 1] == b[..k][1..];
        assert x[k - 1] < y[k - 1];
      }
    } else if a != [] && b != [] {
      if a[0] < b[0] {
        assert a[..0] == b[..0];
      }
      if k :| 0 <= k < |a| && k < |b| && a[..k] == b[..k] && a[k] < b[k] {
        if k > 0 {
          assert a[..k][0] == b[..k][0];
        }
      }
    }
  }

  /** A payment goes through the list from the earliest obligation on; those of the same time go in the order of their ids. */
  lemma OldestFirst(t: Table, debtor: string, l: seq<Debt>, i: nat, j: nat)
    requires IsOpenList(t, debtor, l) && i < j < |l|
    ensures l[i].id in t && l[j].id in t && t[l[i].id].createdAt <= t[l[j].id].createdAt
    ensures t[l[i].id].createdAt == t[l[j].id].createdAt ==>
              var a, b := l[i].id, l[j].id;
              a < b || exists k :: 0 <= k < |a| && k < |b| && a[..k] == b[..k] && a[k] < b[k]
  {
    hide Below;
    assert l[i] in l && l[j] in l;
    assert Before(l[i], l[j]);
    BelowMeaning(l[i].id, l[j].id);
  }

  lemma {:induction false} SameElements(l: seq<Debt>, m: seq<Debt>)
    requires Ordered(l) && Ordered(m) && forall d :: d in l <==> d in m
    ensures l == m
  {
    if l != [] || m != [] {
      var x := if l != [] then l[0] else m[0];
      assert x in l && x in m;
      assert l[0] in l && m[0] in m;
      BeforeOrder(l[0], m[0], l[0]);
      assert l[0] == m[0];
      forall d ensures d in l[1..] <==> d in m[1..] {
        BeforeOrder(l[0], d, d);
        TailHas(l, d);
        TailHas(m, d);
      }
      SameElements(l[1..], m[1..]);
      assert l == [l[0]] + l[1..] && m == [m[0]] + m[1..];
    }
  }

  lemma TailHas(l: seq<Debt>, d: Debt)
    requires l != [] && Ordered(l)
    ensures d in l[1..] <==> d in l && d != l[0]
  {
    BeforeOrder(l[0], l[0], l[0]);
    assert l == [l[0]] + l[1..];
  }

  // ---- Listing ----

  function Place(d: Debt, l: seq<Debt>): seq<Debt> {
    if l == [] || Before(d, l[0]) then [d] + l else [l[0]] + Place(d, l[1..])
  }

  lemma {:induction false} PlaceKeeps(d: Debt, l: seq<Debt>)
    requires Ordered(l) && forall i :: 0 <= i < |l| ==> l[i].id != d.id
    ensures Ordered(Place(d, l))
    ensures forall x :: x in Place(d, l) <==> x == d || x in l
  {
    if l != [] {
      assert l == [l[0]] + l[1..];
      BeforeOrder(d, l[0], d);
      if Before(d, l[0]) {
        forall j | 0 <= j < |l| ensures Before(d, l[j]) {
          BeforeOrder(d, l[0], l[j]);
        }
      } else {
        PlaceKeeps(d, l[1..]);
        var p := Place(d, l[1..]);
        forall j | 0 <= j < |p| ensures Before(l[0], p[j]) {
          assert p[j] in p;
        }
      }
    }
  }

  ghost predicate AmongIds(ids: set<string>, t: Table, debtor: string, l: seq<Debt>)
    requires ids <= t.Keys
  {
    Ordered(l) && forall d :: d in l <==> d.id in ids && IsOpenDebt(t, debtor, d)
  }

  /** The query of OpenDebts. */
  method ListOpen(t: Table, debtor: string) returns (l: seq<Debt>)
    ensures IsOpenList(t, debtor, l)
  {
    l := [];
    var rest := t.Keys;
    while rest != {}
      invariant rest <= t.Keys && AmongIds(t.Keys - rest, t, debtor, l)
      decreases |rest|
    {
      var id :| id in rest;
      ghost var seen := t.Keys - rest;
      if t[id].row.open && t[id].row.terms.debtor == debtor {
        forall i | 0 <= i < |l| ensures l[i].id != id {
          assert l[i] in l;
        }
        PlaceKeeps(Debt(id, t[id]), l);
        l := Place(Debt(id, t[id]), l);
      }
      rest := rest - {id};
      assert t.Keys - rest == seen + {id};
    }
    assert t.Keys - rest == t.Keys;
  }

  // ---- The load ----

  function Share(t: Table, id: string, debtor: string): int
    requires id in t
  {
    if t[id].row.open && t[id].row.terms.debtor == debtor then t[id].row.weight else 0
  }

  /** SELECT SUM(weight) over the debtor's open obligations. */
  ghost function Load(t: Table, debtor: string): int
    decreases |t|
  {
    if t == map[] then 0
    else
      var id :| id in t;
      Share(t, id, debtor) + Load(t - {id}, debtor)
  }

  lemma {:induction false} LoadSplit(t: Table, debtor: string, id: string)
    requires id in t
    ensures Load(t, debtor) == Share(t, id, debtor) + Load(t - {id}, debtor)
    decreases |t|
  {
    var k :| k in t && Load(t, debtor) == Share(t, k, debtor) + Load(t - {k}, debtor);
    if k != id {
      var a, b := t - {k}, t - {id};
      assert id in a && k in b && a[id] == t[id] && b[k] == t[k];
      LoadSplit(a, debtor, id);
      LoadSplit(b, debtor, k);
      assert a - {id} == b - {k};
      assert Load(t, debtor) == Share(t, k, debtor) + Load(a, debtor);
      assert Load(a, debtor) == Share(a, id, debtor) + Load(a - {id}, debtor);
      assert Load(b, debtor) == Share(b, k, debtor) + Load(b - {k}, debtor);
    }
  }

  /** Replacing one row moves the load by the difference of its share. */
  lemma LoadUpdate(t: Table, debtor: string, id: string, o: Obligation)
    requires id in t
    ensures Load(t[id := o], debtor) == Load(t, debtor) - Share(t, id, debtor) + Share(t[id := o], id, debtor)
  {
    LoadSplit(t, debtor, id);
    LoadSplit(t[id := o], debtor, id);
    assert t[id := o] - {id} == t - {id};
  }

  lemma LoadInsert(t: Table, debtor: string, id: string, o: Obligation)
    requires id !in t
    ensures Load(t[id := o], debtor) == Load(t, debtor) + Share(t[id := o], id, debtor)
  {
    LoadSplit(t[id := o], debtor, id);
    assert t[id := o] - {id} == t;
  }

  function Total(l: seq<Debt>): int {
    if l == [] then 0 else l[0].Weight() + Total(l[1..])
  }

  /** The load is the sum of the list. */
  lemma {:induction false} LoadIsTotal(t: Table, debtor: string, l: seq<Debt>)
    requires IsOpenList(t, debtor, l)
    ensures Load(t, debtor) == Total(l)
    decreases |t|
  {
    if l == [] {
      forall id | id in t ensures Share(t, id, debtor) == 0 {
        assert Debt(id, t[id]) !in l;
      }
      NoLoad(t, debtor);
    } else {
      var d := l[0];
      assert d in l;
      LoadSplit(t, debtor, d.id);
      forall x ensures x in l[1..] <==> IsOpenDebt(t - {d.id}, debtor, x) {
        TailHas(l, x);
      }
      LoadIsTotal(t - {d.id}, debtor, l[1..]);
    }
  }

  lemma {:induction false} NoLoad(t: Table, debtor: string)
    requires forall id :: id in t ==> Share(t, id, debtor) == 0
    ensures Load(t, debtor) == 0
    decreases |t|
  {
    if t != map[] {
      var id :| id in t;
      LoadSplit(t, debtor, id);
      forall k | k in t - {id} ensures Share(t - {id}, k, debtor) == 0 {
        assert Share(t, k, debtor) == 0;
      }
      NoLoad(t - {id}, debtor);
    }
  }

  // ---- Paying ----

  /** How much of amount goes into the debts of the list. */
  function Settles(l: seq<Debt>, amount: int): int
    decreases |l|
  {
    if l == [] || amount <= 0 then 0
    else if amount >= l[0].Weight() then l[0].Weight() + Settles(l[1..], amount - l[0].Weight())
    else amount
  }

  /** How many of the listed debts are resolved. */
  function Covered(l: seq<Debt>, amount: int): (k: nat)
    ensures k <= |l|
    decreases |l|
  {
    if l == [] || amount <= 0 || amount < l[0].Weight() then 0 else 1 + Covered(l[1..], amount - l[0].Weight())
  }

  predicate AllKnown(t: Table, l: seq<Debt>) {
    forall i :: 0 <= i < |l| ==> l[i].id in t
  }

  /** The loop of PayDebt, debt by debt; `clock` gives the time each event is emitted. */
  function PayAt(n: NodeId, nd: Node, l: seq<Debt>, amount: int, clock: nat -> int): Node
    requires AllKnown(nd.table, l)
    decreases |l|
  {
    if l == [] || amount <= 0 then nd
    else if amount >= l[0].Weight() then
      PayAt(n, ResolveAt(n, nd, l[0].id, clock(nd.num + 1)), l[1..], amount - l[0].Weight(), clock)
    else
      PayAt(n, AdjustAt(n, nd, l[0].id, l[0].Weight(), amount, clock(nd.num + 1)), l[1..], 0, clock)
  }

  /** The first round of the loop. */
  lemma PayFirst(n: NodeId, nd: Node, l: seq<Debt>, amount: int, clock: nat -> int)
    requires l != [] && amount > 0 && AllKnown(nd.table, l)
    ensures var d, ts := l[0], clock(nd.num + 1);
            var nd1 := if amount >= d.Weight() then ResolveAt(n, nd, d.id, ts) else AdjustAt(n, nd, d.id, d.Weight(), amount, ts);
            var paid := if amount >= d.Weight() then d.Weight() else amount;
            && AllKnown(nd1.table, l[1..])
            && PayAt(n, nd, l, amount, clock) == PayAt(n, nd1, l[1..], amount - paid, clock)
            && Settles(l, amount) == paid + Settles(l[1..], amount - paid)
  {
  }

  lemma PayNothing(n: NodeId, nd: Node, l: seq<Debt>, amount: int, clock: nat -> int)
    requires (l == [] || amount <= 0) && AllKnown(nd.table, l)
    ensures PayAt(n, nd, l, amount, clock) == nd && Settles(l, amount) == 0
  {
  }

  ghost predicate AllPositive(l: seq<Debt>) {
    forall i :: 0 <= i < |l| ==> l[i].Weight() > 0
  }

  /** With positive weights the payment settles as much as it can. */
  lemma {:induction false} SettlesAllItCan(l: seq<Debt>, amount: int)
    requires AllPositive(l)
    ensures Settles(l, amount) == if amount <= 0 then 0 else if amount <= Total(l) then amount else Total(l)
    ensures Total(l) >= 0
    decreases |l|
  {
    if l != [] {
      SettlesAllItCan(l[1..], amount - l[0].Weight());
    }
  }

  // ---- What the table looks like afterwards ----

  /** The list is still what the table says. */
  ghost predicate Listed(t: Table, l: seq<Debt>) {
    && (forall i :: 0 <= i < |l| ==> l[i].id in t && t[l[i].id] == l[i].ob && l[i].ob.row.open)
    && (forall i, j :: 0 <= i < j < |l| ==> l[i].id != l[j].id)
  }

  lemma OpenListIsListed(t: Table, debtor: string, l: seq<Debt>)
    requires IsOpenList(t, debtor, l)
    ensures Listed(t, l) && AllKnown(t, l)
  {
    forall i | 0 <= i < |l| ensures IsOpenDebt(t, debtor, l[i]) {
      assert l[i] in l;
    }
    forall i, j | 0 <= i < j < |l| ensures l[i].id != l[j].id {
      BeforeOrder(l[i], l[j], l[i]);
      BeforeOrder(l[j], l[j], l[j]);
    }
  }

  lemma PrefixListed(t: Table, debtor: string, l: seq<Debt>, k: nat)
    requires IsOpenList(t, debtor, l) && k <= |l|
    ensures Listed(t, l[..k]) && AllKnown(t, l[..k]) && forall i :: 0 <= i < k ==> l[..k][i].ob.row.terms.debtor == debtor
  {
    OpenListIsListed(t, debtor, l);
    assert forall i :: 0 <= i < |l| ==> l[i] in l;
  }

  function Closed(o: Obligation): Obligation {
    o.(row := o.row.(open := false))
  }

  function Lightened(o: Obligation, amount: int): Obligation {
    o.(row := o.row.(weight := o.row.weight - amount))
  }

  /** What is left after the covered debts, and comes off the next one. */
  function Rest(l: seq<Debt>, amount: int): int
    decreases |l|
  {
    if l == [] || amount <= 0 then 0
    else if amount >= l[0].Weight() then Rest(l[1..], amount - l[0].Weight())
    else amount
  }

  /** The covered debts are closed, the next one is lighter by the rest, and those after it are as they were. */
  function RowAfterPay(l: seq<Debt>, amount: int, j: nat): Obligation
    requires j < |l|
  {
    var k := Covered(l, amount);
    if j < k then Closed(l[j].ob) else if j == k then Lightened(l[j].ob, Rest(l, amount)) else l[j].ob
  }

  lemma ListedTail(t: Table, l: seq<Debt>, o: Obligation)
    requires Listed(t, l) && l != []
    ensures Listed(t[l[0].id := o], l[1..]) && AllKnown(t[l[0].id := o], l[1..])
    ensures forall i :: 0 <= i < |l[1..]| ==> l[1..][i].id != l[0].id
  {
    forall i | 0 <= i < |l[1..]| ensures l[1..][i].id != l[0].id && l[1..][i] == l[i + 1] {
    }
  }

  /** A row that is not on the list stays as it is. */
  lemma {:induction false} PayUnlisted(n: NodeId, nd: Node, l: seq<Debt>, amount: int, clock: nat -> int, id: string)
    requires Listed(nd.table, l) && AllKnown(nd.table, l) && forall i :: 0 <= i < |l| ==> l[i].id != id
    ensures var t' := PayAt(n, nd, l, amount, clock).table;
            t'.Keys == nd.table.Keys && (id in nd.table ==> t'[id] == nd.table[id])
    decreases |l|
  {
    hide Listed;
    if l != [] && amount > 0 {
      var d := l[0];
      if amount >= d.Weight() {
        var nd1 := ResolveAt(n, nd, d.id, clock(nd.num + 1));
        ListedTail(nd.table, l, nd1.table[d.id]);
        PayUnlisted(n, nd1, l[1..], amount - d.Weight(), clock, id);
      } else {
        assert PayAt(n, nd, l, amount, clock) == AdjustAt(n, nd, d.id, d.Weight(), amount, clock(nd.num + 1));
      }
    }
  }

  lemma {:induction false} PayListed(n: NodeId, nd: Node, l: seq<Debt>, amount: int, clock: nat -> int, j: nat)
    requires Listed(nd.table, l) && AllKnown(nd.table, l) && j < |l|
    ensures var t' := PayAt(n, nd, l, amount, clock).table; l[j].id in t' && t'[l[j].id] == RowAfterPay(l, amount, j)
    decreases |l|
  {
    hide Listed;
    var d, rest := l[0], l[1..];
    assert nd.table[l[j].id] == l[j].ob by { ListedAt(nd.table, l, j); }
    assert nd.table[d.id] == d.ob by { ListedAt(nd.table, l, 0); }
    if amount > 0 {
      if amount >= d.Weight() {
        var nd1 := ResolveAt(n, nd, d.id, clock(nd.num + 1));
        ListedTail(nd.table, l, nd1.table[d.id]);
        if j == 0 {
          PayUnlisted(n, nd1, rest, amount - d.Weight(), clock, d.id);
        } else {
          PayListed(n, nd1, rest, amount - d.Weight(), clock, j - 1);
        }
      } else {
        ListedTail(nd.table, l, d.ob);
        assert PayAt(n, nd, l, amount, clock) == AdjustAt(n, nd, d.id, d.Weight(), amount, clock(nd.num + 1));
        assert j > 0 ==> rest[j - 1] == l[j];
      }
    }
  }

  lemma ListedAt(t: Table, l: seq<Debt>, j: nat)
    requires Listed(t, l) && j < |l|
    ensures l[j].id in t && t[l[j].id] == l[j].ob && l[j].ob.row.open
  {
  }

  /** The rest is less than the debt it comes off. */
  lemma {:induction false} RestFits(l: seq<Debt>, amount: int)
    ensures var k := Covered(l, amount);
            0 <= Rest(l, amount) && (Rest(l, amount) > 0 ==> k < |l| && Rest(l, amount) < l[k].Weight())
    ensures Settles(l, amount) == Total(l[..Covered(l, amount)]) + Rest(l, amount)
    decreases |l|
  {
    if l != [] && amount > 0 && amount >= l[0].Weight() {
      var k := Covered(l, amount);
      RestFits(l[1..], amount - l[0].Weight());
      assert l[..k][1..] == l[1..][..k - 1];
    }
  }

  // ---- Replay ----

  function MirrorAll(t: Table, es: seq<Event>): Table {
    if es == [] then t else Mirror(MirrorAll(t, es[..|es| - 1]), es[|es| - 1])
  }

  lemma {:induction false} MirrorConcat(t: Table, a: seq<Event>, b: seq<Event>)
    ensures MirrorAll(t, a + b) == MirrorAll(MirrorAll(t, a), b)
  {
    if b == [] {
      assert a + b == a;
    } else {
      var k := |b| - 1;
      assert (a + b)[..|a| + k] == a + b[..k];
      MirrorConcat(t, a, b[..k]);
    }
  }

  /** The payment emits events whose replay over the old table gives the new table. */
  lemma {:induction false} PayReplays(n: NodeId, nd: Node, l: seq<Debt>, amount: int, clock: nat -> int)
    requires Listed(nd.table, l) && AllKnown(nd.table, l)
    ensures var r := PayAt(n, nd, l, amount, clock);
            && nd.events <= r.events
            && MirrorAll(nd.table, r.events[|nd.events|..]) == r.table
            && |r.events| - |nd.events| == Covered(l, amount) + (if Rest(l, amount) > 0 then 1 else 0)
    decreases |l|
  {
    hide Listed, Mirror;
    if l == [] || amount <= 0 {
      assert nd.events[|nd.events|..] == [];
    } else {
      var d, r := l[0], PayAt(n, nd, l, amount, clock);
      ListedAt(nd.table, l, 0);
      var nd1 := if amount >= d.Weight() then ResolveAt(n, nd, d.id, clock(nd.num + 1))
                 else AdjustAt(n, nd, d.id, d.Weight(), amount, clock(nd.num + 1));
      var e := nd1.events[|nd.events|];
      OneReplays(nd.table, d, e, amount);
      ListedTail(nd.table, l, nd1.table[d.id]);
      PayReplays(n, nd1, l[1..], if amount >= d.Weight() then amount - d.Weight() else 0, clock);
      var later := r.events[|nd1.events|..];
      assert r.events[|nd.events|..] == [e] + later;
      MirrorConcat(nd.table, [e], later);
      assert [e][..0] == [];
      assert MirrorAll(nd.table, []) == nd.table;
      assert MirrorAll(nd.table, [e]) == Mirror(nd.table, e);
    }
  }

  /** k resolutions in list order and, if there is a rest, one adjustment by it, numbered on from num and each with the time it was emitted. */
  ghost predicate IsPaymentLog(es: seq<Event>, n: NodeId, num: nat, l: seq<Debt>, k: nat, rest: int, clock: nat -> int) {
    && k <= |l| && (rest > 0 ==> k < |l|)
    && |es| == k + (if rest > 0 then 1 else 0)
    && (forall j :: 0 <= j < k ==> es[j] == Event(n, num + 1 + j, clock(num + 1 + j), DebtResolved(l[j].id)))
    && (rest > 0 ==> es[k] == Event(n, num + 1 + k, clock(num + 1 + k), DebtAdjusted(l[k].id, l[k].Weight(), l[k].Weight() - rest)))
  }

  /** The events a payment emits. */
  lemma {:induction false} PaymentEvents(n: NodeId, nd: Node, l: seq<Debt>, amount: int, clock: nat -> int)
    requires Listed(nd.table, l) && AllKnown(nd.table, l)
    ensures var r := PayAt(n, nd, l, amount, clock);
            && nd.events <= r.events && r.num == nd.num + |r.events| - |nd.events|
            && IsPaymentLog(r.events[|nd.events|..], n, nd.num, l, Covered(l, amount), Rest(l, amount), clock)
    decreases |l|
  {
    hide Listed, IsPaymentLog, PayAt, AllKnown;
    if l == [] || amount <= 0 {
      PayNothing(n, nd, l, amount, clock);
      LogEmpty(n, nd.num, l, clock);
      assert nd.events[|nd.events|..] == [];
    } else {
      var d := l[0];
      ListedAt(nd.table, l, 0);
      PayFirst(n, nd, l, amount, clock);
      if amount >= d.Weight() {
        var nd1 := ResolveAt(n, nd, d.id, clock(nd.num + 1));
        ListedTail(nd.table, l, nd1.table[d.id]);
        PaymentEvents(n, nd1, l[1..], amount - d.Weight(), clock);
        var r := PayAt(n, nd1, l[1..], amount - d.Weight(), clock);
        var later := r.events[|nd1.events|..];
        assert r.events[|nd.events|..] == [nd1.events[|nd.events|]] + later;
        RestFits(l[1..], amount - d.Weight());
        LogMore(later, n, nd.num, l, Covered(l, amount), Rest(l, amount), clock);
      } else {
        var nd1 := AdjustAt(n, nd, d.id, d.Weight(), amount, clock(nd.num + 1));
        PayNothing(n, nd1, l[1..], 0, clock);
        LogLast(n, nd.num, l, amount, clock);
        assert nd1.events[|nd.events|..] == [nd1.events[|nd.events|]];
      }
    }
  }

  lemma LogEmpty(n: NodeId, num: nat, l: seq<Debt>, clock: nat -> int)
    ensures IsPaymentLog([], n, num, l, 0, 0, clock)
  {
  }

  lemma LogLast(n: NodeId, num: nat, l: seq<Debt>, rest: int, clock: nat -> int)
    requires l != [] && rest > 0
    ensures IsPaymentLog([Event(n, num + 1, clock(num + 1), DebtAdjusted(l[0].id, l[0].Weight(), l[0].Weight() - rest))], n, num, l, 0, rest, clock)
  {
  }

  lemma LogMore(es: seq<Event>, n: NodeId, num: nat, l: seq<Debt>, k: nat, rest: int, clock: nat -> int)
    requires l != [] && k > 0 && IsPaymentLog(es, n, num + 1, l[1..], k - 1, rest, clock)
    ensures IsPaymentLog([Event(n, num + 1, clock(num + 1), DebtResolved(l[0].id))] + es, n, num, l, k, rest, clock)
  {
    var log := [Event(n, num + 1, clock(num + 1), DebtResolved(l[0].id))] + es;
    forall j | 0 <= j < k ensures log[j] == Event(n, num + 1 + j, clock(num + 1 + j), DebtResolved(l[j].id)) {
      assert j > 0 ==> log[j] == es[j - 1] && l[j] == l[1..][j - 1];
    }
    assert rest > 0 ==> log[k] == es[k - 1] && l[k] == l[1..][k - 1];
  }

  lemma OneReplays(t: Table, d: Debt, e: Event, amount: int)
    requires d.id in t && t[d.id] == d.ob && d.ob.row.open
    ensures e.body == DebtResolved(d.id) ==> Mirror(t, e) == t[d.id := Closed(d.ob)]
    ensures e.body == DebtAdjusted(d.id, d.Weight(), d.Weight() - amount) ==> Mirror(t, e) == t[d.id := Lightened(d.ob, amount)]
  {
  }

  // ---- The load goes down by what was settled ----

  lemma {:induction false} PayLowersLoad(n: NodeId, nd: Node, l: seq<Debt>, amount: int, clock: nat -> int, debtor: string)
    requires Listed(nd.table, l) && AllKnown(nd.table, l)
    requires forall i :: 0 <= i < |l| ==> l[i].ob.row.terms.debtor == debtor
    ensures Load(PayAt(n, nd, l, amount, clock).table, debtor) == Load(nd.table, debtor) - Settles(l, amount)
    decreases |l|
  {
    hide Listed, Load;
    if l != [] && amount > 0 {
      var d := l[0];
      ListedAt(nd.table, l, 0);
      if amount >= d.Weight() {
        var nd1 := ResolveAt(n, nd, d.id, clock(nd.num + 1));
        LoadUpdate(nd.table, debtor, d.id, Closed(d.ob));
        ListedTail(nd.table, l, Closed(d.ob));
        PayLowersLoad(n, nd1, l[1..], amount - d.Weight(), clock, debtor);
      } else {
        LoadUpdate(nd.table, debtor, d.id, Lightened(d.ob, amount));
        assert PayAt(n, nd, l, amount, clock) == AdjustAt(n, nd, d.id, d.Weight(), amount, clock(nd.num + 1));
      }
    }
  }

  // ---- The whole law ----

  /** Every open debt of the table weighs something. */
  ghost predicate PositiveOpen(t: Table, debtor: string) {
    forall id :: id in t && t[id].row.open && t[id].row.terms.debtor == debtor ==> t[id].row.weight > 0
  }

  /** PayDebt settles exactly the smaller of the amount and the load, resolves a prefix of the list, takes the rest off at most
      one further debt without emptying it, leaves every other row alone, and emits events that replay to its own effect. */
  lemma PayDebtLaw(n: NodeId, nd: Node, l: seq<Debt>, amount: int, clock: nat -> int, debtor: string)
    requires IsOpenList(nd.table, debtor, l)
    ensures AllKnown(nd.table, l)
    ensures var r := PayAt(n, nd, l, amount, clock);
            && r.table.Keys == nd.table.Keys
            && (forall j :: 0 <= j < |l| ==> r.table[l[j].id] == RowAfterPay(l, amount, j))
            && (forall id :: id in nd.table && !IsOpenDebt(nd.table, debtor, Debt(id, nd.table[id])) ==> r.table[id] == nd.table[id])
            && nd.events <= r.events && MirrorAll(nd.table, r.events[|nd.events|..]) == r.table
            && Load(r.table, debtor) == Load(nd.table, debtor) - Settles(l, amount)
            && (PositiveOpen(nd.table, debtor) ==>
                  && PositiveOpen(r.table, debtor)
                  && Settles(l, amount) == if amount <= 0 then 0 else if amount <= Load(nd.table, debtor) then amount else Load(nd.table, debtor))
  {
    hide Listed, Load, PayAt, IsOpenList;
    OpenListIsListed(nd.table, debtor, l);
    var r := PayAt(n, nd, l, amount, clock);
    assert forall d :: d in l <==> IsOpenDebt(nd.table, debtor, d) by { ListMembers(nd.table, debtor, l); }
    forall j | 0 <= j < |l| ensures IsOpenDebt(nd.table, debtor, l[j]) {
      assert l[j] in l;
    }
    forall j | 0 <= j < |l|
      ensures r.table.Keys == nd.table.Keys && r.table[l[j].id] == RowAfterPay(l, amount, j)
    {
      PayKeys(n, nd, l, amount, clock);
      PayListed(n, nd, l, amount, clock, j);
    }
    PayKeys(n, nd, l, amount, clock);
    forall id | id in nd.table && !IsOpenDebt(nd.table, debtor, Debt(id, nd.table[id])) ensures r.table[id] == nd.table[id] {
      PayUnlisted(n, nd, l, amount, clock, id);
    }
    PayReplays(n, nd, l, amount, clock);
    PayLowersLoad(n, nd, l, amount, clock, debtor);
    if PositiveOpen(nd.table, debtor) {
      SettlesAllItCan(l, amount);
      LoadIsTotal(nd.table, debtor, l);
      PayKeepsPositive(nd.table, r.table, l, amount, debtor);
    }
  }

  lemma ListMembers(t: Table, debtor: string, l: seq<Debt>)
    requires IsOpenList(t, debtor, l)
    ensures forall d :: d in l <==> IsOpenDebt(t, debtor, d)
  {
  }

  lemma {:induction false} PayKeys(n: NodeId, nd: Node, l: seq<Debt>, amount: int, clock: nat -> int)
    requires AllKnown(nd.table, l)
    ensures PayAt(n, nd, l, amount, clock).table.Keys == nd.table.Keys
    decreases |l|
  {
    if l != [] && amount > 0 {
      var d := l[0];
      if amount >= d.Weight() {
        PayKeys(n, ResolveAt(n, nd, d.id, clock(nd.num + 1)), l[1..], amount - d.Weight(), clock);
      } else {
        PayKeys(n, AdjustAt(n, nd, d.id, d.Weight(), amount, clock(nd.num + 1)), l[1..], 0, clock);
      }
    }
  }

  lemma PayKeepsPositive(t: Table, t': Table, l: seq<Debt>, amount: int, debtor: string)
    requires PositiveOpen(t, debtor) && t'.Keys == t.Keys
    requires forall d :: d in l <==> IsOpenDebt(t, debtor, d)
    requires forall j :: 0 <= j < |l| ==> l[j].id in t' && t'[l[j].id] == RowAfterPay(l, amount, j)
    requires forall id :: id in t && !IsOpenDebt(t, debtor, Debt(id, t[id])) ==> t'[id] == t[id]
    ensures PositiveOpen(t', debtor)
  {
    RestFits(l, amount);
    forall id | id in t' && t'[id].row.open && t'[id].row.terms.debtor == debtor ensures t'[id].row.weight > 0 {
      if IsOpenDebt(t, debtor, Debt(id, t[id])) {
        assert Debt(id, t[id]) in l;
        var j :| 0 <= j < |l| && l[j] == Debt(id, t[id]);
      }
    }
  }

  // ---- A payment that breaks off ----

  /** Which statement of a payment fails, if any: the one that updates the row of the k-th debt, or the one that then emits the event. */
  datatype Trouble = Smooth | AtUpdate(k: nat) | AtEmit(k: nat)

  /** The debts that are dealt with before the trouble. */
  function Reached(l: seq<Debt>, trouble: Trouble): (r: seq<Debt>)
    ensures r <= l
  {
    if trouble.Smooth? || trouble.k >= |l| then l else l[..trouble.k]
  }

  /** What a payment of amount takes off a debt. */
  function PaidOn(d: Debt, amount: int): int {
    if amount >= d.Weight() then d.Weight() else amount
  }

  function HitRow(d: Debt, amount: int): Obligation {
    if amount >= d.Weight() then Closed(d.ob) else Lightened(d.ob, amount)
  }

  /** The row of the next debt after a payment on a prefix of the list, and what updating it without an event does. */
  lemma HalfPayment(n: NodeId, nd: Node, l: seq<Debt>, k: nat, amount: int, clock: nat -> int, debtor: string)
    requires IsOpenList(nd.table, debtor, l) && k < |l|
    ensures AllKnown(nd.table, l[..k])
    ensures var base, d := PayAt(n, nd, l[..k], amount, clock), l[k];
            var left := amount - Settles(l[..k], amount);
            && d.id in base.table && base.table[d.id] == d.ob
            && base.table[d.id := HitRow(d, left)][d.id := d.ob] == base.table
            && Load(base.table[d.id := HitRow(d, left)], debtor) == Load(nd.table, debtor) - Settles(l[..k], amount) - PaidOn(d, left)
            && nd.events <= base.events && MirrorAll(nd.table, base.events[|nd.events|..]) == base.table
  {
    hide Listed, Load, PayAt, Settles, MirrorAll;
    OpenListIsListed(nd.table, debtor, l);
    PrefixListed(nd.table, debtor, l, k);
    var d, paid := l[k], l[..k];
    ListedAt(nd.table, l, k);
    NotInPrefix(nd.table, l, k);
    PayUnlisted(n, nd, paid, amount, clock, d.id);
    PayReplays(n, nd, paid, amount, clock);
    PayLowersLoad(n, nd, paid, amount, clock, debtor);
    LoadUpdate(PayAt(n, nd, paid, amount, clock).table, debtor, d.id, HitRow(d, amount - Settles(paid, amount)));
    OpenDebtor(nd.table, debtor, l, k);
  }

  lemma OpenDebtor(t: Table, debtor: string, l: seq<Debt>, k: nat)
    requires IsOpenList(t, debtor, l) && k < |l|
    ensures l[k].ob.row.open && l[k].ob.row.terms.debtor == debtor
  {
    assert l[k] in l;
  }

  lemma NotInPrefix(t: Table, l: seq<Debt>, k: nat)
    requires Listed(t, l) && k < |l|
    ensures forall i :: 0 <= i < k ==> l[..k][i].id != l[k].id
  {
  }

  // ---- Payments in the protocol ----

  lemma CanPay(w: World, n: NodeId, d: Debt, amount: int, ts: int)
    requires n in w.nodes && d.id in w.nodes[n].table && w.nodes[n].table[d.id] == d.ob && d.ob.row.open
    ensures Can(w, Resolve(n, d.id, ts)) && Careful(w, Resolve(n, d.id, ts)) && Do(w, Resolve(n, d.id, ts)) == SetNode(w, n, ResolveAt(n, w.nodes[n], d.id, ts))
    ensures Can(w, Adjust(n, d.id, d.Weight(), amount, ts)) && Careful(w, Adjust(n, d.id, d.Weight(), amount, ts))
    ensures Do(w, Adjust(n, d.id, d.Weight(), amount, ts)) == SetNode(w, n, AdjustAt(n, w.nodes[n], d.id, d.Weight(), amount, ts))
  {
  }

  lemma CarefulFirst(w: World, s: Step, rest: seq<Step>) returns (steps: seq<Step>)
    requires Can(w, s) && Careful(w, s) && Runs(Do(w, s), rest) && CarefulRun(Do(w, s), rest)
    ensures steps == [s] + rest && Runs(w, steps) && CarefulRun(w, steps) && Final(w, steps) == Final(Do(w, s), rest)
  {
    hide Can, Do, Careful;
    steps := [s] + rest;
    assert steps[1..] == rest;
  }

  /** A payment is a run of resolving and adjusting steps, each of which pays on the weight it has read. */
  lemma {:induction false} PayIsRun(w: World, n: NodeId, l: seq<Debt>, amount: int, clock: nat -> int) returns (steps: seq<Step>)
    requires n in w.nodes && Listed(w.nodes[n].table, l) && AllKnown(w.nodes[n].table, l)
    ensures Runs(w, steps) && CarefulRun(w, steps) && PayingRun(steps)
    ensures Final(w, steps) == SetNode(w, n, PayAt(n, w.nodes[n], l, amount, clock))
    decreases |l|
  {
    hide Can, Do, Listed, Runs, Final, CarefulRun, Careful;
    var nd := w.nodes[n];
    if l == [] || amount <= 0 {
      steps := [];
      NoPayment(w);
      assert SetNode(w, n, nd) == w;
    } else {
      var d, ts := l[0], clock(nd.num + 1);
      ListedAt(nd.table, l, 0);
      CanPay(w, n, d, amount, ts);
      var whole := amount >= d.Weight();
      var nd1 := if whole then ResolveAt(n, nd, d.id, ts) else AdjustAt(n, nd, d.id, d.Weight(), amount, ts);
      var left := if whole then amount - d.Weight() else 0;
      ListedTail(nd.table, l, nd1.table[d.id]);
      steps := PayIsRun(SetNode(w, n, nd1), n, l[1..], left, clock);
      Ticks.SetTwice(w, n, nd1, PayAt(n, nd1, l[1..], left, clock));
      if whole {
        steps := CarefulFirst(w, Resolve(n, d.id, ts), steps);
      } else {
        steps := CarefulFirst(w, Adjust(n, d.id, d.Weight(), amount, ts), steps);
      }
    }
  }

  lemma NoPayment(w: World)
    ensures Runs(w, []) && CarefulRun(w, []) && Final(w, []) == w
  {
  }
}
