/**
 Obligations: one entity, three tables.

 The node that makes or pays an obligation writes its own row and emits an event; every other node
 mirrors the event into its table; the hub projects it into its debt index.  This module gives the
 three updates as the SQL writes them and shows what they have in common: seen one row at a time
 they are the same function, `Effect`.
 */
module Ledger {
  import opened Wrappers
  import opened Ids
  import opened Events

  /** What is replicated of an obligation. */
  datatype Row = Row(source: NodeId, terms: Terms, weight: int, open: bool)

  /** A node's row also has its creation time, which orders payments. */
  datatype Obligation = Obligation(row: Row, createdAt: int)

  type Table = map<string, Obligation>
  type Debts = map<string, Row>

  // ---- The mirror on other nodes ----

  /** The handlers of the three debt events: INSERT OR IGNORE, and updates guarded by status='open'. */
  function Mirror(t: Table, e: Event): Table {
    match e.body
    case DebtCreated(oid, origin, terms, weight) =>
      if oid in t then t else t[oid := Obligation(Row(origin, terms, weight, true), e.ts)]
    case DebtResolved(oid) =>
      if oid in t && t[oid].row.open then t[oid := t[oid].(row := t[oid].row.(open := false))] else t
    case DebtAdjusted(oid, _, newWeight) =>
      if oid in t && t[oid].row.open then t[oid := t[oid].(row := t[oid].row.(weight := newWeight))] else t
    case Other(_, _) => t
  }

  // ---- The hub's projection ----

  /** One round of the materializing loop; resolving is not guarded by the status there. */
  function Project(d: Debts, e: Event): Debts {
    match e.body
    case DebtCreated(oid, _, terms, weight) =>
      if oid in d then d else d[oid := Row(e.source, terms, weight, true)]
    case DebtResolved(oid) =>
      if oid in d then d[oid := d[oid].(open := false)] else d
    case DebtAdjusted(oid, _, newWeight) =>
      if oid in d && d[oid].open then d[oid := d[oid].(weight := newWeight)] else d
    case Other(_, _) => d
  }

  function ProjectAll(d: Debts, es: seq<Event>): Debts {
    if es == [] then d else Project(ProjectAll(d, es[..|es| - 1]), es[|es| - 1])
  }

  // ---- One row at a time ----

  function RowOf(t: Table, oid: string): Option<Row> {
    if oid in t then Some(t[oid].row) else None
  }

  function DebtOf(d: Debts, oid: string): Option<Row> {
    if oid in d then Some(d[oid]) else None
  }

  /** What an event does to the row of one obligation. */
  function Effect(r: Option<Row>, e: Event, oid: string): Option<Row> {
    if !e.body.About(oid) then r
    else match e.body
      case DebtCreated(_, origin, terms, weight) => if r.None? then Some(Row(origin, terms, weight, true)) else r
      case DebtResolved(_) => if r.Some? then Some(r.value.(open := false)) else None
      case DebtAdjusted(_, _, w) => if r.Some? && r.value.open then Some(r.value.(weight := w)) else r
      case Other(_, _) => r
  }

  /** The mirror and the projection agree on every row, provided the payload names the true source. */
  lemma MirrorAndProjectionAgree(t: Table, d: Debts, e: Event, oid: string)
    ensures RowOf(Mirror(t, e), oid) == Effect(RowOf(t, oid), e, oid)
    ensures (e.body.DebtCreated? ==> e.body.origin == e.source) ==>
              DebtOf(Project(d, e), oid) == Effect(DebtOf(d, oid), e, oid)
  {
  }

  function Effects(r: Option<Row>, es: seq<Event>, oid: string): Option<Row> {
    if es == [] then r else Effect(Effects(r, es[..|es| - 1], oid), es[|es| - 1], oid)
  }

  /** The row a replica has after applying es to an empty table. */
  function RowAfter(es: seq<Event>, oid: string): Option<Row> {
    Effects(None, es, oid)
  }

  lemma EffectsAppend(r: Option<Row>, es: seq<Event>, e: Event, oid: string)
    ensures Effects(r, es + [e], oid) == Effect(Effects(r, es, oid), e, oid)
  {
    assert (es + [e])[..|es|] == es;
  }

  lemma {:induction false} EffectsConcat(r: Option<Row>, a: seq<Event>, b: seq<Event>, oid: string)
    ensures Effects(r, a + b, oid) == Effects(Effects(r, a, oid), b, oid)
  {
    if b == [] {
      assert a + b == a;
    } else {
      var k := |b| - 1;
      assert a + b == (a + b[..k]) + [b[k]];
      EffectsAppend(r, a + b[..k], b[k], oid);
      EffectsConcat(r, a, b[..k], oid);
    }
  }

  /** True when no event of es concerns the obligation. */
  ghost predicate Silent(es: seq<Event>, oid: string) {
    forall i :: 0 <= i < |es| ==> !es[i].body.About(oid)
  }

  lemma {:induction false} SilentEffects(r: Option<Row>, es: seq<Event>, oid: string)
    requires Silent(es, oid)
    ensures Effects(r, es, oid) == r
  {
    if es != [] {
      SilentEffects(r, es[..|es| - 1], oid);
    }
  }

  /** A resolved row is final, and a row never disappears: no replica goes back from resolved to open. */
  lemma {:induction false} ResolvedIsFinal(r: Option<Row>, es: seq<Event>, oid: string)
    requires r.Some?
    ensures Effects(r, es, oid).Some?
    ensures !r.value.open ==> Effects(r, es, oid) == r
  {
    if es != [] {
      ResolvedIsFinal(r, es[..|es| - 1], oid);
    }
  }

  // ---- Causal order ----

  ghost predicate CreatedIn(s: seq<Event>, oid: string) {
    exists i :: 0 <= i < |s| && s[i].body.DebtCreated? && s[i].body.oid == oid
  }

  ghost predicate ResolvedIn(s: seq<Event>, oid: string) {
    exists i :: 0 <= i < |s| && s[i].body.DebtResolved? && s[i].body.oid == oid
  }

  /** Every adjustment and resolution comes after the creation of its obligation. */
  ghost predicate Causal(s: seq<Event>) {
    forall j :: 0 <= j < |s| && s[j].body.Follows() ==> CreatedIn(s[..j], s[j].body.oid)
  }

  lemma CausalAppend(s: seq<Event>, e: Event)
    requires Causal(s)
    requires e.body.Follows() ==> CreatedIn(s, e.body.oid)
    ensures Causal(s + [e])
  {
    var t := s + [e];
    forall j | 0 <= j < |t| && t[j].body.Follows()
      ensures CreatedIn(t[..j], t[j].body.oid)
    {
      assert t[..j] == s[..j];
      if j == |s| {
        assert s[..j] == s;
      }
    }
  }

  lemma CreatedInMonotone(s: seq<Event>, t: seq<Event>, oid: string)
    requires CreatedIn(s, oid)
    requires forall i :: 0 <= i < |s| ==> s[i] in t
    ensures CreatedIn(t, oid)
  {
    var i :| 0 <= i < |s| && s[i].body.DebtCreated? && s[i].body.oid == oid;
    assert s[i] in t;
  }

  /** The same for one obligation. */
  ghost predicate CausalFor(s: seq<Event>, oid: string) {
    forall j :: 0 <= j < |s| && s[j].body.Follows() && s[j].body.oid == oid ==> CreatedIn(s[..j], oid)
  }

  /** In a causal sequence a row exists exactly from its creation on, and is open until a resolution. */
  lemma {:induction false} RowExists(s: seq<Event>, oid: string)
    requires CausalFor(s, oid)
    ensures RowAfter(s, oid).Some? <==> CreatedIn(s, oid)
    ensures RowAfter(s, oid).Some? ==> (RowAfter(s, oid).value.open <==> !ResolvedIn(s, oid))
    ensures ResolvedIn(s, oid) ==> RowAfter(s, oid).Some?
  {
    if s != [] {
      var k := |s| - 1;
      var s0, e := s[..k], s[k];
      assert s == s0 + [e];
      CausalForPrefix(s, oid, k);
      RowExists(s0, oid);
      assert e.body.Follows() && e.body.oid == oid ==> CreatedIn(s[..k], oid);
      CreatedInStep(s0, e, oid);
    }
  }

  lemma CausalForPrefix(s: seq<Event>, oid: string, k: nat)
    requires CausalFor(s, oid) && k <= |s|
    ensures CausalFor(s[..k], oid)
  {
    forall j | 0 <= j < k && s[..k][j].body.Follows() && s[..k][j].body.oid == oid ensures CreatedIn(s[..k][..j], oid) {
      assert s[j].body.Follows();
      assert s[..k][..j] == s[..j];
    }
  }

  lemma CreatedInStep(s: seq<Event>, e: Event, oid: string)
    ensures CreatedIn(s + [e], oid) <==> CreatedIn(s, oid) || (e.body.DebtCreated? && e.body.oid == oid)
    ensures ResolvedIn(s + [e], oid) <==> ResolvedIn(s, oid) || (e.body.DebtResolved? && e.body.oid == oid)
  {
    var t := s + [e];
    assert t[|s|] == e;
    if CreatedIn(s, oid) {
      var i :| 0 <= i < |s| && s[i].body.DebtCreated? && s[i].body.oid == oid;
      assert t[i] == s[i];
    }
    if ResolvedIn(s, oid) {
      var i :| 0 <= i < |s| && s[i].body.DebtResolved? && s[i].body.oid == oid;
      assert t[i] == s[i];
    }
  }

  // ---- Replaying an overlap ----

  lemma CausalPrefix(s: seq<Event>, k: nat)
    requires Causal(s) && k <= |s|
    ensures Causal(s[..k])
  {
    forall j | 0 <= j < k && s[..k][j].body.Follows() ensures CreatedIn(s[..k][..j], s[..k][j].body.oid) {
      assert s[j].body.Follows();
      assert s[..k][..j] == s[..j];
    }
  }

  /** Applying an already applied event again leaves the row alone or takes it back to what it was right
      after that event; it can only go back while nothing has resolved the obligation. */
  lemma ReplayOne(s: seq<Event>, z: nat, i: nat, oid: string)
    requires CausalFor(s, oid) && i < z <= |s|
    ensures var r := Effect(RowAfter(s[..z], oid), s[i], oid);
            r == RowAfter(s[..z], oid) || r == RowAfter(s[..i + 1], oid)
  {
    var e := s[i];
    var early, late := RowAfter(s[..i + 1], oid), RowAfter(s[..z], oid);
    assert s[..i + 1] == s[..i] + [e];
    EffectsAppend(None, s[..i], e, oid);
    assert s[..z] == s[..i + 1] + s[i + 1..z];
    EffectsConcat(None, s[..i + 1], s[i + 1..z], oid);
    if e.body.About(oid) {
      assert e.body.Follows() ==> CreatedIn(s[..i], oid);
      CausalForPrefix(s, oid, i);
      RowExists(s[..i], oid);
      ResolvedIsFinal(early, s[i + 1..z], oid);
      SameDeal(early, s[i + 1..z], oid);
    }
  }

  lemma NoEffects(r: Option<Row>, oid: string)
    ensures Effects(r, [], oid) == r
  {
  }

  /** Applying again a stretch [lo, lo + x) of a log of which the first z events were applied leaves the row as it was after
      some prefix that reaches at least to the end of the stretch; a stretch that reaches past z brings the row up to date. */
  lemma {:induction false} ReplayStretch(s: seq<Event>, lo: nat, x: nat, z: nat, oid: string) returns (y: nat)
    requires CausalFor(s, oid) && lo <= z <= |s| && lo + x <= |s|
    ensures lo + x <= y <= |s| && (y == z || y <= lo + x)
    ensures Effects(RowAfter(s[..z], oid), s[lo..lo + x], oid) == RowAfter(s[..y], oid)
    decreases x
  {
    hide Effect, Effects, CausalFor;
    if x == 0 {
      y := z;
      NoEffects(RowAfter(s[..z], oid), oid);
      assert s[lo..lo] == [];
    } else {
      var v := ReplayStretch(s, lo, x - 1, z, oid);
      var e := s[lo + x - 1];
      assert s[lo..lo + x] == s[lo..lo + x - 1] + [e];
      EffectsAppend(RowAfter(s[..z], oid), s[lo..lo + x - 1], e, oid);
      if v == lo + x - 1 {
        assert s[..lo + x] == s[..v] + [e];
        EffectsAppend(None, s[..v], e, oid);
        y := lo + x;
      } else {
        ReplayOne(s, v, lo + x - 1, oid);
        if Effect(RowAfter(s[..v], oid), e, oid) == RowAfter(s[..v], oid) {
          y := v;
        } else {
          y := lo + x;
        }
      }
    }
  }

  /** Only weight and status of a row ever change. */
  lemma {:induction false} SameDeal(r: Option<Row>, es: seq<Event>, oid: string)
    requires r.Some?
    ensures var q := Effects(r, es, oid);
            q.Some? && q.value.source == r.value.source && q.value.terms == r.value.terms
            && (q.value.open ==> r.value.open)
  {
    if es != [] {
      SameDeal(r, es[..|es| - 1], oid);
    }
  }
}
