/**
 The hub's row of an obligation with one payer, in every run.

 Whatever overlaps, repeats, breaks off or is still on its way: the hub's row is the created one, with the weight of the last adjustment
 that found the row there and open, closed if a resolution found the row there.  The payer's row is the created one with the payer's last
 adjustment, closed if the payer resolved it.  The two are equal exactly when these are the same.
 */
module RowAgreement {
  import opened Wrappers
  import opened Ids
  import opened Events
  import opened Ledger
  import opened Protocol
  import opened Replication
  import opened Causality
  import opened Status
  import opened Weights
  import HubLedger
  import opened PayerIndex
  import opened Projection

  predicate Adjusts(e: Event, oid: string) {
    e.body.DebtAdjusted? && e.body.oid == oid
  }

  /** The last adjustment of a log. */
  function LastAdjustment(es: seq<Event>, oid: string): Option<Event> {
    if es == [] then None
    else if Adjusts(es[|es| - 1], oid) then Some(es[|es| - 1])
    else LastAdjustment(es[..|es| - 1], oid)
  }

  /** The guard of the hub's adjusting statement. */
  predicate IsOpenIn(d: Debts, oid: string) {
    oid in d && d[oid].open
  }

  /** The last adjustment of a history that found the row there and open. */
  function LastLanded(h: seq<Event>, oid: string): Option<Event> {
    if h == [] then None
    else
      var k := |h| - 1;
      if Adjusts(h[k], oid) && IsOpenIn(ProjectAll(map[], h[..k]), oid) then Some(h[k]) else LastLanded(h[..k], oid)
  }

  function WeightOf(e: Option<Event>, start: int): int {
    if e.Some? && e.value.body.DebtAdjusted? then e.value.body.newWeight else start
  }

  // ---- The hub's row ----

  /** Every creation of the obligation in the history is c. */
  ghost predicate OnlyCreation(h: seq<Event>, oid: string, c: Event) {
    forall i :: 0 <= i < |h| && h[i].body.DebtCreated? && h[i].body.oid == oid ==> h[i] == c
  }

  lemma {:induction false} HistoryRow(h: seq<Event>, oid: string, c: Event)
    requires OnlyCreation(h, oid, c) && Honest(c)
    ensures var d := ProjectAll(map[], h);
            oid in d ==> d[oid] == Born(c).(weight := WeightOf(LastLanded(h, oid), Born(c).weight), open := d[oid].open)
    ensures oid !in ProjectAll(map[], h) ==> LastLanded(h, oid).None?
  {
    hide Honest, ProjectAll, Project;
    if h == [] {
      assert ProjectAll(map[], h) == map[] by { NothingYet(h); }
    } else {
      var k := |h| - 1;
      HistoryRow(h[..k], oid, c);
      LastProjected(h);
      HistoryStep(ProjectAll(map[], h[..k]), h[k], oid, c, LastLanded(h[..k], oid));
    }
  }

  lemma NothingYet(h: seq<Event>)
    requires h == []
    ensures ProjectAll(map[], h) == map[]
  {
  }

  lemma LastProjected(h: seq<Event>)
    requires h != []
    ensures ProjectAll(map[], h) == Project(ProjectAll(map[], h[..|h| - 1]), h[|h| - 1])
  {
  }

  lemma HistoryStep(d: Debts, e: Event, oid: string, c: Event, last: Option<Event>)
    requires Honest(c) && (e.body.DebtCreated? && e.body.oid == oid ==> e == c)
    requires oid in d ==> d[oid] == Born(c).(weight := WeightOf(last, Born(c).weight), open := d[oid].open)
    requires oid !in d ==> last.None?
    ensures var d', last' := Project(d, e), if Adjusts(e, oid) && IsOpenIn(d, oid) then Some(e) else last;
            && (oid in d' ==> d'[oid] == Born(c).(weight := WeightOf(last', Born(c).weight), open := d'[oid].open))
            && (oid !in d' ==> last'.None?)
  {
    hide MintedBy;
  }

  // ---- Falling weights tell adjustments apart ----

  lemma {:induction false} LastAdjustmentIs(es: seq<Event>, oid: string, start: int)
    ensures LastWeight(es, oid, start) == WeightOf(LastAdjustment(es, oid), start)
    ensures AdjustedIn(es, oid) <==> LastAdjustment(es, oid).Some?
    ensures LastAdjustment(es, oid).Some? ==> LastAdjustment(es, oid).value in es && Adjusts(LastAdjustment(es, oid).value, oid)
  {
    hide AdjustedIn;
    if es == [] {
      NothingAdjusted(oid);
    } else {
      var k := |es| - 1;
      assert es == es[..k] + [es[k]];
      LastAdjustmentIs(es[..k], oid, start);
      AdjustedInStep(es[..k], es[k], oid);
    }
  }

  /** All but the last adjustment leave more than the last. */
  lemma {:induction false} OthersLeaveMore(es: seq<Event>, oid: string, start: int, e: Event)
    requires Falling(es, oid, start) && e in es && Adjusts(e, oid)
    ensures e.body.newWeight >= LastWeight(es, oid, start)
    ensures e.body.newWeight == LastWeight(es, oid, start) ==> LastAdjustment(es, oid) == Some(e)
  {
    hide Falling;
    var k := |es| - 1;
    assert es == es[..k] + [es[k]];
    FallingStep(es[..k], es[k], oid, start);
    if Adjusts(es[k], oid) {
      if e != es[k] {
        OthersLeaveMore(es[..k], oid, start, e);
      }
    } else {
      OthersLeaveMore(es[..k], oid, start, e);
    }
  }

  /** An adjustment leaves the weight of the log exactly when it is the log's last; and the weight is the created one exactly when
      there is none. */
  lemma WeightTells(own: seq<Event>, oid: string, start: int, landed: Option<Event>)
    requires Falling(own, oid, start)
    requires landed.Some? ==> landed.value in own && Adjusts(landed.value, oid)
    ensures WeightOf(landed, start) == LastWeight(own, oid, start) <==> landed == LastAdjustment(own, oid)
  {
    hide Falling, LastWeight, AdjustedIn;
    LastAdjustmentIs(own, oid, start);
    FallsBelow(own, oid, start);
    if landed.Some? {
      OthersLeaveMore(own, oid, start, landed.value);
    }
  }

  // ---- In every run ----

  /** A landed adjustment is one of the history. */
  lemma {:induction false} LandedIn(h: seq<Event>, oid: string)
    ensures LastLanded(h, oid).Some? ==> LastLanded(h, oid).value in h && Adjusts(LastLanded(h, oid).value, oid)
  {
    hide ProjectAll;
    if h != [] {
      var k := |h| - 1;
      LandedIn(h[..k], oid);
      assert h == h[..k] + [h[k]];
    }
  }

  /** What was projected of an obligation is its creation and its payer's changes. */
  lemma HistoryIsPayers(w: World, h: seq<Event>, oid: string, p: NodeId, c: Event)
    requires Inv(w) && CausalInv(w) && AllEmitted(w, h) && p in w.nodes && SinglePayer(w, oid, p) && IsCreation(w, c, oid)
    ensures OnlyCreation(h, oid, c)
    ensures forall e :: e in h && Changes(e, oid) ==> e in Own(p, w.nodes[p])
  {
    hide Inv, CausalInv, SinglePayer, Own;
    forall i | 0 <= i < |h| && h[i].body.DebtCreated? && h[i].body.oid == oid ensures h[i] == c {
      SameCreation(w, h[i], c);
    }
    forall e | e in h && Changes(e, oid) ensures e in Own(p, w.nodes[p]) {
      var i :| 0 <= i < |h| && h[i] == e;
      if e.source != p {
        NotAPayment(w, p, oid, e);
      }
    }
  }

  lemma CreatorHonest(w: World, c: Event, oid: string)
    requires CausalInv(w) && IsCreation(w, c, oid)
    ensures Honest(c)
  {
    hide Of, NodeCausal, FeedCausal, Honest;
    HonestOne(w, c.source, c);
  }

  lemma HonestOne(w: World, n: NodeId, c: Event)
    requires CausalInv(w) && n in w.nodes && c in Own(n, w.nodes[n])
    ensures Honest(c)
  {
    hide Of, NodeCausal, FeedCausal, Honest;
    var own := Own(n, w.nodes[n]);
    var i :| 0 <= i < |own| && own[i] == c;
    HubLedger.OwnHonest(n, w.nodes[n]);
  }

  /** The comparison of the two rows. */
  lemma RowsCompare(d: Debts, h: seq<Event>, own: seq<Event>, oid: string, c: Event)
    requires d == ProjectAll(map[], h) && OnlyCreation(h, oid, c) && Honest(c) && Falling(own, oid, Born(c).weight)
    requires forall e :: e in h && Changes(e, oid) ==> e in own
    ensures DebtOf(d, oid) == Some(PaidOff(c, own, oid)) <==>
              && CreatedIn(h, oid)
              && (ResolvedIn(own, oid) ==> OnTime(h, oid))
              && (AdjustedIn(own, oid) ==> LastLanded(h, oid) == LastAdjustment(own, oid))
  {
    hide ProjectAll, Falling, OnlyCreation, Honest, LastWeight, CreatedIn, ResolvedIn, AdjustedIn, OnTime;
    HistoryRow(h, oid, c);
    ProjectionShows(h, oid);
    LandedIn(h, oid);
    WeightTells(own, oid, Born(c).weight, LastLanded(h, oid));
    LastAdjustmentIs(own, oid, Born(c).weight);
    if OnTime(h, oid) {
      OnTimeWasPayers(h, own, oid);
    }
    if LastLanded(h, oid).Some? {
      OneAdjusts(own, oid, LastLanded(h, oid).value);
    }
    assert LastAdjustment(own, oid).None? ==> LastLanded(h, oid).None?;
  }

  lemma OneAdjusts(own: seq<Event>, oid: string, e: Event)
    requires e in own && Adjusts(e, oid)
    ensures AdjustedIn(own, oid)
  {
    var i :| 0 <= i < |own| && own[i] == e;
  }

  lemma OnTimeWasPayers(h: seq<Event>, own: seq<Event>, oid: string)
    requires OnTime(h, oid) && forall e :: e in h && Changes(e, oid) ==> e in own
    ensures ResolvedIn(own, oid)
  {
    hide ProjectAll;
    var j :| 0 <= j < |h| && h[j].body == DebtResolved(oid) && oid in ProjectAll(map[], h[..j]);
    assert h[j] in h;
    assert h[j] in own;
    var i :| 0 <= i < |own| && own[i] == h[j];
  }

  /** In every run of careful, positive payments, whatever overlaps or is still on its way: the hub's row of an obligation with a single payer
      equals the payer's row exactly when the creation was projected, some resolution was projected on time if the payer resolved it, and
      the last adjustment that found the row there and open is the payer's last, if the payer adjusted it. */
  lemma PayersRowIff(w0: World, steps: seq<Step>, p: NodeId, oid: string)
    requires Start(w0) && MirrorsDebts(w0.handlers) && Runs(w0, steps) && CarefulRun(w0, steps) && PayingRun(steps)
    requires p in Final(w0, steps).nodes && SinglePayer(Final(w0, steps), oid, p) && oid in Final(w0, steps).nodes[p].table
    ensures var w, h := Final(w0, steps), Projected(w0, steps);
            var own := Own(p, w.nodes[p]);
            DebtOf(w.hub.debts, oid) == RowOf(w.nodes[p].table, oid) <==>
              && CreatedIn(h, oid)
              && (ResolvedIn(own, oid) ==> OnTime(h, oid))
              && (AdjustedIn(own, oid) ==> LastLanded(h, oid) == LastAdjustment(own, oid))
  {
    hide Inv, CausalInv, StatusInv, WeightInv, HubLedger.IndexInv, MirrorsDebts, Runs, Final, CarefulRun, PayingRun, Start, Projected, Own, SinglePayer,
         Falls, CreatedIn, ResolvedIn, AdjustedIn, OnTime, AllEmitted, OnlyCreation, Honest, ProjectAll, Falling, LastLanded, LastAdjustment, EntryInv;
    var w, h := Final(w0, steps), Projected(w0, steps);
    ReachedCarefully(w0, steps);
    StartReady(w0, steps, p, oid);
    RunFalls(w0, steps, p, oid);
    IndexIsProjection(w0, steps);
    assert AllEmitted(w0, []) by { NothingEmitted(w0); }
    ProjectedWasEmitted(w0, steps, []);
    assert [] + h == h;
    assert w.hub.debts == ProjectAll(map[], h) by { EmptyAtStart(w0); }
    var c := PayersCreation(w, p, oid);
    HistoryIsPayers(w, h, oid, p, c);
    CreatorHonest(w, c, oid);
    RowsCompare(w.hub.debts, h, Own(p, w.nodes[p]), oid, c);
  }

  lemma NothingEmitted(w: World)
    ensures AllEmitted(w, [])
  {
  }

  lemma EmptyAtStart(w: World)
    requires Start(w)
    ensures w.hub.debts == map[]
  {
  }

  lemma PayersCreation(w: World, p: NodeId, oid: string) returns (c: Event)
    requires Inv(w) && CausalInv(w) && p in w.nodes && oid in w.nodes[p].table && Falls(p, w.nodes[p], oid)
    ensures IsCreation(w, c, oid) && Falling(Own(p, w.nodes[p]), oid, Born(c).weight)
    ensures RowOf(w.nodes[p].table, oid) == Some(PaidOff(c, Own(p, w.nodes[p]), oid))
  {
    hide Inv, CausalInv, Own, Falling, PaidOff, AdjustsOpen;
    c :| FallsFrom(p, w.nodes[p], oid, c);
    StemsFrom(w, p, c);
  }

  /** Once everything is delivered and applied, the same condition decides whether the hub's row equals every node's row. */
  lemma HubRowAgreesIff(w0: World, steps: seq<Step>, n: NodeId, p: NodeId, oid: string)
    requires Start(w0) && MirrorsDebts(w0.handlers) && Runs(w0, steps) && CarefulRun(w0, steps) && PayingRun(steps)
    requires p in Final(w0, steps).nodes && SinglePayer(Final(w0, steps), oid, p) && oid in Final(w0, steps).nodes[p].table
    requires Settled(Final(w0, steps)) && n in Final(w0, steps).nodes
    ensures var w, h := Final(w0, steps), Projected(w0, steps);
            var own := Own(p, w.nodes[p]);
            DebtOf(w.hub.debts, oid) == RowOf(w.nodes[n].table, oid) <==>
              && CreatedIn(h, oid)
              && (ResolvedIn(own, oid) ==> OnTime(h, oid))
              && (AdjustedIn(own, oid) ==> LastLanded(h, oid) == LastAdjustment(own, oid))
  {
    hide MirrorsDebts, Runs, Final, CarefulRun, Own, SinglePayer, CreatedIn, AdjustedIn, ResolvedIn, Start, PayingRun, Settled, RowOf, DebtOf,
         RowAfter, Projected, OnTime, LastLanded, LastAdjustment;
    PayersRowIff(w0, steps, p, oid);
    WeightsConverge(w0, steps, n, oid, p);
    WeightsConverge(w0, steps, p, oid, p);
  }
}
