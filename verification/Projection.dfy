/**
 The hub's debt index in every run.

 The index is the projection of a history: the events in the order their projecting statements took effect, across overlapping,
 repeated and broken-off pushes.  A resolution takes effect exactly when it finds the row, so the index is right about an obligation
 exactly when some resolution of it was projected on time.
 */
module Projection {
  import opened Wrappers
  import opened Ids
  import opened Events
  import opened Ledger
  import opened Protocol
  import opened Replication
  import opened Causality
  import opened Status
  import opened HubLedger
  import opened PayerIndex
  import opened Traces

  /** What a step projects: the part of a push the hub gets to, or one event of a flight whose statement is not lost. */
  ghost function ProjectedBy(w: World, s: Step): seq<Event>
    requires Can(w, s)
  {
    if s.Push? then Outgoing(s.n, w.nodes[s.n])[..s.materialized]
    else if s.Materialize? && s.saved then [w.flights[s.i].batch[w.flights[s.i].materialized]]
    else []
  }

  /** The projection history of a run. */
  ghost function Projected(w: World, steps: seq<Step>): seq<Event>
    requires Runs(w, steps)
    decreases |steps|
  {
    if steps == [] then [] else ProjectedBy(w, steps[0]) + Projected(Do(w, steps[0]), steps[1..])
  }

  lemma {:induction false} ProjectConcat(d: Debts, a: seq<Event>, b: seq<Event>)
    ensures ProjectAll(d, a + b) == ProjectAll(ProjectAll(d, a), b)
  {
    if b == [] {
      assert a + b == a;
    } else {
      var k := |b| - 1;
      assert (a + b)[..|a| + k] == a + b[..k];
      ProjectConcat(d, a, b[..k]);
    }
  }

  lemma StepProjects(w: World, s: Step)
    requires Can(w, s)
    ensures Do(w, s).hub.debts == ProjectAll(w.hub.debts, ProjectedBy(w, s))
  {
    hide AppendOne, Mirror, Of, Foreign, IsTop, IsTopObligation, FeedSince, EventsSince, Stored, Pos, AppendAll, ObligationId, Project;
    if s.Materialize? && s.saved {
      var e := w.flights[s.i].batch[w.flights[s.i].materialized];
      assert [e][..0] == [];
      assert ProjectAll(w.hub.debts, []) == w.hub.debts;
      assert ProjectAll(w.hub.debts, [e]) == Project(w.hub.debts, e);
    }
  }

  /** In every run, whatever interleaves, repeats or stops, the index is the projection of the run's history. */
  lemma {:induction false} IndexIsProjection(w: World, steps: seq<Step>)
    requires Runs(w, steps)
    ensures Final(w, steps).hub.debts == ProjectAll(w.hub.debts, Projected(w, steps))
    decreases |steps|
  {
    hide Can, Do;
    if steps != [] {
      StepProjects(w, steps[0]);
      IndexIsProjection(Do(w, steps[0]), steps[1..]);
      ProjectConcat(w.hub.debts, ProjectedBy(w, steps[0]), Projected(Do(w, steps[0]), steps[1..]));
    }
  }

  // ---- What the index shows ----

  /** Some resolution of the obligation was projected while the index had its row. */
  ghost predicate OnTime(es: seq<Event>, oid: string) {
    exists j :: 0 <= j < |es| && es[j].body == DebtResolved(oid) && oid in ProjectAll(map[], es[..j])
  }

  lemma OnTimeStep(es: seq<Event>, e: Event, oid: string)
    ensures OnTime(es + [e], oid) <==> OnTime(es, oid) || (e.body == DebtResolved(oid) && oid in ProjectAll(map[], es))
  {
    hide ProjectAll;
    var t := es + [e];
    assert t[..|es|] == es;
    if OnTime(t, oid) {
      var j :| 0 <= j < |t| && t[j].body == DebtResolved(oid) && oid in ProjectAll(map[], t[..j]);
      assert j < |es| ==> t[j] == es[j] && t[..j] == es[..j];
    }
    if OnTime(es, oid) {
      var j :| 0 <= j < |es| && es[j].body == DebtResolved(oid) && oid in ProjectAll(map[], es[..j]);
      assert t[j] == es[j] && t[..j] == es[..j];
    }
    if e.body == DebtResolved(oid) && oid in ProjectAll(map[], es) {
      assert t[|es|] == e;
    }
  }

  lemma {:induction false} ProjectionShows(es: seq<Event>, oid: string)
    ensures var d := ProjectAll(map[], es);
            && (oid in d <==> CreatedIn(es, oid))
            && ((oid in d && !d[oid].open) <==> OnTime(es, oid))
  {
    hide CreatedIn, OnTime;
    if es == [] {
      NothingProjected(oid);
    } else {
      var k := |es| - 1;
      assert es == es[..k] + [es[k]];
      ProjectionShows(es[..k], oid);
      CreatedInStep(es[..k], es[k], oid);
      OnTimeStep(es[..k], es[k], oid);
    }
  }

  lemma NothingProjected(oid: string)
    ensures !CreatedIn([], oid) && !OnTime([], oid)
  {
  }

  /** In every run the index has an obligation exactly when a creation of it was projected, and shows it resolved exactly when
      some resolution of it was projected while its row was there. */
  lemma IndexShows(w0: World, steps: seq<Step>, oid: string)
    requires Start(w0) && Runs(w0, steps)
    ensures var w, h := Final(w0, steps), Projected(w0, steps);
            && (oid in w.hub.debts <==> CreatedIn(h, oid))
            && ((oid in w.hub.debts && !w.hub.debts[oid].open) <==> OnTime(h, oid))
  {
    hide CreatedIn, OnTime, Runs, Final, Projected, ProjectAll;
    IndexIsProjection(w0, steps);
    ProjectionShows(Projected(w0, steps), oid);
  }

  // ---- Everything projected was emitted ----

  ghost predicate AllEmitted(w: World, es: seq<Event>) {
    forall i :: 0 <= i < |es| ==> es[i].source in w.nodes && es[i] in Own(es[i].source, w.nodes[es[i].source])
  }

  lemma OwnSource(n: NodeId, nd: Node, i: nat)
    requires i < |Own(n, nd)|
    ensures Own(n, nd)[i].source == n
  {
    hide Of;
    var x := OfIndex(nd.events, n, i);
  }

  lemma StepEmitted(w: World, s: Step)
    requires Inv(w) && Can(w, s)
    ensures AllEmitted(w, ProjectedBy(w, s))
  {
    hide NodeOk, FeedOk, Of, EventsSince, Pos;
    if s.Push? {
      hide FlightsOk, Inv;
      InvLog(w, s.n);
      OutgoingIsSuffix(s.n, w.nodes[s.n], w.hub.feed);
      forall i | 0 <= i < s.materialized ensures Outgoing(s.n, w.nodes[s.n])[i].source == s.n {
        var lo := |Own(s.n, w.nodes[s.n])| - |Outgoing(s.n, w.nodes[s.n])|;
        OwnSource(s.n, w.nodes[s.n], lo + i);
      }
    } else if s.Materialize? {
      var f := w.flights[s.i];
      assert f.src in w.nodes && FlightOk(f, Own(f.src, w.nodes[f.src]), |Fed(w, f.src)|);
      assert f.batch[f.materialized] == Own(f.src, w.nodes[f.src])[f.lo + f.materialized];
      OwnSource(f.src, w.nodes[f.src], f.lo + f.materialized);
    }
  }

  lemma EmittedStays(w: World, w': World, es: seq<Event>)
    requires AllEmitted(w, es) && w'.nodes.Keys == w.nodes.Keys
    requires forall n :: n in w.nodes ==> Own(n, w.nodes[n]) <= Own(n, w'.nodes[n])
    ensures AllEmitted(w', es)
  {
    hide Own;
    forall i | 0 <= i < |es| ensures es[i] in Own(es[i].source, w'.nodes[es[i].source]) {
      var a, b := Own(es[i].source, w.nodes[es[i].source]), Own(es[i].source, w'.nodes[es[i].source]);
      var k :| 0 <= k < |a| && a[k] == es[i];
      assert b[k] == es[i];
    }
  }

  lemma {:induction false} ProjectedWasEmitted(w: World, steps: seq<Step>, before: seq<Event>)
    requires Inv(w) && Runs(w, steps) && AllEmitted(w, before)
    ensures AllEmitted(Final(w, steps), before + Projected(w, steps))
    decreases |steps|
  {
    hide Inv, Can, Do, AllEmitted, Own;
    if steps == [] {
      assert before + [] == before;
    } else {
      var s := steps[0];
      var w', now := Do(w, s), ProjectedBy(w, s);
      StepEmitted(w, s);
      assert AllEmitted(w, before + now) by { EmittedBoth(w, before, now); }
      LogsGrow(w, s);
      EmittedStays(w, w', before + now);
      StepKeepsInv(w, s);
      ProjectedWasEmitted(w', steps[1..], before + now);
      assert before + now + Projected(w', steps[1..]) == before + (now + Projected(w', steps[1..]));
    }
  }

  lemma EmittedBoth(w: World, a: seq<Event>, b: seq<Event>)
    requires AllEmitted(w, a) && AllEmitted(w, b)
    ensures AllEmitted(w, a + b)
  {
    hide Own;
  }

  /** In every run each row of the index, weight included, is what the history makes of it. */
  lemma IndexRow(w0: World, steps: seq<Step>, oid: string)
    requires Start(w0) && Runs(w0, steps)
    ensures DebtOf(Final(w0, steps).hub.debts, oid) == RowAfter(Projected(w0, steps), oid)
  {
    hide Inv, CausalInv, Runs, Final, Projected, DebtOf, Own;
    var w, h := Final(w0, steps), Projected(w0, steps);
    IndexIsProjection(w0, steps);
    StartInv(w0);
    StartCausal(w0);
    RunKeepsCausal(w0, steps);
    ProjectedWasEmitted(w0, steps, []);
    assert [] + h == h;
    EmittedHonest(w, h);
    ProjectRows(map[], h, oid);
    assert DebtOf(map[], oid) == None by { NoRow(oid); }
  }

  lemma NoRow(oid: string)
    ensures DebtOf(map[], oid) == None
  {
  }

  lemma EmittedHonest(w: World, es: seq<Event>)
    requires CausalInv(w) && AllEmitted(w, es)
    ensures AllHonest(es)
  {
    hide Own, NodeCausal, FeedCausal, Honest;
    forall i | 0 <= i < |es| ensures Honest(es[i]) {
      var n := es[i].source;
      OwnHonest(n, w.nodes[n]);
      var own := Own(n, w.nodes[n]);
      var k :| 0 <= k < |own| && own[k] == es[i];
    }
  }

  // ---- Agreement ----

  /** Once everything is delivered and applied, the hub agrees with a node on whether an obligation is resolved exactly when no
      resolution was emitted or some resolution was projected on time; and it agrees on whether the obligation exists exactly when the
      creation, if there was one, was projected. */
  lemma HubAgreesIff(w0: World, steps: seq<Step>, n: NodeId, oid: string)
    requires Start(w0) && MirrorsDebts(w0.handlers) && Runs(w0, steps)
    requires Settled(Final(w0, steps)) && n in Final(w0, steps).nodes
    ensures var w, h := Final(w0, steps), Projected(w0, steps);
            var t, d := w.nodes[n].table, w.hub.debts;
            && (((oid in d && !d[oid].open) <==> IsResolved(t, oid)) <==> (IsResolved(t, oid) ==> OnTime(h, oid)))
            && ((oid in d <==> oid in t) <==> (oid in t ==> CreatedIn(h, oid)))
            && (IsResolved(t, oid) <==> exists m :: m in w.nodes && ResolvedIn(Own(m, w.nodes[m]), oid))
  {
    hide Inv, Runs, Final, Projected, Settled, MirrorsDebts, OnTime, Own, ProjectAll;
    var w, h := Final(w0, steps), Projected(w0, steps);
    IndexShows(w0, steps, oid);
    StatusConverges(w0, steps, n, oid);
    StartInv(w0);
    ProjectedWasEmitted(w0, steps, []);
    assert [] + h == h;
    if OnTime(h, oid) {
      OnTimeIsResolved(h, oid);
      var i :| 0 <= i < |h| && h[i].body.DebtResolved? && h[i].body.oid == oid;
      var own := Own(h[i].source, w.nodes[h[i].source]);
      var k :| 0 <= k < |own| && own[k] == h[i];
      assert ResolvedIn(own, oid);
    }
    if CreatedIn(h, oid) {
      var i :| 0 <= i < |h| && h[i].body.DebtCreated? && h[i].body.oid == oid;
      var own := Own(h[i].source, w.nodes[h[i].source]);
      var k :| 0 <= k < |own| && own[k] == h[i];
      assert CreatedIn(own, oid);
    }
  }

  lemma OnTimeIsResolved(es: seq<Event>, oid: string)
    requires OnTime(es, oid)
    ensures ResolvedIn(es, oid)
  {
    hide ProjectAll;
  }

  // ---- What is acknowledged was projected ----

  /** No projecting statement fails unnoticed. */
  ghost predicate NothingLost(steps: seq<Step>) {
    forall i :: 0 <= i < |steps| ==> Saves(steps[i])
  }

  predicate Saves(s: Step) {
    s.Materialize? ==> s.saved
  }

  ghost predicate AckedIn(n: NodeId, nd: Node, h: seq<Event>) {
    forall k :: 0 <= k < Acked(n, nd) && k < |Own(n, nd)| ==> Own(n, nd)[k] in h
  }

  /** What a flight has projected, and what its sender's log has before it. */
  ghost predicate FlightIn(f: Flight, own: seq<Event>, h: seq<Event>) {
    && (forall j :: 0 <= j < f.materialized && j < |f.batch| ==> f.batch[j] in h)
    && (forall k :: 0 <= k < f.lo && k < |own| ==> own[k] in h)
  }

  ghost predicate DoneInv(w: World, h: seq<Event>) {
    && (forall n :: n in w.nodes ==> AckedIn(n, w.nodes[n], h))
    && (forall i :: 0 <= i < |w.flights| && w.flights[i].src in w.nodes ==>
          FlightIn(w.flights[i], Own(w.flights[i].src, w.nodes[w.flights[i].src]), h))
  }

  /** A step that leaves flights alone, on each node keeps what is acknowledged, and lengthens history. */
  lemma LongerHistory(w: World, w': World, h: seq<Event>, h': seq<Event>)
    requires Inv(w) && DoneInv(w, h) && h <= h' && w'.nodes.Keys == w.nodes.Keys && w'.flights == w.flights
    requires forall n :: n in w.nodes ==> Own(n, w.nodes[n]) <= Own(n, w'.nodes[n]) && Acked(n, w'.nodes[n]) == Acked(n, w.nodes[n])
    ensures DoneInv(w', h')
  {
    hide Own, Acked, NodeOk, FeedOk;
    forall n | n in w'.nodes ensures AckedIn(n, w'.nodes[n], h') {
      AckedWithin(n, w.nodes[n]);
      assert AckedIn(n, w.nodes[n], h);
      assert forall k :: 0 <= k < |Own(n, w.nodes[n])| ==> Own(n, w'.nodes[n])[k] == Own(n, w.nodes[n])[k];
    }
    forall i | 0 <= i < |w.flights| && w.flights[i].src in w.nodes
      ensures FlightIn(w.flights[i], Own(w.flights[i].src, w'.nodes[w.flights[i].src]), h')
    {
      var f := w.flights[i];
      assert FlightIn(f, Own(f.src, w.nodes[f.src]), h);
      assert FlightOk(f, Own(f.src, w.nodes[f.src]), |Fed(w, f.src)|);
    }
  }

  lemma PushDone(w: World, s: Step, h: seq<Event>)
    requires Inv(w) && Can(w, s) && s.Push? && DoneInv(w, h)
    ensures DoneInv(Do(w, s), h + ProjectedBy(w, s))
  {
    hide Inv, Own, Acked, EventsSince, AppendAll, ProjectAll, Of, Pos;
    var Push(n, gaps, a, x, acked) := s;
    var w', h' := Do(w, s), h + ProjectedBy(w, s);
    assert Pushable(w, n, gaps, a, x, acked);
    PushMoves(w, n, gaps, a, x, acked);
    PushOwn(w, n, gaps, a, x, acked);
    forall m | m in w'.nodes ensures AckedIn(m, w'.nodes[m], h') {
      assert AckedIn(m, w.nodes[m], h);
      if m == n {
        var own, lo, out := Own(n, w.nodes[n]), Acked(n, w.nodes[n]), Outgoing(n, w.nodes[n]);
        OutIsRest(w, n);
        forall k | 0 <= k < Acked(n, w'.nodes[n]) && k < |own| ensures own[k] in h' {
          if k >= lo {
            assert own[k] == out[k - lo];
            assert out[k - lo] in out[..x];
          }
        }
      }
    }
    forall i | 0 <= i < |w'.flights| && w'.flights[i].src in w'.nodes
      ensures FlightIn(w'.flights[i], Own(w'.flights[i].src, w'.nodes[w'.flights[i].src]), h')
    {
      var f := w.flights[i];
      assert FlightIn(f, Own(f.src, w.nodes[f.src]), h);
    }
  }

  lemma OutIsRest(w: World, n: NodeId)
    requires Inv(w) && n in w.nodes
    ensures Acked(n, w.nodes[n]) <= |Own(n, w.nodes[n])| && Outgoing(n, w.nodes[n]) == Own(n, w.nodes[n])[Acked(n, w.nodes[n])..]
  {
    hide Inv, Of, EventsSince, Pos;
    InvLog(w, n);
    OutgoingIsSuffix(n, w.nodes[n], w.hub.feed);
  }

  /** Flights: sending, appending, projecting. */
  lemma FlightDone(w: World, s: Step, h: seq<Event>)
    requires Inv(w) && Can(w, s) && (s.Send? || s.Append? || s.Materialize?) && Saves(s) && DoneInv(w, h)
    ensures DoneInv(Do(w, s), h + ProjectedBy(w, s))
  {
    hide Inv, EventsSince, AppendOne, Project, Of, Pos, AckedIn;
    var w', h' := Do(w, s), h + ProjectedBy(w, s);
    StillIn(h, h');
    forall m | m in w'.nodes ensures AckedIn(m, w'.nodes[m], h') {
      assert AckedIn(m, w.nodes[m], h);
      SameAcked(m, w.nodes[m], w'.nodes[m], h, h');
    }
    forall i | 0 <= i < |w'.flights| && w'.flights[i].src in w'.nodes
      ensures FlightIn(w'.flights[i], Own(w'.flights[i].src, w'.nodes[w'.flights[i].src]), h')
    {
      var f' := w'.flights[i];
      var own := Own(f'.src, w.nodes[f'.src]);
      SameOwn(f'.src, w.nodes[f'.src], w'.nodes[f'.src]);
      if i < |w.flights| {
        var f := w.flights[i];
        assert FlightIn(f, own, h);
        assert f'.batch == f.batch && f'.lo == f.lo;
        forall j | 0 <= j < f'.materialized && j < |f'.batch| ensures f'.batch[j] in h' {
          if j >= f.materialized {
            assert f.batch[f.materialized] == ProjectedBy(w, s)[0];
            assert h'[|h|] == f.batch[j];
          }
        }
      } else {
        assert AckedIn(s.n, w.nodes[s.n], h);
        AckedMeans(s.n, w.nodes[s.n], h);
      }
    }
  }

  lemma SameOwn(n: NodeId, nd: Node, nd': Node)
    requires nd'.events == nd.events
    ensures Own(n, nd') == Own(n, nd)
  {
  }

  lemma AckedMeans(n: NodeId, nd: Node, h: seq<Event>)
    requires AckedIn(n, nd, h)
    ensures forall k :: 0 <= k < Pos(Nums(Own(n, nd)), nd.pushCursor) && k < |Own(n, nd)| ==> Own(n, nd)[k] in h
  {
  }

  lemma SameAcked(n: NodeId, nd: Node, nd': Node, h: seq<Event>, h': seq<Event>)
    requires AckedIn(n, nd, h) && h <= h' && nd'.events == nd.events && nd'.pushCursor == nd.pushCursor
    ensures AckedIn(n, nd', h')
  {
    hide Of, Pos;
    StillIn(h, h');
    assert Acked(n, nd') == Acked(n, nd) && Own(n, nd') == Own(n, nd);
    forall k | 0 <= k < Acked(n, nd') && k < |Own(n, nd')| ensures Own(n, nd')[k] in h' {
      assert Own(n, nd)[k] in h;
    }
  }

  lemma StillIn(h: seq<Event>, h': seq<Event>)
    requires h <= h'
    ensures forall x :: x in h ==> x in h'
  {
    assert forall i :: 0 <= i < |h| ==> h'[i] == h[i];
  }

  lemma AckDone(w: World, n: NodeId, h: seq<Event>)
    requires Inv(w) && Can(w, Ack(n)) && DoneInv(w, h)
    ensures DoneInv(Do(w, Ack(n)), h)
  {
    hide NodeOk, FeedOk, Of, Pos;
    var w', nd := Do(w, Ack(n)), w.nodes[n];
    var f := w.flights[nd.awaiting.value];
    var own := Own(n, nd);
    assert f.src == n && FlightOk(f, own, |Fed(w, n)|) && FlightIn(f, own, h);
    AckMoves(w, n, f);
    forall k | 0 <= k < f.lo + |f.batch| && k < |own| ensures own[k] in h {
      if k >= f.lo {
        assert own[k] == f.batch[k - f.lo];
      }
    }
    forall m | m in w'.nodes ensures AckedIn(m, w'.nodes[m], h) {
      assert AckedIn(m, w.nodes[m], h);
    }
  }

  lemma AckMoves(w: World, n: NodeId, f: Flight)
    requires Inv(w) && n in w.nodes && FlightOk(f, Own(n, w.nodes[n]), |Fed(w, n)|)
    ensures Pos(Nums(Own(n, w.nodes[n])), f.batch[|f.batch| - 1].num) == f.lo + |f.batch|
  {
    hide Inv, Of, Pos;
    InvLog(w, n);
    var own, top := Own(n, w.nodes[n]), f.lo + |f.batch|;
    assert f.batch[|f.batch| - 1] == own[top - 1];
    PosIs(Nums(own), own[top - 1].num, top);
  }

  lemma StepDone(w: World, s: Step, h: seq<Event>)
    requires Inv(w) && Can(w, s) && Saves(s) && DoneInv(w, h)
    ensures DoneInv(Do(w, s), h + ProjectedBy(w, s))
  {
    hide Inv, Can, Do, DoneInv, Own, Acked;
    if s.Push? {
      PushDone(w, s, h);
    } else if s.Send? || s.Append? || s.Materialize? {
      FlightDone(w, s, h);
    } else {
      assert h + ProjectedBy(w, s) == h;
      if s.Ack? {
        AckDone(w, s.n, h);
      } else {
        LogsGrow(w, s);
        FlightsAside(w, s);
        forall n | n in w.nodes ensures Acked(n, Do(w, s).nodes[n]) == Acked(n, w.nodes[n]) {
          AckedStays(w, s, n);
        }
        LongerHistory(w, Do(w, s), h, h);
      }
    }
  }

  lemma FlightsAside(w: World, s: Step)
    requires Can(w, s) && Serial(s)
    ensures Do(w, s).flights == w.flights
  {
    hide AppendOne, Mirror, Of, Foreign, IsTop, IsTopObligation, FeedSince, EventsSince, Stored, Pos, AppendAll, ProjectAll, ObligationId, EventId;
  }

  lemma {:induction false} RunDone(w: World, steps: seq<Step>, h: seq<Event>)
    requires Inv(w) && Runs(w, steps) && NothingLost(steps) && DoneInv(w, h)
    ensures DoneInv(Final(w, steps), h + Projected(w, steps))
    decreases |steps|
  {
    hide Inv, Can, Do, DoneInv, Saves, ProjectedBy;
    if steps == [] {
      assert h + [] == h;
    } else {
      var s := steps[0];
      assert Saves(s);
      StepDone(w, s, h);
      StepKeepsInv(w, s);
      RunDone(Do(w, s), steps[1..], h + ProjectedBy(w, s));
      assert h + ProjectedBy(w, s) + Projected(Do(w, s), steps[1..]) == h + (ProjectedBy(w, s) + Projected(Do(w, s), steps[1..]));
    }
  }

  /** In every run in which no projecting statement fails unnoticed, every event at or below its source's push cursor has
      been projected. */
  lemma AcknowledgedWasProjected(w0: World, steps: seq<Step>, n: NodeId, k: nat)
    requires Start(w0) && Runs(w0, steps) && NothingLost(steps) && n in Final(w0, steps).nodes
    requires k < |Own(n, Final(w0, steps).nodes[n])| && Own(n, Final(w0, steps).nodes[n])[k].num <= Final(w0, steps).nodes[n].pushCursor
    ensures Own(n, Final(w0, steps).nodes[n])[k] in Projected(w0, steps)
  {
    hide Inv, Can, Do, Runs, Final, Projected, NothingLost, Of, Pos;
    StartInv(w0);
    assert DoneInv(w0, []) by { StartDone(w0); }
    RunDone(w0, steps, []);
    assert [] + Projected(w0, steps) == Projected(w0, steps);
    RunKeepsInv(w0, steps);
    var nd := Final(w0, steps).nodes[n];
    InvLog(Final(w0, steps), n);
    assert Nums(Own(n, nd))[k] <= nd.pushCursor;
    PosPast(Nums(Own(n, nd)), nd.pushCursor, k);
    assert AckedIn(n, nd, Projected(w0, steps));
  }

  lemma StartDone(w: World)
    requires Start(w)
    ensures DoneInv(w, [])
  {
  }

  /** So once everything is delivered, applied and acknowledged, the hub has every obligation the nodes have, and the only way it can differ
      on status is a resolution that was always projected too early. */
  lemma HubDiffersOnlyEarly(w0: World, steps: seq<Step>, n: NodeId, oid: string)
    requires Start(w0) && MirrorsDebts(w0.handlers) && Runs(w0, steps) && NothingLost(steps)
    requires Settled(Final(w0, steps)) && n in Final(w0, steps).nodes
    requires forall m :: m in Final(w0, steps).nodes ==>
               Acked(m, Final(w0, steps).nodes[m]) == |Own(m, Final(w0, steps).nodes[m])|
    ensures var w, h := Final(w0, steps), Projected(w0, steps);
            var t, d := w.nodes[n].table, w.hub.debts;
            && (oid in d <==> oid in t)
            && (oid in d && !d[oid].open ==> IsResolved(t, oid))
            && (IsResolved(t, oid) ==> (!d[oid].open <==> OnTime(h, oid)))
  {
    hide Inv, Runs, Final, Projected, Settled, MirrorsDebts, OnTime, Own, ProjectAll, NothingLost, Pos, Acked;
    var w, h := Final(w0, steps), Projected(w0, steps);
    HubAgreesIff(w0, steps, n, oid);
    IndexShows(w0, steps, oid);
    StatusConverges(w0, steps, n, oid);
    if oid in w.nodes[n].table {
      var m :| m in w.nodes && CreatedIn(Own(m, w.nodes[m]), oid);
      var own := Own(m, w.nodes[m]);
      var k :| 0 <= k < |own| && own[k].body.DebtCreated? && own[k].body.oid == oid;
      AllPassed(m, w.nodes[m], k);
      AcknowledgedWasProjected(w0, steps, m, k);
      var j :| 0 <= j < |h| && h[j] == own[k];
      assert CreatedIn(h, oid);
    }
  }

  lemma AllPassed(n: NodeId, nd: Node, k: nat)
    requires Acked(n, nd) == |Own(n, nd)| && k < |Own(n, nd)|
    ensures Own(n, nd)[k].num <= nd.pushCursor
  {
    hide Of;
    assert Nums(Own(n, nd))[k] <= nd.pushCursor;
  }
}
