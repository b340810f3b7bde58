/**
 What replication delivers, over whole runs: the statements a reader of the protocol wants, drawn
 from the invariant of module Replication.
 */
module Delivery {
  import opened Ids
  import opened Events
  import opened Ledger
  import opened Protocol
  import opened Replication

  lemma Reached(w0: World, steps: seq<Step>)
    requires Start(w0) && Runs(w0, steps)
    ensures Inv(Final(w0, steps))
  {
    hide Inv;
    StartInv(w0);
    RunKeepsInv(w0, steps);
  }

  lemma PrefixTransitive(a: seq<Event>, b: seq<Event>, c: seq<Event>)
    requires a <= b && b <= c
    ensures a <= c
  {
    assert forall i :: 0 <= i < |a| ==> a[i] == b[i] == c[i];
  }

  /** In every interleaving of emits, ticks, lost requests, lost replies, handler failures and restarts, the
      a-events stored on b are a prefix of a's own log, content included, numbered strictly upwards. */
  lemma ReplicaIsPrefix(w0: World, steps: seq<Step>, a: NodeId, b: NodeId)
    requires Start(w0) && Runs(w0, steps)
    requires a in Final(w0, steps).nodes && b in Final(w0, steps).nodes
    ensures var w := Final(w0, steps);
            && Of(w.nodes[b].events, a) <= Own(a, w.nodes[a])
            && Increasing(Nums(Of(w.nodes[b].events, a)))
  {
    hide Inv;
    var w := Final(w0, steps);
    Reached(w0, steps);
    ReplicaIsPrefixNow(w, a, b);
  }

  lemma ReplicaIsPrefixNow(w: World, a: NodeId, b: NodeId)
    requires Inv(w) && a in w.nodes && b in w.nodes
    ensures Of(w.nodes[b].events, a) <= Own(a, w.nodes[a])
    ensures Increasing(Nums(Of(w.nodes[b].events, a)))
  {
    hide Of, Foreign, Vis, Pos, MarksOk, MirrorOk, FlightsOk;
    assert NodeOk(a, w.nodes[a], w.hub.feed, w.handlers);
    assert NodeOk(b, w.nodes[b], w.hub.feed, w.handlers);
    if a != b {
      var rows := Foreign(w.nodes[b].events, b);
      var vis, evs := Vis(w.hub.feed, b), Evs(w.hub.feed);
      EvsVis(w.hub.feed, b);
      assert rows == Evs(vis)[..|rows|];
      OfPrefix(Evs(vis), |rows|, a);
      OfForeign(evs, b, a);
      OfForeign(w.nodes[b].events, b, a);
      PrefixTransitive(Of(w.nodes[b].events, a), Of(evs, a), Own(a, w.nodes[a]));
    }
    PrefixIncreasing(Of(w.nodes[b].events, a), Own(a, w.nodes[a]));
  }

  lemma PrefixIncreasing(s: seq<Event>, t: seq<Event>)
    requires s <= t && Increasing(Nums(t))
    ensures Increasing(Nums(s))
  {
    assert Nums(s) == Nums(t)[..|s|];
  }

  /** However many overlapping or retried pushes of n are being worked off, the feed restricted to n is an in-order
      prefix of n's log, and everything at or below n's push cursor is in it. */
  lemma FeedIsPrefix(w0: World, steps: seq<Step>, n: NodeId)
    requires Start(w0) && Runs(w0, steps) && n in Final(w0, steps).nodes
    ensures var w := Final(w0, steps);
            && Fed(w, n) <= Own(n, w.nodes[n])
            && forall e :: e in Own(n, w.nodes[n]) && e.num <= w.nodes[n].pushCursor ==> e in Evs(w.hub.feed)
  {
    hide Of, MirrorsOk, FlightsOk, FeedOk;
    var w := Final(w0, steps);
    Reached(w0, steps);
    var own, fed := Own(n, w.nodes[n]), Fed(w, n);
    assert NodeOk(n, w.nodes[n], w.hub.feed, w.handlers);
    forall e | e in own && e.num <= w.nodes[n].pushCursor ensures e in Evs(w.hub.feed) {
      var i :| 0 <= i < |own| && own[i] == e;
      var p := Pos(Nums(own), w.nodes[n].pushCursor);
      PosPast(Nums(own), w.nodes[n].pushCursor, i);
      var x := OfIndex(Evs(w.hub.feed), n, i);
      assert Evs(w.hub.feed)[x] == e;
    }
  }

  /** Every feed entry of another node at or below n's hub cursor is stored on n with all its handlers marked applied;
      and at any time the applied handlers of any event are a prefix of its handler list. */
  lemma PassedIsApplied(w0: World, steps: seq<Step>, n: NodeId)
    requires Start(w0) && Runs(w0, steps) && n in Final(w0, steps).nodes
    ensures var w := Final(w0, steps);
            var nd := w.nodes[n];
            && (forall i :: 0 <= i < |Vis(w.hub.feed, n)| && Vis(w.hub.feed, n)[i].hubSeq <= nd.hubCursor ==>
                  var e := Vis(w.hub.feed, n)[i].ev;
                  e in nd.events && AllMarked(nd.marks, e.Id(), Count(w.handlers, e)))
            && (forall id :: MarkedInOrder(nd.marks, id))
  {
    hide Of, Foreign, Vis, LogOk, FlightsOk, MirrorOk, WorkOk;
    var w := Final(w0, steps);
    Reached(w0, steps);
    var nd := w.nodes[n];
    assert NodeOk(n, nd, w.hub.feed, w.handlers);
    var vis, k, rows := Vis(w.hub.feed, n), Passed(n, nd, w.hub.feed), Foreign(nd.events, n);
    VisIncreasing(w.hub.feed, n);
    forall i | 0 <= i < |vis| && vis[i].hubSeq <= nd.hubCursor
      ensures vis[i].ev in nd.events && AllMarked(nd.marks, vis[i].ev.Id(), Count(w.handlers, vis[i].ev))
    {
      PosPast(HubSeqs(vis), nd.hubCursor, i);
      assert rows[i] == vis[i].ev;
      var x := ForeignIndex(nd.events, n, i);
    }
  }

  // ---- A marked handler never runs again ----

  /** How often a handler has run on n. */
  function Times(nd: Node, key: (string, nat)): nat {
    multiset(nd.runs)[key]
  }

  lemma MarkedStays(w: World, s: Step, n: NodeId, key: (string, nat))
    requires Inv(w) && Can(w, s) && n in w.nodes && IsMarked(w.nodes[n].marks, key)
    ensures n in Do(w, s).nodes && IsMarked(Do(w, s).nodes[n].marks, key)
    ensures Times(Do(w, s).nodes[n], key) == Times(w.nodes[n], key)
  {
    hide Inv, Can, Do, IsMarked;
    if s.Handle? || s.HandlerFails? || s.MarkDone? {
      HandlingKeepsMarked(w, s, n, key);
    } else {
      OthersKeepMarks(w, s, n);
    }
  }

  /** Only handling touches marks. */
  lemma OthersKeepMarks(w: World, s: Step, n: NodeId)
    requires Can(w, s) && n in w.nodes && !s.Handle? && !s.HandlerFails? && !s.MarkDone?
    ensures n in Do(w, s).nodes && Do(w, s).nodes[n].marks == w.nodes[n].marks && Do(w, s).nodes[n].runs == w.nodes[n].runs
  {
    hide Of, Foreign, AppendAll, ProjectAll, AppendOne, Project, EventsSince, FeedSince, IsTop, IsTopObligation, Stored, Pos, ObligationId;
  }

  lemma HandlingKeepsMarked(w: World, s: Step, n: NodeId, key: (string, nat))
    requires Inv(w) && Can(w, s) && n in w.nodes && IsMarked(w.nodes[n].marks, key)
    requires s.Handle? || s.HandlerFails? || s.MarkDone?
    ensures n in Do(w, s).nodes && IsMarked(Do(w, s).nodes[n].marks, key)
    ensures Times(Do(w, s).nodes[n], key) == Times(w.nodes[n], key)
  {
    hide Of, Foreign, Vis, LogOk, FlightsOk, MirrorOk, RowsMarked, ReplicaOk, Mirror, Stored, Pos, FeedOk, EventId;
    assert NodeOk(n, w.nodes[n], w.hub.feed, w.handlers);
    assert WorkOk(w.nodes[n], w.handlers);
  }

  /** Once a handler is marked applied, no later part of the run executes it, whatever fails or restarts. */
  lemma {:induction false} MarkedNeverRunsAgain(w: World, steps: seq<Step>, n: NodeId, key: (string, nat))
    requires Inv(w) && Runs(w, steps) && n in w.nodes && IsMarked(w.nodes[n].marks, key)
    ensures n in Final(w, steps).nodes && IsMarked(Final(w, steps).nodes[n].marks, key)
    ensures Times(Final(w, steps).nodes[n], key) == Times(w.nodes[n], key)
    decreases |steps|
  {
    hide Inv, Can, Do;
    if steps != [] {
      MarkedStays(w, steps[0], n, key);
      StepKeepsInv(w, steps[0]);
      MarkedNeverRunsAgain(Do(w, steps[0]), steps[1..], n, key);
    }
  }
}
