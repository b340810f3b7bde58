/**
 Causal order and identity of obligations.

 In the feed and on every node, an obligation's debt.created comes before every adjustment and
 resolution of it, even when the payer is another node that learned of the debt through the feed.
 Obligation ids are never used twice, across any number of restarts and failed inserts.
 */
module Causality {
  import opened Ids
  import opened Events
  import opened Ledger
  import opened Protocol
  import opened Replication

  // ---- The invariant ----

  /** True of an id that source has handed out, numbered at most top. */
  ghost predicate Minted(oid: string, source: NodeId, top: nat) {
    exists i: nat :: 1 <= i <= top && oid == ObligationId(source, i)
  }

  ghost predicate MintedBy(oid: string, source: NodeId) {
    exists top: nat :: Minted(oid, source, top)
  }

  /** A debt.created speaks for its own node and names one of its ids. */
  ghost predicate Honest(e: Event) {
    e.body.DebtCreated? ==> e.body.origin == e.source && MintedBy(e.body.oid, e.source)
  }

  ghost predicate AllHonest(s: seq<Event>) {
    forall i :: 0 <= i < |s| ==> Honest(s[i])
  }

  ghost predicate RowOk(n: NodeId, nd: Node, oid: string)
    requires oid in nd.table
  {
    && CreatedIn(nd.events, oid)
    && MintedBy(oid, nd.table[oid].row.source)
    && (nd.table[oid].row.source == n ==> Minted(oid, n, nd.onum))
  }

  ghost predicate RowsOk(n: NodeId, nd: Node) {
    forall oid :: oid in nd.table ==> RowOk(n, nd, oid)
  }

  /** No obligation is created twice in s. */
  ghost predicate CreatedOnce(s: seq<Event>) {
    forall i, j :: 0 <= i < j < |s| && s[i].body.DebtCreated? && s[j].body.DebtCreated? ==> s[i].body.oid != s[j].body.oid
  }

  /** What a node has created is in its table, under its own name. */
  ghost predicate CreatedHere(n: NodeId, nd: Node) {
    && CreatedOnce(Own(n, nd))
    && forall i :: 0 <= i < |Own(n, nd)| && Own(n, nd)[i].body.DebtCreated? ==>
         Own(n, nd)[i].body.oid in nd.table && nd.table[Own(n, nd)[i].body.oid].row.source == n
  }

  ghost predicate NodeCausal(n: NodeId, nd: Node) {
    && ':' !in n
    && Causal(nd.events) && AllHonest(nd.events)
    && RowsOk(n, nd) && CreatedHere(n, nd)
  }

  ghost predicate FeedCausal(feed: seq<Entry>) {
    Causal(Evs(feed)) && AllHonest(Evs(feed))
  }

  ghost predicate CausalInv(w: World) {
    && FeedCausal(w.hub.feed)
    && forall n :: n in w.nodes ==> NodeCausal(n, w.nodes[n])
  }

  // ---- Appending to a log ----

  lemma HonestAppend(s: seq<Event>, e: Event)
    requires AllHonest(s) && Honest(e)
    ensures AllHonest(s + [e])
  {
  }

  lemma MoreEventsKeepRows(n: NodeId, nd: Node, nd': Node)
    requires RowsOk(n, nd) && nd'.table == nd.table && nd'.onum >= nd.onum
    requires forall i :: 0 <= i < |nd.events| ==> nd.events[i] in nd'.events
    ensures RowsOk(n, nd')
  {
    hide MintedBy;
    forall oid | oid in nd'.table ensures RowOk(n, nd', oid) {
      assert RowOk(n, nd, oid);
      CreatedInMonotone(nd.events, nd'.events, oid);
    }
  }

  /** Emitting anything but a debt.created. */
  lemma EmitCausal(n: NodeId, nd: Node, ts: int, body: Body)
    requires NodeCausal(n, nd) && !body.DebtCreated?
    requires body.Follows() ==> CreatedIn(nd.events, body.oid)
    ensures NodeCausal(n, EmitAt(n, nd, ts, body))
  {
    hide Of, Causal, AllHonest, CreatedIn, RowsOk, CreatedHere;
    var e, nd' := Event(n, nd.num + 1, ts, body), EmitAt(n, nd, ts, body);
    CausalAppend(nd.events, e);
    HonestAppend(nd.events, e);
    AppendSelects(nd.events, e, n);
    MoreEventsKeepRows(n, nd, nd');
    OwnCreatedGrows(n, nd, nd', e);
  }

  lemma OwnCreatedGrows(n: NodeId, nd: Node, nd': Node, e: Event)
    requires CreatedHere(n, nd) && Own(n, nd') == Own(n, nd) + [e] && nd'.table == nd.table && !e.body.DebtCreated?
    ensures CreatedHere(n, nd')
  {
    hide Of;
  }

  /** Changing weight or status of a row. */
  lemma UpdateRowCausal(n: NodeId, nd: Node, oid: string, o: Obligation)
    requires NodeCausal(n, nd) && oid in nd.table && o.row.source == nd.table[oid].row.source
    ensures NodeCausal(n, nd.(table := nd.table[oid := o]))
  {
    hide Of, MintedBy, Minted, CreatedIn;
    var nd' := nd.(table := nd.table[oid := o]);
    forall x | x in nd'.table ensures RowOk(n, nd', x) {
      assert RowOk(n, nd, x);
    }
  }

  /** The next obligation id is free. */
  lemma NextIdFree(n: NodeId, nd: Node)
    requires RowsOk(n, nd)
    ensures ObligationId(n, nd.onum + 1) !in nd.table
  {
    var oid := ObligationId(n, nd.onum + 1);
    if oid in nd.table {
      assert RowOk(n, nd, oid);
      var s := nd.table[oid].row.source;
      var top: nat :| Minted(oid, s, top);
      var i: nat :| 1 <= i <= top && oid == ObligationId(s, i);
      ObligationIdInjective(n, nd.onum + 1, s, i);
      var j: nat :| 1 <= j <= nd.onum && oid == ObligationId(n, j);
      ObligationIdInjective(n, nd.onum + 1, n, j);
    }
  }

  lemma CreateCausal(n: NodeId, nd: Node, now: int, ts: int, terms: Terms, weight: int)
    requires NodeCausal(n, nd)
    ensures NodeCausal(n, CreateAt(n, nd, now, ts, terms, weight))
    ensures ObligationId(n, nd.onum + 1) !in nd.table
  {
    hide Of, ObligationId, EventId, Causal, AllHonest, RowsOk, CreatedHere, CreatedIn;
    NextIdFree(n, nd);
    var oid := ObligationId(n, nd.onum + 1);
    var e := Event(n, nd.num + 1, ts, DebtCreated(oid, n, terms, weight));
    var nd' := CreateAt(n, nd, now, ts, terms, weight);
    assert nd'.events == nd.events + [e];
    assert Minted(oid, n, nd.onum + 1);
    CausalAppend(nd.events, e);
    HonestAppend(nd.events, e);
    AppendSelects(nd.events, e, n);
    NewRowOk(n, nd, nd', e);
    OwnCreatesNew(n, nd, nd', e);
  }

  lemma OwnCreatesNew(n: NodeId, nd: Node, nd': Node, e: Event)
    requires CreatedHere(n, nd) && Own(n, nd') == Own(n, nd) + [e]
    requires e.body.DebtCreated? && e.body.oid !in nd.table && e.body.oid in nd'.table && nd'.table[e.body.oid].row.source == n
    requires nd'.table == nd.table[e.body.oid := nd'.table[e.body.oid]]
    ensures CreatedHere(n, nd')
  {
    hide Of;
    var own := Own(n, nd);
    assert forall i :: 0 <= i < |own| && own[i].body.DebtCreated? ==> own[i].body.oid != e.body.oid;
  }

  lemma NewRowOk(n: NodeId, nd: Node, nd': Node, e: Event)
    requires RowsOk(n, nd) && e.body.DebtCreated? && Honest(e) && e.body.oid !in nd.table
    requires e.source == n ==> Minted(e.body.oid, n, nd'.onum)
    requires nd'.events == nd.events + [e] || (nd'.events == nd.events && e in nd.events)
    requires nd'.onum >= nd.onum
    requires exists at: int :: nd'.table == nd.table[e.body.oid := Obligation(Row(e.source, e.body.terms, e.body.weight, true), at)]
    ensures RowsOk(n, nd')
  {
    hide MintedBy;
    forall oid | oid in nd'.table ensures RowOk(n, nd', oid) {
      if oid == e.body.oid {
        var i :| 0 <= i < |nd'.events| && nd'.events[i] == e;
      } else {
        assert RowOk(n, nd, oid);
        CreatedInMonotone(nd.events, nd'.events, oid);
      }
    }
  }

  // ---- The mirror ----

  /** A pulled event that is being applied is in the log already. */
  lemma PendingInLog(w: World, n: NodeId)
    requires Inv(w) && n in w.nodes && Busy(w.nodes[n])
    ensures Pending(w.nodes[n]) in w.nodes[n].events && Pending(w.nodes[n]).source != n
  {
    hide LogOk, FlightsOk, Of, MarksOk, MirrorOk, Foreign, Vis, Pos;
    var nd := w.nodes[n];
    assert NodeOk(n, nd, w.hub.feed, w.handlers);
    var vis, k, rows := Vis(w.hub.feed, n), Passed(n, nd, w.hub.feed), Foreign(nd.events, n);
    assert rows[k] == Evs(vis[..k + 1])[k] == vis[k].ev == Pending(nd);
    var x := ForeignIndex(nd.events, n, k);
  }

  lemma MirrorCausal(n: NodeId, nd: Node, e: Event)
    requires NodeCausal(n, nd) && e in nd.events && e.source != n
    ensures NodeCausal(n, nd.(table := Mirror(nd.table, e)))
  {
    hide Of, MintedBy, Minted, Causal;
    var nd' := nd.(table := Mirror(nd.table, e));
    var i :| 0 <= i < |nd.events| && nd.events[i] == e;
    assert Honest(nd.events[i]);
    if e.body.DebtCreated? && e.body.oid !in nd.table {
      assert nd'.table == nd.table[e.body.oid := Obligation(Row(e.source, e.body.terms, e.body.weight, true), e.ts)];
      NewRowOk(n, nd, nd', e);
    } else if nd'.table != nd.table {
      UpdateRowCausal(n, nd, e.body.oid, nd'.table[e.body.oid]);
    } else {
      assert nd' == nd;
    }
  }

  // ---- The feed ----

  /** Everything a node stored before its next event to be fed is in the feed already. */
  lemma EarlierIsFed(w: World, n: NodeId, oid: string)
    requires Inv(w) && n in w.nodes && |Fed(w, n)| < |Own(n, w.nodes[n])|
    requires NodeCausal(n, w.nodes[n])
    requires var b := Own(n, w.nodes[n])[|Fed(w, n)|].body; b.Follows() && b.oid == oid
    ensures CreatedIn(Evs(w.hub.feed), oid)
  {
    hide FlightsOk, Of, MarksOk, MirrorOk, Foreign, Vis, Pos, OwnOk, RowsOk, CreatedHere, AllHonest;
    var nd, evs := w.nodes[n], Evs(w.hub.feed);
    assert NodeOk(n, nd, w.hub.feed, w.handlers);
    var own, fc := Own(n, nd), |Fed(w, n)|;
    var x := OfIndex(nd.events, n, fc);
    assert CreatedIn(nd.events[..x], oid);
    var i :| 0 <= i < x && nd.events[i].body.DebtCreated? && nd.events[i].body.oid == oid;
    var c := nd.events[i];
    assert c == nd.events[..x][i];
    OfComplete(nd.events[..x], c);
    if c.source == n {
      assert Of(nd.events[..x], n) == Fed(w, n);
      var j :| 0 <= j < fc && Fed(w, n)[j] == c;
      var y := OfIndex(evs, n, j);
    } else {
      OfComplete(nd.events, c);
      var rows, vis := Foreign(nd.events, n), Vis(w.hub.feed, n);
      var j :| 0 <= j < |rows| && rows[j] == c;
      assert vis[j].ev == c;
      var y := VisIndex(w.hub.feed, n, j);
      assert evs[y] == c;
    }
  }

  lemma AppendOneCausal(w: World, n: NodeId, x: nat, gap: nat)
    requires Inv(w) && CausalInv(w) && n in w.nodes && x < |Own(n, w.nodes[n])| && x <= |Fed(w, n)|
    ensures CausalInv(w.(hub := w.hub.(feed := AppendOne(w.hub.feed, Own(n, w.nodes[n])[x], gap))))
  {
    hide Inv, LogOk, Of, NodeCausal, FeedCausal, Honest, Stored, EventId, CreatedIn, AppendOne, Evs;
    var nd, feed := w.nodes[n], w.hub.feed;
    var e := Own(n, nd)[x];
    InvLog(w, n);
    StoredInFeed(n, nd, feed, x);
    assert NodeCausal(n, nd);
    if !Stored(Evs(feed), e.Id()) {
      var z := OfIndex(nd.events, n, x);
      LogHonest(n, nd, z);
      if e.body.Follows() {
        EarlierIsFed(w, n, e.body.oid);
      }
    }
    FeedTakes(feed, e, gap);
  }

  lemma FeedTakes(feed: seq<Entry>, e: Event, gap: nat)
    requires FeedCausal(feed)
    requires !Stored(Evs(feed), e.Id()) ==> Honest(e) && (e.body.Follows() ==> CreatedIn(Evs(feed), e.body.oid))
    ensures FeedCausal(AppendOne(feed, e, gap))
  {
    hide Stored, EventId, Causal, AllHonest, Honest, CreatedIn, Evs;
    if !Stored(Evs(feed), e.Id()) {
      AppendVis(feed, Entry(Head(feed) + 1 + gap, e), e.source);
      CausalAppend(Evs(feed), e);
      HonestAppend(Evs(feed), e);
    }
  }

  lemma LogHonest(n: NodeId, nd: Node, z: nat)
    requires NodeCausal(n, nd) && z < |nd.events|
    ensures Honest(nd.events[z])
  {
    hide Of, Causal, RowsOk, CreatedHere, Honest;
  }

  lemma InvLog(w: World, n: NodeId)
    requires Inv(w) && n in w.nodes
    ensures LogOk(n, w.nodes[n], w.hub.feed)
  {
    hide LogOk, MirrorsOk, FlightsOk, FeedOk;
    assert NodeOk(n, w.nodes[n], w.hub.feed, w.handlers);
  }

  lemma {:induction false} AppendAllCausal(w: World, n: NodeId, lo: nat, es: seq<Event>, gaps: seq<nat>)
    requires Inv(w) && CausalInv(w) && n in w.nodes && |gaps| == |es|
    requires lo <= |Fed(w, n)| && lo + |es| <= |Own(n, w.nodes[n])| && es == Own(n, w.nodes[n])[lo..lo + |es|]
    ensures CausalInv(w.(hub := w.hub.(feed := AppendAll(w.hub.feed, es, gaps))))
  {
    hide Inv, Of, AppendOne, CausalInv;
    if es == [] {
      assert w.(hub := w.hub.(feed := w.hub.feed)) == w;
    } else {
      var k := |es| - 1;
      AppendAllCausal(w, n, lo, es[..k], gaps[..k]);
      AppendAllKeepsInv(w, n, lo, es[..k], gaps[..k]);
      var w1 := w.(hub := w.hub.(feed := AppendAll(w.hub.feed, es[..k], gaps[..k])));
      AppendOneCausal(w1, n, lo + k, gaps[k]);
      assert es[k] == Own(n, w.nodes[n])[lo + k];
    }
  }

  /** The feed holds the creation when it holds what follows, so the puller has it too. */
  lemma BeginCausal(w: World, n: NodeId)
    requires Inv(w) && CausalInv(w) && n in w.nodes && w.nodes[n].inbox != []
    ensures NodeCausal(n, BeginAt(w.nodes[n]))
  {
    hide LogOk, FlightsOk, FeedOk, MirrorsOk, Of, Vis, Foreign, CreatedHere, RowsOk, Causal, Pos;
    var nd := w.nodes[n];
    PendingStored(w, n);
    assert NodeCausal(n, nd);
    if !Stored(nd.events, Pending(nd).Id()) {
      var e := Pending(nd);
      PulledFollows(w, n);
      PulledHonest(w, n);
      CausalAppend(nd.events, e);
      HonestAppend(nd.events, e);
      AppendSelects(nd.events, e, n);
      MoreEventsKeepRows(n, nd, BeginAt(nd));
      SameOwnCreated(n, nd, BeginAt(nd));
    } else {
      MoreEventsKeepRows(n, nd, BeginAt(nd));
      SameOwnCreated(n, nd, BeginAt(nd));
    }
  }

  lemma SameOwnCreated(n: NodeId, nd: Node, nd': Node)
    requires CreatedHere(n, nd) && Own(n, nd') == Own(n, nd) && nd'.table == nd.table
    ensures CreatedHere(n, nd')
  {
  }

  lemma PulledHonest(w: World, n: NodeId)
    requires Inv(w) && CausalInv(w) && n in w.nodes && w.nodes[n].inbox != []
    ensures Honest(Pending(w.nodes[n]))
  {
    hide LogOk, FlightsOk, FeedOk, MirrorsOk, Of, Vis, Foreign, NodeCausal, Causal, Honest, Pos;
    PendingStored(w, n);
    var y := VisIndex(w.hub.feed, n, Passed(n, w.nodes[n], w.hub.feed));
    assert Honest(Evs(w.hub.feed)[y]);
  }

  lemma PulledFollows(w: World, n: NodeId)
    requires Inv(w) && CausalInv(w) && n in w.nodes && w.nodes[n].inbox != []
    requires !Stored(w.nodes[n].events, Pending(w.nodes[n]).Id())
    ensures Pending(w.nodes[n]).body.Follows() ==> CreatedIn(w.nodes[n].events, Pending(w.nodes[n]).body.oid)
  {
    hide FlightsOk, Of, MarksOk, MirrorOk, Foreign, Vis, Pos, OwnOk, NodeCausal, AllHonest, Stored, EventId, FeedOk;
    PendingStored(w, n);
    var nd, feed, evs := w.nodes[n], w.hub.feed, Evs(w.hub.feed);
    assert NodeOk(n, nd, feed, w.handlers);
    var e, k, rows, vis := Pending(nd), Passed(n, nd, feed), Foreign(nd.events, n), Vis(feed, n);
    if e.body.Follows() {
      var y := VisIndex(feed, n, k);
      assert evs[y] == e;
      assert CreatedIn(evs[..y], e.body.oid);
      var i :| 0 <= i < y && evs[i].body.DebtCreated? && evs[i].body.oid == e.body.oid;
      var c := evs[i];
      assert evs[..y] == Evs(feed[..y]) && c == evs[..y][i];
      OfComplete(evs[..y], c);
      if c.source == n {
        OfComplete(evs, c);
        var j :| 0 <= j < |Of(evs, n)| && Of(evs, n)[j] == c;
        var z := OfIndex(nd.events, n, j);
      } else {
        EvsVis(feed[..y], n);
        var j :| 0 <= j < |Foreign(evs[..y], n)| && Foreign(evs[..y], n)[j] == c;
        assert Evs(vis[..k])[j] == c;
        assert rows[j] == c;
        var z := ForeignIndex(nd.events, n, j);
      }
    }
  }

  // ---- Restarting ----

  lemma RestartCausal(n: NodeId, nd: Node, num: nat, onum: nat)
    requires NodeCausal(n, nd) && IsTopObligation(nd.table, n, onum)
    ensures NodeCausal(n, RestartAt(nd, num, onum))
  {
    hide Of, Causal, AllHonest, CreatedIn;
    var nd' := RestartAt(nd, num, onum);
    ColonFreeHasNoMark(n);
    forall oid | oid in nd'.table ensures RowOk(n, nd', oid) {
      assert RowOk(n, nd, oid);
      if nd.table[oid].row.source == n {
        var i: nat :| 1 <= i <= nd.onum && oid == ObligationId(n, i);
        RecoverWithoutMark(n, i);
        assert RecoverSuffix(oid) <= onum;
      }
    }
  }

  // ---- Every step, every run ----

  /** Changing one node. */
  lemma SwapCausal(w: World, n: NodeId, nd: Node)
    requires CausalInv(w) && n in w.nodes && NodeCausal(n, nd)
    ensures CausalInv(SetNode(w, n, nd))
  {
    hide NodeCausal, FeedCausal;
  }

  /** Fields the causal invariant does not look at. */
  lemma SameCausal(n: NodeId, nd: Node, nd': Node)
    requires NodeCausal(n, nd) && nd'.events == nd.events && nd'.table == nd.table && nd'.onum >= nd.onum
    ensures NodeCausal(n, nd')
  {
    hide Of, Causal, AllHonest;
    MoreEventsKeepRows(n, nd, nd');
  }

  lemma LocalKeepsCausal(w: World, s: Step)
    requires CausalInv(w) && Can(w, s)
    requires s.Emit? || s.EmitFails? || s.Create? || s.CreateFails? || s.Resolve? || s.Adjust?
    ensures CausalInv(Do(w, s))
  {
    hide NodeCausal, FeedCausal, CreatedIn;
    var n := s.n;
    var nd := w.nodes[n];
    assert NodeCausal(n, nd);
    match s
    case Emit(_, ts, body) => EmitCausal(n, nd, ts, body); SwapCausal(w, n, EmitAt(n, nd, ts, body));
    case EmitFails(_) => SameCausal(n, nd, nd.(num := nd.num + 1)); SwapCausal(w, n, nd.(num := nd.num + 1));
    case CreateFails(_) => SameCausal(n, nd, nd.(onum := nd.onum + 1)); SwapCausal(w, n, nd.(onum := nd.onum + 1));
    case Create(_, now, ts, terms, weight) =>
      CreateCausal(n, nd, now, ts, terms, weight);
      SwapCausal(w, n, CreateAt(n, nd, now, ts, terms, weight));
    case Resolve(_, oid, ts) =>
      var o := nd.table[oid];
      PayCausal(n, nd, oid, o.(row := o.row.(open := false)), ts, DebtResolved(oid));
      SwapCausal(w, n, ResolveAt(n, nd, oid, ts));
    case Adjust(_, oid, seen, amount, ts) =>
      var o := nd.table[oid];
      PayCausal(n, nd, oid, o.(row := o.row.(weight := o.row.weight - amount)), ts, DebtAdjusted(oid, seen, seen - amount));
      SwapCausal(w, n, AdjustAt(n, nd, oid, seen, amount, ts));
    case _ =>
  }

  lemma PayCausal(n: NodeId, nd: Node, oid: string, o: Obligation, ts: int, body: Body)
    requires NodeCausal(n, nd) && oid in nd.table && o.row.source == nd.table[oid].row.source
    requires body.Follows() && body.oid == oid
    ensures NodeCausal(n, EmitAt(n, nd.(table := nd.table[oid := o]), ts, body))
  {
    hide Of, Causal, AllHonest, CreatedIn, MintedBy;
    assert RowOk(n, nd, oid);
    UpdateRowCausal(n, nd, oid, o);
    EmitCausal(n, nd.(table := nd.table[oid := o]), ts, body);
  }

  lemma PushCausal(w: World, n: NodeId, gaps: seq<nat>, a: nat, x: nat, acked: bool)
    requires Inv(w) && CausalInv(w) && n in w.nodes && a <= |gaps| && x <= |gaps| && (acked ==> a == |gaps|)
    requires |gaps| == |Outgoing(n, w.nodes[n])| && Outgoing(n, w.nodes[n]) != []
    ensures CausalInv(PushAt(w, n, gaps, a, x, acked))
  {
    hide Inv, Of, FeedCausal, NodeCausal, Pos, EventsSince, AppendAll, ProjectAll, Can, Do;
    var nd, out := w.nodes[n], Outgoing(n, w.nodes[n]);
    InvLog(w, n);
    OutgoingIsSuffix(n, nd, w.hub.feed);
    var lo := Pos(Nums(Own(n, nd)), nd.pushCursor);
    assert out[..a] == Own(n, nd)[lo..lo + a];
    AppendAllCausal(w, n, lo, out[..a], gaps[..a]);
    var w1 := HubAfterPush(w, out, gaps, a, x);
    var nd' := PushAt(w, n, gaps, a, x, acked).nodes[n];
    SameCausal(n, nd, nd');
    SwapCausal(w1, n, nd');
  }

  lemma HandleCausal(w: World, n: NodeId, h: Handler)
    requires Inv(w) && CausalInv(w) && n in w.nodes && Busy(w.nodes[n])
    ensures NodeCausal(n, HandlerAt(n, w.nodes[n], h))
  {
    hide Inv, FeedCausal, Mirror, Of, Foreign;
    var nd, nd' := w.nodes[n], HandlerAt(n, w.nodes[n], h);
    assert NodeCausal(n, nd);
    PendingInLog(w, n);
    MirrorCausal(n, nd, Pending(nd));
    if !Skips(nd) && h.MirrorDebt? {
      SameCausal(n, nd.(table := Mirror(nd.table, Pending(nd))), nd');
    } else {
      SameCausal(n, nd, nd');
    }
  }

  lemma StepKeepsCausal(w: World, s: Step)
    requires Inv(w) && CausalInv(w) && Can(w, s)
    ensures CausalInv(Do(w, s))
  {
    hide Inv, NodeCausal, FeedCausal, AppendOne, Mirror, Of, Foreign, IsTop, IsTopObligation, FeedSince, EventsSince, Stored, Pos;
    match s
    case Send(n) => SameCausal(n, w.nodes[n], Do(w, s).nodes[n]);
    case Append(i, gap) => FlightCausal(w, i, gap);
    case Materialize(_, _) =>
    case Ack(n) => SameCausal(n, w.nodes[n], Do(w, s).nodes[n]);
    case Push(n, gaps, a, x, acked) => PushCausal(w, n, gaps, a, x, acked);
    case Pull(n) => SameCausal(n, w.nodes[n], Do(w, s).nodes[n]);
    case Begin(n) => BeginCausal(w, n);
    case Handle(n) => HandleCausal(w, n, Todo(w, n)[w.nodes[n].work.idx]);
    case HandlerFails(n, recorded) => SameCausal(n, w.nodes[n], Do(w, s).nodes[n]);
    case MarkDone(n) => SameCausal(n, w.nodes[n], Do(w, s).nodes[n]);
    case Finish(n) => SameCausal(n, w.nodes[n], Do(w, s).nodes[n]);
    case Abort(n) => SameCausal(n, w.nodes[n], Do(w, s).nodes[n]);
    case Restart(n, num, onum) => RestartCausal(n, w.nodes[n], num, onum);
    case _ => LocalKeepsCausal(w, s);
  }

  lemma FlightCausal(w: World, i: nat, gap: nat)
    requires Inv(w) && CausalInv(w) && i < |w.flights| && w.flights[i].appended < |w.flights[i].batch|
    ensures FeedCausal(AppendOne(w.hub.feed, w.flights[i].batch[w.flights[i].appended], gap))
  {
    hide NodeOk, FeedOk, Of, AppendOne, NodeCausal, FeedCausal;
    var f := w.flights[i];
    assert FlightOk(f, Own(f.src, w.nodes[f.src]), |Fed(w, f.src)|);
    assert f.batch[f.appended] == Own(f.src, w.nodes[f.src])[f.lo + f.appended];
    AppendOneCausal(w, f.src, f.lo + f.appended, gap);
  }

  lemma StartCausal(w: World)
    requires Start(w)
    ensures CausalInv(w)
  {
  }

  lemma {:induction false} RunKeepsCausal(w: World, steps: seq<Step>)
    requires Inv(w) && CausalInv(w) && Runs(w, steps)
    ensures Inv(Final(w, steps)) && CausalInv(Final(w, steps))
    decreases |steps|
  {
    hide Inv, CausalInv, Can, Do;
    if steps != [] {
      StepKeepsInv(w, steps[0]);
      StepKeepsCausal(w, steps[0]);
      RunKeepsCausal(Do(w, steps[0]), steps[1..]);
    }
  }

  /** In every reachable feed and on every node, what changes an obligation comes after what made it. */
  lemma CausalOrder(w0: World, steps: seq<Step>)
    requires Start(w0) && Runs(w0, steps)
    ensures var w := Final(w0, steps);
            && Causal(Evs(w.hub.feed))
            && forall n :: n in w.nodes ==> Causal(w.nodes[n].events)
  {
    hide Inv, Can, Do, Causal;
    StartInv(w0);
    StartCausal(w0);
    RunKeepsCausal(w0, steps);
    assert forall n :: n in Final(w0, steps).nodes ==> NodeCausal(n, Final(w0, steps).nodes[n]);
  }

  /** In every reachable table the node's own obligation ids read back as the numbers they were made with. */
  lemma OwnIdsReadBack(w0: World, steps: seq<Step>, n: NodeId, oid: string)
    requires Start(w0) && Runs(w0, steps) && n in Final(w0, steps).nodes
    requires oid in Final(w0, steps).nodes[n].table && Final(w0, steps).nodes[n].table[oid].row.source == n
    ensures 1 <= RecoverSuffix(oid) <= Final(w0, steps).nodes[n].onum && oid == ObligationId(n, RecoverSuffix(oid))
  {
    hide Inv, Can, Do, Causal, AllHonest, CreatedHere, CreatedIn, ObligationId, RecoverSuffix, Runs, Final;
    StartInv(w0);
    StartCausal(w0);
    RunKeepsCausal(w0, steps);
    var nd := Final(w0, steps).nodes[n];
    assert NodeCausal(n, nd);
    assert RowOk(n, nd, oid);
    var i: nat :| 1 <= i <= nd.onum && oid == ObligationId(n, i);
    ColonFreeHasNoMark(n);
    RecoverWithoutMark(n, i);
  }

  /** No event id and no obligation id is ever used twice, on one node or across nodes. */
  lemma IdsNeverReused(w0: World, steps: seq<Step>, a: NodeId, i: nat, b: NodeId, j: nat)
    requires Start(w0) && Runs(w0, steps)
    requires a in Final(w0, steps).nodes && i < |Own(a, Final(w0, steps).nodes[a])|
    requires b in Final(w0, steps).nodes && j < |Own(b, Final(w0, steps).nodes[b])|
    ensures var x, y := Own(a, Final(w0, steps).nodes[a])[i], Own(b, Final(w0, steps).nodes[b])[j];
            && (x.Id() == y.Id() ==> a == b && i == j)
            && (x.body.DebtCreated? && y.body.DebtCreated? && x.body.oid == y.body.oid ==> a == b && i == j)
  {
    hide Inv, Can, Do, Causal, Of, EventId, ObligationId;
    StartInv(w0);
    StartCausal(w0);
    RunKeepsCausal(w0, steps);
    var w := Final(w0, steps);
    var x, y := Own(a, w.nodes[a])[i], Own(b, w.nodes[b])[j];
    var p := OfIndex(w.nodes[a].events, a, i);
    var q := OfIndex(w.nodes[b].events, b, j);
    if x.Id() == y.Id() {
      SameId(x, y);
      InvLog(w, a);
      assert Nums(Own(a, w.nodes[a]))[i] == Nums(Own(a, w.nodes[a]))[j];
    }
    if x.body.DebtCreated? && y.body.DebtCreated? && x.body.oid == y.body.oid {
      assert NodeCausal(a, w.nodes[a]) && NodeCausal(b, w.nodes[b]);
      assert Honest(w.nodes[a].events[p]) && Honest(w.nodes[b].events[q]);
      MintedOnce(x.body.oid, a, b);
    }
  }

  lemma MintedOnce(oid: string, a: NodeId, b: NodeId)
    requires MintedBy(oid, a) && MintedBy(oid, b)
    ensures a == b
  {
    var s: nat :| Minted(oid, a, s);
    var t: nat :| Minted(oid, b, t);
    var i: nat :| 1 <= i <= s && oid == ObligationId(a, i);
    var j: nat :| 1 <= j <= t && oid == ObligationId(b, j);
    ObligationIdInjective(a, i, b, j);
  }

  // ---- Creations are unique in every log ----

  /** Two creations of one obligation that both stem from logs of the world are the same event. */
  lemma SameCreation(w: World, c: Event, d: Event)
    requires Inv(w) && CausalInv(w)
    requires c.source in w.nodes && c in Own(c.source, w.nodes[c.source])
    requires d.source in w.nodes && d in Own(d.source, w.nodes[d.source])
    requires c.body.DebtCreated? && d.body.DebtCreated? && c.body.oid == d.body.oid
    ensures c == d
  {
    hide Inv, FeedCausal, Causal, Of, RowsOk, MintedBy;
    assert NodeCausal(c.source, w.nodes[c.source]) && NodeCausal(d.source, w.nodes[d.source]);
    var own := Own(c.source, w.nodes[c.source]);
    var i :| 0 <= i < |own| && own[i] == c;
    var p := OfIndex(w.nodes[c.source].events, c.source, i);
    var own2 := Own(d.source, w.nodes[d.source]);
    var j :| 0 <= j < |own2| && own2[j] == d;
    var q := OfIndex(w.nodes[d.source].events, d.source, j);
    assert Honest(w.nodes[c.source].events[p]) && Honest(w.nodes[d.source].events[q]);
    MintedOnce(c.body.oid, c.source, d.source);
  }
}
