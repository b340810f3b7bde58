/**
 When pushes are handled one at a time and none stops part way, the hub's debt index says at all times what its feed says: which
 obligations exist, which are resolved, and, with one payer per obligation, what they weigh.
 */
module CalmHub {
  import opened Wrappers
  import opened Ids
  import opened Events
  import opened Ledger
  import opened Protocol
  import opened Replication
  import opened Causality
  import opened Status
  import opened Weights
  import opened HubLedger

  /** Pushes are handled one at a time, each wholly or not at all. */
  predicate Calm(s: Step) {
    Serial(s) && (s.Push? ==> s.appended == s.materialized && (s.appended == 0 || s.appended == |s.gaps|))
  }

  ghost predicate CalmRun(steps: seq<Step>) {
    forall i :: 0 <= i < |steps| ==> Calm(steps[i])
  }

  ghost predicate IndexStatusOk(debts: Debts, evs: seq<Event>) {
    forall oid :: (oid in debts <==> CreatedIn(evs, oid)) && (oid in debts && !debts[oid].open <==> ResolvedIn(evs, oid))
  }

  ghost predicate IndexWeightsOk(w: World) {
    forall oid, p :: SinglePayer(w, oid, p) ==> DebtOf(w.hub.debts, oid) == RowAfter(Evs(w.hub.feed), oid)
  }

  // ---- What a whole push does to the feed ----

  /** One event of n's log is appended exactly when the feed has all that come before it and not it. */
  lemma AppendOneExact(n: NodeId, nd: Node, feed: seq<Entry>, x: nat, gap: nat)
    requires LogOk(n, nd, feed) && x < |Own(n, nd)|
    ensures Evs(AppendOne(feed, Own(n, nd)[x], gap)) == Evs(feed) + (if x < |Of(Evs(feed), n)| then [] else [Own(n, nd)[x]])
  {
    hide LogOk, Of, Stored;
    StoredInFeed(n, nd, feed, x);
    if x >= |Of(Evs(feed), n)| {
      AppendVis(feed, Entry(Head(feed) + 1 + gap, Own(n, nd)[x]), n);
    }
  }

  lemma {:induction false} AppendAllExact(w: World, n: NodeId, lo: nat, es: seq<Event>, gaps: seq<nat>)
    requires Inv(w) && n in w.nodes && |gaps| == |es|
    requires lo <= |Fed(w, n)| && lo + |es| <= |Own(n, w.nodes[n])| && es == Own(n, w.nodes[n])[lo..lo + |es|]
    ensures var fed, hi := |Fed(w, n)|, lo + |es|;
            Evs(AppendAll(w.hub.feed, es, gaps)) == Evs(w.hub.feed) + (if fed < hi then Own(n, w.nodes[n])[fed..hi] else [])
  {
    hide Inv, LogOk, Of, AppendOne, Own;
    var own, fed := Own(n, w.nodes[n]), |Fed(w, n)|;
    if es != [] {
      var k := |es| - 1;
      AppendAllExact(w, n, lo, es[..k], gaps[..k]);
      AppendAllKeepsInv(w, n, lo, es[..k], gaps[..k]);
      var feed1 := AppendAll(w.hub.feed, es[..k], gaps[..k]);
      InvLog(w.(hub := w.hub.(feed := feed1)), n);
      AppendOneExact(n, w.nodes[n], feed1, lo + k, gaps[k]);
      if fed < lo + k {
        assert own[fed..lo + k] + [own[lo + k]] == own[fed..lo + k + 1];
      }
    }
  }

  lemma SuffixLength(own: seq<Event>, lo: nat, out: seq<Event>)
    requires lo <= |own| && out == own[lo..]
    ensures lo + |out| == |own|
  {
  }

  /** A whole push appends exactly the part of the log the feed did not have. */
  lemma WholePushFeed(w: World, n: NodeId, gaps: seq<nat>, acked: bool)
    requires Inv(w) && Pushable(w, n, gaps, |gaps|, |gaps|, acked)
    ensures var own := Own(n, w.nodes[n]);
            && |Fed(w, n)| <= |own| && Fed(w, n) == own[..|Fed(w, n)|]
            && Acked(n, w.nodes[n]) <= |Fed(w, n)|
            && Evs(PushAt(w, n, gaps, |gaps|, |gaps|, acked).hub.feed) == Evs(w.hub.feed) + own[|Fed(w, n)|..]
  {
    hide Inv, Of, EventsSince, AppendAll, ProjectAll, Can, Do, Pos;
    var nd, own, out := w.nodes[n], Own(n, w.nodes[n]), Outgoing(n, w.nodes[n]);
    var lo := Acked(n, nd);
    InvLog(w, n);
    OutgoingIsSuffix(n, nd, w.hub.feed);
    assert out[..|gaps|] == out && gaps[..|gaps|] == gaps;
    assert out == own[lo..lo + |out|];
    AppendAllExact(w, n, lo, out, gaps);
    assert PushAt(w, n, gaps, |gaps|, |gaps|, acked).hub.feed == AppendAll(w.hub.feed, out, gaps);
    assert LogOk(n, nd, w.hub.feed);
    assert lo + |out| == |own| by {
      SuffixLength(own, lo, out);
    }
    assert own[..|own|] == own;
    assert own[|Fed(w, n)|..|own|] == own[|Fed(w, n)|..];
    assert |Fed(w, n)| == |own| ==> own[|Fed(w, n)|..] == [];
  }

  // ---- Status ----

  lemma ConcatIn(a: seq<Event>, b: seq<Event>, oid: string)
    ensures CreatedIn(a + b, oid) <==> CreatedIn(a, oid) || CreatedIn(b, oid)
    ensures ResolvedIn(a + b, oid) <==> ResolvedIn(a, oid) || ResolvedIn(b, oid)
  {
    if b == [] {
      assert a + b == a;
    } else {
      var k := |b| - 1;
      assert a + b == (a + b[..k]) + [b[k]];
      assert b == b[..k] + [b[k]];
      ConcatIn(a, b[..k], oid);
      CreatedInStep(a + b[..k], b[k], oid);
      CreatedInStep(b[..k], b[k], oid);
    }
  }

  /** Applying es to a row whose existence and status are those of evs. */
  lemma {:induction false} StatusOfEffects(r: Option<Row>, evs: seq<Event>, es: seq<Event>, oid: string)
    requires r.Some? <==> CreatedIn(evs, oid)
    requires r.Some? && !r.value.open <==> ResolvedIn(evs, oid)
    requires forall j :: 0 <= j < |es| && Changes(es[j], oid) ==> CreatedIn(evs, oid) || CreatedIn(es[..j], oid)
    ensures var q := Effects(r, es, oid);
            && (q.Some? <==> CreatedIn(evs, oid) || CreatedIn(es, oid))
            && (q.Some? && !q.value.open <==> ResolvedIn(evs, oid) || ResolvedIn(es, oid))
  {
    hide CreatedIn, ResolvedIn;
    if es == [] {
      assert CreatedIn(es, oid) <==> false by { NothingIn(oid); }
      assert ResolvedIn(es, oid) <==> false by { NothingIn(oid); }
    } else {
      var k := |es| - 1;
      assert es == es[..k] + [es[k]];
      assert forall j :: 0 <= j < k ==> es[..k][..j] == es[..j];
      StatusOfEffects(r, evs, es[..k], oid);
      CreatedInStep(es[..k], es[k], oid);
    }
  }

  lemma NothingIn(oid: string)
    ensures !CreatedIn([], oid) && !ResolvedIn([], oid)
  {
  }

  /** What an event of n's log builds on is in the feed, or earlier in the part about to be pushed. */
  lemma BuildsOnFed(w: World, n: NodeId, lo: nat, j: nat)
    requires Inv(w) && n in w.nodes && NodeCausal(n, w.nodes[n])
    requires lo <= |Fed(w, n)| && lo <= j < |Own(n, w.nodes[n])| && Own(n, w.nodes[n])[j].body.Follows()
    ensures var oid := Own(n, w.nodes[n])[j].body.oid;
            CreatedIn(Evs(w.hub.feed), oid) || CreatedIn(Own(n, w.nodes[n])[lo..j], oid)
  {
    hide FlightsOk, Of, MarksOk, MirrorOk, Foreign, Vis, Pos, OwnOk, RowsOk, CreatedHere, AllHonest;
    var nd, evs := w.nodes[n], Evs(w.hub.feed);
    assert NodeOk(n, nd, w.hub.feed, w.handlers);
    var own, oid := Own(n, nd), Own(n, nd)[j].body.oid;
    var x := OfIndex(nd.events, n, j);
    assert CreatedIn(nd.events[..x], oid);
    var i :| 0 <= i < x && nd.events[..x][i].body.DebtCreated? && nd.events[..x][i].body.oid == oid;
    var c := nd.events[..x][i];
    OfComplete(nd.events[..x], c);
    if c.source == n {
      var k :| 0 <= k < j && own[..j][k] == c;
      if k < |Fed(w, n)| {
        var y := OfIndex(evs, n, k);
      } else {
        assert own[lo..j][k - lo] == c;
      }
    } else {
      assert c in nd.events;
      OfComplete(nd.events, c);
      var rows, vis := Foreign(nd.events, n), Vis(w.hub.feed, n);
      var k :| 0 <= k < |rows| && rows[k] == c;
      assert vis[k].ev == c;
      var y := VisIndex(w.hub.feed, n, k);
      assert evs[y] == c;
    }
  }

  lemma WholePushStatus(w: World, n: NodeId, gaps: seq<nat>, acked: bool)
    requires Inv(w) && CausalInv(w) && Pushable(w, n, gaps, |gaps|, |gaps|, acked)
    requires IndexStatusOk(w.hub.debts, Evs(w.hub.feed))
    ensures var w' := PushAt(w, n, gaps, |gaps|, |gaps|, acked);
            IndexStatusOk(w'.hub.debts, Evs(w'.hub.feed))
  {
    hide Inv, FeedCausal, NodeCausal, Of, EventsSince, Can, Do, Pos, CreatedIn, ResolvedIn, PushAt, Acked;
    var nd, own, evs := w.nodes[n], Own(n, w.nodes[n]), Evs(w.hub.feed);
    var w' := PushAt(w, n, gaps, |gaps|, |gaps|, acked);
    var lo, fed := Acked(n, nd), |Fed(w, n)|;
    WholePushFeed(w, n, gaps, acked);
    PushMoves(w, n, gaps, |gaps|, |gaps|, acked);
    assert NodeCausal(n, nd);
    assert own[lo..] == own[lo..fed] + own[fed..] && own[lo..lo + |gaps|] == own[lo..];
    forall oid ensures (oid in w'.hub.debts <==> CreatedIn(Evs(w'.hub.feed), oid))
                    && (oid in w'.hub.debts && !w'.hub.debts[oid].open <==> ResolvedIn(Evs(w'.hub.feed), oid))
    {
      PushProjects(w, n, gaps, |gaps|, |gaps|, acked, oid);
      forall j | 0 <= j < |own[lo..]| && Changes(own[lo..][j], oid)
        ensures CreatedIn(evs, oid) || CreatedIn(own[lo..][..j], oid)
      {
        BuildsOnFed(w, n, lo, lo + j);
        assert own[lo..][..j] == own[lo..lo + j];
      }
      StatusOfEffects(DebtOf(w.hub.debts, oid), evs, own[lo..], oid);
      ConcatIn(evs, own[fed..], oid);
      ConcatIn(own[lo..fed], own[fed..], oid);
      FedPart(w, n, lo, oid);
    }
  }

  lemma FedPart(w: World, n: NodeId, lo: nat, oid: string)
    requires n in w.nodes && lo <= |Fed(w, n)| <= |Own(n, w.nodes[n])| && Fed(w, n) == Own(n, w.nodes[n])[..|Fed(w, n)|]
    ensures CreatedIn(Own(n, w.nodes[n])[lo..|Fed(w, n)|], oid) ==> CreatedIn(Evs(w.hub.feed), oid)
    ensures ResolvedIn(Own(n, w.nodes[n])[lo..|Fed(w, n)|], oid) ==> ResolvedIn(Evs(w.hub.feed), oid)
  {
    hide Of, CreatedIn, ResolvedIn;
    var own, fed := Own(n, w.nodes[n]), Fed(w, n);
    assert own[..|fed|] == own[..lo] + own[lo..|fed|];
    ConcatIn(own[..lo], own[lo..|fed|], oid);
    SplitBySource(Evs(w.hub.feed), n, oid);
  }

  // ---- Weights ----

  lemma PayerNotForeign(w: World, oid: string, p: NodeId, j: nat)
    requires Inv(w) && SinglePayer(w, oid, p) && j < |Foreign(Evs(w.hub.feed), p)|
    ensures !Changes(Foreign(Evs(w.hub.feed), p)[j], oid)
  {
    hide Inv, Foreign, SinglePayer;
    PayerInFeed(w, oid, p);
    var x := ForeignIndex(Evs(w.hub.feed), p, j);
    assert w.hub.feed[x].ev == Evs(w.hub.feed)[x];
  }

  /** The payer's view of the feed, payments last, is causal. */
  lemma PayerViewCausal(w: World, oid: string, p: NodeId)
    requires Inv(w) && CausalInv(w) && SinglePayer(w, oid, p)
    ensures CausalFor(Foreign(Evs(w.hub.feed), p) + Of(Evs(w.hub.feed), p), oid)
  {
    hide Inv, CausalInv, Of, Foreign, SinglePayer;
    var evs := Evs(w.hub.feed);
    var f, o := Foreign(evs, p), Of(evs, p);
    var s := f + o;
    FeedIsCausal(w);
    FeedCreatedOnce(w);
    forall j | 0 <= j < |f| ensures !Changes(f[j], oid) {
      PayerNotForeign(w, oid, p, j);
    }
    forall j | 0 <= j < |s| && Changes(s[j], oid) ensures CreatedIn(s[..j], oid) {
      var x := OfIndex(evs, p, j - |f|);
      assert CreatedIn(evs[..x], oid);
      var i :| 0 <= i < x && evs[..x][i].body.DebtCreated? && evs[..x][i].body.oid == oid;
      var c := evs[..x][i];
      OfComplete(evs[..x], c);
      if c.source == p {
        var k :| 0 <= k < j - |f| && o[..j - |f|][k] == c;
        assert s[..j][|f| + k] == c;
      } else {
        OfPrefix(evs, x, p);
        var k :| 0 <= k < |Foreign(evs[..x], p)| && Foreign(evs[..x], p)[k] == c;
        assert s[..j][k] == c;
      }
    }
  }

  /** Projecting again what the feed has of n's log changes nothing. */
  lemma OverlapIsHarmless(w: World, n: NodeId, lo: nat, oid: string, p: NodeId)
    requires Inv(w) && CausalInv(w) && SinglePayer(w, oid, p) && n in w.nodes && lo <= |Fed(w, n)|
    ensures Effects(RowAfter(Evs(w.hub.feed), oid), Fed(w, n)[lo..], oid) == RowAfter(Evs(w.hub.feed), oid)
  {
    hide Inv, CausalInv, Of, Foreign, SinglePayer;
    var evs, o := Evs(w.hub.feed), Fed(w, n);
    FeedIsCausal(w);
    FeedCreatedOnce(w);
    PayerInFeed(w, oid, p);
    if n == p {
      var f := Foreign(evs, p);
      OwnLast(evs, p, oid);
      PayerViewCausal(w, oid, p);
      var s := f + o;
      assert s[..|s|] == s && s[|f| + lo..|s|] == o[lo..];
      var y := ReplayStretch(s, |f| + lo, |o| - lo, |s|, oid);
    } else {
      forall i | lo <= i < |o| ensures o[i].body.About(oid) ==> o[i].body.DebtCreated? && CreatedIn(evs, oid) {
        var x := OfIndex(evs, n, i);
        assert w.hub.feed[x].ev == evs[x] == o[i];
      }
      CausalImpliesFor(evs, oid);
      RowExists(evs, oid);
      OnlyCreations(RowAfter(evs, oid), o[lo..], oid);
    }
  }

  lemma CausalImpliesFor(s: seq<Event>, oid: string)
    requires Causal(s)
    ensures CausalFor(s, oid)
  {
  }

  lemma {:induction false} OnlyCreations(r: Option<Row>, es: seq<Event>, oid: string)
    requires forall i :: 0 <= i < |es| && es[i].body.About(oid) ==> es[i].body.DebtCreated? && r.Some?
    ensures Effects(r, es, oid) == r
  {
    if es != [] {
      OnlyCreations(r, es[..|es| - 1], oid);
    }
  }

  lemma WholePushWeight(w: World, n: NodeId, gaps: seq<nat>, acked: bool, oid: string, p: NodeId)
    requires Inv(w) && CausalInv(w) && Pushable(w, n, gaps, |gaps|, |gaps|, acked)
    requires SinglePayer(w, oid, p) && DebtOf(w.hub.debts, oid) == RowAfter(Evs(w.hub.feed), oid)
    ensures var w' := PushAt(w, n, gaps, |gaps|, |gaps|, acked);
            DebtOf(w'.hub.debts, oid) == RowAfter(Evs(w'.hub.feed), oid)
  {
    hide Inv, CausalInv, NodeCausal, Of, EventsSince, Can, Do, Pos, PushAt, Acked, SinglePayer, DebtOf;
    var nd, own, evs := w.nodes[n], Own(n, w.nodes[n]), Evs(w.hub.feed);
    var lo, fed := Acked(n, nd), |Fed(w, n)|;
    WholePushFeed(w, n, gaps, acked);
    PushMoves(w, n, gaps, |gaps|, |gaps|, acked);
    CausalAt(w, n);
    PushProjects(w, n, gaps, |gaps|, |gaps|, acked, oid);
    OverlapIsHarmless(w, n, lo, oid, p);
    assert own[lo..lo + |gaps|] == Fed(w, n)[lo..] + own[fed..];
    EffectsConcat(RowAfter(evs, oid), Fed(w, n)[lo..], own[fed..], oid);
    EffectsConcat(None, evs, own[fed..], oid);
  }

  lemma CausalAt(w: World, n: NodeId)
    requires CausalInv(w) && n in w.nodes
    ensures NodeCausal(n, w.nodes[n])
  {
    hide NodeCausal, FeedCausal;
  }

  // ---- Every calm step, every calm run ----

  ghost predicate CalmInv(w: World) {
    IndexStatusOk(w.hub.debts, Evs(w.hub.feed)) && IndexWeightsOk(w)
  }

  lemma PayerBeforeStep(w: World, w': World, oid: string, p: NodeId)
    requires SinglePayer(w', oid, p) && w'.nodes.Keys == w.nodes.Keys
    requires forall n :: n in w.nodes ==> Own(n, w.nodes[n]) <= Own(n, w'.nodes[n])
    ensures SinglePayer(w, oid, p)
  {
    hide Of;
    forall m, i | m in w.nodes && 0 <= i < |Own(m, w.nodes[m])| && Changes(Own(m, w.nodes[m])[i], oid)
      ensures m == p
    {
      assert Own(m, w'.nodes[m])[i] == Own(m, w.nodes[m])[i];
    }
  }

  /** A step that leaves the hub alone. */
  lemma HubAside(w: World, w': World)
    requires CalmInv(w) && w'.hub == w.hub && w'.nodes.Keys == w.nodes.Keys
    requires forall n :: n in w.nodes ==> Own(n, w.nodes[n]) <= Own(n, w'.nodes[n])
    ensures CalmInv(w')
  {
    hide Of, SinglePayer, IndexStatusOk;
    forall oid, p | SinglePayer(w', oid, p) ensures DebtOf(w'.hub.debts, oid) == RowAfter(Evs(w'.hub.feed), oid) {
      PayerBeforeStep(w, w', oid, p);
    }
  }

  lemma PushKeepsCalm(w: World, s: Step)
    requires Inv(w) && CausalInv(w) && CalmInv(w) && s.Push? && Can(w, s) && Calm(s)
    ensures CalmInv(Do(w, s))
  {
    hide Inv, CausalInv, Of, EventsSince, SinglePayer, IndexStatusOk, AppendAll, ProjectAll;
    var Push(n, gaps, a, x, acked) := s;
    var w' := Do(w, s);
    assert Pushable(w, n, gaps, a, x, acked);
    PushOwn(w, n, gaps, a, x, acked);
    if a == 0 {
      NothingPushed(w, n, gaps, acked);
      HubAside(w, w');
    } else {
      WholePushStatus(w, n, gaps, acked);
      forall oid, p | SinglePayer(w', oid, p) ensures DebtOf(w'.hub.debts, oid) == RowAfter(Evs(w'.hub.feed), oid) {
        PayerBeforeStep(w, w', oid, p);
        WholePushWeight(w, n, gaps, acked, oid, p);
      }
    }
  }

  lemma NothingPushed(w: World, n: NodeId, gaps: seq<nat>, acked: bool)
    requires Pushable(w, n, gaps, 0, 0, acked)
    ensures PushAt(w, n, gaps, 0, 0, acked).hub == w.hub
  {
    hide EventsSince;
    var out := Outgoing(n, w.nodes[n]);
    assert out[..0] == [];
  }

  lemma SerialLogs(w: World, s: Step)
    requires Inv(w) && Can(w, s) && Serial(s) && !s.Push?
    ensures var w' := Do(w, s);
            && w'.hub == w.hub && w'.nodes.Keys == w.nodes.Keys
            && forall n :: n in w.nodes ==> Own(n, w.nodes[n]) <= Own(n, w'.nodes[n])
  {
    hide Inv, Mirror, Of, Foreign, IsTop, IsTopObligation, FeedSince, EventsSince, Stored, Pos, ObligationId;
    var n, w' := s.n, Do(w, s);
    if s.Begin? {
      BeginKeepsSeen(w, n);
    } else if w'.nodes[n].events != w.nodes[n].events {
      var e := w'.nodes[n].events[|w.nodes[n].events|];
      assert w'.nodes[n].events == w.nodes[n].events + [e];
      AppendSelects(w.nodes[n].events, e, n);
    }
  }

  lemma StepKeepsCalm(w: World, s: Step)
    requires Inv(w) && CausalInv(w) && CalmInv(w) && Can(w, s) && Calm(s)
    ensures CalmInv(Do(w, s))
  {
    hide Inv, CausalInv, CalmInv, Can, Do, Own;
    if s.Push? {
      PushKeepsCalm(w, s);
    } else {
      SerialLogs(w, s);
      HubAside(w, Do(w, s));
    }
  }

  lemma StartCalm(w: World)
    requires Start(w)
    ensures CalmInv(w)
  {
    hide SinglePayer;
    assert Evs(w.hub.feed) == [];
  }

  lemma {:induction false} RunKeepsCalm(w: World, steps: seq<Step>)
    requires Inv(w) && CausalInv(w) && CalmInv(w) && Runs(w, steps) && CalmRun(steps)
    ensures CalmInv(Final(w, steps))
    decreases |steps|
  {
    hide Inv, CausalInv, CalmInv, Can, Do, Calm;
    if steps != [] {
      assert Calm(steps[0]);
      StepKeepsInv(w, steps[0]);
      StepKeepsCausal(w, steps[0]);
      StepKeepsCalm(w, steps[0]);
      RunKeepsCalm(Do(w, steps[0]), steps[1..]);
    }
  }

  /** At every point of a calm run the hub's index has exactly the obligations its feed created, holds exactly those for
      resolved that the feed resolved, and gives every obligation with a single payer the row the feed gives it. */
  lemma IndexFollowsFeed(w0: World, steps: seq<Step>, oid: string)
    requires Start(w0) && Runs(w0, steps) && CalmRun(steps)
    ensures var w := Final(w0, steps);
            && (oid in w.hub.debts <==> CreatedIn(Evs(w.hub.feed), oid))
            && (oid in w.hub.debts && !w.hub.debts[oid].open <==> ResolvedIn(Evs(w.hub.feed), oid))
            && (forall p :: SinglePayer(w, oid, p) ==> DebtOf(w.hub.debts, oid) == RowAfter(Evs(w.hub.feed), oid))
  {
    hide Inv, CausalInv, Can, Do, CalmRun, SinglePayer;
    StartInv(w0);
    StartCausal(w0);
    StartCalm(w0);
    RunKeepsCalm(w0, steps);
  }

  /** Once everything is delivered and applied after a calm run, the hub and every node have the same row of every
      obligation with a single payer, and the same status of every obligation, however many nodes paid. */
  lemma HubAndNodesAgree(w0: World, steps: seq<Step>, n: NodeId, oid: string)
    requires Start(w0) && MirrorsDebts(w0.handlers) && Runs(w0, steps) && CarefulRun(w0, steps) && CalmRun(steps)
    requires Settled(Final(w0, steps)) && n in Final(w0, steps).nodes
    ensures var w := Final(w0, steps);
            && (oid in w.hub.debts <==> oid in w.nodes[n].table)
            && (oid in w.hub.debts && !w.hub.debts[oid].open <==> IsResolved(w.nodes[n].table, oid))
            && (forall p :: SinglePayer(w, oid, p) ==> DebtOf(w.hub.debts, oid) == RowOf(w.nodes[n].table, oid))
  {
    hide Inv, CausalInv, Can, Do, CalmRun, SinglePayer, Runs, Final, CarefulRun, MirrorsDebts, Settled, Of, Own, CreatedIn, ResolvedIn, RowOf, DebtOf, RowAfter;
    var w := Final(w0, steps);
    IndexFollowsFeed(w0, steps, oid);
    StatusConverges(w0, steps, n, oid);
    ReachedCarefully(w0, steps);
    EmittedIsFed(w, oid);
    forall p | SinglePayer(w, oid, p) ensures DebtOf(w.hub.debts, oid) == RowOf(w.nodes[n].table, oid) {
      WeightsConverge(w0, steps, n, oid, p);
    }
  }

  // ---- The payer's own view ----

  lemma DoneInFeed(w: World, n: NodeId)
    requires Inv(w) && n in w.nodes
    ensures Done(n, w.nodes[n]) <= Foreign(Evs(w.hub.feed), n)
    ensures |Fed(w, n)| == |Own(n, w.nodes[n])| ==> Fed(w, n) == Own(n, w.nodes[n])
  {
    hide FlightsOk, Of, MarksOk, MirrorOk, Foreign, Vis, Pos, OwnOk;
    assert NodeOk(n, w.nodes[n], w.hub.feed, w.handlers);
    EvsVis(w.hub.feed, n);
  }

  lemma OneCreator(w: World, n: NodeId, oid: string)
    requires Inv(w) && CausalInv(w) && CreatedIn(Of(Evs(w.hub.feed), n), oid)
    ensures !CreatedIn(Foreign(Evs(w.hub.feed), n), oid)
  {
    hide Inv, CausalInv, Of, Foreign;
    var evs := Evs(w.hub.feed);
    var o, f := Of(evs, n), Foreign(evs, n);
    if CreatedIn(f, oid) {
      var i :| 0 <= i < |o| && o[i].body.DebtCreated? && o[i].body.oid == oid;
      var j :| 0 <= j < |f| && f[j].body.DebtCreated? && f[j].body.oid == oid;
      var x := OfIndex(evs, n, i);
      var y := ForeignIndex(evs, n, j);
      FeedCreatedOnce(w);
    }
  }

  /** What the payer has not mirrored yet says nothing about an obligation it knows. */
  lemma LaterIsSilent(w: World, n: NodeId, oid: string)
    requires Inv(w) && CausalInv(w) && n in w.nodes && SinglePayer(w, oid, n) && Fed(w, n) == Own(n, w.nodes[n])
    requires Known(n, w.nodes[n], oid)
    ensures RowAfter(Done(n, w.nodes[n]), oid) == RowAfter(Foreign(Evs(w.hub.feed), n), oid)
  {
    hide Inv, CausalInv, Of, Foreign, SinglePayer, Done;
    var d, f := Done(n, w.nodes[n]), Foreign(Evs(w.hub.feed), n);
    DoneInFeed(w, n);
    var later := f[|d|..];
    assert f == d + later;
    EffectsConcat(None, d, later, oid);
    forall j | 0 <= j < |f| ensures !Changes(f[j], oid) {
      PayerNotForeign(w, oid, n, j);
    }
    if CreatedIn(d, oid) {
      NothingIn(oid);
      StatusOfEffects(None, [], d, oid);
    } else {
      OneCreator(w, n, oid);
      forall i | 0 <= i < |later| ensures !later[i].body.DebtCreated? || later[i].body.oid != oid {
        assert later[i] == f[|d| + i];
      }
    }
    forall i | 0 <= i < |later| && later[i].body.About(oid) ensures later[i].body.DebtCreated? {
      assert later[i] == f[|d| + i];
    }
    OnlyCreations(RowAfter(d, oid), later, oid);
  }

  /** After a calm run, whenever all of a node's events are in the feed, as they are after an acknowledged push, the
      hub's row of every obligation the node knows and alone has paid on equals the node's own row, whoever made it. */
  lemma PayersRowIsProjected(w0: World, steps: seq<Step>, n: NodeId, oid: string)
    requires Start(w0) && MirrorsDebts(w0.handlers) && Runs(w0, steps) && CarefulRun(w0, steps) && CalmRun(steps)
    requires n in Final(w0, steps).nodes && Acked(n, Final(w0, steps).nodes[n]) == |Own(n, Final(w0, steps).nodes[n])|
    requires SinglePayer(Final(w0, steps), oid, n) && oid in Final(w0, steps).nodes[n].table
    ensures var w := Final(w0, steps); DebtOf(w.hub.debts, oid) == RowOf(w.nodes[n].table, oid)
  {
    hide Inv, CausalInv, Can, Do, MirrorsDebts, Careful, Runs, Final, CarefulRun, CalmRun, Of, Foreign, Done, SinglePayer, Known, Settles, Pos;
    var w := Final(w0, steps);
    ReachedCarefully(w0, steps);
    IndexFollowsFeed(w0, steps, oid);
    assert StatusOk(n, w.nodes[n]);
    assert WeightOk(n, w.nodes[n], oid, n);
    AllFed(w, n);
    LaterIsSilent(w, n, oid);
    FeedIsCausal(w);
    FeedCreatedOnce(w);
    PayerInFeed(w, oid, n);
    OwnLast(Evs(w.hub.feed), n, oid);
    EffectsConcat(None, Done(n, w.nodes[n]), Own(n, w.nodes[n]), oid);
    EffectsConcat(None, Foreign(Evs(w.hub.feed), n), Own(n, w.nodes[n]), oid);
  }

  lemma AllFed(w: World, n: NodeId)
    requires Inv(w) && n in w.nodes && Acked(n, w.nodes[n]) == |Own(n, w.nodes[n])|
    ensures Fed(w, n) == Own(n, w.nodes[n])
  {
    hide Inv, Of, Foreign, Pos, EventsSince;
    InvLog(w, n);
    OutgoingIsSuffix(n, w.nodes[n], w.hub.feed);
    DoneInFeed(w, n);
    assert |Fed(w, n)| <= |Own(n, w.nodes[n])|;
  }
}
