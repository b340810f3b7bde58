/**
 The hub's debt index when pushes are handled one at a time.

 The hub projects a whole batch after appending it, repeats and all, and may stop in between.  For obligations that one node both made
 and paid this is harmless: the index row is always what some prefix of that node's log says, at least as long as what was acknowledged.
 */
module HubLedger {
  import opened Wrappers
  import opened Ids
  import opened Events
  import opened Ledger
  import opened Protocol
  import opened Replication
  import opened Causality
  import opened Status
  import opened Weights

  lemma {:induction false} ProjectRows(d: Debts, es: seq<Event>, oid: string)
    requires AllHonest(es)
    ensures DebtOf(ProjectAll(d, es), oid) == Effects(DebtOf(d, oid), es, oid)
  {
    if es != [] {
      var k := |es| - 1;
      ProjectRows(d, es[..k], oid);
      assert Honest(es[k]);
      MirrorAndProjectionAgree(map[], ProjectAll(d, es[..k]), es[k], oid);
    }
  }

  lemma OwnHonest(n: NodeId, nd: Node)
    requires NodeCausal(n, nd)
    ensures AllHonest(Own(n, nd))
  {
    hide Of, Causal, RowsOk, CreatedHere, Honest;
    forall i | 0 <= i < |Own(n, nd)| ensures Honest(Own(n, nd)[i]) {
      var x := OfIndex(nd.events, n, i);
    }
  }

  /** When the step Push is possible. */
  ghost predicate Pushable(w: World, n: NodeId, gaps: seq<nat>, a: nat, x: nat, acked: bool) {
    && n in w.nodes && Outgoing(n, w.nodes[n]) != [] && |gaps| == |Outgoing(n, w.nodes[n])|
    && a <= |gaps| && x <= |gaps| && (x > 0 ==> a == |gaps|) && (acked ==> x == |gaps|)
  }

  // ---- Obligations made and paid on one node ----

  /** Every event about the obligation is a's. */
  ghost predicate OwnAffair(w: World, oid: string, a: NodeId) {
    forall n, i :: n in w.nodes && 0 <= i < |Own(n, w.nodes[n])| && Own(n, w.nodes[n])[i].body.About(oid) ==> n == a
  }

  /** The number of a's events its push cursor has passed. */
  function Acked(n: NodeId, nd: Node): nat {
    Pos(Nums(Own(n, nd)), nd.pushCursor)
  }

  /** The index row is what it was after some prefix of a's log, at least as long as what was acknowledged. */
  ghost predicate IndexAt(w: World, oid: string, a: NodeId, z: nat)
    requires a in w.nodes
  {
    && Acked(a, w.nodes[a]) <= z <= |Own(a, w.nodes[a])| && z <= |Fed(w, a)|
    && DebtOf(w.hub.debts, oid) == RowAfter(Own(a, w.nodes[a])[..z], oid)
  }

  ghost predicate IndexInv(w: World) {
    forall oid, a :: a in w.nodes && OwnAffair(w, oid, a) ==> exists z: nat :: IndexAt(w, oid, a, z)
  }

  lemma OwnCausal(w: World, oid: string, a: NodeId)
    requires Inv(w) && CausalInv(w) && a in w.nodes && OwnAffair(w, oid, a)
    ensures CausalFor(Own(a, w.nodes[a]), oid)
  {
    hide Inv, FeedCausal, Of, Foreign, RowsOk, CreatedHere, AllHonest;
    var nd := w.nodes[a];
    var own := Own(a, nd);
    assert NodeCausal(a, nd);
    forall j | 0 <= j < |own| && own[j].body.Follows() && own[j].body.oid == oid ensures CreatedIn(own[..j], oid) {
      var x := OfIndex(nd.events, a, j);
      assert CreatedIn(nd.events[..x], oid);
      var i :| 0 <= i < x && nd.events[..x][i].body.DebtCreated? && nd.events[..x][i].body.oid == oid;
      var c := nd.events[..x][i];
      StemsFrom(w, a, c);
      var k :| 0 <= k < |Own(c.source, w.nodes[c.source])| && Own(c.source, w.nodes[c.source])[k] == c;
      OfComplete(nd.events[..x], c);
    }
  }

  lemma OwnAffairBefore(w: World, w': World, oid: string, a: NodeId)
    requires OwnAffair(w', oid, a) && w'.nodes.Keys == w.nodes.Keys
    requires forall n :: n in w.nodes ==> Own(n, w.nodes[n]) <= Own(n, w'.nodes[n])
    ensures OwnAffair(w, oid, a)
  {
    hide Of;
    forall n, i | n in w.nodes && 0 <= i < |Own(n, w.nodes[n])| && Own(n, w.nodes[n])[i].body.About(oid)
      ensures n == a
    {
      assert Own(n, w'.nodes[n])[i] == Own(n, w.nodes[n])[i];
    }
  }

  /** A step that leaves the hub alone and, on the node it touches, at most lengthens the log. */
  lemma IndexFrame(w: World, n: NodeId, nd: Node)
    requires IndexInv(w) && n in w.nodes
    requires Own(n, w.nodes[n]) <= Own(n, nd) && Acked(n, nd) == Acked(n, w.nodes[n])
    ensures IndexInv(SetNode(w, n, nd))
  {
    hide Of, Acked, DebtOf, RowAfter;
    var w' := SetNode(w, n, nd);
    forall oid, a | a in w'.nodes && OwnAffair(w', oid, a) ensures exists z: nat :: IndexAt(w', oid, a, z) {
      OwnAffairBefore(w, w', oid, a);
      var z: nat :| IndexAt(w, oid, a, z);
      assert Own(a, w'.nodes[a])[..z] == Own(a, w.nodes[a])[..z];
      assert IndexAt(w', oid, a, z);
    }
  }

  /** The projecting part of a push, seen from one row. */
  lemma PushProjects(w: World, n: NodeId, gaps: seq<nat>, a: nat, x: nat, acked: bool, oid: string)
    requires Inv(w) && Pushable(w, n, gaps, a, x, acked) && NodeCausal(n, w.nodes[n])
    ensures var own, lo := Own(n, w.nodes[n]), Acked(n, w.nodes[n]);
            && lo + x <= |own|
            && DebtOf(PushAt(w, n, gaps, a, x, acked).hub.debts, oid) == Effects(DebtOf(w.hub.debts, oid), own[lo..lo + x], oid)
  {
    hide Inv, Of, Pos, EventsSince, AppendAll, ProjectAll, DebtOf, NodeCausal, Can, Do;
    var nd, own, out := w.nodes[n], Own(n, w.nodes[n]), Outgoing(n, w.nodes[n]);
    var lo := Acked(n, nd);
    InvLog(w, n);
    OutgoingIsSuffix(n, nd, w.hub.feed);
    OwnHonest(n, nd);
    assert out[..x] == own[lo..lo + x];
    assert AllHonest(out[..x]);
    ProjectRows(w.hub.debts, out[..x], oid);
  }

  /** How a push moves the acknowledged part of the log, and the fed part. */
  lemma PushMoves(w: World, n: NodeId, gaps: seq<nat>, a: nat, x: nat, acked: bool)
    requires Inv(w) && Pushable(w, n, gaps, a, x, acked)
    ensures var w' := PushAt(w, n, gaps, a, x, acked);
            var own, lo := Own(n, w.nodes[n]), Acked(n, w.nodes[n]);
            && Own(n, w'.nodes[n]) == own
            && Acked(n, w'.nodes[n]) == (if acked then |own| else lo)
            && lo + |gaps| == |own| && lo <= |Fed(w, n)|
            && |Fed(w', n)| == (if lo + a < |Fed(w, n)| then |Fed(w, n)| else lo + a)
            && (forall m :: m != n ==> Fed(w', m) == Fed(w, m))
  {
    hide Inv, Of, EventsSince, AppendAll, ProjectAll, Can, Do, Pos;
    var nd, own := w.nodes[n], Own(n, w.nodes[n]);
    InvLog(w, n);
    OutgoingIsSuffix(n, nd, w.hub.feed);
    HubPart(w, n, gaps, a, x);
    var w' := PushAt(w, n, gaps, a, x, acked);
    assert forall m :: Fed(w', m) == Fed(HubAfterPush(w, Outgoing(n, nd), gaps, a, x), m);
    if acked {
      var out := Outgoing(n, nd);
      assert out[|out| - 1] == own[|own| - 1];
      AllAcked(n, nd, w.hub.feed);
    }
  }

  lemma AllAcked(n: NodeId, nd: Node, feed: seq<Entry>)
    requires LogOk(n, nd, feed) && Own(n, nd) != []
    ensures Pos(Nums(Own(n, nd)), Own(n, nd)[|Own(n, nd)| - 1].num) == |Own(n, nd)|
  {
    hide Of, PushedOk;
    var own := Own(n, nd);
    PosIs(Nums(own), own[|own| - 1].num, |own|);
  }

  /** A push of a itself, as far as it gets. */
  lemma PushIndex(w: World, n: NodeId, gaps: seq<nat>, a: nat, x: nat, acked: bool, oid: string, z: nat)
    requires Inv(w) && CausalInv(w) && n in w.nodes && OwnAffair(w, oid, n) && IndexAt(w, oid, n, z)
    requires Pushable(w, n, gaps, a, x, acked)
    ensures exists y: nat :: IndexAt(PushAt(w, n, gaps, a, x, acked), oid, n, y)
    ensures acked ==> IndexAt(PushAt(w, n, gaps, a, x, acked), oid, n, |Own(n, w.nodes[n])|)
  {
    hide Inv, FeedCausal, Of, Pos, EventsSince, AppendAll, ProjectAll, DebtOf, NodeCausal, Can, Do, Acked, OwnAffair, Effects;
    OwnCausal(w, oid, n);
    assert NodeCausal(n, w.nodes[n]);
    PushProjects(w, n, gaps, a, x, acked, oid);
    PushMoves(w, n, gaps, a, x, acked);
    var y := ReplayStretch(Own(n, w.nodes[n]), Acked(n, w.nodes[n]), x, z, oid);
    assert IndexAt(PushAt(w, n, gaps, a, x, acked), oid, n, y);
  }

  /** A push of somebody else does not concern the obligation. */
  lemma OtherPushIndex(w: World, n: NodeId, gaps: seq<nat>, a: nat, x: nat, acked: bool, oid: string, b: NodeId, z: nat)
    requires Inv(w) && CausalInv(w) && n in w.nodes && b in w.nodes && b != n && OwnAffair(w, oid, b) && IndexAt(w, oid, b, z)
    requires Pushable(w, n, gaps, a, x, acked)
    ensures IndexAt(PushAt(w, n, gaps, a, x, acked), oid, b, z)
  {
    hide Inv, FeedCausal, Of, Pos, EventsSince, AppendAll, ProjectAll, RowAfter, DebtOf, NodeCausal, Can, Do, Acked, Effects;
    assert NodeCausal(n, w.nodes[n]);
    PushProjects(w, n, gaps, a, x, acked, oid);
    PushMoves(w, n, gaps, a, x, acked);
    var own, lo := Own(n, w.nodes[n]), Acked(n, w.nodes[n]);
    assert Silent(own[lo..lo + x], oid);
    SilentEffects(DebtOf(w.hub.debts, oid), own[lo..lo + x], oid);
  }

  lemma PushKeepsIndex(w: World, s: Step)
    requires Inv(w) && CausalInv(w) && IndexInv(w) && s.Push? && Can(w, s)
    ensures IndexInv(Do(w, s))
  {
    hide Inv, CausalInv, Of, Acked, PushAt, IndexAt, EventsSince;
    var Push(n, gaps, a, x, acked) := s;
    var w' := Do(w, s);
    assert Pushable(w, n, gaps, a, x, acked);
    forall oid, b | b in w'.nodes && OwnAffair(w', oid, b) ensures exists z: nat :: IndexAt(w', oid, b, z) {
      PushOwn(w, n, gaps, a, x, acked);
      OwnAffairBefore(w, w', oid, b);
      var z: nat :| IndexAt(w, oid, b, z);
      if b == n {
        PushIndex(w, n, gaps, a, x, acked, oid, z);
      } else {
        OtherPushIndex(w, n, gaps, a, x, acked, oid, b, z);
      }
    }
  }

  lemma PushOwn(w: World, n: NodeId, gaps: seq<nat>, a: nat, x: nat, acked: bool)
    requires Pushable(w, n, gaps, a, x, acked)
    ensures var w' := PushAt(w, n, gaps, a, x, acked);
            w'.nodes.Keys == w.nodes.Keys && forall m :: m in w.nodes ==> Own(m, w.nodes[m]) == Own(m, w'.nodes[m])
  {
    hide Of, EventsSince, AppendAll, ProjectAll;
  }

  lemma EmitIndex(w: World, n: NodeId, nd: Node, ts: int, body: Body)
    requires Inv(w) && IndexInv(w) && n in w.nodes
    requires nd.(table := w.nodes[n].table, onum := w.nodes[n].onum) == w.nodes[n]
    ensures IndexInv(SetNode(w, n, EmitAt(n, nd, ts, body)))
  {
    hide Of, IndexInv, MirrorsOk, FlightsOk, FeedOk;
    InvLog(w, n);
    KeepOutgoing(n, w.nodes[n], nd, w.hub.feed);
    EmitAcked(n, nd, w.hub.feed, ts, body);
    IndexFrame(w, n, EmitAt(n, nd, ts, body));
  }

  lemma EmitAcked(n: NodeId, nd: Node, feed: seq<Entry>, ts: int, body: Body)
    requires LogOk(n, nd, feed)
    ensures var nd' := EmitAt(n, nd, ts, body);
            Own(n, nd) <= Own(n, nd') && Acked(n, nd') == Acked(n, nd)
  {
    hide Of, Foreign, Pos;
    var e := Event(n, nd.num + 1, ts, body);
    var own := Own(n, nd);
    AppendSelects(nd.events, e, n);
    assert own != [] ==> own[|own| - 1].num <= nd.num;
    NumsGrow(own, e);
    PosOfLonger(Nums(own), e.num, nd.pushCursor);
  }

  lemma SerialKeepsIndex(w: World, s: Step)
    requires Inv(w) && CausalInv(w) && IndexInv(w) && Can(w, s) && Serial(s)
    ensures IndexInv(Do(w, s))
  {
    hide Inv, CausalInv, IndexInv, AppendOne, Mirror, Of, Foreign, IsTop, IsTopObligation, FeedSince, EventsSince,
         Stored, Pos, AppendAll, ProjectAll, Project, ObligationId;
    if s.Push? {
      PushKeepsIndex(w, s);
    } else {
      var n := s.n;
      var nd := w.nodes[n];
      if s.Emit? {
        EmitIndex(w, n, nd, s.ts, s.body);
      } else if s.Create? && ObligationId(n, nd.onum + 1) !in nd.table {
        var oid := ObligationId(n, nd.onum + 1);
        EmitIndex(w, n, nd.(onum := nd.onum + 1, table := nd.table[oid := Obligation(Row(n, s.terms, s.weight, true), s.now)]),
                  s.ts, DebtCreated(oid, n, s.terms, s.weight));
      } else if s.Resolve? {
        var o := nd.table[s.oid];
        EmitIndex(w, n, nd.(table := nd.table[s.oid := o.(row := o.row.(open := false))]), s.ts, DebtResolved(s.oid));
      } else if s.Adjust? {
        var o := nd.table[s.oid];
        EmitIndex(w, n, nd.(table := nd.table[s.oid := o.(row := o.row.(weight := o.row.weight - s.amount))]),
                  s.ts, DebtAdjusted(s.oid, s.seen, s.seen - s.amount));
      } else {
        if s.Begin? {
          BeginKeepsSeen(w, n);
        }
        IndexFrame(w, n, Do(w, s).nodes[n]);
      }
    }
  }

  lemma StartIndex(w: World)
    requires Start(w)
    ensures IndexInv(w)
  {
    hide OwnAffair;
    forall oid, a | a in w.nodes && OwnAffair(w, oid, a) ensures exists z: nat :: IndexAt(w, oid, a, z) {
      assert IndexAt(w, oid, a, 0);
    }
  }

  lemma {:induction false} RunKeepsIndex(w: World, steps: seq<Step>)
    requires Inv(w) && CausalInv(w) && IndexInv(w) && Runs(w, steps) && SerialRun(steps)
    ensures IndexInv(Final(w, steps))
    decreases |steps|
  {
    hide Inv, CausalInv, IndexInv, Can, Do, Serial;
    if steps != [] {
      assert Serial(steps[0]);
      StepKeepsInv(w, steps[0]);
      StepKeepsCausal(w, steps[0]);
      SerialKeepsIndex(w, steps[0]);
      RunKeepsIndex(Do(w, steps[0]), steps[1..]);
    }
  }

  /** The creator-payer's row in its own table is what its own log says. */
  lemma OwnTable(w: World, oid: string, a: NodeId)
    requires Inv(w) && WeightInv(w) && a in w.nodes && OwnAffair(w, oid, a)
    ensures RowOf(w.nodes[a].table, oid) == RowAfter(Own(a, w.nodes[a]), oid)
  {
    hide Inv, Of, Foreign;
    var nd := w.nodes[a];
    assert SinglePayer(w, oid, a);
    assert WeightOk(a, nd, oid, a);
    forall i | 0 <= i < |Done(a, nd)| ensures !Done(a, nd)[i].body.About(oid) {
      var x := ForeignIndex(nd.events, a, i);
      var c := nd.events[x];
      StemsFrom(w, a, c);
      var k :| 0 <= k < |Own(c.source, w.nodes[c.source])| && Own(c.source, w.nodes[c.source])[k] == c;
    }
    EffectsConcat(None, Done(a, nd), Own(a, nd), oid);
    SilentEffects(None, Done(a, nd), oid);
  }
}
