/**
 The hub's row of an obligation with one payer, when pushes are handled one at a time, each with its reply, and the hub may stop anywhere in them.

 If the payer made the obligation itself, its log projects in order and the row follows.  If another node made it, the payer's changes
 take effect from the moment the creation reaches the index: what the payer had acknowledged before is lost, and all the rest is projected on the
 row.  So the hub's row equals the payer's exactly when neither the payer's last adjustment nor its last resolution was among what was lost.
 This counts on the reply being processed in the same step as the push; module LateReply has a run in which it is not.
 */
module PayerIndex {
  import opened Wrappers
  import opened Ids
  import opened Events
  import opened Ledger
  import opened Protocol
  import opened Replication
  import opened Causality
  import opened Status
  import opened Weights
  import opened HubLedger
  import opened CalmHub
  import opened Traces

  /** How much of p's log was acknowledged when the obligation's row entered the index; none if it never did. */
  ghost function AckedAtEntry(w: World, steps: seq<Step>, oid: string, p: NodeId): Option<nat>
    requires Runs(w, steps)
    decreases |steps|
  {
    if steps == [] then None
    else
      var w' := Do(w, steps[0]);
      if p in w.nodes && oid !in w.hub.debts && oid in w'.hub.debts then Some(Acked(p, w.nodes[p]))
      else AckedAtEntry(w', steps[1..], oid, p)
  }

  /** The row a creation makes. */
  function Born(c: Event): Row {
    match c.body
    case DebtCreated(_, origin, terms, weight) => Row(origin, terms, weight, true)
    case _ => Row("", Terms("", "", "", ""), 0, true)
  }

  ghost predicate IsCreation(w: World, c: Event, oid: string) {
    && c.body.DebtCreated? && c.body.oid == oid
    && c.source in w.nodes && c in Own(c.source, w.nodes[c.source])
  }

  /** The index row is what p's changes from position k to some z have made of the new row; z covers what is acknowledged. */
  ghost predicate RowAt(w: World, oid: string, p: NodeId, c: Event, k: nat, z: nat)
    requires p in w.nodes
  {
    && k <= Acked(p, w.nodes[p]) <= z <= |Own(p, w.nodes[p])|
    && DebtOf(w.hub.debts, oid) == Effects(Some(Born(c)), Own(p, w.nodes[p])[k..z], oid)
  }

  /** The state of the index row, given what was acknowledged when it entered. */
  ghost predicate EntryInv(w: World, oid: string, p: NodeId, at: Option<nat>)
    requires p in w.nodes
  {
    if at.None? then oid !in w.hub.debts
    else exists c: Event, z: nat :: IsCreation(w, c, oid) && RowAt(w, oid, p, c, at.value, z)
  }

  lemma EntryKnown(w: World, oid: string, p: NodeId, at: Option<nat>)
    requires p in w.nodes && EntryInv(w, oid, p, at)
    ensures oid in w.hub.debts <==> at.Some?
  {
    hide Own, Acked, Effects, IsCreation;
    if at.Some? {
      var c: Event, z: nat :| IsCreation(w, c, oid) && RowAt(w, oid, p, c, at.value, z);
      SameDeal(Some(Born(c)), Own(p, w.nodes[p])[at.value..z], oid);
    }
  }

  // ---- A push ----

  /** Projecting events that only create. */
  lemma {:induction false} OnlyCreates(es: seq<Event>, oid: string)
    requires forall i :: 0 <= i < |es| && es[i].body.About(oid) ==> es[i].body.DebtCreated?
    ensures Effects(None, es, oid).Some? ==>
              exists i :: 0 <= i < |es| && es[i].body.DebtCreated? && es[i].body.oid == oid && Effects(None, es, oid) == Some(Born(es[i]))
    ensures (forall i :: 0 <= i < |es| ==> !es[i].body.About(oid)) ==> Effects(None, es, oid) == None
  {
    if es != [] {
      var k := |es| - 1;
      OnlyCreates(es[..k], oid);
      var r := Effects(None, es[..k], oid);
      if r.Some? {
        var i :| 0 <= i < k && es[..k][i].body.DebtCreated? && es[..k][i].body.oid == oid && r == Some(Born(es[..k][i]));
        assert es[i] == es[..k][i];
      }
    }
  }

  /** Projecting a stretch of p's log again on a row that follows it. */
  lemma ReplayFrom(c: Event, own: seq<Event>, k: nat, lo: nat, x: nat, z: nat, oid: string) returns (y: nat)
    requires c.body.DebtCreated? && c.body.oid == oid && k <= lo <= z <= |own| && lo + x <= |own|
    ensures lo + x <= y <= |own|
    ensures Effects(Effects(Some(Born(c)), own[k..z], oid), own[lo..lo + x], oid) == Effects(Some(Born(c)), own[k..y], oid)
  {
    hide Effects, Effect;
    var s := [c] + own[k..];
    assert CausalFor(s, oid) by {
      forall j | 0 <= j < |s| && s[j].body.Follows() && s[j].body.oid == oid ensures CreatedIn(s[..j], oid) {
        assert s[..j][0] == c;
      }
    }
    var v := ReplayStretch(s, 1 + lo - k, x, 1 + z - k, oid);
    y := v - 1 + k;
    assert s[1 + lo - k..1 + lo - k + x] == own[lo..lo + x];
    FirstCreates(c, own, k, z, oid);
    FirstCreates(c, own, k, y, oid);
  }

  lemma FirstCreates(c: Event, own: seq<Event>, k: nat, z: nat, oid: string)
    requires c.body.DebtCreated? && c.body.oid == oid && k <= z <= |own|
    ensures RowAfter(([c] + own[k..])[..1 + z - k], oid) == Effects(Some(Born(c)), own[k..z], oid)
  {
    var s := [c] + own[k..];
    assert s[..1 + z - k] == [c] + own[k..z];
    EffectsConcat(None, [c], own[k..z], oid);
    assert [c][..0] == [];
    assert Effects(None, [], oid) == None;
    assert Effects(None, [c], oid) == Effect(None, c, oid);
  }

  /** The payer's own push. */
  lemma PayerPush(w: World, p: NodeId, gaps: seq<nat>, a: nat, x: nat, acked: bool, oid: string, at: Option<nat>)
    requires Inv(w) && CausalInv(w) && Pushable(w, p, gaps, a, x, acked) && EntryInv(w, oid, p, at)
    requires !CreatedIn(Own(p, w.nodes[p]), oid)
    ensures var w' := PushAt(w, p, gaps, a, x, acked);
            && w'.nodes.Keys == w.nodes.Keys && EntryInv(w', oid, p, at)
  {
    hide Inv, FeedCausal, NodeCausal, Of, Pos, EventsSince, AppendAll, ProjectAll, Can, Do, Acked, Effects, PushAt, IsCreation;
    var own, lo := Own(p, w.nodes[p]), Acked(p, w.nodes[p]);
    var w' := PushAt(w, p, gaps, a, x, acked);
    assert NodeCausal(p, w.nodes[p]);
    PushProjects(w, p, gaps, a, x, acked, oid);
    PushMoves(w, p, gaps, a, x, acked);
    PushOwn(w, p, gaps, a, x, acked);
    if at.None? {
      NoCreationNoRow(own[lo..lo + x], own, lo, oid);
    } else {
      var c: Event, z: nat :| IsCreation(w, c, oid) && RowAt(w, oid, p, c, at.value, z);
      CreationStays(w, w', c, oid);
      assert c.body.DebtCreated? && c.body.oid == oid by { CreationBody(w, c, oid); }
      var y := ReplayFrom(c, own, at.value, lo, x, z, oid);
      assert RowAt(w', oid, p, c, at.value, y);
    }
  }

  lemma CreationBody(w: World, c: Event, oid: string)
    requires IsCreation(w, c, oid)
    ensures c.body.DebtCreated? && c.body.oid == oid
  {
  }

  lemma {:induction false} NoCreationNoRow(es: seq<Event>, own: seq<Event>, lo: nat, oid: string)
    requires lo + |es| <= |own| && es == own[lo..lo + |es|] && !CreatedIn(own, oid)
    ensures Effects(None, es, oid) == None
  {
    if es != [] {
      var k := |es| - 1;
      assert es[k] == own[lo + k];
      NoCreationNoRow(es[..k], own, lo, oid);
    }
  }

  lemma CreationStays(w: World, w': World, c: Event, oid: string)
    requires IsCreation(w, c, oid) && w'.nodes.Keys == w.nodes.Keys
    requires forall m :: m in w.nodes ==> Own(m, w.nodes[m]) <= Own(m, w'.nodes[m])
    ensures IsCreation(w', c, oid)
  {
    hide Own;
    var a, b := Own(c.source, w.nodes[c.source]), Own(c.source, w'.nodes[c.source]);
    var i :| 0 <= i < |a| && a[i] == c;
    assert b[i] == c;
  }

  /** Somebody else's push can only bring the creation. */
  lemma OthersPush(w: World, n: NodeId, gaps: seq<nat>, a: nat, x: nat, acked: bool, oid: string, p: NodeId, at: Option<nat>)
    requires Inv(w) && CausalInv(w) && Pushable(w, n, gaps, a, x, acked) && p in w.nodes && n != p
    requires EntryInv(w, oid, p, at) && SinglePayer(w, oid, p)
    ensures var w' := PushAt(w, n, gaps, a, x, acked);
            && w'.nodes.Keys == w.nodes.Keys
            && EntryInv(w', oid, p, if oid !in w.hub.debts && oid in w'.hub.debts then Some(Acked(p, w.nodes[p])) else at)
  {
    hide Inv, FeedCausal, NodeCausal, Of, Pos, EventsSince, AppendAll, ProjectAll, Can, Do, Acked, Effects, IsCreation;
    var own, lo := Own(n, w.nodes[n]), Acked(n, w.nodes[n]);
    var w' := PushAt(w, n, gaps, a, x, acked);
    assert NodeCausal(n, w.nodes[n]);
    PushProjects(w, n, gaps, a, x, acked, oid);
    PushOwn(w, n, gaps, a, x, acked);
    assert w'.nodes[p] == w.nodes[p];
    EntryKnown(w, oid, p, at);
    var es := own[lo..lo + x];
    forall i | 0 <= i < |es| && es[i].body.About(oid) ensures es[i].body.DebtCreated? {
      assert es[i] == own[lo + i];
    }
    hide Own, SinglePayer;
    if oid in w.hub.debts {
      OnlyCreations(DebtOf(w.hub.debts, oid), es, oid);
      RowStays(w, w', oid, p, at);
    } else if oid in w'.hub.debts {
      OnlyCreates(es, oid);
      var i :| 0 <= i < |es| && es[i].body.DebtCreated? && es[i].body.oid == oid && DebtOf(w'.hub.debts, oid) == Some(Born(es[i]));
      assert es[i] == own[lo + i];
      OwnEvent(w, n, lo + i, oid);
      RowEnters(w, w', oid, p, es[i]);
    }
  }

  lemma RowStays(w: World, w': World, oid: string, p: NodeId, at: Option<nat>)
    requires p in w.nodes && EntryInv(w, oid, p, at) && at.Some? && w'.nodes.Keys == w.nodes.Keys && w'.nodes[p] == w.nodes[p]
    requires forall m :: m in w.nodes ==> Own(m, w.nodes[m]) == Own(m, w'.nodes[m])
    requires DebtOf(w'.hub.debts, oid) == DebtOf(w.hub.debts, oid)
    ensures EntryInv(w', oid, p, at)
  {
    hide Own, Acked, Effects, IsCreation, DebtOf;
    var c: Event, z: nat :| IsCreation(w, c, oid) && RowAt(w, oid, p, c, at.value, z);
    CreationStays(w, w', c, oid);
    assert RowAt(w', oid, p, c, at.value, z);
  }

  lemma RowEnters(w: World, w': World, oid: string, p: NodeId, c: Event)
    requires p in w.nodes && w'.nodes.Keys == w.nodes.Keys && w'.nodes[p] == w.nodes[p] && IsCreation(w, c, oid)
    requires forall m :: m in w.nodes ==> Own(m, w.nodes[m]) == Own(m, w'.nodes[m])
    requires DebtOf(w'.hub.debts, oid) == Some(Born(c))
    ensures EntryInv(w', oid, p, Some(Acked(p, w.nodes[p])))
  {
    hide Own, Acked, Effects, IsCreation, DebtOf;
    CreationStays(w, w', c, oid);
    AckedWithin(p, w.nodes[p]);
    var k := Acked(p, w.nodes[p]);
    assert Own(p, w.nodes[p])[k..k] == [];
    NoEffects(Some(Born(c)), oid);
    assert RowAt(w', oid, p, c, k, k);
  }

  lemma OwnEvent(w: World, n: NodeId, i: nat, oid: string)
    requires n in w.nodes && i < |Own(n, w.nodes[n])|
    requires Own(n, w.nodes[n])[i].body.DebtCreated? && Own(n, w.nodes[n])[i].body.oid == oid
    ensures IsCreation(w, Own(n, w.nodes[n])[i], oid)
  {
    hide Of;
    var x := OfIndex(w.nodes[n].events, n, i);
  }

  lemma AckedWithin(n: NodeId, nd: Node)
    ensures Acked(n, nd) <= |Own(n, nd)|
  {
    hide Of, Pos;
  }

  // ---- Every step, every run ----

  /** Steps other than pushes. */
  lemma OthersKeepEntry(w: World, s: Step, oid: string, p: NodeId, at: Option<nat>)
    requires Inv(w) && Can(w, s) && Serial(s) && !s.Push? && p in w.nodes && EntryInv(w, oid, p, at)
    ensures var w' := Do(w, s); p in w'.nodes && w'.hub == w.hub && EntryInv(w', oid, p, at)
  {
    hide Inv, Can, Do, Own, Acked, Effects, IsCreation;
    var w' := Do(w, s);
    SerialLogs(w, s);
    if at.Some? {
      var c: Event, z: nat :| IsCreation(w, c, oid) && RowAt(w, oid, p, c, at.value, z);
      CreationStays(w, w', c, oid);
      AckedStays(w, s, p);
      assert Own(p, w'.nodes[p])[at.value..z] == Own(p, w.nodes[p])[at.value..z];
      assert RowAt(w', oid, p, c, at.value, z);
    }
  }

  lemma AckedStays(w: World, s: Step, p: NodeId)
    requires Inv(w) && Can(w, s) && Serial(s) && !s.Push? && p in w.nodes
    ensures p in Do(w, s).nodes && Acked(p, Do(w, s).nodes[p]) == Acked(p, w.nodes[p])
  {
    hide Inv, Can, Do, Acked, EmitAt;
    CursorStays(w, s, p);
    var nd, nd' := w.nodes[p], Do(w, s).nodes[p];
    if s.Begin? {
      BeginCan(w, s);
      BeginKeepsSeen(w, s.n);
      BeginStays(w, s, p);
      SameAcks(p, nd, nd');
    } else if nd'.events != nd.events {
      InvLog(w, p);
      var e := nd'.events[|nd.events|];
      EmitAcked(p, nd, w.hub.feed, e.ts, e.body);
      EmitCursor(p, nd, e.ts, e.body);
      SameAcks(p, EmitAt(p, nd, e.ts, e.body), nd');
    } else {
      SameAcks(p, nd, nd');
    }
  }

  lemma BeginCan(w: World, s: Step)
    requires Can(w, s) && s.Begin?
    ensures s.n in w.nodes && w.nodes[s.n].inbox != []
  {
  }

  lemma BeginStays(w: World, s: Step, p: NodeId)
    requires Can(w, s) && s.Begin? && p in w.nodes
    ensures p in Do(w, s).nodes && Do(w, s).nodes[p] == if p == s.n then BeginAt(w.nodes[p]) else w.nodes[p]
  {
    hide BeginAt;
  }

  lemma EmitCursor(p: NodeId, nd: Node, ts: int, body: Body)
    ensures EmitAt(p, nd, ts, body).pushCursor == nd.pushCursor
    ensures EmitAt(p, nd, ts, body).events == nd.events + [Event(p, nd.num + 1, ts, body)]
  {
  }

  lemma SameAcks(p: NodeId, nd: Node, nd': Node)
    requires Own(p, nd') == Own(p, nd) && nd'.pushCursor == nd.pushCursor
    ensures Acked(p, nd') == Acked(p, nd)
  {
    hide Of, Pos;
  }

  /** The push cursor stays, and a log changes by at most one emitted event. */
  lemma CursorStays(w: World, s: Step, p: NodeId)
    requires Can(w, s) && Serial(s) && !s.Push? && p in w.nodes
    ensures p in Do(w, s).nodes
    ensures var nd, nd' := w.nodes[p], Do(w, s).nodes[p];
            && nd'.pushCursor == nd.pushCursor
            && (nd'.events != nd.events && !s.Begin? ==>
                  exists e :: nd'.events == nd.events + [e] && e.source == p && e.num == nd.num + 1)
  {
    hide AppendOne, Mirror, Of, Foreign, IsTop, IsTopObligation, FeedSince, EventsSince, Stored, Pos, AppendAll, ProjectAll,
         Project, ObligationId, EventId;
    var nd, nd' := w.nodes[p], Do(w, s).nodes[p];
    if nd'.events != nd.events && !s.Begin? {
      assert nd'.events == nd.events + [nd'.events[|nd.events|]];
    }
  }

  lemma PushKeepsEntry(w: World, s: Step, oid: string, p: NodeId, at: Option<nat>)
    requires Inv(w) && CausalInv(w) && Can(w, s) && s.Push? && p in w.nodes && EntryInv(w, oid, p, at)
    requires SinglePayer(w, oid, p) && !CreatedIn(Own(p, w.nodes[p]), oid)
    ensures var w' := Do(w, s);
            && p in w'.nodes
            && EntryInv(w', oid, p, if oid !in w.hub.debts && oid in w'.hub.debts then Some(Acked(p, w.nodes[p])) else at)
  {
    hide Inv, CausalInv, Own, Acked, SinglePayer, CreatedIn, EntryInv, EventsSince, AppendAll, ProjectAll;
    var Push(n, gaps, a, x, acked) := s;
    assert Pushable(w, n, gaps, a, x, acked);
    if n == p {
      PayerPush(w, n, gaps, a, x, acked, oid, at);
      EntryKnown(w, oid, p, at);
      EntryKnown(Do(w, s), oid, p, at);
    } else {
      OthersPush(w, n, gaps, a, x, acked, oid, p, at);
    }
  }

  /** What holds at the end held at the start: who paid, and who did not create. */
  lemma {:induction false} BeforeRun(w: World, steps: seq<Step>, oid: string, p: NodeId)
    requires Inv(w) && Runs(w, steps) && p in Final(w, steps).nodes
    requires SinglePayer(Final(w, steps), oid, p) && !CreatedIn(Own(p, Final(w, steps).nodes[p]), oid)
    ensures p in w.nodes && SinglePayer(w, oid, p) && !CreatedIn(Own(p, w.nodes[p]), oid)
    decreases |steps|
  {
    hide Inv, Can, Do, Own, SinglePayer, CreatedIn;
    if steps != [] {
      var w' := Do(w, steps[0]);
      StepKeepsInv(w, steps[0]);
      BeforeRun(w', steps[1..], oid, p);
      LogsGrow(w, steps[0]);
      PayerBeforeStep(w, w', oid, p);
      if CreatedIn(Own(p, w.nodes[p]), oid) {
        CreatedInLonger(Own(p, w.nodes[p]), Own(p, w'.nodes[p]), oid);
      }
    }
  }

  lemma CreatedInLonger(a: seq<Event>, b: seq<Event>, oid: string)
    requires a <= b && CreatedIn(a, oid)
    ensures CreatedIn(b, oid)
  {
    var i :| 0 <= i < |a| && a[i].body.DebtCreated? && a[i].body.oid == oid;
    assert b[i] == a[i];
  }

  lemma {:induction false} RunKeepsEntry(w: World, steps: seq<Step>, oid: string, p: NodeId)
    requires Inv(w) && CausalInv(w) && Runs(w, steps) && SerialRun(steps) && p in w.nodes
    requires p in Final(w, steps).nodes && SinglePayer(Final(w, steps), oid, p) && !CreatedIn(Own(p, Final(w, steps).nodes[p]), oid)
    requires EntryInv(w, oid, p, None)
    ensures EntryInv(Final(w, steps), oid, p, AckedAtEntry(w, steps, oid, p))
    decreases |steps|
  {
    hide Inv, CausalInv, Can, Do, Own, SinglePayer, CreatedIn, EntryInv, Acked, Serial;
    if steps != [] {
      var s, w' := steps[0], Do(w, steps[0]);
      assert Serial(s);
      BeforeRun(w, steps, oid, p);
      StepKeepsInv(w, s);
      StepKeepsCausal(w, s);
      var at := if oid !in w.hub.debts && oid in w'.hub.debts then Some(Acked(p, w.nodes[p])) else None;
      StepEntry(w, s, oid, p, None);
      if at.Some? {
        EntryRuns(w', steps[1..], oid, p, at);
      } else {
        RunKeepsEntry(w', steps[1..], oid, p);
      }
    }
  }

  lemma StepEntry(w: World, s: Step, oid: string, p: NodeId, at: Option<nat>)
    requires Inv(w) && CausalInv(w) && Can(w, s) && Serial(s) && p in w.nodes && EntryInv(w, oid, p, at)
    requires SinglePayer(w, oid, p) && !CreatedIn(Own(p, w.nodes[p]), oid)
    ensures var w' := Do(w, s);
            && p in w'.nodes
            && EntryInv(w', oid, p, if oid !in w.hub.debts && oid in w'.hub.debts then Some(Acked(p, w.nodes[p])) else at)
  {
    hide Inv, CausalInv, Can, Do, Own, SinglePayer, CreatedIn, EntryInv, Acked;
    if s.Push? {
      PushKeepsEntry(w, s, oid, p, at);
    } else {
      OthersKeepEntry(w, s, oid, p, at);
    }
  }

  /** Once the row is there, it follows p's log. */
  lemma {:induction false} EntryRuns(w: World, steps: seq<Step>, oid: string, p: NodeId, at: Option<nat>)
    requires Inv(w) && CausalInv(w) && Runs(w, steps) && SerialRun(steps) && p in w.nodes && at.Some?
    requires p in Final(w, steps).nodes && SinglePayer(Final(w, steps), oid, p) && !CreatedIn(Own(p, Final(w, steps).nodes[p]), oid)
    requires EntryInv(w, oid, p, at)
    ensures EntryInv(Final(w, steps), oid, p, at)
    decreases |steps|
  {
    hide Inv, CausalInv, Can, Do, Own, SinglePayer, CreatedIn, EntryInv, Acked, Serial;
    if steps != [] {
      var s := steps[0];
      assert Serial(s);
      BeforeRun(w, steps, oid, p);
      StepKeepsInv(w, s);
      StepKeepsCausal(w, s);
      EntryKnown(w, oid, p, at);
      StepEntry(w, s, oid, p, at);
      EntryRuns(Do(w, s), steps[1..], oid, p, at);
    }
  }

  // ---- What the payer's changes come to ----

  ghost predicate AdjustedIn(es: seq<Event>, oid: string) {
    exists i :: 0 <= i < |es| && es[i].body.DebtAdjusted? && es[i].body.oid == oid
  }

  /** Nothing is adjusted after it was resolved. */
  ghost predicate AdjustsOpen(es: seq<Event>, oid: string) {
    forall j :: 0 <= j < |es| && es[j].body.DebtAdjusted? && es[j].body.oid == oid ==> !ResolvedIn(es[..j], oid)
  }

  /** The weight the last adjustment leaves. */
  function LastWeight(es: seq<Event>, oid: string, start: int): int {
    if es == [] then start
    else
      var k := |es| - 1;
      if es[k].body.DebtAdjusted? && es[k].body.oid == oid then es[k].body.newWeight else LastWeight(es[..k], oid, start)
  }

  lemma AdjustedInStep(es: seq<Event>, e: Event, oid: string)
    ensures AdjustedIn(es + [e], oid) <==> AdjustedIn(es, oid) || (e.body.DebtAdjusted? && e.body.oid == oid)
  {
    var t := es + [e];
    if AdjustedIn(es, oid) {
      var i :| 0 <= i < |es| && es[i].body.DebtAdjusted? && es[i].body.oid == oid;
      assert t[i] == es[i];
    }
    assert t[|es|] == e;
  }

  lemma AdjustsOpenStep(es: seq<Event>, e: Event, oid: string)
    ensures AdjustsOpen(es + [e], oid) <==>
            AdjustsOpen(es, oid) && (e.body.DebtAdjusted? && e.body.oid == oid ==> !ResolvedIn(es, oid))
  {
    hide ResolvedIn;
    var t := es + [e];
    assert t[..|es|] == es && t[|es|] == e;
    assert forall j :: 0 <= j < |es| ==> t[j] == es[j] && t[..j] == es[..j];
  }

  /** The row a payer's changes make of a new one: the last adjustment's weight, closed if anything resolved it. */
  lemma {:induction false} ChangesMake(r: Row, es: seq<Event>, oid: string)
    requires r.open && AdjustsOpen(es, oid)
    ensures Effects(Some(r), es, oid) == Some(r.(weight := LastWeight(es, oid, r.weight), open := !ResolvedIn(es, oid)))
  {
    hide ResolvedIn, AdjustsOpen;
    if es == [] {
      NothingIn(oid);
    } else {
      var k := |es| - 1;
      assert es == es[..k] + [es[k]];
      AdjustsOpenStep(es[..k], es[k], oid);
      ChangesMake(r, es[..k], oid);
      CreatedInStep(es[..k], es[k], oid);
    }
  }

  lemma {:induction false} WeightFrom(es: seq<Event>, k: nat, oid: string, start: int)
    requires k <= |es|
    ensures AdjustedIn(es[k..], oid) ==> LastWeight(es[k..], oid, start) == LastWeight(es, oid, start)
    ensures !AdjustedIn(es[k..], oid) ==> LastWeight(es[k..], oid, start) == start
    decreases |es|
  {
    hide AdjustedIn;
    if k == |es| {
      assert es[k..] == [];
      NothingAdjusted(oid);
    } else {
      var m := |es| - 1;
      assert es[k..] == es[..m][k..] + [es[m]];
      assert es[k..][..|es[k..]| - 1] == es[..m][k..];
      AdjustedInStep(es[..m][k..], es[m], oid);
      WeightFrom(es[..m], k, oid, start);
    }
  }

  lemma NothingAdjusted(oid: string)
    ensures !AdjustedIn([], oid)
  {
  }

  lemma PartIn(es: seq<Event>, k: nat, oid: string)
    requires k <= |es|
    ensures AdjustedIn(es[k..], oid) ==> AdjustedIn(es, oid)
    ensures ResolvedIn(es[k..], oid) ==> ResolvedIn(es, oid)
    ensures AdjustsOpen(es, oid) ==> AdjustsOpen(es[k..], oid)
  {
    var t := es[k..];
    assert forall i :: 0 <= i < |t| ==> t[i] == es[k + i];
    if AdjustsOpen(es, oid) {
      forall j | 0 <= j < |t| && t[j].body.DebtAdjusted? && t[j].body.oid == oid ensures !ResolvedIn(t[..j], oid) {
        assert !ResolvedIn(es[..k + j], oid);
        assert forall i :: 0 <= i < j ==> t[..j][i] == es[..k + j][k + i];
      }
    }
  }

  /** Dropping the first k events of the payer's log leaves the same row exactly when adjustments remain if there were any, and
      resolutions remain if there were any. */
  lemma DroppingIff(r: Row, own: seq<Event>, k: nat, oid: string)
    requires r.open && AdjustsOpen(own, oid) && k <= |own|
    requires AdjustedIn(own, oid) ==> LastWeight(own, oid, r.weight) < r.weight
    ensures Effects(Some(r), own[k..], oid) == Effects(Some(r), own, oid) <==>
            (AdjustedIn(own, oid) ==> AdjustedIn(own[k..], oid)) && (ResolvedIn(own, oid) ==> ResolvedIn(own[k..], oid))
  {
    hide AdjustedIn, ResolvedIn, AdjustsOpen, Effects, LastWeight;
    PartIn(own, k, oid);
    ChangesMake(r, own, oid);
    ChangesMake(r, own[k..], oid);
    WeightFrom(own, k, oid, r.weight);
    assert own[0..] == own;
    WeightFrom(own, 0, oid, r.weight);
  }

  // ---- Payments take something off ----

  /** Each adjustment leaves less than there was. */
  ghost predicate Falling(es: seq<Event>, oid: string, start: int) {
    forall i :: 0 <= i < |es| && es[i].body.DebtAdjusted? && es[i].body.oid == oid ==> es[i].body.newWeight < LastWeight(es[..i], oid, start)
  }

  lemma FallingStep(es: seq<Event>, e: Event, oid: string, start: int)
    ensures Falling(es + [e], oid, start) <==>
            Falling(es, oid, start) && (e.body.DebtAdjusted? && e.body.oid == oid ==> e.body.newWeight < LastWeight(es, oid, start))
    ensures LastWeight(es + [e], oid, start) ==
            if e.body.DebtAdjusted? && e.body.oid == oid then e.body.newWeight else LastWeight(es, oid, start)
  {
    var t := es + [e];
    assert t[..|es|] == es && t[|es|] == e;
    assert forall i :: 0 <= i < |es| ==> t[i] == es[i] && t[..i] == es[..i];
  }

  lemma {:induction false} FallsBelow(es: seq<Event>, oid: string, start: int)
    requires Falling(es, oid, start)
    ensures LastWeight(es, oid, start) <= start
    ensures AdjustedIn(es, oid) ==> LastWeight(es, oid, start) < start
  {
    hide Falling, AdjustedIn, LastWeight;
    if es == [] {
      NothingAdjusted(oid);
      assert LastWeight(es, oid, start) == start by { NoWeight(oid, start); }
    } else {
      var k := |es| - 1;
      assert es == es[..k] + [es[k]];
      FallingStep(es[..k], es[k], oid, start);
      AdjustedInStep(es[..k], es[k], oid);
      FallsBelow(es[..k], oid, start);
    }
  }

  lemma NoWeight(oid: string, start: int)
    ensures LastWeight([], oid, start) == start
  {
  }

  /** The payer's row is the created one with the weight of the payer's last adjustment, closed if the payer resolved it; each adjustment left
      less than there was, and only open rows were adjusted. */
  ghost predicate Falls(n: NodeId, nd: Node, oid: string) {
    && AdjustsOpen(Own(n, nd), oid)
    && (oid in nd.table ==> exists c :: FallsFrom(n, nd, oid, c))
  }

  ghost predicate FallsFrom(n: NodeId, nd: Node, oid: string, c: Event)
    requires oid in nd.table
  {
    && c in nd.events && c.body.DebtCreated? && c.body.oid == oid
    && Falling(Own(n, nd), oid, Born(c).weight)
    && nd.table[oid].row == PaidOff(c, Own(n, nd), oid)
  }

  /** The created row after the payer's log. */
  ghost function PaidOff(c: Event, own: seq<Event>, oid: string): Row {
    Born(c).(weight := LastWeight(own, oid, Born(c).weight), open := !ResolvedIn(own, oid))
  }

  lemma {:induction false} NeverAdjusted(es: seq<Event>, oid: string, start: int)
    requires forall i :: 0 <= i < |es| && es[i].body.Follows() ==> es[i].body.oid != oid
    ensures !AdjustedIn(es, oid) && !ResolvedIn(es, oid) && Falling(es, oid, start) && LastWeight(es, oid, start) == start
  {
    if es != [] {
      NeverAdjusted(es[..|es| - 1], oid, start);
    }
  }

  lemma NotHeardOf(n: NodeId, nd: Node, oid: string)
    requires StatusOk(n, nd) && oid !in nd.table
    ensures forall i :: 0 <= i < |Own(n, nd)| && Own(n, nd)[i].body.Follows() ==> Own(n, nd)[i].body.oid != oid
  {
    hide Of, Known, Settles;
  }

  lemma OpenNotResolved(n: NodeId, nd: Node, oid: string)
    requires StatusOk(n, nd) && oid in nd.table && nd.table[oid].row.open
    ensures !ResolvedIn(Own(n, nd), oid)
  {
    hide Of, Known, ResolvedIn, CreatedIn, Done;
    assert !IsResolved(nd.table, oid);
    assert !Settles(n, nd, oid);
  }

  /** An event about the obligation, or not, changes the row as Effect says. */
  lemma OneFalls(n: NodeId, nd: Node, nd': Node, oid: string, e: Event, own: bool)
    requires Falls(n, nd, oid) && StatusOk(n, nd)
    requires RowOf(nd'.table, oid) == Effect(RowOf(nd.table, oid), e, oid)
    requires Own(n, nd') == (if own then Own(n, nd) + [e] else Own(n, nd))
    requires e in nd'.events && forall x :: x in nd.events ==> x in nd'.events
    requires !own && e.body.About(oid) ==> e.body.DebtCreated?
    requires e.body.DebtAdjusted? && e.body.oid == oid ==>
               oid in nd.table && nd.table[oid].row.open && e.body.newWeight < nd.table[oid].row.weight
    ensures Falls(n, nd', oid)
  {
    hide Of, StatusOk, AdjustedIn, AdjustsOpen, ResolvedIn, Falling, LastWeight, Own;
    var log := Own(n, nd);
    if own {
      AdjustsOpenStep(log, e, oid);
      CreatedInStep(log, e, oid);
    }
    if oid in nd.table {
      var c :| FallsFrom(n, nd, oid, c);
      if own {
        FallingStep(log, e, oid, Born(c).weight);
      }
      if nd.table[oid].row.open {
        OpenNotResolved(n, nd, oid);
      }
      assert oid in nd'.table;
      assert FallsFrom(n, nd', oid, c);
    } else {
      NotHeardOf(n, nd, oid);
      NeverAdjusted(log, oid, Born(e).weight);
      if own {
        FallingStep(log, e, oid, Born(e).weight);
      }
      if oid in nd'.table {
        assert FallsFrom(n, nd', oid, e);
      }
    }
  }

  lemma SameOwnLog(n: NodeId, nd: Node, nd': Node)
    requires Kept(n, nd, nd')
    ensures Own(n, nd') == Own(n, nd)
  {
  }

  lemma SameFalls(n: NodeId, nd: Node, nd': Node, oid: string)
    requires Falls(n, nd, oid) && Kept(n, nd, nd') && forall x :: x in nd.events ==> x in nd'.events
    ensures Falls(n, nd', oid)
  {
    hide Own, AdjustsOpen, Falling, LastWeight, ResolvedIn;
    SameOwnLog(n, nd, nd');
    if oid in nd.table {
      var c :| FallsFrom(n, nd, oid, c);
      assert FallsFrom(n, nd', oid, c);
    }
  }

  lemma StepFalls(w: World, s: Step, p: NodeId, oid: string)
    requires Inv(w) && CausalInv(w) && StatusInv(w) && Can(w, s) && Careful(w, s) && TakesOff(s) && p in w.nodes
    requires SinglePayer(w, oid, p) && Falls(p, w.nodes[p], oid)
    ensures p in Do(w, s).nodes && Falls(p, Do(w, s).nodes[p], oid)
  {
    hide Inv, CausalInv, Do, Of, Falls, SinglePayer, StatusOk, Own, Mirror;
    EventsStay(w, s, p);
    var nd, nd' := w.nodes[p], Do(w, s).nodes[p];
    assert StatusOk(p, nd);
    if IsLocal(s) && s.n == p {
      var e := LocalAtNode(w, s);
      if Grew(p, nd, nd', e) {
        OneFalls(p, nd, nd', oid, e, true);
      } else {
        SameFalls(p, nd, nd', oid);
      }
    } else if RunsMirror(w, s, p) {
      MirrorAtNode(w, s, p);
      var e := Pending(nd);
      PayerPullsCreation(w, p, oid);
      PendingInLog(w, p);
      MirrorAndProjectionAgree(nd.table, map[], e, oid);
      OneFalls(p, nd, nd', oid, e, false);
    } else {
      QuietAtNode(w, s, p);
      SameFalls(p, nd, nd', oid);
    }
  }

  lemma {:induction false} RunFalls(w: World, steps: seq<Step>, p: NodeId, oid: string)
    requires Inv(w) && CausalInv(w) && StatusInv(w) && MirrorsDebts(w.handlers) && Runs(w, steps) && CarefulRun(w, steps)
    requires PayingRun(steps) && p in w.nodes && Falls(p, w.nodes[p], oid)
    requires p in Final(w, steps).nodes && SinglePayer(Final(w, steps), oid, p)
    ensures Falls(p, Final(w, steps).nodes[p], oid)
    decreases |steps|
  {
    hide Inv, CausalInv, StatusInv, MirrorsDebts, Can, Do, Careful, SinglePayer, Falls, TakesOff;
    if steps != [] {
      var s := steps[0];
      assert TakesOff(s);
      PayerFromEnd(w, steps, oid, p);
      StepFalls(w, s, p, oid);
      StepKeepsInv(w, s);
      StepKeepsCausal(w, s);
      StepKeepsStatus(w, s);
      HandlersStay(w, s);
      RunFalls(Do(w, s), steps[1..], p, oid);
    }
  }

  /** Who paid at the end is who paid all along. */
  lemma {:induction false} PayerFromEnd(w: World, steps: seq<Step>, oid: string, p: NodeId)
    requires Inv(w) && Runs(w, steps) && SinglePayer(Final(w, steps), oid, p)
    ensures SinglePayer(w, oid, p)
    decreases |steps|
  {
    hide Inv, Can, Do, Own, SinglePayer;
    if steps != [] {
      StepKeepsInv(w, steps[0]);
      PayerFromEnd(Do(w, steps[0]), steps[1..], oid, p);
      LogsGrow(w, steps[0]);
      PayerBeforeStep(w, Do(w, steps[0]), oid, p);
    }
  }

  // ---- The payer's row ----

  /** If the payer did not create the obligation, its own row is what its log makes of the created row. */
  lemma PayersRow(w: World, p: NodeId, oid: string, c: Event)
    requires Inv(w) && CausalInv(w) && StatusInv(w) && WeightInv(w) && p in w.nodes && SinglePayer(w, oid, p)
    requires oid in w.nodes[p].table && !CreatedIn(Own(p, w.nodes[p]), oid) && IsCreation(w, c, oid)
    ensures RowOf(w.nodes[p].table, oid) == Effects(Some(Born(c)), Own(p, w.nodes[p]), oid)
  {
    hide Inv, CausalInv, SinglePayer, Of, Foreign, Done, CreatedIn, Effects;
    var nd := w.nodes[p];
    var done, own := Done(p, nd), Own(p, nd);
    assert WeightOk(p, nd, oid, p);
    assert StatusOk(p, nd);
    assert CreatedIn(done, oid);
    EffectsConcat(None, done, own, oid);
    MirroredCreates(w, p, oid, c);
  }

  lemma MirroredCreates(w: World, p: NodeId, oid: string, c: Event)
    requires Inv(w) && CausalInv(w) && p in w.nodes && SinglePayer(w, oid, p)
    requires CreatedIn(Done(p, w.nodes[p]), oid) && IsCreation(w, c, oid)
    ensures RowAfter(Done(p, w.nodes[p]), oid) == Some(Born(c))
  {
    hide Inv, CausalInv, SinglePayer, Of, Foreign;
    var nd := w.nodes[p];
    var done, rows := Done(p, nd), Foreign(nd.events, p);
    forall i | 0 <= i < |done| && done[i].body.About(oid) ensures done[i].body.DebtCreated? && done[i] == c {
      var x := ForeignIndex(nd.events, p, i);
      StemsFrom(w, p, done[i]);
      NotAPayment(w, p, oid, done[i]);
      SameCreation(w, done[i], c);
    }
    OnlyCreates(done, oid);
    NothingIn(oid);
    StatusOfEffects(None, [], done, oid);
  }

  lemma NotAPayment(w: World, p: NodeId, oid: string, e: Event)
    requires SinglePayer(w, oid, p) && e.source in w.nodes && e.source != p && e in Own(e.source, w.nodes[e.source])
    ensures !Changes(e, oid)
  {
    hide Of;
    var own := Own(e.source, w.nodes[e.source]);
    var i :| 0 <= i < |own| && own[i] == e;
  }

  lemma MakersAffair(w: World, p: NodeId, oid: string)
    requires Inv(w) && CausalInv(w) && p in w.nodes && SinglePayer(w, oid, p) && CreatedIn(Own(p, w.nodes[p]), oid)
    ensures OwnAffair(w, oid, p)
  {
    hide Inv, CausalInv, Of;
    var own := Own(p, w.nodes[p]);
    var i :| 0 <= i < |own| && own[i].body.DebtCreated? && own[i].body.oid == oid;
    var x := OfIndex(w.nodes[p].events, p, i);
    forall n, j | n in w.nodes && 0 <= j < |Own(n, w.nodes[n])| && Own(n, w.nodes[n])[j].body.About(oid) ensures n == p {
      var e := Own(n, w.nodes[n])[j];
      var y := OfIndex(w.nodes[n].events, n, j);
      if e.body.DebtCreated? {
        SameCreation(w, own[i], e);
      } else {
        assert Changes(e, oid);
      }
    }
  }

  lemma MakersRow(w: World, p: NodeId, oid: string)
    requires Inv(w) && CausalInv(w) && WeightInv(w) && IndexInv(w) && p in w.nodes && OwnAffair(w, oid, p)
    requires Acked(p, w.nodes[p]) == |Own(p, w.nodes[p])|
    ensures DebtOf(w.hub.debts, oid) == RowOf(w.nodes[p].table, oid)
  {
    hide Inv, CausalInv, WeightInv, OwnAffair, Of, Acked, RowAfter, DebtOf, RowOf;
    var z: nat :| IndexAt(w, oid, p, z);
    OwnTable(w, oid, p);
    assert Own(p, w.nodes[p])[..z] == Own(p, w.nodes[p]);
  }

  lemma FallsMeans(w: World, p: NodeId, oid: string, c: Event)
    requires Inv(w) && CausalInv(w) && p in w.nodes && Falls(p, w.nodes[p], oid) && oid in w.nodes[p].table && IsCreation(w, c, oid)
    requires RowOf(w.nodes[p].table, oid) == Effects(Some(Born(c)), Own(p, w.nodes[p]), oid)
    ensures AdjustsOpen(Own(p, w.nodes[p]), oid)
    ensures AdjustedIn(Own(p, w.nodes[p]), oid) ==> LastWeight(Own(p, w.nodes[p]), oid, Born(c).weight) < Born(c).weight
  {
    hide Inv, CausalInv, Own, AdjustsOpen, AdjustedIn, ResolvedIn, Effects, Falling, LastWeight;
    var d :| FallsFrom(p, w.nodes[p], oid, d);
    StemsFrom(w, p, d);
    SameCreation(w, c, d);
    FallsBelow(Own(p, w.nodes[p]), oid, Born(c).weight);
  }

  lemma StartReady(w0: World, steps: seq<Step>, p: NodeId, oid: string)
    requires Start(w0) && Runs(w0, steps) && p in Final(w0, steps).nodes
    ensures Inv(w0) && CausalInv(w0) && StatusInv(w0) && IndexInv(w0)
    ensures p in w0.nodes && Falls(p, w0.nodes[p], oid) && EntryInv(w0, oid, p, None)
  {
    hide Inv, CausalInv, StatusInv, IndexInv, Can, Do;
    StartInv(w0);
    StartCausal(w0);
    StartStatus(w0);
    StartIndex(w0);
    NodesStay(w0, steps);
    assert Own(p, w0.nodes[p]) == [];
  }

  lemma {:induction false} LogGrowsInRun(w: World, steps: seq<Step>, p: NodeId)
    requires Inv(w) && Runs(w, steps) && p in w.nodes
    ensures p in Final(w, steps).nodes && |Own(p, w.nodes[p])| <= |Own(p, Final(w, steps).nodes[p])|
    decreases |steps|
  {
    hide Inv, Can, Do, Own;
    if steps != [] {
      LogsGrow(w, steps[0]);
      StepKeepsInv(w, steps[0]);
      LogGrowsInRun(Do(w, steps[0]), steps[1..], p);
    }
  }

  lemma {:induction false} EntryBound(w: World, steps: seq<Step>, oid: string, p: NodeId)
    requires Inv(w) && Runs(w, steps) && p in w.nodes && p in Final(w, steps).nodes
    ensures var at := AckedAtEntry(w, steps, oid, p); at.Some? ==> at.value <= |Own(p, Final(w, steps).nodes[p])|
    decreases |steps|
  {
    hide Inv, Can, Do, Own, Acked;
    if steps != [] {
      var w' := Do(w, steps[0]);
      StepKeepsInv(w, steps[0]);
      LogsGrow(w, steps[0]);
      if oid !in w.hub.debts && oid in w'.hub.debts {
        AckedWithin(p, w.nodes[p]);
        LogGrowsInRun(w, steps, p);
      } else {
        EntryBound(w', steps[1..], oid, p);
      }
    }
  }

  lemma EntryMeans(w: World, p: NodeId, oid: string, k: nat)
    requires Inv(w) && CausalInv(w) && StatusInv(w) && WeightInv(w) && p in w.nodes && SinglePayer(w, oid, p)
    requires oid in w.nodes[p].table && !CreatedIn(Own(p, w.nodes[p]), oid) && Falls(p, w.nodes[p], oid)
    requires EntryInv(w, oid, p, Some(k)) && Acked(p, w.nodes[p]) == |Own(p, w.nodes[p])| && k <= |Own(p, w.nodes[p])|
    ensures var own := Own(p, w.nodes[p]);
            DebtOf(w.hub.debts, oid) == RowOf(w.nodes[p].table, oid) <==>
              (AdjustedIn(own, oid) ==> AdjustedIn(own[k..], oid)) && (ResolvedIn(own, oid) ==> ResolvedIn(own[k..], oid))
  {
    hide Inv, CausalInv, StatusInv, WeightInv, SinglePayer, Falls, Own, Acked, CreatedIn, AdjustedIn, ResolvedIn, AdjustsOpen, Effects,
         IsCreation, LastWeight;
    var own := Own(p, w.nodes[p]);
    var c: Event, z: nat :| IsCreation(w, c, oid) && RowAt(w, oid, p, c, k, z);
    assert own[k..z] == own[k..];
    PayersRow(w, p, oid, c);
    FallsMeans(w, p, oid, c);
    assert Born(c).open;
    DroppingIff(Born(c), own, k, oid);
  }

  /** When pushes are handled one at a time, each with its reply, with stops anywhere, and the payer's log is acknowledged: the hub's row of an obligation
      with a single payer equals the payer's row exactly when the payer made the obligation, or the row had entered the index before the
      payer's last adjustment, if any, and before its last resolution, if any, were acknowledged. */
  lemma SerialRowIff(w0: World, steps: seq<Step>, p: NodeId, oid: string)
    requires Start(w0) && MirrorsDebts(w0.handlers) && Runs(w0, steps) && CarefulRun(w0, steps) && SerialRun(steps) && PayingRun(steps)
    requires p in Final(w0, steps).nodes && SinglePayer(Final(w0, steps), oid, p) && oid in Final(w0, steps).nodes[p].table
    requires Acked(p, Final(w0, steps).nodes[p]) == |Own(p, Final(w0, steps).nodes[p])|
    ensures var w, at := Final(w0, steps), AckedAtEntry(w0, steps, oid, p);
            var own := Own(p, w.nodes[p]);
            && (at.Some? ==> at.value <= |own|)
            && (DebtOf(w.hub.debts, oid) == RowOf(w.nodes[p].table, oid) <==>
                  CreatedIn(own, oid) ||
                  (at.Some? && (AdjustedIn(own, oid) ==> AdjustedIn(own[at.value..], oid))
                            && (ResolvedIn(own, oid) ==> ResolvedIn(own[at.value..], oid))))
  {
    hide Inv, CausalInv, StatusInv, WeightInv, IndexInv, Can, Do, MirrorsDebts, Careful, Runs, Final, CarefulRun, SerialRun, Of, Foreign,
         SinglePayer, AckedAtEntry, EntryInv, Falls, Acked, CreatedIn, AdjustedIn, ResolvedIn, Start, PayingRun, IsCreation;
    var w, at := Final(w0, steps), AckedAtEntry(w0, steps, oid, p);
    ReachedCarefully(w0, steps);
    StartReady(w0, steps, p, oid);
    assert (at.Some? ==> at.value <= |Own(p, w.nodes[p])|) by { EntryBound(w0, steps, oid, p); }
    if CreatedIn(Own(p, w.nodes[p]), oid) {
      RunKeepsIndex(w0, steps);
      MakersAffair(w, p, oid);
      MakersRow(w, p, oid);
    } else {
      RunKeepsEntry(w0, steps, oid, p);
      if at.None? {
        EntryKnown(w, oid, p, at);
      } else {
        RunFalls(w0, steps, p, oid);
        EntryMeans(w, p, oid, at.value);
      }
    }
  }

  /** Once everything is delivered and applied as well, the same condition decides whether the hub's row equals every node's row. */
  lemma SerialRowAgreesIff(w0: World, steps: seq<Step>, n: NodeId, p: NodeId, oid: string)
    requires Start(w0) && MirrorsDebts(w0.handlers) && Runs(w0, steps) && CarefulRun(w0, steps) && SerialRun(steps) && PayingRun(steps)
    requires p in Final(w0, steps).nodes && SinglePayer(Final(w0, steps), oid, p) && oid in Final(w0, steps).nodes[p].table
    requires Acked(p, Final(w0, steps).nodes[p]) == |Own(p, Final(w0, steps).nodes[p])|
    requires Settled(Final(w0, steps)) && n in Final(w0, steps).nodes
    ensures var w, at := Final(w0, steps), AckedAtEntry(w0, steps, oid, p);
            var own := Own(p, w.nodes[p]);
            && (at.Some? ==> at.value <= |own|)
            && (DebtOf(w.hub.debts, oid) == RowOf(w.nodes[n].table, oid) <==>
                  CreatedIn(own, oid) ||
                  (at.Some? && (AdjustedIn(own, oid) ==> AdjustedIn(own[at.value..], oid))
                            && (ResolvedIn(own, oid) ==> ResolvedIn(own[at.value..], oid))))
  {
    hide MirrorsDebts, Runs, Final, CarefulRun, SerialRun, Own, SinglePayer, AckedAtEntry, Acked, CreatedIn, AdjustedIn, ResolvedIn,
         Start, PayingRun, Settled, RowOf, DebtOf, RowAfter;
    SerialRowIff(w0, steps, p, oid);
    WeightsConverge(w0, steps, n, oid, p);
    WeightsConverge(w0, steps, p, oid, p);
  }
}
