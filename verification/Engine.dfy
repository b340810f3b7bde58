/**
 The node's store and sync loop, and the hub's event store, in the form they are written: objects whose methods update
 tables and counters in place, proved against the protocol's state functions.
 */
module Engine {
  import opened Wrappers
  import opened Ids
  import opened Events
  import opened Ledger
  import opened Protocol
  import opened Ticks
  import opened TickLaws
  import opened Payments

  /** The events whose projecting statement did not fail. */
  function Surviving(es: seq<Event>, lost: nat -> bool): seq<Event> {
    if es == [] then []
    else
      var k := |es| - 1;
      if lost(k) then Surviving(es[..k], lost) else Surviving(es[..k], lost) + [es[k]]
  }

  lemma SurvivingStep(es: seq<Event>, e: Event, lost: nat -> bool)
    ensures Surviving(es + [e], lost) == if lost(|es|) then Surviving(es, lost) else Surviving(es, lost) + [e]
  {
    assert (es + [e])[..|es|] == es;
  }

  /** Exactly the events whose statement did not fail. */
  lemma {:induction false} SurvivingIs(es: seq<Event>, lost: nat -> bool, e: Event)
    ensures e in Surviving(es, lost) <==> exists i: nat :: i < |es| && es[i] == e && !lost(i)
  {
    if es != [] {
      var k := |es| - 1;
      SurvivingIs(es[..k], lost, e);
      if i: nat :| i < |es| && es[i] == e && !lost(i) {
        assert i < k ==> es[..k][i] == e;
      }
    }
  }

  lemma NothingSurvives(d: Debts, lost: nat -> bool)
    ensures ProjectAll(d, Surviving([], lost)) == d
  {
  }

  lemma ProjectStep(d: Debts, es: seq<Event>, e: Event)
    ensures ProjectAll(d, es + [e]) == Project(ProjectAll(d, es), e)
  {
    assert (es + [e])[..|es|] == es;
  }

  lemma {:induction false} NoneLost(es: seq<Event>, lost: nat -> bool)
    requires forall i: nat :: !lost(i)
    ensures Surviving(es, lost) == es
  {
    if es != [] {
      NoneLost(es[..|es| - 1], lost);
    }
  }

  lemma NothingOnTop(n: NodeId)
    ensures IsTop(Of([], n), 0)
  {
  }

  lemma TopStep(own: seq<Event>, m: nat, e: Event)
    requires IsTop(own, m)
    ensures IsTop(own + [e], if m < e.num then e.num else m)
  {
    var s, t := own + [e], if m < e.num then e.num else m;
    if m < e.num || own == [] {
      assert s[|own|].num == t;
    } else {
      var i :| 0 <= i < |own| && own[i].num == m;
      assert s[i].num == t;
    }
  }

  /** The highest number recovered from n's obligations among these ids. */
  ghost predicate TopAmong(ids: set<string>, t: Table, n: NodeId, m: int)
    requires ids <= t.Keys
  {
    if forall oid :: oid in ids ==> t[oid].row.source != n then m == 0
    else (exists oid :: oid in ids && t[oid].row.source == n && RecoverSuffix(oid) == m)
         && forall oid :: oid in ids && t[oid].row.source == n ==> RecoverSuffix(oid) <= m
  }

  class Store {
    const nodeId: NodeId
    const handlers: Handlers
    var num: nat
    var onum: nat
    var events: seq<Event>
    var marks: Marks
    var table: Table
    var hubCursor: nat
    var pushCursor: nat
    ghost var done: nat
    ghost var runs: seq<(string, nat)>

    constructor (nodeId: NodeId, handlers: Handlers)
      ensures this.nodeId == nodeId && this.handlers == handlers && View() == FRESH
    {
      this.nodeId, this.handlers := nodeId, handlers;
      num, onum, events, marks, table, hubCursor, pushCursor := 0, 0, [], map[], map[], 0, 0;
      done, runs := 0, [];
    }

    /** The store inside a tick: what it has pulled and how far it is with it. */
    ghost function Inside(inbox: seq<Entry>, work: Work): Node
      reads this
    {
      Node(num, onum, events, marks, table, hubCursor, pushCursor, inbox, work, None, done, runs)
    }

    /** The store between ticks. */
    ghost function View(): Node
      reads this
    {
      Inside([], Idle)
    }

    /** Appends to the log; the number is used up even when the insert fails. */
    method Emit(ts: int, body: Body, inserted: bool) returns (ok: bool)
      modifies this
      ensures ok == inserted
      ensures num == old(num) + 1 && events == if inserted then old(events) + [Event(nodeId, num, ts, body)] else old(events)
      ensures View() == if inserted then EmitAt(nodeId, old(View()), ts, body) else old(View()).(num := old(num) + 1)
    {
      num := num + 1;
      if inserted {
        events := events + [Event(nodeId, num, ts, body)];
      }
      ok := inserted;
    }

    /** Opens an obligation and emits debt.created.  A taken id fails the insert; if the event cannot be inserted, the row stays and
        the number is used up. */
    method CreateObligation(now: int, ts: int, terms: Terms, weight: int, emitted: bool) returns (r: Result<string, string>)
      modifies this
      ensures var id := ObligationId(nodeId, old(onum) + 1);
              && (r.Ok? <==> id !in old(table) && emitted) && (r.Ok? ==> r.value == id)
              && (id in old(table) || emitted ==> View() == CreateAt(nodeId, old(View()), now, ts, terms, weight))
              && (id !in old(table) && !emitted ==>
                    View() == old(View()).(onum := old(onum) + 1, num := old(num) + 1,
                                           table := old(table)[id := Obligation(Row(nodeId, terms, weight, true), now)]))
              && onum == old(onum) + 1
              && table == (if id in old(table) then old(table) else old(table)[id := Obligation(Row(nodeId, terms, weight, true), now)])
              && (r.Ok? ==> events == old(events) + [Event(nodeId, num, ts, DebtCreated(id, nodeId, terms, weight))])
    {
      hide ObligationId, EventId;
      onum := onum + 1;
      var id := ObligationId(nodeId, onum);
      if id in table {
        return Err("obligation id taken");
      }
      table := table[id := Obligation(Row(nodeId, terms, weight, true), now)];
      var ok := Emit(ts, DebtCreated(id, nodeId, terms, weight), emitted);
      r := if ok then Ok(id) else Err("event not inserted");
    }

    /** Sums the debtor's open weights. */
    method DebtLoad(debtor: string) returns (sum: int)
      ensures sum == Load(table, debtor)
    {
      sum := 0;
      var rest := table;
      while rest != map[]
        invariant sum + Load(rest, debtor) == Load(table, debtor)
        decreases |rest|
      {
        var id :| id in rest;
        LoadSplit(rest, debtor, id);
        sum := sum + Share(rest, id, debtor);
        rest := rest - {id};
      }
    }

    method Resolve(id: string, ts: int)
      requires id in table
      modifies this
      ensures View() == ResolveAt(nodeId, old(View()), id, ts)
    {
      var o := table[id];
      table := table[id := o.(row := o.row.(open := false))];
      var _ := Emit(ts, DebtResolved(id), true);
    }

    /** Pays on one listed debt. */
    method PayOn(d: Debt, left: int, ts: int) returns (paid: int)
      requires d.id in table
      modifies this
      ensures View() == if left >= d.Weight() then ResolveAt(nodeId, old(View()), d.id, ts)
                        else AdjustAt(nodeId, old(View()), d.id, d.Weight(), left, ts)
      ensures paid == if left >= d.Weight() then d.Weight() else left
    {
      if left >= d.Weight() {
        Resolve(d.id, ts);
        paid := d.Weight();
      } else {
        var o := table[d.id];
        table := table[d.id := o.(row := o.row.(weight := o.row.weight - left))];
        var _ := Emit(ts, DebtAdjusted(d.id, d.Weight(), d.Weight() - left), true);
        paid := left;
      }
    }

    method PayList(debts: seq<Debt>, amount: int, clock: nat -> int) returns (applied: int)
      requires Listed(table, debts) && AllKnown(table, debts)
      modifies this
      ensures View() == PayAt(nodeId, old(View()), debts, amount, clock) && applied == Settles(debts, amount)
    {
      hide Listed, AllKnown, PayAt, Settles;
      applied := 0;
      var left, i := amount, 0;
      ghost var goal := PayAt(nodeId, View(), debts, amount, clock);
      assert debts[0..] == debts;
      while i < |debts| && left > 0
        invariant 0 <= i <= |debts|
        invariant Listed(table, debts[i..]) && AllKnown(table, debts[i..])
        invariant PayAt(nodeId, View(), debts[i..], left, clock) == goal
        invariant applied + Settles(debts[i..], left) == Settles(debts, amount)
      {
        ghost var later := debts[i..];
        assert later[0] == debts[i] && later[1..] == debts[i + 1..];
        ListedAt(table, later, 0);
        PayFirst(nodeId, View(), later, left, clock);
        ListedTail(table, later, Closed(debts[i].ob));
        ListedTail(table, later, Lightened(debts[i].ob, left));
        var paid := PayOn(debts[i], left, clock(num + 1));
        left, applied, i := left - paid, applied + paid, i + 1;
      }
      PayNothing(nodeId, View(), debts[i..], left, clock);
    }

    /** Updates the row of a debt; the event that should report it cannot be inserted. */
    method HitOnly(d: Debt, left: int)
      requires d.id in table && table[d.id] == d.ob
      modifies this
      ensures View() == old(View()).(num := old(num) + 1, table := old(table)[d.id := HitRow(d, left)])
    {
      if left >= d.Weight() {
        table := table[d.id := Closed(d.ob)];
        var _ := Emit(0, DebtResolved(d.id), false);
      } else {
        table := table[d.id := Lightened(d.ob, left)];
        var _ := Emit(0, DebtAdjusted(d.id, d.Weight(), d.Weight() - left), false);
      }
    }

    /** Applies amount to the debtor's open obligations, oldest first.  A statement that fails ends the payment with what was applied so
        far; if it is the one that emits, the row it should have reported is changed and no event says so. */
    method PayDebt(debtor: string, amount: int, clock: nat -> int, trouble: Trouble)
      returns (applied: int, ok: bool, debts: seq<Debt>)
      modifies this
      ensures IsOpenList(old(table), debtor, debts) && AllKnown(old(table), Reached(debts, trouble))
      ensures applied == Settles(Reached(debts, trouble), amount)
      ensures ok <==> Reached(debts, trouble) == debts || amount <= applied
      ensures var base := PayAt(nodeId, old(View()), Reached(debts, trouble), amount, clock);
              var half := !ok && trouble.AtEmit?;
              if half then
                var d := debts[trouble.k];
                && View() == base.(num := base.num + 1, table := base.table[d.id := HitRow(d, amount - applied)])
                && Load(table, debtor) == old(Load(table, debtor)) - applied - PaidOn(d, amount - applied)
                && old(events) <= events && MirrorAll(old(table), events[|old(events)|..]) == table[d.id := d.ob]
              else
                && View() == base
                && Load(table, debtor) == old(Load(table, debtor)) - applied
                && old(events) <= events && MirrorAll(old(table), events[|old(events)|..]) == table
      ensures trouble.Smooth? && old(PositiveOpen(table, debtor)) ==>
                && PositiveOpen(table, debtor)
                && applied == if amount <= 0 then 0 else if amount <= old(Load(table, debtor)) then amount else old(Load(table, debtor))
    {
      hide Load, MirrorAll, IsOpenList, PositiveOpen, PayAt, Settles, Listed;
      debts := ListOpen(table, debtor);
      PayDebtLaw(nodeId, View(), debts, amount, clock, debtor);
      OpenListIsListed(table, debtor, debts);
      var paid := Reached(debts, trouble);
      PrefixListed(table, debtor, debts, |paid|);
      assert paid == debts[..|paid|];
      PayReplays(nodeId, View(), paid, amount, clock);
      PayLowersLoad(nodeId, View(), paid, amount, clock, debtor);
      if |paid| < |debts| {
        HalfPayment(nodeId, View(), debts, |paid|, amount, clock, debtor);
      }
      applied := PayList(paid, amount, clock);
      ok := |paid| == |debts| || amount <= applied;
      if !ok && trouble.AtEmit? {
        HitOnly(debts[|paid|], amount - applied);
      }
    }

    /** SELECT MAX(seq) over the node's own events; zero when there are none. */
    method MaxSeq() returns (m: nat)
      ensures IsTop(Of(events, nodeId), m)
    {
      hide IsTop, Of;
      m := 0;
      assert IsTop(Of(events[..0], nodeId), 0) by { NothingOnTop(nodeId); }
      for k := 0 to |events|
        invariant IsTop(Of(events[..k], nodeId), m)
      {
        AppendSelects(events[..k], events[k], nodeId);
        assert events[..k + 1] == events[..k] + [events[k]];
        if events[k].source == nodeId {
          TopStep(Of(events[..k], nodeId), m, events[k]);
          m := if m < events[k].num then events[k].num else m;
        }
      }
      assert events[..|events|] == events;
    }

    /** The highest number in the ids of the node's own obligations; zero when there are none. */
    method MaxObligation() returns (m: int)
      ensures TopAmong(table.Keys, table, nodeId, m)
    {
      hide RecoverSuffix;
      m := 0;
      var none := true;
      var rest := table.Keys;
      while rest != {}
        invariant rest <= table.Keys
        invariant none <==> forall oid :: oid in table.Keys - rest ==> table[oid].row.source != nodeId
        invariant TopAmong(table.Keys - rest, table, nodeId, m)
        decreases |rest|
      {
        var oid :| oid in rest;
        ghost var seen := table.Keys - rest;
        if table[oid].row.source == nodeId {
          var found := RecoverSuffix(oid);
          m := if none || m < found then found else m;
          none := false;
        }
        rest := rest - {oid};
        assert table.Keys - rest == seen + {oid};
      }
      assert table.Keys - rest == table.Keys;
    }

    /** Start-up: the counters are gone and are read back from the tables. */
    method Migrate()
      requires forall oid :: oid in table && table[oid].row.source == nodeId ==> RecoverSuffix(oid) >= 0
      modifies this`num, this`onum
      ensures IsTop(Of(events, nodeId), num) && IsTopObligation(table, nodeId, onum)
      ensures View() == RestartAt(old(View()), num, onum)
    {
      hide IsTop, Of, RecoverSuffix;
      num := MaxSeq();
      var top := MaxObligation();
      onum := top;
    }

    method HandlerApplied(id: string, i: nat) returns (b: bool)
      ensures b == IsMarked(marks, (id, i))
    {
      b := (id, i) in marks && marks[(id, i)] == Applied;
    }

    method Handle(h: Handler, e: Event, i: nat)
      modifies this
      ensures table == (if h.MirrorDebt? then Mirror(old(table), e) else old(table))
      ensures done == (if h.MirrorDebt? then |Foreign(events, nodeId)| else old(done))
      ensures runs == old(runs) + [(e.Id(), i)]
      ensures num == old(num) && onum == old(onum) && events == old(events) && marks == old(marks)
              && hubCursor == old(hubCursor) && pushCursor == old(pushCursor)
    {
      if h.MirrorDebt? {
        table := Mirror(table, e);
        done := |Foreign(events, nodeId)|;
      }
      runs := runs + [(e.Id(), i)];
    }

    /** One handler: skipped if an earlier attempt marked it, otherwise run and marked. */
    method RunHandler(e: Event, isNew: bool, h: Handler, i: nat, k: nat, fault: Fault, ghost inbox: seq<Entry>) returns (ok: bool)
      requires inbox != [] && inbox[0].ev == e
      modifies this
      ensures var r := HandlerStep(nodeId, old(Inside(inbox, Applying(isNew, i, false))), h, k, fault);
              ok == r.ok && (if ok then Inside(inbox, Applying(isNew, i + 1, false)) else View()) == r.nd
      ensures events == old(events) && num == old(num) && onum == old(onum) && hubCursor == old(hubCursor) && pushCursor == old(pushCursor)
      ensures var key := (e.Id(), i);
              if !isNew && fault == LookupFails(k, i) then
                !ok && table == old(table) && marks == old(marks) && runs == old(runs)
              else if !isNew && old(IsMarked(marks, key)) then
                ok && table == old(table) && marks == old(marks) && runs == old(runs)
              else if fault == HandlerFault(k, i, true) || fault == HandlerFault(k, i, false) then
                !ok && table == old(table) && runs == old(runs) && marks == if fault.recorded then old(marks)[key := Failed] else old(marks)
              else
                && table == (if h.MirrorDebt? then Mirror(old(table), e) else old(table)) && runs == old(runs) + [key]
                && (ok <==> fault != MarkFails(k, i)) && marks == if ok then old(marks)[key := Applied] else old(marks)
    {
      hide EventId, Mirror, Foreign;
      if !isNew {
        if fault == LookupFails(k, i) {
          return false;
        }
        var applied := HandlerApplied(e.Id(), i);
        if applied {
          return true;
        }
      }
      if fault.HandlerFault? && fault.event == k && fault.handler == i {
        if fault.recorded {
          marks := marks[(e.Id(), i) := Failed];
        }
        return false;
      }
      Handle(h, e, i);
      if fault == MarkFails(k, i) {
        return false;
      }
      marks := marks[(e.Id(), i) := Applied];
      ok := true;
    }

    /** Stores an event once and runs the handlers that have not succeeded on it yet, in order. */
    method ApplyEvent(e: Event, k: nat, fault: Fault, ghost inbox: seq<Entry>) returns (isNew: bool, ok: bool)
      requires inbox != [] && inbox[0].ev == e
      modifies this
      ensures isNew <==> fault != InsertFails(k) && !Stored(old(events), e.Id())
      ensures if fault == InsertFails(k) then !ok && View() == old(View())
              else
                var r := HandlersAt(nodeId, BeginAt(old(Inside(inbox, Idle))), HandlersFor(handlers, e.body.Type()), k, fault);
                ok == r.ok && (if ok then Inside(inbox, Applying(isNew, |HandlersFor(handlers, e.body.Type())|, false)) else View()) == r.nd
      ensures fault != InsertFails(k) && isNew ==> e in events
      ensures fault.NoFault? ==> ok
      ensures fault.NoFault? && isNew && HasMirror(HandlersFor(handlers, e.body.Type()), 0) ==>
                match e.body
                case DebtCreated(oid, origin, terms, weight) =>
                  table == if oid in old(table) then old(table) else old(table)[oid := Obligation(Row(origin, terms, weight, true), e.ts)]
                case DebtResolved(oid) =>
                  table == if oid !in old(table) || !old(table)[oid].row.open then old(table)
                           else var o := old(table)[oid]; old(table)[oid := Obligation(Row(o.row.source, o.row.terms, o.row.weight, false), o.createdAt)]
                case DebtAdjusted(oid, _, newWeight) =>
                  table == if oid !in old(table) || !old(table)[oid].row.open then old(table)
                           else var o := old(table)[oid]; old(table)[oid := Obligation(Row(o.row.source, o.row.terms, newWeight, true), o.createdAt)]
                case Other(_, _) => table == old(table)
    {
      hide Stored, EventId, HandlerStep, HasMirror, Mirror;
      if fault == InsertFails(k) {
        return false, false;
      }
      isNew := !Stored(events, e.Id());
      if isNew {
        events := events + [e];
        assert events[|events| - 1] == e;
      }
      var hs := HandlersFor(handlers, e.body.Type());
      ghost var was := BeginAt(old(Inside(inbox, Idle)));
      assert Inside(inbox, Applying(isNew, 0, false)) == was;
      ghost var goal := HandlersAt(nodeId, was, hs, k, fault);
      if fault.NoFault? {
        NoFaultHere(nodeId, was, hs, k, fault);
        if isNew {
          NewEventTable(nodeId, was, hs, k);
          MirrorWrites(was.table, e);
        }
      }
      var i := 0;
      while i < |hs|
        invariant 0 <= i <= |hs|
        invariant isNew ==> e in events
        invariant HandlersAt(nodeId, Inside(inbox, Applying(isNew, i, false)), hs, k, fault) == goal
      {
        ok := RunHandler(e, isNew, hs[i], i, k, fault, inbox);
        if !ok {
          return;
        }
        i := i + 1;
      }
      ok := true;
    }

    /** Applies one pulled event and moves the cursor to it. */
    method ApplyAndAdvance(k: nat, fault: Fault, x: Entry, ghost inbox: seq<Entry>) returns (ok: bool)
      requires inbox != [] && inbox[0] == x
      modifies this
      ensures var r := ApplyOne(nodeId, old(Inside(inbox, Idle)), handlers, k, fault);
              ok == r.ok && Inside(if ok then inbox[1..] else [], Idle) == r.nd
    {
      hide HandlersAt, BeginAt, Foreign;
      var isNew, applied := ApplyEvent(x.ev, k, fault, inbox);
      if !applied || fault == CursorFails(k) {
        return false;
      }
      hubCursor := x.hubSeq;
      done := |Foreign(events, nodeId)|;
      ok := true;
    }

    /** The loop over a pulled page. */
    method ApplyPulled(page: seq<Entry>, fault: Fault) returns (ok: bool)
      modifies this
      ensures Outcome(View(), ok) == ApplyPage(nodeId, old(Inside(page, Idle)), handlers, 0, fault)
    {
      hide ApplyOne;
      ghost var goal := ApplyPage(nodeId, Inside(page, Idle), handlers, 0, fault);
      assert page[0..] == page;
      var k := 0;
      while k < |page|
        invariant 0 <= k <= |page|
        invariant ApplyPage(nodeId, Inside(page[k..], Idle), handlers, k, fault) == goal
      {
        assert page[k..][1..] == page[k + 1..];
        ok := ApplyAndAdvance(k, fault, page[k], page[k..]);
        if !ok {
          return;
        }
        k := k + 1;
      }
      ok := true;
    }
  }

  /** The hub's event table and debt index. */
  class EventStore {
    var feed: seq<Entry>
    var debts: Debts

    constructor ()
      ensures View() == Hub([], map[])
    {
      feed, debts := [], map[];
    }

    ghost function View(): Hub
      reads this
    {
      Hub(feed, debts)
    }

    /** Inserts events one statement at a time, ignoring those whose id is taken, until the hub stops. */
    method AppendEvents(es: seq<Event>, luck: Luck) returns (accepted: nat, whole: bool)
      modifies this`feed
      ensures var a := AppendedOf(luck, |es|);
              feed == AppendAll(old(feed), es[..a], Gaps(luck, |es|)[..a]) && whole == (a == |es|)
      ensures accepted == |feed| - |old(feed)|
    {
      hide Stored, Gaps, EventId;
      accepted := 0;
      var i, g := 0, Gaps(luck, |es|);
      while i < |es| && i < luck.appended
        invariant i <= |es| && i <= luck.appended
        invariant feed == AppendAll(old(feed), es[..i], g[..i])
        invariant accepted == |feed| - |old(feed)|
      {
        var e := es[i];
        assert es[..i + 1][..i] == es[..i] && g[..i + 1][..i] == g[..i];
        assert AppendAll(old(feed), es[..i + 1], g[..i + 1]) == AppendOne(feed, e, g[i]);
        if !Stored(Evs(feed), e.Id()) {
          feed := feed + [Entry(Head(feed) + 1 + g[i], e)];
          accepted := accepted + 1;
        }
        i := i + 1;
      }
      whole := i == |es|;
    }

    /** The statement for one event. */
    method MaterializeOne(e: Event)
      modifies this`debts
      ensures debts == Project(old(debts), e)
      ensures match e.body
              case DebtCreated(oid, _, terms, weight) =>
                debts == if oid in old(debts) then old(debts) else old(debts)[oid := Row(e.source, terms, weight, true)]
              case DebtResolved(oid) =>
                debts == if oid !in old(debts) then old(debts)
                         else var r := old(debts)[oid]; old(debts)[oid := Row(r.source, r.terms, r.weight, false)]
              case DebtAdjusted(oid, _, newWeight) =>
                debts == if oid !in old(debts) || !old(debts)[oid].open then old(debts)
                         else var r := old(debts)[oid]; old(debts)[oid := Row(r.source, r.terms, newWeight, true)]
              case Other(_, _) => debts == old(debts)
    {
      match e.body {
        case DebtCreated(oid, _, terms, weight) =>
          if oid !in debts {
            debts := debts[oid := Row(e.source, terms, weight, true)];
          }
        case DebtResolved(oid) =>
          if oid in debts {
            debts := debts[oid := debts[oid].(open := false)];
          }
        case DebtAdjusted(oid, _, newWeight) =>
          if oid in debts && debts[oid].open {
            debts := debts[oid := debts[oid].(weight := newWeight)];
          }
        case Other(_, _) =>
      }
    }

    /** Projects the debt events one statement at a time, until the hub stops.  A statement that fails is passed over in silence. */
    method MaterializeEvents(es: seq<Event>, stop: nat, lost: nat -> bool)
      modifies this`debts
      ensures debts == ProjectAll(old(debts), Surviving(es[..Least(stop, |es|)], lost))
    {
      hide Project, ProjectAll, Surviving;
      assert debts == ProjectAll(debts, Surviving(es[..0], lost)) by { NothingSurvives(debts, lost); }
      var i := 0;
      while i < |es| && i < stop
        invariant i <= |es| && i <= stop
        invariant debts == ProjectAll(old(debts), Surviving(es[..i], lost))
      {
        assert es[..i + 1] == es[..i] + [es[i]];
        SurvivingStep(es[..i], es[i], lost);
        ProjectStep(old(debts), Surviving(es[..i], lost), es[i]);
        if !lost(i) {
          MaterializeOne(es[i]);
        }
        i := i + 1;
      }
    }
  }

  class Syncer {
    const store: Store
    const hub: EventStore

    constructor (store: Store, hub: EventStore)
      ensures this.store == store && this.hub == hub
    {
      this.store, this.hub := store, hub;
    }

    /** The outgoing half of a tick. */
    method Push(luck: Luck) returns (ok: bool)
      modifies store, hub
      ensures Ticked(store.View(), hub.View(), ok) == PushTick(store.nodeId, old(store.View()), old(hub.View()), luck)
    {
      var out := EventsSince(store.events, store.nodeId, store.pushCursor);
      assert out == Outgoing(store.nodeId, store.View());
      if out == [] {
        return true;
      }
      var _, whole := hub.AppendEvents(out, luck);
      if whole {
        hub.MaterializeEvents(out, luck.materialized, i => false);
        NoneLost(out[..Least(luck.materialized, |out|)], i => false);
      }
      ok := AckedBy(luck, |out|);
      if ok {
        store.pushCursor := out[|out| - 1].num;
      }
    }

    /** One push and pull.  The new state of both sides is that of TickAt. */
    method Tick(luck: Luck) returns (ok: bool)
      modifies store, hub
      ensures Ticked(store.View(), hub.View(), ok) == TickAt(store.nodeId, old(store.View()), old(hub.View()), store.handlers, luck)
    {
      hide PushTick, ApplyPage, FeedSince;
      PushLeaves(store.nodeId, store.View(), hub.View(), luck);
      if !luck.heartbeat {
        return false;
      }
      var hubCursor := store.hubCursor;
      ok := Push(luck);
      if !ok || !luck.pulled {
        return false;
      }
      var page := FeedSince(hub.feed, hubCursor, PAGE, store.nodeId);
      ok := store.ApplyPulled(page, luck.fault);
    }
  }
}
