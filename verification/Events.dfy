/**
 Events as they sit in a node's log, on the wire and in the hub feed, and the selections the
 SQL queries make from them: by source, by everybody but a source, and past a cursor.

 A table is a sequence in insertion order.  The queries' `ORDER BY` is written out as a sort; that
 it changes nothing in reachable states is a theorem of module Replication, not an assumption.
 */
module Events {
  import opened Ids

  /** What two parties agreed to. */
  datatype Terms = Terms(creditor: string, debtor: string, kind: string, text: string)

  datatype Body =
    | DebtCreated(oid: string, origin: NodeId, terms: Terms, weight: int)
    | DebtAdjusted(oid: string, oldWeight: int, newWeight: int)
    | DebtResolved(oid: string)
    | Other(kind: string, text: string)
  {
    /** The event type on the wire. */
    function Type(): string {
      match this
      case DebtCreated(_, _, _, _) => "debt.created"
      case DebtAdjusted(_, _, _) => "debt.adjusted"
      case DebtResolved(_) => "debt.resolved"
      case Other(kind, _) => kind
    }

    /** True of events that change an obligation made by an earlier event. */
    predicate Follows() {
      DebtAdjusted? || DebtResolved?
    }

    /** True of the three debt events. */
    predicate Debt() {
      DebtCreated? || Follows()
    }

    predicate About(o: string) {
      Debt() && oid == o
    }
  }

  datatype Event = Event(source: NodeId, num: nat, ts: int, body: Body) {
    /** The primary key of the event tables on both sides. */
    function Id(): string {
      EventId(source, num)
    }
  }

  /** An event placed in the hub's total order. */
  datatype Entry = Entry(hubSeq: nat, ev: Event)

  /** INSERT OR IGNORE looks for the event id. */
  predicate Stored(s: seq<Event>, id: string) {
    exists i :: 0 <= i < |s| && s[i].Id() == id
  }

  lemma SameId(a: Event, b: Event)
    requires a.Id() == b.Id()
    ensures a.source == b.source && a.num == b.num
  {
    EventIdInjective(a.source, a.num, b.source, b.num);
  }

  // ---- Selecting by source ----

  function Of(s: seq<Event>, n: NodeId): (r: seq<Event>)
    ensures |r| <= |s|
  {
    if s == [] then []
    else
      var r := Of(s[..|s| - 1], n);
      if s[|s| - 1].source == n then r + [s[|s| - 1]] else r
  }

  function Foreign(s: seq<Event>, n: NodeId): (r: seq<Event>)
    ensures |r| <= |s|
  {
    if s == [] then []
    else
      var r := Foreign(s[..|s| - 1], n);
      if s[|s| - 1].source != n then r + [s[|s| - 1]] else r
  }

  /** The part of the feed node n is shown: everything but its own events. */
  function Vis(feed: seq<Entry>, n: NodeId): (r: seq<Entry>)
    ensures |r| <= |feed|
  {
    if feed == [] then []
    else
      var r := Vis(feed[..|feed| - 1], n);
      if feed[|feed| - 1].ev.source != n then r + [feed[|feed| - 1]] else r
  }

  function Evs(feed: seq<Entry>): (r: seq<Event>)
    ensures |r| == |feed|
    ensures forall i :: 0 <= i < |feed| ==> r[i] == feed[i].ev
  {
    seq(|feed|, i requires 0 <= i < |feed| => feed[i].ev)
  }

  lemma AppendSelects(s: seq<Event>, e: Event, n: NodeId)
    ensures Of(s + [e], n) == if e.source == n then Of(s, n) + [e] else Of(s, n)
    ensures Foreign(s + [e], n) == if e.source != n then Foreign(s, n) + [e] else Foreign(s, n)
  {
    assert (s + [e])[..|s|] == s;
  }

  lemma AppendVis(feed: seq<Entry>, x: Entry, n: NodeId)
    ensures Vis(feed + [x], n) == if x.ev.source != n then Vis(feed, n) + [x] else Vis(feed, n)
    ensures Evs(feed + [x]) == Evs(feed) + [x.ev]
  {
    assert (feed + [x])[..|feed|] == feed;
  }

  lemma {:induction false} OfComplete(s: seq<Event>, e: Event)
    requires e in s
    ensures e in Of(s, e.source)
    ensures forall n :: n != e.source ==> e in Foreign(s, n)
  {
    var k := |s| - 1;
    assert s == s[..k] + [s[k]];
    if s[k] != e {
      OfComplete(s[..k], e);
    }
  }

  /** The i-th selected event sits at a position before which exactly the first i were selected. */
  lemma {:induction false} OfIndex(s: seq<Event>, n: NodeId, i: nat) returns (x: nat)
    requires i < |Of(s, n)|
    ensures x < |s| && s[x] == Of(s, n)[i] && Of(s[..x], n) == Of(s, n)[..i]
    ensures s[x].source == n
  {
    var k := |s| - 1;
    if s[k].source == n && i == |Of(s, n)| - 1 {
      x := k;
    } else {
      x := OfIndex(s[..k], n, i);
      assert s[..k][..x] == s[..x];
    }
  }

  lemma {:induction false} ForeignIndex(s: seq<Event>, n: NodeId, i: nat) returns (x: nat)
    requires i < |Foreign(s, n)|
    ensures x < |s| && s[x] == Foreign(s, n)[i] && Foreign(s[..x], n) == Foreign(s, n)[..i]
    ensures s[x].source != n
  {
    var k := |s| - 1;
    if s[k].source != n && i == |Foreign(s, n)| - 1 {
      x := k;
    } else {
      x := ForeignIndex(s[..k], n, i);
      assert s[..k][..x] == s[..x];
    }
  }

  lemma {:induction false} VisIndex(feed: seq<Entry>, n: NodeId, i: nat) returns (x: nat)
    requires i < |Vis(feed, n)|
    ensures x < |feed| && feed[x] == Vis(feed, n)[i] && Vis(feed[..x], n) == Vis(feed, n)[..i]
    ensures feed[x].ev.source != n
  {
    var k := |feed| - 1;
    if feed[k].ev.source != n && i == |Vis(feed, n)| - 1 {
      x := k;
    } else {
      x := VisIndex(feed[..k], n, i);
      assert feed[..k][..x] == feed[..x];
    }
  }

  lemma {:induction false} OfPrefix(s: seq<Event>, k: nat, n: NodeId)
    requires k <= |s|
    ensures Of(s[..k], n) <= Of(s, n)
    ensures Foreign(s[..k], n) <= Foreign(s, n)
  {
    if k < |s| {
      assert s[..|s| - 1][..k] == s[..k];
      OfPrefix(s[..|s| - 1], k, n);
    } else {
      assert s[..k] == s;
    }
  }

  /** Leaving out n's events does not touch those of another source. */
  lemma {:induction false} OfForeign(s: seq<Event>, n: NodeId, a: NodeId)
    requires a != n
    ensures Of(Foreign(s, n), a) == Of(s, a)
  {
    if s != [] {
      var k := |s| - 1;
      OfForeign(s[..k], n, a);
      AppendSelects(Foreign(s[..k], n), s[k], a);
    }
  }

  lemma {:induction false} EvsVis(feed: seq<Entry>, n: NodeId)
    ensures Evs(Vis(feed, n)) == Foreign(Evs(feed), n)
  {
    if feed != [] {
      var k := |feed| - 1;
      EvsVis(feed[..k], n);
      assert Evs(feed)[..k] == Evs(feed[..k]);
      assert Evs(Vis(feed[..k], n) + [feed[k]]) == Evs(Vis(feed[..k], n)) + [feed[k].ev];
    }
  }

  // ---- Cursors ----

  function Nums(s: seq<Event>): (r: seq<int>)
    ensures |r| == |s|
    ensures forall i :: 0 <= i < |s| ==> r[i] == s[i].num
  {
    seq(|s|, i requires 0 <= i < |s| => s[i].num)
  }

  function HubSeqs(s: seq<Entry>): (r: seq<int>)
    ensures |r| == |s|
    ensures forall i :: 0 <= i < |s| ==> r[i] == s[i].hubSeq
  {
    seq(|s|, i requires 0 <= i < |s| => s[i].hubSeq)
  }

  ghost predicate Increasing(ks: seq<int>) {
    forall i, j :: 0 <= i < j < |ks| ==> ks[i] < ks[j]
  }

  /** How many leading keys a cursor has passed. */
  function Pos(ks: seq<int>, c: int): (p: nat)
    ensures p <= |ks|
    ensures forall i :: 0 <= i < p ==> ks[i] <= c
    ensures p < |ks| ==> ks[p] > c
  {
    if ks == [] || ks[0] > c then 0 else 1 + Pos(ks[1..], c)
  }

  lemma PosPast(ks: seq<int>, c: int, i: nat)
    requires Increasing(ks) && i < |ks| && ks[i] <= c
    ensures i < Pos(ks, c)
  {
    var p := Pos(ks, c);
    assert forall j :: p < j < |ks| ==> ks[p] < ks[j];
  }

  lemma {:induction false} VisIncreasing(feed: seq<Entry>, n: NodeId)
    requires Increasing(HubSeqs(feed))
    ensures Increasing(HubSeqs(Vis(feed, n)))
  {
    if feed != [] {
      var k := |feed| - 1;
      assert HubSeqs(feed[..k]) == HubSeqs(feed)[..k];
      VisIncreasing(feed[..k], n);
      var v := Vis(feed[..k], n);
      forall i | 0 <= i < |v| ensures v[i].hubSeq < feed[k].hubSeq {
        var x := VisIndex(feed[..k], n, i);
        assert HubSeqs(feed)[x] < HubSeqs(feed)[k];
      }
    }
  }

  // ---- The queries ----

  /** WHERE num > after, keeping the order. */
  function After(s: seq<Event>, after: int): seq<Event> {
    if s == [] then []
    else if s[0].num > after then [s[0]] + After(s[1..], after)
    else After(s[1..], after)
  }

  function InsertByNum(e: Event, s: seq<Event>): seq<Event> {
    if s == [] || e.num < s[0].num then [e] + s else [s[0]] + InsertByNum(e, s[1..])
  }

  /** ORDER BY num. */
  function SortByNum(s: seq<Event>): seq<Event> {
    if s == [] then [] else InsertByNum(s[0], SortByNum(s[1..]))
  }

  /** SELECT ... FROM events WHERE source_node = src AND seq > after ORDER BY seq. */
  function EventsSince(table: seq<Event>, src: NodeId, after: int): seq<Event> {
    SortByNum(After(Of(table, src), after))
  }

  /** SELECT ... FROM events WHERE hub_seq > after AND source_node <> exclude ORDER BY hub_seq LIMIT limit;
      the feed is kept in hub_seq order. */
  function FeedSince(feed: seq<Entry>, after: int, limit: nat, exclude: NodeId): seq<Entry> {
    var past := AfterSeq(Vis(feed, exclude), after);
    if |past| <= limit then past else past[..limit]
  }

  function AfterSeq(s: seq<Entry>, after: int): seq<Entry> {
    if s == [] then []
    else if s[0].hubSeq > after then [s[0]] + AfterSeq(s[1..], after)
    else AfterSeq(s[1..], after)
  }

  lemma {:induction false} SortSorted(s: seq<Event>)
    requires Increasing(Nums(s))
    ensures SortByNum(s) == s
  {
    if s != [] {
      assert Nums(s[1..]) == Nums(s)[1..];
      SortSorted(s[1..]);
      if |s| > 1 {
        assert Nums(s)[0] < Nums(s)[1];
      }
      assert s == [s[0]] + s[1..];
    }
  }

  lemma {:induction false} AfterIsSuffix(s: seq<Event>, c: int)
    requires Increasing(Nums(s))
    ensures After(s, c) == s[Pos(Nums(s), c)..]
  {
    if s != [] {
      var rest := s[1..];
      assert Nums(rest) == Nums(s)[1..];
      AfterIsSuffix(rest, c);
      if s[0].num > c {
        if |s| > 1 {
          assert Nums(s)[0] < Nums(s)[1];
        }
        assert Pos(Nums(rest), c) == 0;
        assert s == [s[0]] + rest;
      } else {
        assert rest[Pos(Nums(rest), c)..] == s[1 + Pos(Nums(rest), c)..];
      }
    }
  }

  /** On an ordered log, what EventsSince returns is the log past the cursor. */
  lemma EventsSinceIsSuffix(table: seq<Event>, src: NodeId, c: int)
    requires Increasing(Nums(Of(table, src)))
    ensures EventsSince(table, src, c) == Of(table, src)[Pos(Nums(Of(table, src)), c)..]
  {
    var own := Of(table, src);
    AfterIsSuffix(own, c);
    var p := Pos(Nums(own), c);
    assert Nums(own[p..]) == Nums(own)[p..];
    SortSorted(own[p..]);
  }

  lemma {:induction false} AfterSeqIsSuffix(s: seq<Entry>, c: int)
    requires Increasing(HubSeqs(s))
    ensures AfterSeq(s, c) == s[Pos(HubSeqs(s), c)..]
  {
    if s != [] {
      assert HubSeqs(s[1..]) == HubSeqs(s)[1..];
      AfterSeqIsSuffix(s[1..], c);
      if s[0].hubSeq > c {
        if |s| > 1 {
          assert HubSeqs(s)[0] < HubSeqs(s)[1];
        }
        assert Pos(HubSeqs(s[1..]), c) == 0;
        assert s == [s[0]] + s[1..];
      }
    }
  }

  /** The n-th page of an ordered feed is the next `limit` visible entries past the cursor. */
  lemma FeedSinceIsPage(feed: seq<Entry>, c: int, limit: nat, n: NodeId)
    requires Increasing(HubSeqs(feed))
    ensures var vis := Vis(feed, n);
            var k := Pos(HubSeqs(vis), c);
            var page := FeedSince(feed, c, limit, n);
            && |page| == (if |vis| - k <= limit then |vis| - k else limit)
            && page == vis[k..k + |page|]
  {
    VisIncreasing(feed, n);
    AfterSeqIsSuffix(Vis(feed, n), c);
  }

  lemma PosIs(ks: seq<int>, c: int, k: nat)
    requires Increasing(ks) && k <= |ks|
    requires k > 0 ==> c == ks[k - 1]
    requires k == 0 ==> forall i :: 0 <= i < |ks| ==> ks[i] > c
    ensures Pos(ks, c) == k
  {
    var p := Pos(ks, c);
    assert k > 0 && p < |ks| ==> ks[k - 1] < ks[p];
    assert p > 0 ==> ks[p - 1] <= c;
  }
}
