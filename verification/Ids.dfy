/**
 Identifiers: how event, obligation and player identifiers are written, and how they are read back.

 An event id is `node:seq`, an obligation id is `node:o_n`.  At start-up a node recovers its
 obligation counter by cutting each stored id after the first `:o_` and casting the rest to an integer.
 */
module Ids {

  type NodeId = string

  // ---- Decimal notation ----

  predicate IsDigit(c: char) {
    '0' <= c <= '9'
  }

  /** The decimal notation of n, as `%d` prints it. */
  function Digits(n: nat): (s: string)
    ensures |s| > 0
    ensures forall i :: 0 <= i < |s| ==> IsDigit(s[i])
  {
    var last := ['0' + (n % 10) as char];
    if n < 10 then last else Digits(n / 10) + last
  }

  /** The number a string of digits denotes; reading stops at the first character that is not a digit. */
  function Leading(s: string, acc: nat): nat
    decreases |s|
  {
    if s == "" || !IsDigit(s[0]) then acc else Leading(s[1..], 10 * acc + (s[0] - '0') as nat)
  }

  /** White space as SQLite has it. */
  predicate IsBlank(c: char) {
    c == ' ' || '\t' <= c <= '\r'
  }

  /** SQLite's CAST(s AS INTEGER): leading white space, an optional sign, then the longest run of digits. */
  function CastInteger(s: string): int
    decreases |s|
  {
    if s == "" then 0
    else if IsBlank(s[0]) then CastInteger(s[1..])
    else if s[0] == '-' then -(Leading(s[1..], 0) as int)
    else if s[0] == '+' then Leading(s[1..], 0)
    else Leading(s, 0)
  }

  lemma {:induction false} LeadingSplit(s: string, t: string, acc: nat)
    requires forall i :: 0 <= i < |s| ==> IsDigit(s[i])
    ensures Leading(s + t, acc) == Leading(t, Leading(s, acc))
    decreases |s|
  {
    if s == "" {
      assert s + t == t;
    } else {
      assert (s + t)[1..] == s[1..] + t;
      LeadingSplit(s[1..], t, 10 * acc + (s[0] - '0') as nat);
    }
  }

  lemma {:induction false} LeadingDigits(n: nat)
    ensures Leading(Digits(n), 0) == n
  {
    var c := '0' + (n % 10) as char;
    assert Leading([c], n / 10) == n by {
      assert [c][1..] == "";
    }
    if n >= 10 {
      LeadingDigits(n / 10);
      LeadingSplit(Digits(n / 10), [c], 0);
    }
  }

  /** Reading undoes writing. */
  lemma CastDigits(n: nat)
    ensures CastInteger(Digits(n)) == n
  {
    LeadingDigits(n);
    assert IsDigit(Digits(n)[0]);
  }

  lemma DigitsInjective(m: nat, n: nat)
    requires Digits(m) == Digits(n)
    ensures m == n
  {
    LeadingDigits(m);
    LeadingDigits(n);
  }

  // ---- Event and obligation ids ----

  function EventId(node: NodeId, seq_: nat): string {
    node + ":" + Digits(seq_)
  }

  const MARK := ":o_"

  function ObligationId(node: NodeId, n: nat): string {
    node + MARK + Digits(n)
  }

  /** Two ids built with the same separator agree only if both parts agree, whatever the node ids contain:
      the last colon is always the one that was put there. */
  lemma SplitAtLastColon(a: string, b: string, x: string, y: string)
    requires forall i :: 0 <= i < |x| ==> x[i] != ':'
    requires forall i :: 0 <= i < |y| ==> y[i] != ':'
    requires a + ":" + x == b + ":" + y
    ensures a == b && x == y
  {
    var s, t := a + ":" + x, b + ":" + y;
    assert s[|a|] == ':' && t[|b|] == ':';
    assert forall i :: |a| < i < |s| ==> s[i] == x[i - |a| - 1];
    assert forall i :: |b| < i < |t| ==> t[i] == y[i - |b| - 1];
    assert a == s[..|a|] && b == t[..|b|];
    assert x == s[|a| + 1..] && y == t[|b| + 1..];
  }

  lemma EventIdInjective(a: NodeId, m: nat, b: NodeId, n: nat)
    requires EventId(a, m) == EventId(b, n)
    ensures a == b && m == n
  {
    SplitAtLastColon(a, b, Digits(m), Digits(n));
    DigitsInjective(m, n);
  }

  lemma ObligationIdInjective(a: NodeId, m: nat, b: NodeId, n: nat)
    requires ObligationId(a, m) == ObligationId(b, n)
    ensures a == b && m == n
  {
    var x, y := "o_" + Digits(m), "o_" + Digits(n);
    assert ObligationId(a, m) == a + ":" + x;
    assert ObligationId(b, n) == b + ":" + y;
    SplitAtLastColon(a, b, x, y);
    assert x[2..] == Digits(m) && y[2..] == Digits(n);
    DigitsInjective(m, n);
  }

  // ---- Recovering the obligation counter ----

  predicate IsMarkAt(s: string, i: nat) {
    i + 3 <= |s| && s[i] == ':' && s[i + 1] == 'o' && s[i + 2] == '_'
  }

  /** The position of the first `:o_` in s, or |s| when there is none. */
  function FirstMark(s: string): (k: nat)
    ensures k <= |s|
    ensures k < |s| ==> IsMarkAt(s, k)
    ensures forall i: nat :: i < k ==> !IsMarkAt(s, i)
  {
    if |s| < 3 then |s|
    else if IsMarkAt(s, 0) then 0
    else
      var k := FirstMark(s[1..]);
      assert forall i: nat :: 1 <= i && IsMarkAt(s, i) ==> IsMarkAt(s[1..], i - 1);
      k + 1
  }

  predicate HasMark(s: string) {
    FirstMark(s) < |s|
  }

  /** What start-up reads out of a stored obligation id: the cast of everything after the first `:o_`.
      When there is no mark, SQL's one-based `substr(id, 0 + 3)` drops two characters. */
  function RecoverSuffix(id: string): int {
    if HasMark(id) then CastInteger(id[FirstMark(id) + 3..])
    else CastInteger(if |id| < 2 then "" else id[2..])
  }

  /** The separator of a freshly written id cannot overlap an earlier mark. */
  lemma FirstMarkOfId(node: NodeId, n: nat)
    ensures HasMark(ObligationId(node, n))
    ensures !HasMark(node) ==> FirstMark(ObligationId(node, n)) == |node|
    ensures HasMark(node) ==> FirstMark(ObligationId(node, n)) == FirstMark(node)
  {
    var id := ObligationId(node, n);
    assert IsMarkAt(id, |node|);
    forall i: nat | i < |node|
      ensures IsMarkAt(id, i) <==> IsMarkAt(node, i)
    {
      assert id[|node|] == ':';
      assert forall j :: 0 <= j < |node| ==> id[j] == node[j];
    }
    assert !HasMark(node) ==> forall i: nat :: i < |node| ==> !IsMarkAt(node, i);
    assert HasMark(node) ==> IsMarkAt(node, FirstMark(node));
  }

  /** A colon ends the number, so nothing after it matters. */
  lemma {:induction false} LeadingStops(r: string, t: string, acc: nat)
    requires |t| > 0 && t[0] == ':'
    ensures Leading(r + t, acc) == Leading(r, acc)
    decreases |r|
  {
    if r == "" {
      assert r + t == t;
    } else if IsDigit(r[0]) {
      assert (r + t)[1..] == r[1..] + t;
      LeadingStops(r[1..], t, 10 * acc + (r[0] - '0') as nat);
    }
  }

  lemma {:induction false} CastStops(r: string, t: string)
    requires |t| > 0 && t[0] == ':'
    ensures CastInteger(r + t) == CastInteger(r)
    decreases |r|
  {
    if r == "" {
      assert r + t == t;
    } else {
      assert (r + t)[1..] == r[1..] + t;
      LeadingStops(r[1..], t, 0);
      LeadingStops(r, t, 0);
      CastStops(r[1..], t);
    }
  }

  lemma RecoverAfterMark(node: NodeId, n: nat)
    requires HasMark(node)
    ensures RecoverSuffix(ObligationId(node, n)) == CastInteger(node[FirstMark(node) + 3..])
  {
    FirstMarkOfId(node, n);
    var k := FirstMark(node);
    var id := ObligationId(node, n);
    assert id[k + 3..] == node[k + 3..] + (MARK + Digits(n));
    CastStops(node[k + 3..], MARK + Digits(n));
  }

  lemma RecoverWithoutMark(node: NodeId, n: nat)
    requires !HasMark(node)
    ensures RecoverSuffix(ObligationId(node, n)) == n
  {
    FirstMarkOfId(node, n);
    assert ObligationId(node, n)[|node| + 3..] == Digits(n);
    CastDigits(n);
  }

  /** Start-up recovers every counter value a node ever wrote exactly when its node id has no `:o_` in it. */
  lemma RecoveryExact(node: NodeId)
    ensures (forall n: nat :: RecoverSuffix(ObligationId(node, n)) == n) <==> !HasMark(node)
  {
    if HasMark(node) {
      var c := CastInteger(node[FirstMark(node) + 3..]);
      var n: nat := if c >= 0 then c + 1 else 0;
      RecoverAfterMark(node, n);
    } else {
      forall n: nat ensures RecoverSuffix(ObligationId(node, n)) == n {
        RecoverWithoutMark(node, n);
      }
    }
  }

  // ---- Player references ----

  /** The part of a reference before its first colon; empty when there is no colon or nothing before it. */
  function RefNode(id: string): (r: string)
    ensures ':' !in r
    ensures r != "" ==> |r| < |id| && id[..|r| + 1] == r + ":"
  {
    var k := FirstColon(id);
    if 0 < k < |id| then id[..k] else ""
  }

  function FirstColon(s: string): (k: nat)
    ensures k <= |s|
    ensures k < |s| ==> s[k] == ':'
    ensures forall i :: 0 <= i < k ==> s[i] != ':'
  {
    if s == "" || s[0] == ':' then 0 else 1 + FirstColon(s[1..])
  }

  /** A reference of the form `node:rest` names its node exactly when the node id is usable: no colon, not empty. */
  lemma RefNodeOfPlayer(node: NodeId, rest: string)
    ensures RefNode(node + ":" + rest) == node <==> ':' !in node
  {
    var id := node + ":" + rest;
    assert id[|node|] == ':';
    var k := FirstColon(id);
    assert k <= |node|;
    if ':' !in node {
      assert forall i :: 0 <= i < |node| ==> id[i] == node[i];
      assert id[..|node|] == node;
    }
  }

  lemma ColonFreeHasNoMark(node: NodeId)
    requires ':' !in node
    ensures !HasMark(node)
  {
    assert forall i: nat :: IsMarkAt(node, i) ==> node[i] in node;
  }
}
