// The application listing of daemon/unix_socket.c: ids sorted in place by bytes,
// and the first rows of that order.
module TopApps {
  import opened Basics

  // a is listed ahead of b: more bytes, or as many and the smaller id.
  predicate Ahead(bytes: seq<nat>, a: nat, b: nat) {
    a < |bytes| && b < |bytes| && (bytes[a] > bytes[b] || (bytes[a] == bytes[b] && a < b))
  }

  // How many applications are listed ahead of one.
  function Rank(bytes: seq<nat>, a: nat): nat {
    |set b: nat | b < |bytes| && Ahead(bytes, b, a)|
  }

  // The first n places hold the ids below n, each once.
  ghost predicate Holds(order: seq<nat>, n: nat) {
    && n <= |order|
    && (forall i :: 0 <= i < n ==> order[i] < n)
    && (forall i, j :: 0 <= i < j < n ==> order[i] != order[j])
  }

  ghost predicate SortedTo(bytes: seq<nat>, order: seq<nat>, n: nat) {
    n <= |order| && forall i, j :: 0 <= i < j < n ==> Ahead(bytes, order[i], order[j])
  }

  // Element i has moved down to place p, those between have moved up by one.
  function Moved(s: seq<nat>, i: nat, p: nat): (r: seq<nat>)
    requires p <= i < |s|
    ensures |r| == |s|
    ensures forall l :: 0 <= l < |s| ==> r[l] == if l < p || l > i then s[l] else if l == p then s[i] else s[l - 1]
  {
    s[..p] + [s[i]] + s[p..i] + s[i + 1..]
  }

  lemma MovedHolds(s: seq<nat>, i: nat, p: nat)
    requires p <= i < |s| && Holds(s, i) && s[i] == i
    ensures Holds(Moved(s, i, p), i + 1)
  {
    var r := Moved(s, i, p);
    forall a, b | 0 <= a < b < i + 1 ensures r[a] != r[b] {
      var x, y := if a > p then a - 1 else a, if b > p then b - 1 else b;
      assert a != p ==> r[a] == s[x] && x < i;
      assert b != p ==> r[b] == s[y] && y < i;
    }
  }

  lemma MovedIsSorted(bytes: seq<nat>, s: seq<nat>, i: nat, p: nat)
    requires p <= i < |s| == |bytes| && Holds(s, i) && SortedTo(bytes, s, i) && s[i] == i
    requires forall l :: p <= l < i ==> bytes[s[l]] < bytes[i]
    requires p > 0 ==> bytes[s[p - 1]] >= bytes[i]
    ensures SortedTo(bytes, Moved(s, i, p), i + 1)
  {
    var r := Moved(s, i, p);
    forall l | 0 <= l < p ensures Ahead(bytes, s[l], i) {
      if l < p - 1 {
        assert Ahead(bytes, s[l], s[p - 1]);
      }
    }
    forall a, b | 0 <= a < b < i + 1 ensures Ahead(bytes, r[a], r[b]) {
      var x, y := if a > p then a - 1 else a, if b > p then b - 1 else b;
      assert a != p && b != p ==> Ahead(bytes, s[x], s[y]);
    }
  }

  // Insertion sort. Equal byte counts keep their order, so ids stay ascending.
  method SortByBytes(bytes: seq<nat>) returns (order: array<nat>)
    ensures fresh(order) && order.Length == |bytes|
    ensures Holds(order[..], |bytes|) && SortedTo(bytes, order[..], |bytes|)
  {
    var n := |bytes|;
    order := new nat[n](i => i);
    if n == 0 { return; }
    var i := 1;
    while i < n
      invariant 1 <= i <= n == order.Length
      invariant Holds(order[..], i) && SortedTo(bytes, order[..], i)
      invariant forall l :: i <= l < n ==> order[l] == l
    {
      InsertAt(bytes, order, i);
      i := i + 1;
    }
  }

  method InsertAt(bytes: seq<nat>, order: array<nat>, i: nat)
    requires 1 <= i < order.Length == |bytes|
    requires Holds(order[..], i) && SortedTo(bytes, order[..], i) && order[i] == i
    modifies order
    ensures Holds(order[..], i + 1) && SortedTo(bytes, order[..], i + 1)
    ensures forall l :: i < l < order.Length ==> order[l] == old(order[l])
  {
    hide SortedTo, Ahead, Holds;
    ghost var s := order[..];
    BelowPlaced(s, i);
    var p := Shift(bytes, order, i);
    assert order[..] == Moved(s, i, p);
    MovedHolds(s, i, p);
    MovedIsSorted(bytes, s, i, p);
  }

  lemma BelowPlaced(order: seq<nat>, n: nat)
    requires Holds(order, n)
    ensures n <= |order| && forall l :: 0 <= l < n ==> order[l] < n
  {
  }

  // Makes room for element i among the places before it and puts it there.
  method Shift(bytes: seq<nat>, order: array<nat>, i: nat) returns (p: nat)
    requires i < order.Length == |bytes| && order[i] == i
    requires forall l :: 0 <= l < i ==> order[l] < i
    modifies order
    ensures p <= i && order[..] == Moved(old(order[..]), i, p)
    ensures forall l :: p <= l < i ==> old(order[l]) < |bytes| && bytes[old(order[l])] < bytes[i]
    ensures p > 0 ==> old(order[p - 1]) < |bytes| && bytes[old(order[p - 1])] >= bytes[i]
  {
    hide Moved;
    var key := order[i];
    var j := i - 1;
    while j >= 0 && bytes[order[j]] < bytes[key]
      invariant -1 <= j < i
      invariant forall l :: 0 <= l <= j ==> order[l] == old(order[l])
      invariant forall l :: j + 1 < l <= i ==> order[l] == old(order[l - 1])
      invariant forall l :: i < l < order.Length ==> order[l] == old(order[l])
      invariant forall l :: j < l < i ==> old(order[l]) < i && bytes[old(order[l])] < bytes[i]
    {
      order[j + 1] := order[j];
      j := j - 1;
    }
    order[j + 1] := key;
    IsMoved(old(order[..]), order[..], i, j + 1);
    p := j + 1;
  }

  lemma IsMoved(s: seq<nat>, r: seq<nat>, i: nat, p: nat)
    requires p <= i < |s| == |r|
    requires forall l :: 0 <= l < p ==> r[l] == s[l]
    requires r[p] == s[i]
    requires forall l :: p < l <= i ==> r[l] == s[l - 1]
    requires forall l :: i < l < |s| ==> r[l] == s[l]
    ensures r == Moved(s, i, p)
  {
  }

  predicate More(bytes: seq<nat>, a: nat, b: nat)
    requires a < |bytes| && b < |bytes|
  {
    bytes[a] > bytes[b] || (bytes[a] == bytes[b] && a < b)
  }

  ghost predicate Descending(bytes: seq<nat>, rows: seq<nat>) {
    forall i, j :: 0 <= i < j < |rows| ==> rows[i] < |bytes| && rows[j] < |bytes| && More(bytes, rows[i], rows[j])
  }

  // An application with bytes is missing only from a full listing, and has no more
  // than any that is shown.
  ghost predicate NothingMissed(bytes: seq<nat>, rows: seq<nat>, topN: int) {
    forall a: nat :: a < |bytes| && bytes[a] != 0 && a !in rows ==>
      |rows| == (if topN > 0 then topN else 0) && forall b :: b in rows ==> b < |bytes| && bytes[b] >= bytes[a]
  }

  // The rows printed: at most topN applications, none without bytes.
  method ShowApplications(bytes: seq<nat>, topN: int) returns (rows: seq<nat>)
    ensures forall a: nat :: a in rows <==> a < |bytes| && bytes[a] != 0 && Rank(bytes, a) < topN
    ensures forall i :: 0 <= i < |rows| ==> Rank(bytes, rows[i]) == i
    ensures Descending(bytes, rows)
    ensures NothingMissed(bytes, rows, topN)
  {
    hide Rank, Ahead;
    var n := |bytes|;
    var order := SortByBytes(bytes);
    ghost var s := order[..];
    rows := [];
    var shown, i := 0, 0;
    while i < n && shown < topN
      invariant 0 <= i <= n == |s| && order[..] == s && shown == |rows|
      invariant shown <= i && rows == s[..shown] && (shown <= topN || shown == 0)
      invariant forall l :: 0 <= l < shown ==> s[l] < n && bytes[s[l]] != 0
      invariant forall l :: shown <= l < i ==> s[l] < n && bytes[s[l]] == 0
    {
      var id := order[i];
      if bytes[id] != 0 {
        ZerosAreLast(bytes, s, i);
        rows := rows + [id];
        shown := shown + 1;
      }
      i := i + 1;
    }
    RowsAreTop(bytes, s, shown, i, topN);
    RowsAreFirst(bytes, s, shown, i, topN);
  }

  // In plain terms: rows by bytes, ties by id, and nothing left out that has more.
  lemma RowsAreFirst(bytes: seq<nat>, order: seq<nat>, shown: nat, i: nat, topN: int)
    requires |order| == |bytes| && Holds(order, |bytes|) && SortedTo(bytes, order, |bytes|)
    requires shown <= i <= |order| && (shown <= topN || shown == 0) && (i == |order| || shown >= topN)
    requires forall l :: 0 <= l < shown ==> bytes[order[l]] != 0
    requires forall l :: shown <= l < i ==> bytes[order[l]] == 0
    ensures Descending(bytes, order[..shown]) && NothingMissed(bytes, order[..shown], topN)
  {
    var rows := order[..shown];
    forall i, j | 0 <= i < j < |rows|
      ensures rows[i] < |bytes| && rows[j] < |bytes| && More(bytes, rows[i], rows[j])
    {
      assert Ahead(bytes, order[i], order[j]);
    }
    forall a: nat | a < |bytes| && bytes[a] != 0 && a !in rows
      ensures |rows| == Max(topN, 0) && forall b :: b in rows ==> b < |bytes| && bytes[b] >= bytes[a]
    {
      EveryIdPlaced(order, a);
      var l :| 0 <= l < |order| && order[l] == a;
      assert forall m :: 0 <= m < shown ==> order[m] == rows[m];
      forall b | b in rows ensures b < |bytes| && bytes[b] >= bytes[a] {
        var m :| 0 <= m < shown && rows[m] == b;
        assert Ahead(bytes, order[m], order[l]);
      }
    }
  }

  lemma ZerosAreLast(bytes: seq<nat>, order: seq<nat>, i: nat)
    requires i < |order| == |bytes| && Holds(order, |bytes|) && SortedTo(bytes, order, |bytes|) && bytes[order[i]] != 0
    ensures forall l :: 0 <= l < i ==> bytes[order[l]] != 0
  {
    forall l | 0 <= l < i ensures bytes[order[l]] != 0 {
      assert Ahead(bytes, order[l], order[i]);
    }
  }

  function Elements(s: seq<nat>): (r: set<nat>)
    ensures forall x :: x in r <==> x in s
  {
    set x | x in s
  }

  lemma {:induction false} DistinctCount(s: seq<nat>)
    requires forall i, j :: 0 <= i < j < |s| ==> s[i] != s[j]
    ensures |Elements(s)| == |s|
  {
    if s != [] {
      var t := s[..|s| - 1];
      DistinctCount(t);
      assert s == t + [s[|s| - 1]];
      assert Elements(s) == Elements(t) + {s[|s| - 1]};
    }
  }

  function Ids(n: nat): (ids: set<nat>)
    ensures |ids| == n && forall b: nat :: b in ids <==> b < n
  {
    if n == 0 then {} else Ids(n - 1) + {n - 1}
  }

  // n distinct ids below n are all of them.
  lemma EveryIdPlaced(order: seq<nat>, a: nat)
    requires Holds(order, |order|) && a < |order|
    ensures a in order
  {
    var placed := Elements(order);
    var all := Ids(|order|);
    DistinctCount(order);
    assert placed <= all;
    assert |all - placed| == |all| - |placed| == 0;
    assert a in all && all - placed == {};
  }

  lemma AheadIsEarlier(bytes: seq<nat>, order: seq<nat>, l: nat, i: nat)
    requires SortedTo(bytes, order, |order|) && l < |order| && i < |order|
    ensures Ahead(bytes, order[l], order[i]) <==> l < i
  {
    if i < l {
      assert Ahead(bytes, order[i], order[l]);
    }
  }

  // In a sorted listing the rank of an application is its place.
  lemma RankIsPlace(bytes: seq<nat>, order: seq<nat>, i: nat)
    requires |order| == |bytes| && Holds(order, |bytes|) && SortedTo(bytes, order, |bytes|) && i < |order|
    ensures Rank(bytes, order[i]) == i
  {
    hide Ahead, SortedTo;
    var ahead := set b: nat | b < |bytes| && Ahead(bytes, b, order[i]);
    var earlier := Elements(order[..i]);
    forall b: nat ensures b in ahead <==> b in earlier {
      if b < |bytes| {
        EveryIdPlaced(order, b);
        var l :| 0 <= l < |order| && order[l] == b;
        AheadIsEarlier(bytes, order, l, i);
        if l < i {
          assert order[..i][l] == b;
        }
      }
    }
    assert ahead == earlier;
    DistinctCount(order[..i]);
  }

  lemma RowsAreTop(bytes: seq<nat>, order: seq<nat>, shown: nat, i: nat, topN: int)
    requires |order| == |bytes| && Holds(order, |bytes|) && SortedTo(bytes, order, |bytes|)
    requires shown <= i <= |order| && (shown <= topN || shown == 0) && (i == |order| || shown >= topN)
    requires forall l :: 0 <= l < shown ==> bytes[order[l]] != 0
    requires forall l :: shown <= l < i ==> bytes[order[l]] == 0
    ensures forall a: nat :: a in order[..shown] <==> a < |bytes| && bytes[a] != 0 && Rank(bytes, a) < topN
    ensures forall l :: 0 <= l < shown ==> Rank(bytes, order[..shown][l]) == l
  {
    hide Rank, Ahead;
    forall l | 0 <= l < |order| ensures Rank(bytes, order[l]) == l {
      RankIsPlace(bytes, order, l);
    }
    forall a: nat ensures a in order[..shown] <==> a < |bytes| && bytes[a] != 0 && Rank(bytes, a) < topN {
      if a < |bytes| {
        EveryIdPlaced(order, a);
        var l :| 0 <= l < |order| && order[l] == a;
        if l < shown {
          assert order[..shown][l] == a;
        }
      }
    }
  }
}
