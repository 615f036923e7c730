/**
 The order of the data rows: `sorted(lines, key=ready)[::-1]`, a stable
 ascending sort on the tube's ready count followed by a reversal. The result is
 a permutation of the tubes in non-increasing ready order, and tubes whose
 ready counts tie come out in the reverse of their input order.

 The sort key order is Python 2's: numbers compare numerically and rank below
 every string, here the placeholder `'-'`; text values all tie with each other.
 */
module Ordering {
  import opened Stats

  /** The sort key order: numbers by value, below text. */
  predicate KeyLe(a: Value, b: Value)
  {
    b.Str? || (a.Num? && a.n <= b.n)
  }

  /** Two keys tie: both text, or the same number. */
  predicate SameKey(a: Value, b: Value)
  {
    (a.Str? && b.Str?) || (a.Num? && b.Num? && a.n == b.n)
  }

  /** KeyLe is a total preorder whose ties are SameKey. */
  lemma KeyLeTotal(a: Value, b: Value, c: Value)
    ensures KeyLe(a, b) || KeyLe(b, a)
    ensures KeyLe(a, b) && KeyLe(b, c) ==> KeyLe(a, c)
    ensures KeyLe(a, b) && KeyLe(b, a) <==> SameKey(a, b)
  {
  }

  predicate Ascending(s: seq<Tube>)
  {
    forall i, j :: 0 <= i < j < |s| ==> KeyLe(s[i].ready, s[j].ready)
  }

  predicate Descending(s: seq<Tube>)
  {
    forall i, j :: 0 <= i < j < |s| ==> KeyLe(s[j].ready, s[i].ready)
  }

  /** Places x before the first tube whose key is strictly greater, so after
      every tube whose key ties with it. */
  function Insert(x: Tube, s: seq<Tube>): (r: seq<Tube>)
    ensures |r| == |s| + 1
  {
    if s == [] then [x]
    else if !KeyLe(s[0].ready, x.ready) then [x] + s
    else [s[0]] + Insert(x, s[1..])
  }

  /** Insertion adds x and loses nothing. */
  lemma {:induction false} InsertPermutes(x: Tube, s: seq<Tube>)
    ensures multiset(Insert(x, s)) == multiset(s) + multiset{x}
  {
    if s != [] && KeyLe(s[0].ready, x.ready) {
      InsertPermutes(x, s[1..]);
      assert s == [s[0]] + s[1..];
    }
  }

  lemma {:induction false} InsertAscending(x: Tube, s: seq<Tube>)
    requires Ascending(s)
    ensures Ascending(Insert(x, s))
  {
    if s == [] {
    } else if !KeyLe(s[0].ready, x.ready) {
      var r := [x] + s;
      assert Insert(x, s) == r;
      forall i, j | 0 <= i < j < |r| ensures KeyLe(r[i].ready, r[j].ready) {
        if i == 0 {
          assert KeyLe(s[0].ready, r[j].ready);
        }
      }
    } else {
      var t := Insert(x, s[1..]);
      InsertAscending(x, s[1..]);
      InsertPermutes(x, s[1..]);
      var r := [s[0]] + t;
      assert Insert(x, s) == r;
      forall j | 0 <= j < |t| ensures KeyLe(s[0].ready, t[j].ready) {
        assert t[j] in multiset(t);
        assert t[j] in multiset(s[1..]) || t[j] == x;
        if t[j] != x {
          var k :| 0 <= k < |s[1..]| && s[1..][k] == t[j];
          assert s[k + 1] == t[j];
        }
      }
      forall i, j | 0 <= i < j < |r| ensures KeyLe(r[i].ready, r[j].ready) {
        if i > 0 {
          assert r[i] == t[i - 1] && r[j] == t[j - 1];
        }
      }
    }
  }

  /** `sorted(lines, key=...)`: insertion of each tube in input order, so that
      a later tube lands after the earlier ones its key ties with. */
  function SortAscending(s: seq<Tube>): (r: seq<Tube>)
    ensures |r| == |s|
  {
    if s == [] then [] else Insert(s[|s| - 1], SortAscending(s[..|s| - 1]))
  }

  /** The sort returns a permutation of its input. */
  lemma {:induction false} SortPermutes(s: seq<Tube>)
    ensures multiset(SortAscending(s)) == multiset(s)
    decreases |s|
  {
    if s != [] {
      var front := s[..|s| - 1];
      SortPermutes(front);
      InsertPermutes(s[|s| - 1], SortAscending(front));
      assert s == front + [s[|s| - 1]];
    }
  }

  /** The sort returns its input in ascending order. */
  lemma {:induction false} SortAscends(s: seq<Tube>)
    ensures Ascending(SortAscending(s))
    decreases |s|
  {
    if s != [] {
      var front := s[..|s| - 1];
      SortAscends(front);
      InsertAscending(s[|s| - 1], SortAscending(front));
    }
  }

  /** `[::-1]`. */
  function Reverse(s: seq<Tube>): (r: seq<Tube>)
    ensures |r| == |s|
    ensures forall i :: 0 <= i < |s| ==> r[i] == s[|s| - 1 - i]
  {
    if s == [] then [] else Reverse(s[1..]) + [s[0]]
  }

  /** The rows in the order they are drawn. */
  function DisplayOrder(s: seq<Tube>): (r: seq<Tube>)
    ensures |r| == |s|
  {
    Reverse(SortAscending(s))
  }

  /** The tubes of s whose key ties with v, in their order in s. */
  function Ties(s: seq<Tube>, v: Value): seq<Tube>
  {
    if s == [] then []
    else (if SameKey(s[0].ready, v) then [s[0]] else []) + Ties(s[1..], v)
  }

  lemma {:induction false} TiesAppend(a: seq<Tube>, b: seq<Tube>, v: Value)
    ensures Ties(a + b, v) == Ties(a, v) + Ties(b, v)
  {
    if a == [] {
      assert a + b == b;
    } else {
      assert (a + b)[1..] == a[1..] + b;
      TiesAppend(a[1..], b, v);
    }
  }

  lemma {:induction false} TiesNone(s: seq<Tube>, v: Value)
    requires forall i :: 0 <= i < |s| ==> !SameKey(s[i].ready, v)
    ensures Ties(s, v) == []
  {
    if s != [] {
      TiesNone(s[1..], v);
    }
  }

  lemma TiesSingle(x: Tube, v: Value)
    ensures Ties([x], v) == if SameKey(x.ready, v) then [x] else []
  {
    assert [x][1..] == [];
  }

  /** A tube inserted in front of an ascending sequence whose keys all exceed
      its own is the last of its ties. */
  lemma {:induction false} InsertTiesFront(x: Tube, s: seq<Tube>, v: Value)
    requires Ascending(s) && s != [] && !KeyLe(s[0].ready, x.ready)
    ensures Ties(Insert(x, s), v) == Ties(s, v) + (if SameKey(x.ready, v) then [x] else [])
  {
    TiesSingle(x, v);
    assert Insert(x, s) == [x] + s;
    TiesAppend([x], s, v);
    if SameKey(x.ready, v) {
      forall i | 0 <= i < |s| ensures !SameKey(s[i].ready, v) {
        if i > 0 { assert KeyLe(s[0].ready, s[i].ready); }
      }
      TiesNone(s, v);
    }
  }

  /** A tube inserted past the head of a sequence keeps the head's ties in
      front of it. */
  lemma {:induction false} InsertTiesLater(x: Tube, s: seq<Tube>, v: Value)
    requires s != [] && KeyLe(s[0].ready, x.ready)
    requires Ties(Insert(x, s[1..]), v) == Ties(s[1..], v) + (if SameKey(x.ready, v) then [x] else [])
    ensures Ties(Insert(x, s), v) == Ties(s, v) + (if SameKey(x.ready, v) then [x] else [])
  {
    var rest := Insert(x, s[1..]);
    assert Insert(x, s) == [s[0]] + rest;
    TiesCons(s[0], rest, v);
    TiesCons(s[0], s[1..], v);
    assert [s[0]] + s[1..] == s;
  }

  /** The ties of a sequence with a given head: the head's, then the rest's. */
  lemma TiesCons(y: Tube, t: seq<Tube>, v: Value)
    ensures Ties([y] + t, v) == (if SameKey(y.ready, v) then [y] else []) + Ties(t, v)
  {
    assert ([y] + t)[1..] == t;
  }

  /** Inserting x into an ascending sequence puts it after every tube it ties
      with. */
  lemma {:induction false} InsertTies(x: Tube, s: seq<Tube>, v: Value)
    requires Ascending(s)
    ensures Ties(Insert(x, s), v) == Ties(s, v) + (if SameKey(x.ready, v) then [x] else [])
  {
    if s == [] {
      TiesSingle(x, v);
      assert Insert(x, s) == [x];
    } else if !KeyLe(s[0].ready, x.ready) {
      InsertTiesFront(x, s, v);
    } else {
      InsertTies(x, s[1..], v);
      InsertTiesLater(x, s, v);
    }
  }

  /** The sort is stable: the tubes of any one key keep their input order. */
  lemma {:induction false} SortStable(s: seq<Tube>, v: Value)
    ensures Ties(SortAscending(s), v) == Ties(s, v)
    decreases |s|
  {
    if s != [] {
      var front := s[..|s| - 1];
      SortStable(front, v);
      SortStableStep(front, s[|s| - 1], v);
      assert s == front + [s[|s| - 1]];
    }
  }

  lemma SortStableStep(front: seq<Tube>, last: Tube, v: Value)
    requires Ties(SortAscending(front), v) == Ties(front, v)
    ensures Ties(SortAscending(front + [last]), v) == Ties(front + [last], v)
  {
    var s := front + [last];
    assert s[..|s| - 1] == front;
    var sorted := SortAscending(front);
    assert SortAscending(s) == Insert(last, sorted);
    var tail := if SameKey(last.ready, v) then [last] else [];
    SortAscends(front);
    InsertTies(last, sorted, v);
    assert [last][1..] == [];
    assert Ties([last], v) == tail;
    TiesAppend(front, [last], v);
  }

  lemma {:induction false} ReverseTies(s: seq<Tube>, v: Value)
    ensures Ties(Reverse(s), v) == Reverse(Ties(s, v))
  {
    if s != [] {
      ReverseTies(s[1..], v);
      TiesAppend(Reverse(s[1..]), [s[0]], v);
      assert Reverse(s) == Reverse(s[1..]) + [s[0]];
      var t := Ties(s[1..], v);
      if SameKey(s[0].ready, v) {
        assert Ties(s, v) == [s[0]] + t;
        assert ([s[0]] + t)[1..] == t;
      } else {
        assert Ties(s, v) == t;
      }
    }
  }

  lemma {:induction false} ReversePermutes(s: seq<Tube>)
    ensures multiset(Reverse(s)) == multiset(s)
  {
    if s != [] {
      ReversePermutes(s[1..]);
      assert s == [s[0]] + s[1..];
    }
  }

  /** The drawn order is a permutation of the tubes, in non-increasing ready
      order, and tubes that tie appear in the reverse of their input order. */
  lemma DisplayOrderSpec(s: seq<Tube>)
    ensures multiset(DisplayOrder(s)) == multiset(s)
    ensures Descending(DisplayOrder(s))
    ensures forall v :: Ties(DisplayOrder(s), v) == Reverse(Ties(s, v))
  {
    SortPermutes(s);
    SortAscends(s);
    ReversePermutes(SortAscending(s));
    forall v ensures Ties(DisplayOrder(s), v) == Reverse(Ties(s, v)) {
      ReverseTies(SortAscending(s), v);
      SortStable(s, v);
    }
  }
}
