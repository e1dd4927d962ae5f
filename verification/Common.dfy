/** Small datatypes and sequence facts shared by the models. */
module Common {

  datatype Option<+T> = None | Some(value: T)

  datatype Result<+T, +E> = Success(value: T) | Failure(error: E)

  predicate Distinct<T(==)>(s: seq<T>) {
    forall i, j :: 0 <= i < j < |s| ==> s[i] != s[j]
  }

  function Elements<T>(s: seq<T>): (r: set<T>) {
    set x | x in s
  }

  /** `dict.fromkeys(s)`: keep the first occurrence of every value, in order. */
  function Dedup<T(==,!new)>(s: seq<T>): (r: seq<T>)
    ensures Distinct(r)
    ensures forall x :: x in r <==> x in s
  {
    if s == [] then []
    else
      var front := Dedup(s[..|s| - 1]);
      var last := s[|s| - 1];
      assert s == s[..|s| - 1] + [last];
      if last in front then front else front + [last]
  }

  /** The first occurrences of the values of s, in order. */
  ghost predicate IsFirstOccurrences<T(!new)>(r: seq<T>, s: seq<T>) {
    && (forall i, j :: 0 <= i < j < |r| ==> r[i] != r[j])
    && (forall v :: v in r <==> v in s)
    && (forall i, j :: 0 <= i < j < |r| ==> ComesFirst(s, r[i], r[j]))
  }

  /** v occurs in s before every occurrence of w. */
  ghost predicate ComesFirst<T(!new)>(s: seq<T>, v: T, w: T) {
    exists i :: 0 <= i < |s| && s[i] == v && forall k :: 0 <= k <= i ==> s[k] != w
  }

  lemma {:induction false} DedupIsFirstOccurrences<T(!new)>(s: seq<T>)
    ensures IsFirstOccurrences(Dedup(s), s)
  {
    if s != [] {
      var n := |s| - 1;
      var front, r := Dedup(s[..n]), Dedup(s);
      DedupIsFirstOccurrences(s[..n]);
      assert s == s[..n] + [s[n]];
      forall i, j | 0 <= i < j < |r| ensures ComesFirst(s, r[i], r[j]) {
        if j < |front| {
          assert ComesFirst(s[..n], front[i], front[j]);
          var k :| 0 <= k < n && s[..n][k] == front[i] && forall m :: 0 <= m <= k ==> s[..n][m] != front[j];
          assert s[k] == r[i] && forall m :: 0 <= m <= k ==> s[m] == s[..n][m];
        } else {
          LastComesLast(s, front, r[i]);
        }
      }
    }
  }

  lemma LastComesLast<T(!new)>(s: seq<T>, front: seq<T>, v: T)
    requires s != [] && front == Dedup(s[..|s| - 1]) && v in front && s[|s| - 1] !in front
    ensures ComesFirst(s, v, s[|s| - 1])
  {
    var n := |s| - 1;
    assert v in s[..n];
    var k :| 0 <= k < n && s[..n][k] == v;
    forall m | 0 <= m <= k ensures s[m] != s[n] {
      assert s[m] == s[..n][m] && s[..n][m] in s[..n];
    }
    assert s[k] == v;
  }

  lemma ElementsSize<T>(s: seq<T>)
    requires Distinct(s)
    ensures |Elements(s)| == |s|
  {
    if s != [] {
      var front := s[..|s| - 1];
      ElementsSize(front);
      assert Elements(s) == Elements(front) + {s[|s| - 1]};
      assert s[|s| - 1] !in Elements(front);
    }
  }

  /** The comparison of `len(x)` with `len(set(x))` finds exactly the repetitions. */
  lemma {:induction false} SizeShowsRepetition<T>(s: seq<T>)
    ensures |Elements(s)| <= |s|
    ensures |Elements(s)| == |s| <==> Distinct(s)
  {
    if s != [] {
      var n := |s| - 1;
      var front := s[..n];
      SizeShowsRepetition(front);
      assert s == front + [s[n]];
      assert Elements(s) == Elements(front) + {s[n]};
      if s[n] in front {
        var i :| 0 <= i < n && front[i] == s[n];
        assert s[i] == s[n];
      } else if Distinct(front) {
        forall i, j | 0 <= i < j < |s| ensures s[i] != s[j] {
          assert s[i] == front[i] && front[i] in front;
          assert j < n ==> s[j] == front[j];
        }
      }
      if Distinct(s) {
        forall i, j | 0 <= i < j < n ensures front[i] != front[j] {
          assert front[i] == s[i] && front[j] == s[j];
        }
      }
    }
  }

  lemma SubsetSize<T>(a: set<T>, b: set<T>)
    requires a <= b
    ensures |a| <= |b|
    ensures |a| == |b| ==> a == b
  {
    assert b == a + (b - a);
    assert |b| == |a| + |b - a|;
  }

  method Pick<T(==)>(s: set<T>) returns (x: T)
    requires |s| > 0
    ensures x in s
  {
    x :| x in s;
  }
}
