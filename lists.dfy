/**
 * Filtered queries over ordered lists: a database `get_all` with filters
 * returns the rows that pass them, in table order, projected onto the
 * requested fields; a Python list comprehension with an `if` does the same.
 */
module Lists {
  import opened Wrappers

  /** The projections `f` keeps, in order. */
  function FilterMap<T, U>(xs: seq<T>, f: T -> Option<U>): (r: seq<U>)
    ensures |r| <= |xs|
  {
    if xs == [] then []
    else (if f(xs[0]).Some? then [f(xs[0]).value] else []) + FilterMap(xs[1..], f)
  }

  /** Row `i` passes the filter. */
  ghost predicate Kept<T, U>(xs: seq<T>, f: T -> Option<U>, i: int) {
    0 <= i < |xs| && f(xs[i]).Some?
  }

  /** Row `i` is the only row that passes the filter. */
  ghost predicate OnlyKept<T, U>(xs: seq<T>, f: T -> Option<U>, i: int) {
    Kept(xs, f, i) && forall j :: Kept(xs, f, j) ==> j == i
  }

  /** A value is in the result exactly when some row projects to it. */
  lemma {:induction false} FilterMapMember<T, U>(xs: seq<T>, f: T -> Option<U>, y: U)
    ensures y in FilterMap(xs, f) <==> exists i :: 0 <= i < |xs| && f(xs[i]) == Some(y)
    decreases |xs|
  {
    if xs != [] {
      FilterMapMember(xs[1..], f, y);
      if i :| 1 <= i < |xs| && f(xs[i]) == Some(y) {
        assert f(xs[1..][i - 1]) == Some(y);
      }
      if i :| 0 <= i < |xs[1..]| && f(xs[1..][i]) == Some(y) {
        assert f(xs[i + 1]) == Some(y);
      }
    }
  }

  /** The result is empty exactly when no row passes. */
  lemma {:induction false} FilterMapEmpty<T, U>(xs: seq<T>, f: T -> Option<U>)
    ensures FilterMap(xs, f) == [] <==> forall i :: !Kept(xs, f, i)
    decreases |xs|
  {
    if xs != [] {
      FilterMapEmpty(xs[1..], f);
      if !Kept(xs, f, 0) {
        forall i | Kept(xs, f, i) ensures Kept(xs[1..], f, i - 1) {
        }
        forall i | Kept(xs[1..], f, i) ensures Kept(xs, f, i + 1) {
        }
      }
    }
  }

  /** The first element of the result comes from the first row that passes. */
  lemma {:induction false} FilterMapHead<T, U>(xs: seq<T>, f: T -> Option<U>)
    requires FilterMap(xs, f) != []
    ensures exists i :: Kept(xs, f, i) && f(xs[i]) == Some(FilterMap(xs, f)[0]) && forall j :: 0 <= j < i ==> !Kept(xs, f, j)
    decreases |xs|
  {
    if Kept(xs, f, 0) {
      assert f(xs[0]) == Some(FilterMap(xs, f)[0]);
    } else {
      FilterMapHead(xs[1..], f);
      var i :| Kept(xs[1..], f, i) && f(xs[1..][i]) == Some(FilterMap(xs[1..], f)[0])
              && forall j :: 0 <= j < i ==> !Kept(xs[1..], f, j);
      assert Kept(xs, f, i + 1);
      forall j | 0 <= j < i + 1 ensures !Kept(xs, f, j) {
        if j > 0 {
          assert !Kept(xs[1..], f, j - 1);
        }
      }
    }
  }

  /** The result has exactly one element exactly when exactly one row passes. */
  lemma {:induction false} FilterMapSingle<T, U>(xs: seq<T>, f: T -> Option<U>)
    ensures |FilterMap(xs, f)| == 1 <==> exists i :: OnlyKept(xs, f, i)
    decreases |xs|
  {
    if xs != [] {
      var tail := xs[1..];
      FilterMapEmpty(tail, f);
      FilterMapSingle(tail, f);
      if Kept(xs, f, 0) {
        if |FilterMap(xs, f)| == 1 {
          assert FilterMap(tail, f) == [];
          forall j | Kept(xs, f, j) ensures j == 0 {
            if j > 0 {
              assert Kept(tail, f, j - 1);
            }
          }
          assert OnlyKept(xs, f, 0);
        }
        if i :| OnlyKept(xs, f, i) {
          assert i == 0;
          forall j | Kept(tail, f, j) ensures false {
            assert Kept(xs, f, j + 1);
          }
        }
      } else {
        if |FilterMap(xs, f)| == 1 {
          var i :| OnlyKept(tail, f, i);
          assert Kept(xs, f, i + 1);
          forall j | Kept(xs, f, j) ensures j == i + 1 {
            assert Kept(tail, f, j - 1);
          }
          assert OnlyKept(xs, f, i + 1);
        }
        if i :| OnlyKept(xs, f, i) {
          assert Kept(tail, f, i - 1);
          forall j | Kept(tail, f, j) ensures j == i - 1 {
            assert Kept(xs, f, j + 1);
          }
          assert OnlyKept(tail, f, i - 1);
        }
      }
    }
  }
}
