/** Small shared vocabulary: an optional value and duplicate-freedom of sequences. */
module Base {

  /** A value that may be missing, as JavaScript's `undefined` result of `find`. */
  datatype Option<+T> = None | Some(value: T) {
    /** `x ?? d`: the value, or `d` when missing. */
    function GetOr(d: T): T {
      match this
      case Some(v) => v
      case None => d
    }
  }

  /** No element occurs twice. */
  predicate NoDup<T(==)>(s: seq<T>) {
    forall i, j :: 0 <= i < j < |s| ==> s[i] != s[j]
  }

  /** A duplicate-free sequence has as many distinct elements as it has entries. */
  lemma {:induction false} NoDupCardinality<T>(s: seq<T>)
    requires NoDup(s)
    ensures |set x | x in s| == |s|
  {
    if s != [] {
      var t := s[1..];
      assert NoDup(t);
      NoDupCardinality(t);
      assert (set x | x in s) == (set x | x in t) + {s[0]};
      assert s[0] !in (set x | x in t) by {
        forall k | 0 <= k < |t| ensures t[k] != s[0] {
          assert t[k] == s[k + 1];
        }
      }
    }
  }

  /** A duplicate-free sequence whose elements all occur in `all`, and that is as long as
      `all`, contains every element of `all`. */
  lemma {:induction false} FullNoDupSubsetCoversAll<T>(s: seq<T>, all: seq<T>)
    requires NoDup(s) && NoDup(all)
    requires forall x :: x in s ==> x in all
    requires |s| == |all|
    ensures forall x :: x in all ==> x in s
  {
    var S := set x | x in s;
    var A := set x | x in all;
    NoDupCardinality(s);
    NoDupCardinality(all);
    forall x | x in all ensures x in s {
      if x !in s {
        assert S <= A - {x};
        SubsetCardinality(S, A - {x});
        assert false;
      }
    }
  }

  lemma {:induction false} SubsetCardinality<T>(a: set<T>, b: set<T>)
    requires a <= b
    ensures |a| <= |b|
  {
    if a != {} {
      var x :| x in a;
      SubsetCardinality(a - {x}, b - {x});
    }
  }
}
