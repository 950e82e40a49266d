/** Counting in sets. */
module Sets {
  lemma {:induction false} Fewer<T>(a: set<T>, b: set<T>)
    requires a <= b
    ensures |a| <= |b|
    decreases |a|
  {
    if a != {} {
      var x :| x in a;
      Fewer(a - {x}, b - {x});
    }
  }

  /** Those of `s` greater than `n`. */
  function Above(s: set<nat>, n: nat): set<nat> {
    set k | k in s && k > n
  }

  /** The greatest `count` of `s`: the newest, numbers growing with time. */
  function Newest(s: set<nat>, count: nat): set<nat> {
    set n | n in s && |Above(s, n)| < count
  }

  lemma {:induction false} GreatestOf(s: set<nat>) returns (top: nat)
    requires s != {}
    ensures top in s && forall n :: n in s ==> n <= top
  {
    top :| top in s;
    if Above(s, top) != {} {
      assert Above(s, top) < s by {
        assert top !in Above(s, top);
      }
      var higher := GreatestOf(Above(s, top));
      forall n | n in s ensures n <= higher {
        assert n in Above(s, top) || n <= top;
      }
      top := higher;
    } else {
      forall n | n in s ensures n <= top {
        assert n !in Above(s, top);
      }
    }
  }

  /** Taking the newest of a set takes as many as there are to take. */
  lemma {:induction false} NewestCount(s: set<nat>, count: nat)
    ensures |Newest(s, count)| == if |s| < count then |s| else count
  {
    if s == {} || count == 0 {
      NoneNewest(s, count);
    } else {
      var top := GreatestOf(s);
      NewestCount(s - {top}, count - 1);
      TopCounts(s, top, count);
    }
  }

  lemma NoneNewest(s: set<nat>, count: nat)
    requires s == {} || count == 0
    ensures Newest(s, count) == {}
  {
  }

  lemma TopCounts(s: set<nat>, top: nat, count: nat)
    requires top in s && (forall n :: n in s ==> n <= top) && count > 0
    ensures |Newest(s, count)| == |Newest(s - {top}, count - 1)| + 1 && |s| == |s - {top}| + 1
  {
    TopFirst(s, top, count);
    assert s == s - {top} + {top};
    OneMore(s - {top}, top);
    OneMore(Newest(s - {top}, count - 1), top);
  }

  lemma OneMore(s: set<nat>, n: nat)
    requires n !in s
    ensures |s + {n}| == |s| + 1
  {
  }

  lemma TopFirst(s: set<nat>, top: nat, count: nat)
    requires top in s && (forall n :: n in s ==> n <= top) && count > 0
    ensures Newest(s, count) == Newest(s - {top}, count - 1) + {top}
  {
    assert Above(s, top) == {};
    forall n ensures n in Newest(s, count) <==> n in Newest(s - {top}, count - 1) + {top} {
      if n in s && n != top {
        OneMoreAbove(s, top, n);
      }
    }
  }

  lemma OneMoreAbove(s: set<nat>, top: nat, n: nat)
    requires top in s && n in s && n < top
    ensures |Above(s, n)| == |Above(s - {top}, n)| + 1
  {
    assert Above(s, n) == Above(s - {top}, n) + {top};
  }

  /** Of two members the greater is among the greatest where the lesser is. */
  lemma NewestAreNewer(s: set<nat>, count: nat, older: nat, newer: nat)
    requires older in Newest(s, count) && newer in s && newer >= older
    ensures newer in Newest(s, count)
  {
    Fewer(Above(s, newer), Above(s, older));
  }
}
