/** Values shared by the other modules: optional values and a stable sort. */
module Common {

  datatype Option<+T> = None | Some(value: T)

  newtype byte = x: int | 0 <= x < 256

  lemma {:induction false} Associative<T>(a: seq<T>, b: seq<T>, c: seq<T>)
    ensures (a + b) + c == a + (b + c)
  {
  }

  /** `xs` sorted by `le`, equal elements keeping their order: what `list.sort` does. */
  function SortBy<T>(xs: seq<T>, le: (T, T) -> bool): seq<T> {
    if |xs| == 0 then [] else InsertBy(xs[0], SortBy(xs[1..], le), le)
  }

  function InsertBy<T>(x: T, xs: seq<T>, le: (T, T) -> bool): seq<T> {
    if |xs| == 0 then [x]
    else if le(x, xs[0]) then [x] + xs
    else [xs[0]] + InsertBy(x, xs[1..], le)
  }

  ghost predicate TotalPreorder<T(!new)>(le: (T, T) -> bool) {
    && (forall a, b :: le(a, b) || le(b, a))
    && (forall a, b, c :: le(a, b) && le(b, c) ==> le(a, c))
  }

  ghost predicate SortedBy<T>(xs: seq<T>, le: (T, T) -> bool) {
    forall i, j :: 0 <= i < j < |xs| ==> le(xs[i], xs[j])
  }

  lemma {:induction false} SortByPermutes<T>(xs: seq<T>, le: (T, T) -> bool)
    ensures multiset(SortBy(xs, le)) == multiset(xs)
  {
    if |xs| == 0 {
    } else {
      SortByPermutes(xs[1..], le);
      InsertByPermutes(xs[0], SortBy(xs[1..], le), le);
      assert xs == [xs[0]] + xs[1..];
    }
  }

  lemma {:induction false} InsertByPermutes<T>(x: T, xs: seq<T>, le: (T, T) -> bool)
    ensures multiset(InsertBy(x, xs, le)) == multiset{x} + multiset(xs)
  {
    if |xs| > 0 && !le(x, xs[0]) {
      InsertByPermutes(x, xs[1..], le);
      assert xs == [xs[0]] + xs[1..];
    }
  }

  lemma {:induction false} SortByMembers<T>(xs: seq<T>, le: (T, T) -> bool)
    ensures |SortBy(xs, le)| == |xs|
    ensures forall x :: x in SortBy(xs, le) <==> x in xs
  {
    SortByPermutes(xs, le);
    var sorted := SortBy(xs, le);
    assert |multiset(sorted)| == |multiset(xs)|;
    forall x ensures x in sorted <==> x in xs {
      assert x in sorted <==> x in multiset(sorted);
      assert x in xs <==> x in multiset(xs);
    }
  }

  lemma {:induction false} SortBySorts<T(!new)>(xs: seq<T>, le: (T, T) -> bool)
    requires TotalPreorder(le)
    ensures SortedBy(SortBy(xs, le), le)
  {
    if |xs| == 0 {
    } else {
      SortBySorts(xs[1..], le);
      InsertBySorts(xs[0], SortBy(xs[1..], le), le);
    }
  }

  lemma {:induction false} InsertBySorts<T(!new)>(x: T, xs: seq<T>, le: (T, T) -> bool)
    requires TotalPreorder(le) && SortedBy(xs, le)
    ensures SortedBy(InsertBy(x, xs, le), le)
  {
    if |xs| > 0 && !le(x, xs[0]) {
      InsertBySorts(x, xs[1..], le);
      var rest := InsertBy(x, xs[1..], le);
      InsertByPermutes(x, xs[1..], le);
      forall k | 0 <= k < |rest| ensures le(xs[0], rest[k]) {
        assert rest[k] in multiset(rest);
        if rest[k] != x {
          assert rest[k] in xs[1..];
        }
      }
    }
  }

  function Filter<T>(xs: seq<T>, keep: T -> bool): seq<T> {
    if |xs| == 0 then [] else (if keep(xs[0]) then [xs[0]] else []) + Filter(xs[1..], keep)
  }

  /** Any two of the elements kept tie. */
  ghost predicate Tie<T(!new)>(le: (T, T) -> bool, keep: T -> bool) {
    forall a, b :: keep(a) && keep(b) ==> le(a, b)
  }

  lemma {:induction false} InsertByIsStable<T(!new)>(x: T, xs: seq<T>, le: (T, T) -> bool, keep: T -> bool)
    requires Tie(le, keep)
    ensures Filter(InsertBy(x, xs, le), keep) == Filter([x] + xs, keep)
  {
    if |xs| == 0 {
      assert [x] + xs == [x];
    } else if le(x, xs[0]) {
    } else {
      InsertByIsStable(x, xs[1..], le, keep);
      assert ([x] + xs[1..])[1..] == xs[1..] && ([x] + xs)[1..] == xs;
      assert ([xs[0]] + InsertBy(x, xs[1..], le))[1..] == InsertBy(x, xs[1..], le);
    }
  }

  /** Sorting keeps elements that tie in the order they were in. */
  lemma {:induction false} SortByIsStable<T(!new)>(xs: seq<T>, le: (T, T) -> bool, keep: T -> bool)
    requires Tie(le, keep)
    ensures Filter(SortBy(xs, le), keep) == Filter(xs, keep)
  {
    if |xs| == 0 {
    } else {
      SortByIsStable(xs[1..], le, keep);
      InsertByIsStable(xs[0], SortBy(xs[1..], le), le, keep);
      assert ([xs[0]] + SortBy(xs[1..], le))[1..] == SortBy(xs[1..], le);
    }
  }
}
