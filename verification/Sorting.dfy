// Stable sorting by a key, and the order of paths.
module Sorting {

  // Text in the order of its characters, which for UTF-8 is the order of its bytes.
  predicate StringLe(a: string, b: string)
    decreases |a|
  {
    a == [] || (b != [] && (a[0] < b[0] || (a[0] == b[0] && StringLe(a[1..], b[1..]))))
  }

  lemma {:induction false} StringTotal(a: string, b: string)
    ensures StringLe(a, b) || StringLe(b, a)
    ensures StringLe(a, b) && StringLe(b, a) ==> a == b
    decreases |a|
  {
    if a != [] && b != [] && a[0] == b[0] {
      StringTotal(a[1..], b[1..]);
      assert a == [a[0]] + a[1..] && b == [b[0]] + b[1..];
    }
  }

  lemma {:induction false} StringTransitive(a: string, b: string, c: string)
    requires StringLe(a, b) && StringLe(b, c)
    ensures StringLe(a, c)
    decreases |a|
  {
    if a != [] && a[0] == b[0] && b[0] == c[0] {
      StringTransitive(a[1..], b[1..], c[1..]);
    }
  }

  type Le<!T> = (T, T) -> bool

  ghost predicate Order<T(!new)>(le: Le<T>) {
    && (forall a, b :: le(a, b) || le(b, a))
    && (forall a, b, c :: le(a, b) && le(b, c) ==> le(a, c))
  }

  function Insert<T>(le: Le<T>, x: T, ys: seq<T>): seq<T> {
    if ys == [] || le(x, ys[0]) then [x] + ys else [ys[0]] + Insert(le, x, ys[1..])
  }

  function Sort<T>(le: Le<T>, xs: seq<T>): seq<T> {
    if xs == [] then [] else Insert(le, xs[0], Sort(le, xs[1..]))
  }

  ghost predicate Sorted<T>(le: Le<T>, xs: seq<T>) {
    forall i, j | 0 <= i < j < |xs| :: le(xs[i], xs[j])
  }

  lemma {:induction false} InsertHolds<T>(le: Le<T>, x: T, ys: seq<T>)
    ensures multiset(Insert(le, x, ys)) == multiset{x} + multiset(ys)
  {
    if ys != [] && !le(x, ys[0]) {
      InsertHolds(le, x, ys[1..]);
      assert ys == [ys[0]] + ys[1..];
    }
  }

  lemma {:induction false} SortHolds<T>(le: Le<T>, xs: seq<T>)
    ensures multiset(Sort(le, xs)) == multiset(xs)
  {
    if xs != [] {
      SortHolds(le, xs[1..]);
      InsertHolds(le, xs[0], Sort(le, xs[1..]));
      assert xs == [xs[0]] + xs[1..];
    }
  }

  lemma SortedCons<T>(le: Le<T>, x: T, ys: seq<T>)
    requires Sorted(le, ys) && forall y | y in ys :: le(x, y)
    ensures Sorted(le, [x] + ys)
  {
    var all := [x] + ys;
    forall i, j | 0 <= i < j < |all| ensures le(all[i], all[j]) {
      assert all[j] == ys[j - 1] && ys[j - 1] in ys;
      if i > 0 {
        assert all[i] == ys[i - 1];
      }
    }
  }

  lemma SortedTail<T>(le: Le<T>, ys: seq<T>)
    requires Sorted(le, ys) && ys != []
    ensures Sorted(le, ys[1..]) && forall y | y in ys[1..] :: le(ys[0], y)
  {
    forall i, j | 0 <= i < j < |ys[1..]| ensures le(ys[1..][i], ys[1..][j]) {
      assert le(ys[i + 1], ys[j + 1]);
    }
    forall y | y in ys[1..] ensures le(ys[0], y) {
      var i :| 0 <= i < |ys[1..]| && ys[1..][i] == y;
      assert le(ys[0], ys[i + 1]);
    }
  }

  lemma {:induction false} InsertSorted<T(!new)>(le: Le<T>, x: T, ys: seq<T>)
    requires Order(le) && Sorted(le, ys)
    ensures Sorted(le, Insert(le, x, ys))
  {
    if ys == [] {
    } else if le(x, ys[0]) {
      SortedTail(le, ys);
      forall y | y in ys ensures le(x, y) {
        assert y == ys[0] || y in ys[1..];
      }
      SortedCons(le, x, ys);
    } else {
      SortedTail(le, ys);
      InsertSorted(le, x, ys[1..]);
      var rest := Insert(le, x, ys[1..]);
      InsertHolds(le, x, ys[1..]);
      forall y | y in rest ensures le(ys[0], y) {
        assert y in multiset(rest);
      }
      SortedCons(le, ys[0], rest);
    }
  }

  lemma {:induction false} SortSorts<T(!new)>(le: Le<T>, xs: seq<T>)
    requires Order(le)
    ensures Sorted(le, Sort(le, xs))
  {
    if xs != [] {
      SortSorts(le, xs[1..]);
      InsertSorted(le, xs[0], Sort(le, xs[1..]));
    }
  }

  lemma {:induction false} InsertLength<T>(le: Le<T>, x: T, ys: seq<T>)
    ensures |Insert(le, x, ys)| == |ys| + 1
  {
    if ys != [] {
      InsertLength(le, x, ys[1..]);
    }
  }

  lemma {:induction false} SortLength<T>(le: Le<T>, xs: seq<T>)
    ensures |Sort(le, xs)| == |xs|
  {
    if xs != [] {
      SortLength(le, xs[1..]);
      InsertLength(le, xs[0], Sort(le, xs[1..]));
    }
  }

  // No two different elements are tied.
  ghost predicate Untied<T>(le: Le<T>, xs: seq<T>) {
    forall i, j | 0 <= i < |xs| && 0 <= j < |xs| && le(xs[i], xs[j]) && le(xs[j], xs[i]) :: xs[i] == xs[j]
  }

  lemma HeadsEqual<T(!new)>(le: Le<T>, xs: seq<T>, ys: seq<T>)
    requires Order(le) && Sorted(le, xs) && Sorted(le, ys) && Untied(le, xs) && multiset(xs) == multiset(ys) && xs != []
    ensures ys != [] && xs[0] == ys[0]
  {
    assert xs[0] in multiset(ys);
    var j :| 0 <= j < |ys| && ys[j] == xs[0];
    assert ys[0] in multiset(xs);
    var i :| 0 <= i < |xs| && xs[i] == ys[0];
    assert le(xs[0], xs[i]) && le(ys[0], ys[j]);
  }

  lemma TailsSame<T>(xs: seq<T>, ys: seq<T>)
    requires xs != [] && ys != [] && xs[0] == ys[0] && multiset(xs) == multiset(ys)
    ensures multiset(xs[1..]) == multiset(ys[1..])
  {
    assert xs == [xs[0]] + xs[1..] && ys == [ys[0]] + ys[1..];
    assert multiset(xs[1..]) == multiset(xs) - multiset{xs[0]} && multiset(ys[1..]) == multiset(ys) - multiset{ys[0]};
  }

  lemma {:induction false} SortedUnique<T(!new)>(le: Le<T>, xs: seq<T>, ys: seq<T>)
    requires Order(le) && Sorted(le, xs) && Sorted(le, ys) && Untied(le, xs) && multiset(xs) == multiset(ys)
    ensures xs == ys
  {
    if xs == [] {
      assert |multiset(ys)| == |ys|;
    } else {
      HeadsEqual(le, xs, ys);
      TailsSame(xs, ys);
      SortedTail(le, xs);
      SortedTail(le, ys);
      assert Untied(le, xs[1..]) by {
        forall i, j | 0 <= i < |xs[1..]| && 0 <= j < |xs[1..]| && le(xs[1..][i], xs[1..][j]) && le(xs[1..][j], xs[1..][i])
          ensures xs[1..][i] == xs[1..][j]
        {
          assert xs[1..][i] == xs[i + 1] && xs[1..][j] == xs[j + 1];
        }
      }
      SortedUnique(le, xs[1..], ys[1..]);
      assert xs == [xs[0]] + xs[1..] && ys == [ys[0]] + ys[1..];
    }
  }

  // Sorting forgets the order it was given.
  lemma SortPermuted<T(!new)>(le: Le<T>, xs: seq<T>, ys: seq<T>)
    requires Order(le) && Untied(le, xs) && multiset(xs) == multiset(ys)
    ensures Sort(le, xs) == Sort(le, ys)
  {
    SortSorts(le, xs);
    SortSorts(le, ys);
    SortHolds(le, xs);
    SortHolds(le, ys);
    var s := Sort(le, xs);
    forall i, j | 0 <= i < |s| && 0 <= j < |s| && le(s[i], s[j]) && le(s[j], s[i]) ensures s[i] == s[j] {
      assert s[i] in multiset(xs) && s[j] in multiset(xs);
    }
    SortedUnique(le, s, Sort(le, ys));
  }
}
