/** The list operations the hooks apply to the records they hold: the `map` that swaps in an
    updated record, the `filter` that drops a deleted one, the `find` that looks one up and the
    `sort` that orders them by the text of a key. */
module Collections {
  import opened Wrappers

  /** `xs.map(x => matches(x) ? y : x)`. */
  function ReplaceWhere<T>(xs: seq<T>, matches: T -> bool, y: T): (r: seq<T>)
    ensures |r| == |xs|
  {
    if xs == [] then [] else [if matches(xs[0]) then y else xs[0]] + ReplaceWhere(xs[1..], matches, y)
  }

  /** Every position keeps its place: a matching record becomes `y`, any other stays as it was. */
  lemma {:induction false} ReplaceWhereAt<T>(xs: seq<T>, matches: T -> bool, y: T, i: int)
    requires 0 <= i < |xs|
    ensures ReplaceWhere(xs, matches, y)[i] == (if matches(xs[i]) then y else xs[i])
  {
    if i > 0 {
      ReplaceWhereAt(xs[1..], matches, y, i - 1);
    }
  }

  /** When no record matches, the list comes back unchanged. */
  lemma {:induction false} ReplaceWhereNoMatch<T>(xs: seq<T>, matches: T -> bool, y: T)
    requires forall i :: 0 <= i < |xs| ==> !matches(xs[i])
    ensures ReplaceWhere(xs, matches, y) == xs
  {
    if xs != [] {
      ReplaceWhereNoMatch(xs[1..], matches, y);
    }
  }

  /** When exactly one record matches, only that one is replaced. */
  lemma ReplaceWhereUnique<T>(xs: seq<T>, matches: T -> bool, y: T, k: int)
    requires 0 <= k < |xs| && matches(xs[k])
    requires forall i :: 0 <= i < |xs| && i != k ==> !matches(xs[i])
    ensures ReplaceWhere(xs, matches, y) == xs[k := y]
  {
    var r := ReplaceWhere(xs, matches, y);
    forall i | 0 <= i < |xs| ensures r[i] == xs[k := y][i] {
      ReplaceWhereAt(xs, matches, y, i);
    }
  }

  /** `xs.filter(x => !matches(x))`. */
  function RemoveWhere<T>(xs: seq<T>, matches: T -> bool): (r: seq<T>)
    ensures |r| <= |xs|
  {
    if xs == [] then [] else (if matches(xs[0]) then [] else [xs[0]]) + RemoveWhere(xs[1..], matches)
  }

  /** Matching records are gone and every other record keeps its multiplicity. */
  lemma {:induction false} RemoveWhereCounts<T>(xs: seq<T>, matches: T -> bool)
    ensures forall x :: multiset(RemoveWhere(xs, matches))[x] == if matches(x) then 0 else multiset(xs)[x]
  {
    if xs != [] {
      RemoveWhereCounts(xs[1..], matches);
      assert xs == [xs[0]] + xs[1..];
    }
  }

  /** Filtering distributes over concatenation, so the survivors keep their order. */
  lemma {:induction false} RemoveWhereConcat<T>(a: seq<T>, b: seq<T>, matches: T -> bool)
    ensures RemoveWhere(a + b, matches) == RemoveWhere(a, matches) + RemoveWhere(b, matches)
  {
    if a != [] {
      assert (a + b)[0] == a[0] && (a + b)[1..] == a[1..] + b;
      RemoveWhereConcat(a[1..], b, matches);
    } else {
      assert a + b == b;
    }
  }

  /** When no record matches, the list comes back unchanged. */
  lemma {:induction false} RemoveWhereNoMatch<T>(xs: seq<T>, matches: T -> bool)
    requires forall i :: 0 <= i < |xs| ==> !matches(xs[i])
    ensures RemoveWhere(xs, matches) == xs
  {
    if xs != [] {
      RemoveWhereNoMatch(xs[1..], matches);
    }
  }

  /** Two tests that agree on every record of the list find, replace and remove the same
      records. */
  lemma {:induction false} MatchersAgree<T>(xs: seq<T>, p: T -> bool, q: T -> bool, y: T)
    requires forall i :: 0 <= i < |xs| ==> p(xs[i]) == q(xs[i])
    ensures FindFirst(xs, p) == FindFirst(xs, q)
    ensures RemoveWhere(xs, p) == RemoveWhere(xs, q)
    ensures ReplaceWhere(xs, p, y) == ReplaceWhere(xs, q, y)
  {
    if xs != [] {
      assert p(xs[0]) == q(xs[0]);
      forall i | 0 <= i < |xs[1..]| ensures p(xs[1..][i]) == q(xs[1..][i]) {
        assert xs[1..][i] == xs[i + 1];
      }
      MatchersAgree(xs[1..], p, q, y);
    }
  }

  /** `xs.find(matches)`: the first matching record, if any. */
  function FindFirst<T>(xs: seq<T>, matches: T -> bool): Option<T> {
    if xs == [] then None else if matches(xs[0]) then Some(xs[0]) else FindFirst(xs[1..], matches)
  }

  /** Something is found exactly when some record matches, and what is found is the
      earliest match. */
  lemma {:induction false} FindFirstSpec<T>(xs: seq<T>, matches: T -> bool)
    ensures FindFirst(xs, matches).Some? <==> exists i :: 0 <= i < |xs| && matches(xs[i])
    ensures FindFirst(xs, matches).Some? ==>
      exists i :: 0 <= i < |xs| && xs[i] == FindFirst(xs, matches).value && matches(xs[i])
        && forall j :: 0 <= j < i ==> !matches(xs[j])
  {
    if xs != [] && !matches(xs[0]) {
      FindFirstSpec(xs[1..], matches);
      if FindFirst(xs, matches).Some? {
        var i :| 0 <= i < |xs[1..]| && xs[1..][i] == FindFirst(xs, matches).value && matches(xs[1..][i])
          && forall j :: 0 <= j < i ==> !matches(xs[1..][j]);
        assert xs[i + 1] == xs[1..][i];
        forall j | 0 <= j < i + 1 ensures !matches(xs[j]) {
          if j > 0 {
            assert xs[j] == xs[1..][j - 1];
          }
        }
      }
      if exists i :: 0 <= i < |xs| && matches(xs[i]) {
        var i :| 0 <= i < |xs| && matches(xs[i]);
        assert xs[1..][i - 1] == xs[i];
      }
    }
  }

  /** Code-point order on strings, the order `localeCompare` is reduced to here:
      a prefix comes first, otherwise the first differing character decides. */
  predicate LexLe(a: string, b: string) {
    if a == [] then true
    else if b == [] then false
    else if a[0] != b[0] then a[0] < b[0]
    else LexLe(a[1..], b[1..])
  }

  lemma {:induction false} LexLeReflexive(a: string)
    ensures LexLe(a, a)
  {
    if a != [] {
      LexLeReflexive(a[1..]);
    }
  }

  lemma {:induction false} LexLeTotal(a: string, b: string)
    ensures LexLe(a, b) || LexLe(b, a)
  {
    if a != [] && b != [] && a[0] == b[0] {
      LexLeTotal(a[1..], b[1..]);
    }
  }

  lemma {:induction false} LexLeAntisymmetric(a: string, b: string)
    requires LexLe(a, b) && LexLe(b, a)
    ensures a == b
  {
    if a != [] && b != [] {
      LexLeAntisymmetric(a[1..], b[1..]);
      assert a == [a[0]] + a[1..] && b == [b[0]] + b[1..];
    }
  }

  lemma {:induction false} LexLeTransitive(a: string, b: string, c: string)
    requires LexLe(a, b) && LexLe(b, c)
    ensures LexLe(a, c)
  {
    if a != [] && b != [] && c != [] && a[0] == b[0] && b[0] == c[0] {
      LexLeTransitive(a[1..], b[1..], c[1..]);
    }
  }

  /** Key text, not magnitude, decides: "10" sorts before "2". */
  lemma TextOrderIsNotNumeric(ten: string, two: string)
    requires ten == "10" && two == "2"
    ensures LexLe(ten, two) && !LexLe(two, ten)
  {
  }

  /** `SortedBy(xs, key)`: the keys never decrease along the list. */
  predicate SortedBy<T>(xs: seq<T>, key: T -> string) {
    forall i, j :: 0 <= i < j < |xs| ==> LexLe(key(xs[i]), key(xs[j]))
  }

  function InsertBy<T>(x: T, xs: seq<T>, key: T -> string): seq<T> {
    if xs == [] then [x]
    else if LexLe(key(x), key(xs[0])) then [x] + xs
    else [xs[0]] + InsertBy(x, xs[1..], key)
  }

  /** `[...xs].sort((a, b) => key(a).localeCompare(key(b)))`, as an insertion sort. */
  function SortBy<T>(xs: seq<T>, key: T -> string): seq<T> {
    if xs == [] then [] else InsertBy(xs[0], SortBy(xs[1..], key), key)
  }

  lemma {:induction false} InsertByPermutes<T>(x: T, xs: seq<T>, key: T -> string)
    ensures multiset(InsertBy(x, xs, key)) == multiset{x} + multiset(xs)
  {
    if xs != [] && !LexLe(key(x), key(xs[0])) {
      InsertByPermutes(x, xs[1..], key);
      assert xs == [xs[0]] + xs[1..];
    }
  }

  /** A list stays sorted when a record whose key is at most every key in it goes in front. */
  lemma SortedCons<T>(h: T, xs: seq<T>, key: T -> string)
    requires SortedBy(xs, key)
    requires forall i :: 0 <= i < |xs| ==> LexLe(key(h), key(xs[i]))
    ensures SortedBy([h] + xs, key)
  {
    var r := [h] + xs;
    forall i, j | 0 <= i < j < |r| ensures LexLe(key(r[i]), key(r[j])) {
      assert r[j] == xs[j - 1];
      if i > 0 {
        assert r[i] == xs[i - 1];
      }
    }
  }

  /** A lower bound of `x` and of every key in `xs` is a lower bound of the result of inserting. */
  lemma {:induction false} InsertByBound<T>(x: T, xs: seq<T>, key: T -> string, lo: string)
    requires LexLe(lo, key(x))
    requires forall i :: 0 <= i < |xs| ==> LexLe(lo, key(xs[i]))
    ensures forall i :: 0 <= i < |InsertBy(x, xs, key)| ==> LexLe(lo, key(InsertBy(x, xs, key)[i]))
  {
    if xs != [] && !LexLe(key(x), key(xs[0])) {
      InsertByBound(x, xs[1..], key, lo);
      var r := InsertBy(x, xs, key);
      forall i | 0 <= i < |r| ensures LexLe(lo, key(r[i])) {
        if i > 0 {
          assert r[i] == InsertBy(x, xs[1..], key)[i - 1];
        }
      }
    }
  }

  lemma {:induction false} InsertBySorted<T>(x: T, xs: seq<T>, key: T -> string)
    requires SortedBy(xs, key)
    ensures SortedBy(InsertBy(x, xs, key), key)
  {
    if xs == [] {
    } else if LexLe(key(x), key(xs[0])) {
      forall i | 0 <= i < |xs| ensures LexLe(key(x), key(xs[i])) {
        if i > 0 {
          LexLeTransitive(key(x), key(xs[0]), key(xs[i]));
        }
      }
      SortedCons(x, xs, key);
    } else {
      LexLeTotal(key(x), key(xs[0]));
      InsertBySorted(x, xs[1..], key);
      InsertByBound(x, xs[1..], key, key(xs[0]));
      SortedCons(xs[0], InsertBy(x, xs[1..], key), key);
    }
  }

  /** The sorted view holds the same records, in key order. */
  lemma {:induction false} SortBySpec<T>(xs: seq<T>, key: T -> string)
    ensures SortedBy(SortBy(xs, key), key)
    ensures multiset(SortBy(xs, key)) == multiset(xs)
  {
    if xs != [] {
      SortBySpec(xs[1..], key);
      InsertBySorted(xs[0], SortBy(xs[1..], key), key);
      InsertByPermutes(xs[0], SortBy(xs[1..], key), key);
      assert xs == [xs[0]] + xs[1..];
    }
  }
}
