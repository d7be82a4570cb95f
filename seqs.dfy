/**
 * Sequence helpers shared by the server and the UI: order-preserving
 * filtering (Java `Stream.filter`, JavaScript `Array.filter`), counting,
 * JavaScript `Array.slice` and page slicing.
 */
module Seqs {

  /** The elements of `s` that satisfy `p`, in their original order. */
  function Filter<T>(p: T -> bool, s: seq<T>): (r: seq<T>)
    ensures |r| <= |s|
    ensures forall i :: 0 <= i < |r| ==> p(r[i]) && r[i] in s
    ensures forall i :: 0 <= i < |s| && p(s[i]) ==> s[i] in r
  {
    if s == [] then []
    else if p(s[0]) then [s[0]] + Filter(p, s[1..])
    else Filter(p, s[1..])
  }

  /** `r` can be obtained from `s` by deleting elements, without reordering. */
  ghost predicate Subsequence<T>(r: seq<T>, s: seq<T>)
    decreases |s|
  {
    if r == [] then true
    else if s == [] then false
    else if r[0] == s[0] then Subsequence(r[1..], s[1..])
    else Subsequence(r, s[1..])
  }

  lemma {:induction false} FilterIsSubsequence<T>(p: T -> bool, s: seq<T>)
    ensures Subsequence(Filter(p, s), s)
    decreases |s|
  {
    if s != [] {
      FilterIsSubsequence(p, s[1..]);
      if !p(s[0]) {
        SubsequenceSkip(Filter(p, s[1..]), s[0], s[1..]);
      }
    }
  }

  lemma {:induction false} SubsequenceSkip<T>(r: seq<T>, x: T, s: seq<T>)
    requires Subsequence(r, s)
    ensures Subsequence(r, [x] + s)
    decreases |s|, 1
  {
    if r != [] && r[0] == x {
      assert ([x] + s)[1..] == s;
      SubsequencePrefixDrop(r, s);
    } else {
      assert ([x] + s)[1..] == s;
    }
  }

  lemma {:induction false} SubsequencePrefixDrop<T>(r: seq<T>, s: seq<T>)
    requires r != [] && Subsequence(r, s)
    ensures Subsequence(r[1..], s)
    decreases |s|, 0
  {
    if r[0] == s[0] {
      SubsequenceSkip(r[1..], s[0], s[1..]);
      assert [s[0]] + s[1..] == s;
    } else {
      SubsequencePrefixDrop(r, s[1..]);
      SubsequenceSkip(r[1..], s[0], s[1..]);
      assert [s[0]] + s[1..] == s;
    }
  }

  lemma {:induction false} SubsequenceTransitive<T>(a: seq<T>, b: seq<T>, c: seq<T>)
    requires Subsequence(a, b) && Subsequence(b, c)
    ensures Subsequence(a, c)
    decreases |c|
  {
    if a != [] {
      assert b != [] && c != [];
      if b[0] == c[0] && a[0] == b[0] {
        SubsequenceTransitive(a[1..], b[1..], c[1..]);
      } else {
        if b[0] == c[0] {
          SubsequenceTransitive(a, b[1..], c[1..]);
        } else {
          SubsequenceTransitive(a, b, c[1..]);
        }
        SubsequenceSkip(a, c[0], c[1..]);
        assert [c[0]] + c[1..] == c;
      }
    }
  }

  /** Filtering distributes over concatenation: the relative order of kept elements is the input order. */
  lemma {:induction false} FilterAppend<T>(p: T -> bool, a: seq<T>, b: seq<T>)
    ensures Filter(p, a + b) == Filter(p, a) + Filter(p, b)
    decreases |a|
  {
    if a != [] {
      assert (a + b)[0] == a[0];
      assert (a + b)[1..] == a[1..] + b;
      FilterAppend(p, a[1..], b);
    } else {
      assert a + b == b;
    }
  }

  /** Filtering by a conjunction is filtering twice, in either order. */
  lemma {:induction false} FilterConjunction<T>(both: T -> bool, p: T -> bool, q: T -> bool, s: seq<T>)
    requires forall x :: both(x) == (p(x) && q(x))
    ensures Filter(both, s) == Filter(p, Filter(q, s))
    decreases |s|
  {
    if s != [] {
      FilterConjunction(both, p, q, s[1..]);
      if q(s[0]) {
        assert Filter(q, s) == [s[0]] + Filter(q, s[1..]);
        assert Filter(q, s)[0] == s[0] && Filter(q, s)[1..] == Filter(q, s[1..]);
      }
    }
  }

  /** Two predicates that agree everywhere select the same elements. */
  lemma {:induction false} FilterSameSelection<T>(p: T -> bool, q: T -> bool, s: seq<T>)
    requires forall x :: p(x) == q(x)
    ensures Filter(p, s) == Filter(q, s)
    decreases |s|
  {
    if s != [] { FilterSameSelection(p, q, s[1..]); }
  }

  /** A predicate nothing satisfies selects nothing. */
  lemma {:induction false} FilterNoneSelected<T>(p: T -> bool, s: seq<T>)
    requires forall x :: !p(x)
    ensures Filter(p, s) == []
    decreases |s|
  {
    if s != [] { FilterNoneSelected(p, s[1..]); }
  }

  /** Filtering with a predicate every element satisfies changes nothing. */
  lemma {:induction false} FilterKeepsAll<T>(p: T -> bool, s: seq<T>)
    requires forall i :: 0 <= i < |s| ==> p(s[i])
    ensures Filter(p, s) == s
    decreases |s|
  {
    if s != [] {
      FilterKeepsAll(p, s[1..]);
      assert [s[0]] + s[1..] == s;
    }
  }

  /** Each kept value occurs as often as in the input; every other value not at all. */
  lemma {:induction false} FilterMultiset<T>(p: T -> bool, s: seq<T>)
    ensures forall x :: multiset(Filter(p, s))[x] == if p(x) then multiset(s)[x] else 0
    decreases |s|
  {
    if s != [] {
      FilterMultiset(p, s[1..]);
      assert s == [s[0]] + s[1..];
      assert multiset(s) == multiset{s[0]} + multiset(s[1..]);
    }
  }

  /** The positions of `s` whose element satisfies `p`. */
  ghost function Positions<T>(p: T -> bool, s: seq<T>): set<int>
  {
    set i | 0 <= i < |s| && p(s[i])
  }

  /** Appending an element adds its position exactly when it matches. */
  lemma PositionsSnoc<T>(p: T -> bool, init: seq<T>, x: T)
    ensures |init| !in Positions(p, init)
    ensures Positions(p, init + [x]) == Positions(p, init) + (if p(x) then {|init|} else {})
  {
    var s := init + [x];
    forall i | 0 <= i < |init| ensures s[i] == init[i] { }
  }

  /** Filtering keeps exactly one element per matching position. */
  lemma {:induction false} FilterSizeIsPositions<T>(p: T -> bool, s: seq<T>)
    ensures |Filter(p, s)| == |Positions(p, s)|
    decreases |s|
  {
    if s != [] {
      var init, x := s[..|s| - 1], s[|s| - 1];
      assert s == init + [x];
      FilterSizeIsPositions(p, init);
      FilterAppend(p, init, [x]);
      PositionsSnoc(p, init, x);
      assert Filter(p, [x]) == if p(x) then [x] else [];
    }
  }

  /** The number of elements satisfying `p`; a derived `countBy…` query is this over the table. */
  function Count<T>(p: T -> bool, s: seq<T>): (n: nat)
    ensures n <= |s|
    ensures n == |Filter(p, s)|
    ensures n == |Positions(p, s)|
  {
    FilterSizeIsPositions(p, s);
    |Filter(p, s)|
  }

  /** Counting by one element at a time agrees with the size of the filtered sequence. */
  lemma {:induction false} CountStep<T>(p: T -> bool, s: seq<T>, x: T)
    ensures Count(p, s + [x]) == Count(p, s) + (if p(x) then 1 else 0)
  {
    FilterAppend(p, s, [x]);
    assert Filter(p, [x]) == if p(x) then [x] else [];
  }

  /** JavaScript's normalisation of a slice bound against a length. */
  function SliceBound(i: int, n: nat): (k: nat)
    ensures k <= n
    ensures 0 <= i <= n ==> k == i
    ensures i > n ==> k == n
    ensures i < 0 ==> k == if n + i < 0 then 0 else n + i
  {
    if i < 0 then (if n + i < 0 then 0 else n + i)
    else if i > n then n
    else i
  }

  /** JavaScript `s.slice(start, end)`. */
  function Slice<T>(s: seq<T>, start: int, end: int): seq<T>
  {
    var a := SliceBound(start, |s|);
    var b := SliceBound(end, |s|);
    if a < b then s[a..b] else []
  }

  /** `s.slice(start, start + len)`: at most `len` elements from `start` on, none past the end. */
  function Window<T>(s: seq<T>, start: nat, len: nat): (r: seq<T>)
    ensures |r| <= len
    ensures start >= |s| ==> r == []
    ensures start < |s| ==> r == s[start .. if start + len < |s| then start + len else |s|]
  {
    Slice(s, start, start + len)
  }

  /** The page `page` of `s` with `rows` rows each, as the UI tables cut it. */
  function Page<T>(s: seq<T>, page: nat, rows: nat): (r: seq<T>)
    ensures |r| <= rows
    ensures page * rows >= |s| ==> r == []
    ensures page * rows < |s| ==> r == s[page * rows .. if page * rows + rows < |s| then page * rows + rows else |s|]
  {
    var start := page * rows;
    Window(s, start, rows)
  }

  /** The first `k` pages, concatenated. */
  function FirstPages<T>(s: seq<T>, k: nat, rows: nat): seq<T>
  {
    if k == 0 then [] else FirstPages(s, k - 1, rows) + Page(s, k - 1, rows)
  }

  /** Pages neither overlap nor leave gaps: the first `k` pages are exactly the first `k * rows` elements. */
  lemma {:induction false} PagesTile<T>(s: seq<T>, k: nat, rows: nat)
    requires rows > 0
    ensures FirstPages(s, k, rows) == s[..if k * rows < |s| then k * rows else |s|]
  {
    if k > 0 {
      PagesTile(s, k - 1, rows);
      var lo := (k - 1) * rows;
      var hi := k * rows;
      NextPageStart(k, rows);
      TileStep(s, FirstPages(s, k - 1, rows), lo, hi, rows);
    }
  }

  /** A prefix ending at `lo`, followed by the window of `len` elements from `lo`, is the prefix ending at `hi = lo + len`. */
  lemma TileStep<T>(s: seq<T>, prefix: seq<T>, lo: nat, hi: nat, len: nat)
    requires prefix == s[..if lo < |s| then lo else |s|]
    requires lo + len == hi
    ensures prefix + Window(s, lo, len) == s[..if hi < |s| then hi else |s|]
  {
    if lo < |s| {
      var end := if hi < |s| then hi else |s|;
      assert s[..lo] + s[lo..end] == s[..end];
    }
  }

  lemma NextPageStart(k: nat, rows: nat)
    requires k > 0
    ensures (k - 1) * rows + rows == k * rows
  {
  }
}
