/**
 * The two orders the code imposes on lists: audit rows newest first (the
 * UI's stable `Array.sort` and the repository's `ORDER BY operation_time
 * DESC`) and dropdown options as distinct strings in ascending order
 * (`Array.from(new Set(...)).sort()`).
 */
module Sorting {
  import opened Seqs
  import opened AuditLogEntity

  ghost predicate NewestFirst(s: seq<AuditLog>)
  {
    forall i, j :: 0 <= i < j < |s| ==> s[i].operationTime >= s[j].operationTime
  }

  /** Puts `x` before the first row that is not newer than it. */
  function InsertNewest(x: AuditLog, s: seq<AuditLog>): (r: seq<AuditLog>)
    requires NewestFirst(s)
    ensures NewestFirst(r)
    ensures multiset(r) == multiset(s) + multiset{x}
  {
    if s == [] then [x]
    else if s[0].operationTime <= x.operationTime then [x] + s
    else
      var rest := InsertNewest(x, s[1..]);
      PrependOlder(s, x, rest);
      [s[0]] + rest
  }

  /** Keeping the newest row in front of a list that holds the others and `x` keeps the order. */
  lemma PrependOlder(s: seq<AuditLog>, x: AuditLog, rest: seq<AuditLog>)
    requires s != [] && NewestFirst(s) && x.operationTime < s[0].operationTime
    requires NewestFirst(rest) && multiset(rest) == multiset(s[1..]) + multiset{x}
    ensures NewestFirst([s[0]] + rest)
    ensures multiset([s[0]] + rest) == multiset(s) + multiset{x}
  {
    assert s == [s[0]] + s[1..];
    HeadNewest(s);
    forall k | 0 <= k < |rest| ensures rest[k].operationTime <= s[0].operationTime {
      NewerThanMembers(s[0], s[1..], x, rest, k);
    }
    PrependNewest(s[0], rest);
  }

  /** The first row of a newest-first list is at least as new as every later one. */
  lemma HeadNewest(s: seq<AuditLog>)
    requires s != [] && NewestFirst(s)
    ensures forall j :: 0 <= j < |s[1..]| ==> s[1..][j].operationTime <= s[0].operationTime
  {
    forall j | 0 <= j < |s[1..]| ensures s[1..][j].operationTime <= s[0].operationTime {
      assert s[1..][j] == s[j + 1];
    }
  }

  /** A row at least as new as every row of a newest-first list can go in front of it. */
  lemma PrependNewest(h: AuditLog, rest: seq<AuditLog>)
    requires NewestFirst(rest)
    requires forall k :: 0 <= k < |rest| ==> rest[k].operationTime <= h.operationTime
    ensures NewestFirst([h] + rest)
  {
    var r := [h] + rest;
    forall i, j | 0 <= i < j < |r| ensures r[i].operationTime >= r[j].operationTime {
      assert r[j] == rest[j - 1];
      if i > 0 {
        assert r[i] == rest[i - 1];
      }
    }
  }

  lemma NewerThanMembers(head: AuditLog, tail: seq<AuditLog>, x: AuditLog, rest: seq<AuditLog>, k: int)
    requires forall j :: 0 <= j < |tail| ==> tail[j].operationTime <= head.operationTime
    requires x.operationTime < head.operationTime
    requires multiset(rest) == multiset(tail) + multiset{x}
    requires 0 <= k < |rest|
    ensures rest[k].operationTime <= head.operationTime
  {
    var y := rest[k];
    assert y in multiset(rest);
    if y != x {
      assert y in multiset(tail);
      var j :| 0 <= j < |tail| && tail[j] == y;
    }
  }

  /** A stable sort by `operationTime`, newest first. */
  function SortNewestFirst(s: seq<AuditLog>): (r: seq<AuditLog>)
    ensures NewestFirst(r)
    ensures multiset(r) == multiset(s)
  {
    if s == [] then []
    else
      assert s == [s[0]] + s[1..];
      InsertNewest(s[0], SortNewestFirst(s[1..]))
  }

  /** Selects the rows logged at time `t`. */
  function At(t: int): AuditLog -> bool
  {
    (x: AuditLog) => x.operationTime == t
  }

  lemma {:induction false} InsertNewestStable(x: AuditLog, s: seq<AuditLog>, t: int)
    requires NewestFirst(s)
    ensures Filter(At(t), InsertNewest(x, s)) == Filter(At(t), [x]) + Filter(At(t), s)
  {
    if s != [] && s[0].operationTime > x.operationTime {
      var rest := InsertNewest(x, s[1..]);
      InsertNewestStable(x, s[1..], t);
      assert InsertNewest(x, s) == [s[0]] + rest;
      KeptBehind(x, s[0], rest, s[1..], t);
      assert [s[0]] + s[1..] == s;
    } else if s != [] {
      FilterAppend(At(t), [x], s);
    }
  }

  /** A row newer than `x` placed in front changes nothing about the order in which rows of time `t` are kept. */
  lemma KeptBehind(x: AuditLog, h: AuditLog, rest: seq<AuditLog>, tail: seq<AuditLog>, t: int)
    requires x.operationTime < h.operationTime
    requires Filter(At(t), rest) == Filter(At(t), [x]) + Filter(At(t), tail)
    ensures Filter(At(t), [h] + rest) == Filter(At(t), [x]) + Filter(At(t), [h] + tail)
  {
    FilterAppend(At(t), [h], rest);
    FilterAppend(At(t), [h], tail);
    var fh, fx, ft := Filter(At(t), [h]), Filter(At(t), [x]), Filter(At(t), tail);
    if x.operationTime == t {
      assert fh == [];
      assert fh + (fx + ft) == fx + (fh + ft);
    } else {
      assert fx == [];
      assert fh + (fx + ft) == fx + (fh + ft);
    }
  }

  /** Rows logged at the same time keep their relative order. */
  lemma {:induction false} SortNewestFirstStable(s: seq<AuditLog>, t: int)
    ensures Filter(At(t), SortNewestFirst(s)) == Filter(At(t), s)
  {
    if s != [] {
      SortNewestFirstStable(s[1..], t);
      InsertNewestStable(s[0], SortNewestFirst(s[1..]), t);
      FilterAppend(At(t), [s[0]], s[1..]);
      assert [s[0]] + s[1..] == s;
    }
  }

  // Strings in ascending order of their characters (code points; see the README for UTF-16)

  /** Lexicographic order on strings, character by character. */
  predicate Less(a: string, b: string)
  {
    if a == [] then b != []
    else if b == [] then false
    else if a[0] != b[0] then a[0] < b[0]
    else Less(a[1..], b[1..])
  }

  lemma {:induction false} LessIrreflexive(a: string)
    ensures !Less(a, a)
  {
    if a != [] { LessIrreflexive(a[1..]); }
  }

  lemma {:induction false} LessTransitive(a: string, b: string, c: string)
    requires Less(a, b) && Less(b, c)
    ensures Less(a, c)
  {
    if a != [] && b != [] && c != [] && a[0] == b[0] && b[0] == c[0] {
      LessTransitive(a[1..], b[1..], c[1..]);
    }
  }

  lemma {:induction false} LessTotal(a: string, b: string)
    ensures a == b || Less(a, b) || Less(b, a)
  {
    if a != [] && b != [] && a[0] == b[0] {
      LessTotal(a[1..], b[1..]);
      if a[1..] == b[1..] {
        assert a == [a[0]] + a[1..] && b == [b[0]] + b[1..];
      }
    }
  }

  ghost predicate StrictlyAscending(s: seq<string>)
  {
    forall i, j :: 0 <= i < j < |s| ==> Less(s[i], s[j])
  }

  /** Adds `x` to an ascending list of distinct strings, unless it is already there. */
  function InsertDistinct(x: string, s: seq<string>): (r: seq<string>)
    requires StrictlyAscending(s)
    ensures StrictlyAscending(r)
    ensures forall y :: y in r <==> y in s || y == x
  {
    if s == [] then [x]
    else if s[0] == x then s
    else if Less(x, s[0]) then
      assert forall j :: 0 < j < |s| ==> Less(x, s[j]) by {
        forall j | 0 < j < |s| ensures Less(x, s[j]) { LessTransitive(x, s[0], s[j]); }
      }
      [x] + s
    else
      LessTotal(x, s[0]);
      var rest := InsertDistinct(x, s[1..]);
      assert s == [s[0]] + s[1..];
      assert forall y :: y in rest ==> Less(s[0], y);
      [s[0]] + rest
  }

  /** The distinct values of `s`, in ascending order. */
  function SortedDistinct(s: seq<string>): (r: seq<string>)
    ensures StrictlyAscending(r)
    ensures forall y :: y in r <==> y in s
  {
    if s == [] then []
    else
      assert s == [s[0]] + s[1..];
      InsertDistinct(s[0], SortedDistinct(s[1..]))
  }

  /** An ascending list without repeats has no duplicates. */
  lemma AscendingIsDistinct(s: seq<string>, i: int, j: int)
    requires StrictlyAscending(s) && 0 <= i < j < |s|
    ensures s[i] != s[j]
  {
    LessIrreflexive(s[i]);
  }
}
