/**
 * The ordering in main.go: `InsightsSlice.Swap`, `ByFloat64.Less`, and
 * `sort.Sort` over them, ascending or through `sort.Reverse`.
 */
module Ordering {
  import opened Wrappers
  import opened Values

  /**
   * The type assertions of `Less(i, j)` succeed: when row i's value is a
   * number row j's is one too, and when it is a string that parses row j's
   * is a string too (a string that does not parse aborts the run before
   * row j is looked at).
   */
  predicate Comparable(x: Value, y: Value, parse: string -> Option<real>) {
    (x.Num? ==> y.Num?) && (x.Str? && parse(x.s).Some? ==> y.Str?)
  }

  /** A string in row i that does not parse aborts the comparison, whatever row j holds. */
  lemma LessAbortsFirst(rows: seq<Row>, key: string, parse: string -> Option<real>, i: nat, j: nat)
    requires i < |rows| && j < |rows|
    requires Get(rows[i], key).Str? && parse(Get(rows[i], key).s).None?
    requires Get(rows[j], key).Num?
    ensures Comparable(Get(rows[i], key), Get(rows[j], key), parse)
    ensures Less(rows, key, parse, i, j) == Err(Get(rows[i], key).s)
  {
  }

  /**
   * The sort key's values are all numbers, all strings, or all neither, so
   * that no pair the sort may compare makes `Less` panic.
   */
  predicate ColumnTyped(rows: seq<Row>, key: string) {
    || (forall r :: r in rows ==> Get(r, key).Num?)
    || (forall r :: r in rows ==> Get(r, key).Str?)
    || (forall r :: r in rows ==> !Get(r, key).Num? && !Get(r, key).Str?)
  }

  /** A string value is accepted by `ParseFloat`. */
  predicate Parses(v: Value, parse: string -> Option<real>) {
    v.Str? ==> parse(v.s).Some?
  }

  predicate AllParse(rows: seq<Row>, key: string, parse: string -> Option<real>) {
    forall r :: r in rows ==> Parses(Get(r, key), parse)
  }

  /**
   * The number a value is ordered by: a number itself, a string the number
   * it parses to, anything else 0 (the zero values of `a` and `b`).
   */
  function Weight(v: Value, parse: string -> Option<real>): real {
    match v
    case Num(x) => x
    case Str(s) => parse(s).GetOr(0.0)
    case _ => 0.0
  }

  /**
   * `ByFloat64.Less(i, j)`; Err(s) is the `log.Fatal` raised because `s`
   * does not parse as a number.
   */
  function Less(rows: seq<Row>, key: string, parse: string -> Option<real>, i: nat, j: nat): (r: Result<bool, string>)
    requires i < |rows| && j < |rows|
    requires Comparable(Get(rows[i], key), Get(rows[j], key), parse)
    ensures var x, y := Get(rows[i], key), Get(rows[j], key);
      && (r.Err? <==> x.Str? && !(Parses(x, parse) && Parses(y, parse)))
      && (r.Err? ==> r.error == if Parses(x, parse) then y.s else x.s)
      && (r.Ok? ==> r.value == ((x.Num? || x.Str?) && Weight(x, parse) < Weight(y, parse)))
  {
    var x, y := Get(rows[i], key), Get(rows[j], key);
    match x
    case Num(a) => Ok(a < y.n)
    case Str(s) =>
      (match parse(s)
       case None => Err(s)
       case Some(a) =>
         match parse(y.s)
         case None => Err(y.s)
         case Some(b) => Ok(a < b))
    case _ => Ok(false)
  }

  /**
   * The `Less` the sort calls: `ByFloat64`'s, or `sort.Reverse`'s, which
   * swaps its arguments. On a well-typed column it aborts exactly when one
   * of the two values does not parse, and otherwise orders by the weights,
   * negated for `sort.Reverse`.
   */
  function OrderLess(rows: seq<Row>, key: string, parse: string -> Option<real>, reverse: bool, i: nat, j: nat): (r: Result<bool, string>)
    requires i < |rows| && j < |rows|
    requires ColumnTyped(rows, key)
    ensures var x, y := Get(rows[i], key), Get(rows[j], key);
      && (r.Err? <==> !(Parses(x, parse) && Parses(y, parse)))
      && (r.Ok? ==> r.value == (SortKey(x, parse, reverse) < SortKey(y, parse, reverse)))
  {
    assert rows[i] in rows && rows[j] in rows;
    if reverse then Less(rows, key, parse, j, i) else Less(rows, key, parse, i, j)
  }

  /** The key the sort effectively orders ascending by. */
  function SortKey(v: Value, parse: string -> Option<real>, reverse: bool): real {
    if reverse then -Weight(v, parse) else Weight(v, parse)
  }

  predicate SortedPrefix(rows: seq<Row>, n: nat, key: string, parse: string -> Option<real>, reverse: bool)
    requires n <= |rows|
  {
    forall p, q :: 0 <= p < q < n ==> SortKey(Get(rows[p], key), parse, reverse) <= SortKey(Get(rows[q], key), parse, reverse)
  }

  /** A permutation has the same elements. */
  lemma SameElements(s: seq<Row>, t: seq<Row>)
    requires multiset(s) == multiset(t)
    ensures forall r :: r in s <==> r in t
  {
    forall r ensures r in s <==> r in t {
      assert r in s <==> r in multiset(s);
      assert r in t <==> r in multiset(t);
    }
  }

  /** Being well typed depends only on which rows there are, not on their order. */
  lemma ColumnTypedPerm(s: seq<Row>, t: seq<Row>, key: string)
    requires multiset(s) == multiset(t) && ColumnTyped(s, key)
    ensures ColumnTyped(t, key)
  {
    SameElements(s, t);
  }

  /** A permutation of rows that all parse has rows that all parse. */
  lemma AllParsePerm(s: seq<Row>, t: seq<Row>, key: string, parse: string -> Option<real>)
    requires multiset(s) == multiset(t)
    ensures AllParse(s, key, parse) <==> AllParse(t, key, parse)
  {
    SameElements(s, t);
  }

  /** `InsightsSlice.Swap(i, j)`: exchanges two rows and nothing else. */
  method Swap(a: array<Row>, i: nat, j: nat)
    requires i < a.Length && j < a.Length
    modifies a
    ensures a[..] == old(a[..])[i := old(a[j])][j := old(a[i])]
    ensures multiset(a[..]) == multiset(old(a[..]))
  {
    a[i], a[j] := a[j], a[i];
  }

  /**
   * Halfway through inserting row i: rows 0..i other than j are ordered,
   * and row j is not above any row to its right.
   */
  predicate Inserting(s: seq<Row>, i: nat, j: nat, key: string, parse: string -> Option<real>, reverse: bool)
    requires j <= i < |s|
  {
    && (forall p, q :: 0 <= p < q <= i && p != j && q != j ==>
          SortKey(Get(s[p], key), parse, reverse) <= SortKey(Get(s[q], key), parse, reverse))
    && (forall q :: j < q <= i ==>
          SortKey(Get(s[j], key), parse, reverse) <= SortKey(Get(s[q], key), parse, reverse))
  }

  /** Every row in 0..i except possibly row j parses. */
  predicate ParsedExcept(s: seq<Row>, i: nat, j: nat, key: string, parse: string -> Option<real>)
    requires i < |s|
  {
    forall k :: 0 <= k <= i && k != j ==> Parses(Get(s[k], key), parse)
  }

  lemma InsertStart(s: seq<Row>, i: nat, key: string, parse: string -> Option<real>, reverse: bool)
    requires i < |s| && SortedPrefix(s, i, key, parse, reverse)
    ensures Inserting(s, i, i, key, parse, reverse)
  {
  }

  /** Swapping row j with its left neighbour when it is less keeps the pass's invariant. */
  lemma InsertSwap(s: seq<Row>, i: nat, j: nat, key: string, parse: string -> Option<real>, reverse: bool)
    requires 0 < j <= i < |s|
    requires Inserting(s, i, j, key, parse, reverse)
    requires SortKey(Get(s[j], key), parse, reverse) < SortKey(Get(s[j - 1], key), parse, reverse)
    ensures Inserting(s[j := s[j - 1]][j - 1 := s[j]], i, j - 1, key, parse, reverse)
  {
  }

  lemma SwapParsed(s: seq<Row>, i: nat, j: nat, key: string, parse: string -> Option<real>)
    requires 0 < j <= i < |s|
    requires ParsedExcept(s, i, j, key, parse) && Parses(Get(s[j], key), parse)
    ensures ParsedExcept(s[j := s[j - 1]][j - 1 := s[j]], i, j - 1, key, parse)
  {
  }

  /** The pass ends with rows 0..i ordered. */
  lemma InsertDone(s: seq<Row>, i: nat, j: nat, key: string, parse: string -> Option<real>, reverse: bool)
    requires j <= i < |s|
    requires Inserting(s, i, j, key, parse, reverse)
    requires j > 0 ==> SortKey(Get(s[j - 1], key), parse, reverse) <= SortKey(Get(s[j], key), parse, reverse)
    ensures SortedPrefix(s, i + 1, key, parse, reverse)
  {
    if j > 0 {
      forall p, q | 0 <= p < q <= i
        ensures SortKey(Get(s[p], key), parse, reverse) <= SortKey(Get(s[q], key), parse, reverse)
      {
        if p == j {
        } else if q == j {
          if p < j - 1 {
            assert SortKey(Get(s[p], key), parse, reverse) <= SortKey(Get(s[j - 1], key), parse, reverse);
          }
        }
      }
    }
  }

  /** Every row before n parses. */
  predicate ParsedUpTo(s: seq<Row>, n: nat, key: string, parse: string -> Option<real>)
    requires n <= |s|
  {
    forall k :: 0 <= k < n ==> Parses(Get(s[k], key), parse)
  }

  /** After comparing rows j and j - 1 successfully, all of 0..i parse but possibly j, and j too. */
  lemma Compared(s: seq<Row>, i: nat, j: nat, key: string, parse: string -> Option<real>)
    requires 0 < j <= i < |s|
    requires i >= 2 ==> ParsedExcept(s, i, j, key, parse)
    requires j < i ==> ParsedExcept(s, i, j, key, parse)
    requires Parses(Get(s[j], key), parse) && Parses(Get(s[j - 1], key), parse)
    ensures ParsedExcept(s, i, j, key, parse)
  {
  }

  lemma ParsedAll(s: seq<Row>, i: nat, j: nat, key: string, parse: string -> Option<real>)
    requires j <= i < |s|
    requires ParsedExcept(s, i, j, key, parse) && Parses(Get(s[j], key), parse)
    ensures ParsedUpTo(s, i + 1, key, parse)
  {
  }

  lemma ParsedStart(s: seq<Row>, i: nat, key: string, parse: string -> Option<real>)
    requires i < |s| && ParsedUpTo(s, i, key, parse)
    ensures ParsedExcept(s, i, i, key, parse)
  {
  }

  lemma NotAllParse(s: seq<Row>, k: nat, key: string, parse: string -> Option<real>)
    requires k < |s| && !Parses(Get(s[k], key), parse)
    ensures !AllParse(s, key, parse)
  {
    assert s[k] in s;
  }

  /** The state of a pass that is moving row i down and has reached position j. */
  predicate PassState(s: seq<Row>, i: nat, j: nat, key: string, parse: string -> Option<real>, reverse: bool)
    requires j <= i < |s|
  {
    && Inserting(s, i, j, key, parse, reverse)
    && (i >= 2 || j < i ==> ParsedExcept(s, i, j, key, parse))
    && (j < i ==> Parses(Get(s[j], key), parse))
  }

  /** A comparison that aborts shows that some row does not parse. */
  lemma StepAborts(s: seq<Row>, j: nat, key: string, parse: string -> Option<real>, reverse: bool)
    requires 0 < j < |s| && ColumnTyped(s, key)
    requires OrderLess(s, key, parse, reverse, j, j - 1).Err?
    ensures !AllParse(s, key, parse)
  {
    if !Parses(Get(s[j], key), parse) {
      NotAllParse(s, j, key, parse);
    } else {
      NotAllParse(s, j - 1, key, parse);
    }
  }

  /** A row that is not less than its left neighbour ends the pass with 0..i ordered. */
  lemma StepStops(s: seq<Row>, i: nat, j: nat, key: string, parse: string -> Option<real>, reverse: bool)
    requires 0 < j <= i < |s| && ColumnTyped(s, key)
    requires PassState(s, i, j, key, parse, reverse)
    requires OrderLess(s, key, parse, reverse, j, j - 1) == Ok(false)
    ensures SortedPrefix(s, i + 1, key, parse, reverse) && ParsedUpTo(s, i + 1, key, parse)
  {
    Compared(s, i, j, key, parse);
    ParsedAll(s, i, j, key, parse);
    InsertDone(s, i, j, key, parse, reverse);
  }

  /** A row that is less than its left neighbour is swapped with it, and the pass goes on. */
  lemma StepSwaps(s: seq<Row>, i: nat, j: nat, key: string, parse: string -> Option<real>, reverse: bool)
    requires 0 < j <= i < |s| && ColumnTyped(s, key)
    requires PassState(s, i, j, key, parse, reverse)
    requires OrderLess(s, key, parse, reverse, j, j - 1) == Ok(true)
    ensures PassState(s[j := s[j - 1]][j - 1 := s[j]], i, j - 1, key, parse, reverse)
  {
    Compared(s, i, j, key, parse);
    InsertSwap(s, i, j, key, parse, reverse);
    SwapParsed(s, i, j, key, parse);
  }

  /**
   * One comparison of the pass: row j against row j - 1, swapping them when
   * row j is less. `moved` tells whether it swapped; `ok` is false when the
   * comparison aborts.
   */
  method CompareAndSwap(a: array<Row>, i: nat, j: nat, key: string, parse: string -> Option<real>, reverse: bool)
    returns (moved: bool, ok: bool)
    requires 0 < j <= i < a.Length
    requires ColumnTyped(a[..], key)
    requires PassState(a[..], i, j, key, parse, reverse)
    modifies a
    ensures !moved ==> a[..] == old(a[..])
    ensures moved ==> a[..] == old(a[..])[j := old(a[j - 1])][j - 1 := old(a[j])]
    ensures multiset(a[..]) == multiset(old(a[..]))
    ensures !ok ==> !AllParse(a[..], key, parse)
    ensures !ok ==> !moved
    ensures ok && moved ==> PassState(a[..], i, j - 1, key, parse, reverse)
    ensures ok && !moved ==> SortedPrefix(a[..], i + 1, key, parse, reverse) && ParsedUpTo(a[..], i + 1, key, parse)
  {
    ghost var s := a[..];
    var c := OrderLess(a[..], key, parse, reverse, j, j - 1);
    if c.Err? {
      StepAborts(s, j, key, parse, reverse);
      return false, false;
    }
    if !c.value {
      StepStops(s, i, j, key, parse, reverse);
      return false, true;
    }
    StepSwaps(s, i, j, key, parse, reverse);
    Swap(a, j, j - 1);
    moved, ok := true, true;
  }

  lemma PassBegins(s: seq<Row>, i: nat, key: string, parse: string -> Option<real>, reverse: bool)
    requires 1 <= i < |s|
    requires SortedPrefix(s, i, key, parse, reverse)
    requires i >= 2 ==> ParsedUpTo(s, i, key, parse)
    ensures PassState(s, i, i, key, parse, reverse)
  {
    InsertStart(s, i, key, parse, reverse);
    if i >= 2 {
      ParsedStart(s, i, key, parse);
    }
  }

  lemma PassEnds(s: seq<Row>, i: nat, key: string, parse: string -> Option<real>, reverse: bool)
    requires 1 <= i < |s|
    requires PassState(s, i, 0, key, parse, reverse)
    ensures SortedPrefix(s, i + 1, key, parse, reverse) && ParsedUpTo(s, i + 1, key, parse)
  {
    ParsedAll(s, i, 0, key, parse);
    InsertDone(s, i, 0, key, parse, reverse);
  }

  /**
   * One pass of the sort: moves row i left past the rows it is less than.
   * Returns false when a comparison aborts.
   */
  method Insert(a: array<Row>, i: nat, key: string, parse: string -> Option<real>, reverse: bool) returns (ok: bool)
    requires 1 <= i < a.Length
    requires ColumnTyped(a[..], key)
    requires SortedPrefix(a[..], i, key, parse, reverse)
    requires i >= 2 ==> ParsedUpTo(a[..], i, key, parse)
    modifies a
    ensures multiset(a[..]) == multiset(old(a[..]))
    ensures a[i + 1..] == old(a[i + 1..])
    ensures ok ==> SortedPrefix(a[..], i + 1, key, parse, reverse)
    ensures ok ==> ParsedUpTo(a[..], i + 1, key, parse)
    ensures !ok ==> !AllParse(a[..], key, parse)
  {
    var j := i;
    PassBegins(a[..], i, key, parse, reverse);
    while j > 0
      invariant 0 <= j <= i
      invariant multiset(a[..]) == multiset(old(a[..]))
      invariant a[i + 1..] == old(a[i + 1..])
      invariant PassState(a[..], i, j, key, parse, reverse)
    {
      ColumnTypedPerm(old(a[..]), a[..], key);
      var moved;
      moved, ok := CompareAndSwap(a, i, j, key, parse, reverse);
      if !moved {
        return;
      }
      j := j - 1;
    }
    PassEnds(a[..], i, key, parse, reverse);
    ok := true;
  }

  /**
   * `sort.Sort(ByFloat64{rows, key})`, or with `reverse`
   * `sort.Reverse(...)`. Returns false when the run aborts.
   */
  method SortRows(a: array<Row>, key: string, parse: string -> Option<real>, reverse: bool) returns (ok: bool)
    requires ColumnTyped(a[..], key)
    modifies a
    ensures multiset(a[..]) == multiset(old(a[..]))
    ensures ok <==> (a.Length >= 2 ==> AllParse(old(a[..]), key, parse))
    ensures ok && !reverse ==> forall p, q :: 0 <= p < q < a.Length ==>
      Weight(Get(a[p], key), parse) <= Weight(Get(a[q], key), parse)
    ensures ok && reverse ==> forall p, q :: 0 <= p < q < a.Length ==>
      Weight(Get(a[p], key), parse) >= Weight(Get(a[q], key), parse)
  {
    ok := true;
    if a.Length < 2 {
      return;
    }
    var i := 1;
    while i < a.Length
      invariant 1 <= i <= a.Length
      invariant multiset(a[..]) == multiset(old(a[..]))
      invariant ColumnTyped(a[..], key)
      invariant SortedPrefix(a[..], i, key, parse, reverse)
      invariant i >= 2 ==> ParsedUpTo(a[..], i, key, parse)
    {
      ok := Insert(a, i, key, parse, reverse);
      ColumnTypedPerm(old(a[..]), a[..], key);
      AllParsePerm(a[..], old(a[..]), key, parse);
      if !ok {
        return;
      }
      i := i + 1;
    }
    AllParsePerm(a[..], old(a[..]), key, parse);
    assert forall r :: r in a[..] ==> exists k :: 0 <= k < a.Length && a[k] == r;
  }
}
