/**
 * Facts about tables of integer codes listed in a header: a table that runs
 * strictly up or strictly down names each code once and lies between its
 * end entries, and two such runs that meet in order join into one. The long
 * tables of the model are proved in runs and joined with these lemmas.
 */
module CodeTables {

  /** Codes strictly decreasing along the table. */
  predicate Descending(t: seq<int>)
  {
    forall k :: 0 < k < |t| ==> t[k] < t[k - 1]
  }

  /** Codes strictly increasing along the table. */
  predicate Ascending(t: seq<int>)
  {
    forall k :: 0 < k < |t| ==> t[k - 1] < t[k]
  }

  /** No two entries of the table share a code. */
  predicate Distinct(t: seq<int>)
  {
    forall i, j :: 0 <= i < j < |t| ==> t[i] != t[j]
  }

  /** Every entry of a descending table lies above every later one. */
  lemma {:induction false} DescendingOrdered(t: seq<int>, i: nat, j: nat)
    requires Descending(t) && i < j < |t|
    ensures t[j] < t[i]
    decreases j - i
  {
    if i + 1 < j {
      DescendingOrdered(t, i + 1, j);
    }
  }

  /** Every entry of an ascending table lies below every later one. */
  lemma {:induction false} AscendingOrdered(t: seq<int>, i: nat, j: nat)
    requires Ascending(t) && i < j < |t|
    ensures t[i] < t[j]
    decreases j - i
  {
    if i + 1 < j {
      AscendingOrdered(t, i + 1, j);
    }
  }

  /** A strictly monotone table names each code once. */
  lemma MonotoneDistinct(t: seq<int>)
    requires Descending(t) || Ascending(t)
    ensures Distinct(t)
  {
    forall i, j | 0 <= i < j < |t|
      ensures t[i] != t[j]
    {
      if Descending(t) {
        DescendingOrdered(t, i, j);
      } else {
        AscendingOrdered(t, i, j);
      }
    }
  }

  /** A descending table lies between its last and its first entry. */
  lemma DescendingBounds(t: seq<int>)
    requires Descending(t) && |t| > 0
    ensures forall k :: 0 <= k < |t| ==> t[|t| - 1] <= t[k] <= t[0]
  {
    forall k | 0 <= k < |t|
      ensures t[|t| - 1] <= t[k] <= t[0]
    {
      if 0 < k {
        DescendingOrdered(t, 0, k);
      }
      if k < |t| - 1 {
        DescendingOrdered(t, k, |t| - 1);
      }
    }
  }

  /** An ascending table lies between its first and its last entry. */
  lemma AscendingBounds(t: seq<int>)
    requires Ascending(t) && |t| > 0
    ensures forall k :: 0 <= k < |t| ==> t[0] <= t[k] <= t[|t| - 1]
  {
    forall k | 0 <= k < |t|
      ensures t[0] <= t[k] <= t[|t| - 1]
    {
      if 0 < k {
        AscendingOrdered(t, 0, k);
      }
      if k < |t| - 1 {
        AscendingOrdered(t, k, |t| - 1);
      }
    }
  }

  /** Two strictly descending tables that meet in order join into one. */
  lemma DescendingJoin(a: seq<int>, b: seq<int>)
    requires Descending(a) && Descending(b)
    requires |a| > 0 && |b| > 0 ==> b[0] < a[|a| - 1]
    ensures Descending(a + b)
  {
    forall k | 0 < k < |a + b|
      ensures (a + b)[k] < (a + b)[k - 1]
    {
      if k > |a| {
        assert (a + b)[k] == b[k - |a|] && (a + b)[k - 1] == b[k - 1 - |a|];
      }
    }
  }

  /** Two strictly ascending tables that meet in order join into one. */
  lemma AscendingJoin(a: seq<int>, b: seq<int>)
    requires Ascending(a) && Ascending(b)
    requires |a| > 0 && |b| > 0 ==> a[|a| - 1] < b[0]
    ensures Ascending(a + b)
    ensures |a| > 0 ==> (a + b)[0] == a[0]
    ensures |b| > 0 ==> (a + b)[|a + b| - 1] == b[|b| - 1]
  {
    forall k | 0 < k < |a + b|
      ensures (a + b)[k - 1] < (a + b)[k]
    {
      if k > |a| {
        assert (a + b)[k] == b[k - |a|] && (a + b)[k - 1] == b[k - 1 - |a|];
      }
    }
  }

  /**
   * Two tables that each name every code once, one wholly at or above a cut
   * and the other wholly below it, together name every code once.
   */
  lemma SeparatedJoin(a: seq<int>, b: seq<int>, cut: int)
    requires Distinct(a) && Distinct(b)
    requires forall k :: 0 <= k < |a| ==> cut <= a[k]
    requires forall k :: 0 <= k < |b| ==> b[k] < cut
    ensures Distinct(a + b)
  {
    forall i, j | 0 <= i < j < |a + b|
      ensures (a + b)[i] != (a + b)[j]
    {
      if j < |a| {
        assert (a + b)[i] == a[i] && (a + b)[j] == a[j];
      } else if i < |a| {
        assert (a + b)[i] == a[i] && (a + b)[j] == b[j - |a|];
      } else {
        assert (a + b)[i] == b[i - |a|] && (a + b)[j] == b[j - |a|];
      }
    }
  }

  /** A property of every entry of two tables holds of every entry of their join. */
  lemma EveryJoin(a: seq<int>, b: seq<int>, p: int -> bool)
    requires forall k :: 0 <= k < |a| ==> p(a[k])
    requires forall k :: 0 <= k < |b| ==> p(b[k])
    ensures forall k :: 0 <= k < |a + b| ==> p((a + b)[k])
  {
    forall k | 0 <= k < |a + b|
      ensures p((a + b)[k])
    {
      if k >= |a| {
        assert (a + b)[k] == b[k - |a|];
      }
    }
  }
}
