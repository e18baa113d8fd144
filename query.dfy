/** An optional value: a row that may be absent, a parse that may fail. */
module Wrappers {
  datatype Option<+T> = None | Some(value: T)
}

/**
 * The part of the Supabase query builder the bot uses, over an in-memory table
 * held as a sequence of rows in the order the server returns them:
 *   .select().eq(...)          is  Filter(rows, p)
 *   .select().eq(...).data[0]  is  rows[FindFirst(rows, p).value]
 *   .update(f).eq(...)         is  UpdateWhere(rows, p, f)
 *   .delete().eq(...)          is  Filter(rows, not p)
 *   .single()                  is  Single(Filter(rows, p))
 *   .insert(row)               is  rows + [row]
 */
module Query {
  import opened Wrappers

  /** Index of the first row satisfying p (the row that `data[0]` reads), or None. */
  function FindFirst<T>(s: seq<T>, p: T -> bool): (r: Option<nat>)
    ensures r.Some? ==> r.value < |s| && p(s[r.value])
    ensures r.Some? ==> forall j :: 0 <= j < r.value ==> !p(s[j])
    ensures r.None? <==> forall j :: 0 <= j < |s| ==> !p(s[j])
    decreases |s|
  {
    if |s| == 0 then None
    else if p(s[0]) then Some(0)
    else match FindFirst(s[1..], p)
      case None => None
      case Some(i) => Some(i + 1)
  }

  /** The rows satisfying p, in table order. */
  function Filter<T(!new)>(s: seq<T>, p: T -> bool): (r: seq<T>)
    ensures |r| <= |s|
    ensures forall x :: x in r <==> x in s && p(x)
    decreases |s|
  {
    if |s| == 0 then [] else (if p(s[0]) then [s[0]] else []) + Filter(s[1..], p)
  }

  /** Every row satisfying p is rewritten by f; the others stay as they are. */
  function UpdateWhere<T>(s: seq<T>, p: T -> bool, f: T -> T): (r: seq<T>)
  {
    seq(|s|, i requires 0 <= i < |s| => if p(s[i]) then f(s[i]) else s[i])
  }

  /** PostgREST's `.single()`: the row when exactly one matched, otherwise an error (None). */
  function Single<T>(rows: seq<T>): (r: Option<T>)
    ensures r.Some? <==> |rows| == 1
    ensures r.Some? ==> r.value == rows[0]
  {
    if |rows| == 1 then Some(rows[0]) else None
  }

  /** No two rows share a key: a primary key or a unique constraint. */
  ghost predicate DistinctBy<T, K>(s: seq<T>, key: T -> K)
  {
    forall i, j :: 0 <= i < j < |s| ==> key(s[i]) != key(s[j])
  }

  /** When exactly one row satisfies p, FindFirst finds it. */
  lemma FindOnly<T>(s: seq<T>, p: T -> bool, k: nat)
    requires k < |s| && p(s[k])
    requires forall i :: 0 <= i < |s| && i != k ==> !p(s[i])
    ensures FindFirst(s, p) == Some(k)
  {
  }

  /** A table whose keys are distinct has exactly one row with the key of row k. */
  lemma DistinctKeyAt<T, K>(s: seq<T>, key: T -> K, k: nat)
    requires DistinctBy(s, key) && k < |s|
    ensures forall i :: 0 <= i < |s| && i != k ==> key(s[i]) != key(s[k])
  {
    forall i | 0 <= i < |s| && i != k
      ensures key(s[i]) != key(s[k])
    {
      if i < k { assert key(s[i]) != key(s[k]); } else { assert key(s[k]) != key(s[i]); }
    }
  }

  /** Updating the rows of a unique match rewrites exactly that row. */
  lemma UpdateOnly<T>(s: seq<T>, p: T -> bool, f: T -> T, k: nat)
    requires k < |s| && p(s[k])
    requires forall i :: 0 <= i < |s| && i != k ==> !p(s[i])
    ensures UpdateWhere(s, p, f) == s[k := f(s[k])]
  {
  }

  /** Two tables whose rows agree on p, position by position, have the same first match. */
  lemma FindSame<T>(s: seq<T>, s2: seq<T>, p: T -> bool)
    requires |s| == |s2|
    requires forall i :: 0 <= i < |s| ==> p(s[i]) == p(s2[i])
    ensures FindFirst(s, p) == FindFirst(s2, p)
  {
    var a, b := FindFirst(s, p), FindFirst(s2, p);
    if a.Some? && b.Some? {
      assert !(a.value < b.value) && !(b.value < a.value);
    }
  }

  /** Updating rows that nothing matches changes nothing. */
  lemma UpdateNone<T>(s: seq<T>, p: T -> bool, f: T -> T)
    requires forall i :: 0 <= i < |s| ==> !p(s[i])
    ensures UpdateWhere(s, p, f) == s
  {
  }

  /** Keeping every row keeps the table. */
  lemma {:induction false} FilterAll<T(!new)>(s: seq<T>, p: T -> bool)
    requires forall i :: 0 <= i < |s| ==> p(s[i])
    ensures Filter(s, p) == s
    decreases |s|
  {
    if |s| > 0 {
      FilterAll(s[1..], p);
      assert [s[0]] + s[1..] == s;
    }
  }

  /** When exactly one row satisfies p, the filter returns that row alone. */
  lemma {:induction false} FilterOnly<T(!new)>(s: seq<T>, p: T -> bool, k: nat)
    requires k < |s| && p(s[k])
    requires forall i :: 0 <= i < |s| && i != k ==> !p(s[i])
    ensures Filter(s, p) == [s[k]]
    decreases |s|
  {
    if k == 0 {
      FilterNone(s[1..], p);
    } else {
      FilterOnly(s[1..], p, k - 1);
    }
  }

  /** When no row satisfies p, the filter is empty. */
  lemma {:induction false} FilterNone<T(!new)>(s: seq<T>, p: T -> bool)
    requires forall i :: 0 <= i < |s| ==> !p(s[i])
    ensures Filter(s, p) == []
    decreases |s|
  {
    if |s| > 0 {
      FilterNone(s[1..], p);
    }
  }

  /** Deleting rows cannot create two rows with one key. */
  lemma {:induction false} FilterKeepsDistinct<T(!new), K>(s: seq<T>, p: T -> bool, key: T -> K)
    requires DistinctBy(s, key)
    ensures DistinctBy(Filter(s, p), key)
    decreases |s|
  {
    if |s| > 0 {
      var rest := Filter(s[1..], p);
      assert DistinctBy(s[1..], key) by {
        forall i, j | 0 <= i < j < |s[1..]| ensures key(s[1..][i]) != key(s[1..][j]) {
          assert s[1..][i] == s[i + 1] && s[1..][j] == s[j + 1];
        }
      }
      FilterKeepsDistinct(s[1..], p, key);
      if p(s[0]) {
        var r := [s[0]] + rest;
        assert Filter(s, p) == r;
        forall i, j | 0 <= i < j < |r| ensures key(r[i]) != key(r[j]) {
          if i == 0 {
            assert r[j] == rest[j - 1];
            assert rest[j - 1] in s[1..];
            var m :| 0 <= m < |s[1..]| && s[1..][m] == rest[j - 1];
            assert key(s[0]) != key(s[m + 1]);
          } else {
            assert r[i] == rest[i - 1] && r[j] == rest[j - 1];
          }
        }
      } else {
        assert Filter(s, p) == rest;
      }
    }
  }

  /** Updates that keep every row's key keep the keys distinct. */
  lemma UpdateKeepsDistinct<T, K>(s: seq<T>, p: T -> bool, f: T -> T, key: T -> K)
    requires DistinctBy(s, key)
    requires forall x :: key(f(x)) == key(x)
    ensures DistinctBy(UpdateWhere(s, p, f), key)
  {
    var r := UpdateWhere(s, p, f);
    forall i, j | 0 <= i < j < |r| ensures key(r[i]) != key(r[j]) {
      assert key(r[i]) == key(s[i]) && key(r[j]) == key(s[j]);
    }
  }

  /** Inserting a row with a new key keeps the keys distinct. */
  lemma AppendKeepsDistinct<T, K>(s: seq<T>, x: T, key: T -> K)
    requires DistinctBy(s, key)
    requires forall i :: 0 <= i < |s| ==> key(s[i]) != key(x)
    ensures DistinctBy(s + [x], key)
  {
    var r := s + [x];
    forall i, j | 0 <= i < j < |r| ensures key(r[i]) != key(r[j]) {
      if j < |s| { assert r[i] == s[i] && r[j] == s[j]; } else { assert r[i] == s[i] && r[j] == x; }
    }
  }

  /** Rewriting one row without changing its key keeps the keys distinct. */
  lemma ReplaceKeepsDistinct<T, K>(s: seq<T>, k: nat, x: T, key: T -> K)
    requires DistinctBy(s, key) && k < |s| && key(x) == key(s[k])
    ensures DistinctBy(s[k := x], key)
  {
    var r := s[k := x];
    forall i, j | 0 <= i < j < |r| ensures key(r[i]) != key(r[j]) {
      assert key(r[i]) == key(s[i]) && key(r[j]) == key(s[j]);
    }
  }
}
