/** Small vocabulary shared by every module: optional values, results, JavaScript
    truthiness of optional strings, and sequence helpers (filter, reverse, concat,
    ascending order) with the facts the rest of the model needs about them. */
module Common {

  datatype Option<+T> = None | Some(value: T)

  /** A computation that either produced a value or threw with a message. */
  datatype Result<+T> = Ok(value: T) | Err(error: string)

  /** Row identifiers. They are drawn from the store's monotonic insertion counter. */
  type Id = nat

  /** JavaScript truthiness of a value that is a string, `undefined` or `null`:
      only a non-empty string is truthy. */
  predicate Truthy(s: Option<string>) {
    s.Some? && s.value != ""
  }

  /** `s || null` (and `s || undefined`): a falsy value is replaced by the absent one. */
  function OrAbsent(s: Option<string>): (r: Option<string>)
    ensures r.Some? <==> Truthy(s)
    ensures r.Some? ==> r == s
  {
    if Truthy(s) then s else None
  }

  /** SQL `COALESCE(given, current)` on a NOT NULL column: the given value when there
      is one, else the current one. */
  function Coalesce<T>(given: Option<T>, current: T): T {
    if given.Some? then given.value else current
  }

  /** SQL `COALESCE(given, current)` on a nullable column. */
  function CoalesceNullable<T>(given: Option<T>, current: Option<T>): Option<T> {
    if given.Some? then given else current
  }

  /** `s.startsWith(p)`. */
  predicate StartsWith(s: string, p: string) {
    |p| <= |s| && s[..|p|] == p
  }

  /** How many UTF-16 code units a character takes: one outside the Basic Multilingual
      Plane is stored as a surrogate pair. */
  function Utf16Width(c: char): nat {
    if c as int > 0xFFFF then 2 else 1
  }

  /** JavaScript's `s.length`, which counts UTF-16 code units rather than characters:
      between one and two per character, and one per character exactly when none lies
      outside the Basic Multilingual Plane. */
  function JsLength(s: string): (n: nat)
    ensures |s| <= n <= 2 * |s|
    ensures n == |s| <==> forall i :: 0 <= i < |s| ==> s[i] as int <= 0xFFFF
  {
    if s == [] then 0
    else
      var init := s[..|s| - 1];
      assert forall i :: 0 <= i < |init| ==> init[i] == s[i];
      JsLength(init) + Utf16Width(s[|s| - 1])
  }

  /** The elements of `s` that satisfy `keep`, in their original order. */
  function Filter<T(!new)>(s: seq<T>, keep: T -> bool): (r: seq<T>)
    ensures |r| <= |s|
    ensures forall x :: x in r <==> x in s && keep(x)
  {
    if s == [] then []
    else Filter(s[..|s| - 1], keep) + (if keep(s[|s| - 1]) then [s[|s| - 1]] else [])
  }

  lemma FilterSnoc<T(!new)>(s: seq<T>, x: T, keep: T -> bool)
    ensures Filter(s + [x], keep) == Filter(s, keep) + (if keep(x) then [x] else [])
  {
    assert (s + [x])[..|s|] == s;
  }

  /** Filtering with a predicate that holds of no element leaves nothing. */
  lemma {:induction false} FilterNone<T(!new)>(s: seq<T>, keep: T -> bool)
    requires forall i :: 0 <= i < |s| ==> !keep(s[i])
    ensures Filter(s, keep) == []
  {
    if s != [] {
      FilterNone(s[..|s| - 1], keep);
    }
  }

  /** The key of the element at index `i`; the order predicates below are stated
      with it so that their pairwise facts come into play only where a proof asks
      for the key at a position. */
  function KeyAt<T>(s: seq<T>, key: T -> int, i: int): int
    requires 0 <= i < |s|
  {
    key(s[i])
  }

  /** Strictly ascending by `key` (which makes keys unique). */
  predicate Ascending<T>(s: seq<T>, key: T -> int) {
    forall i, j :: 0 <= i < j < |s| ==> KeyAt(s, key, i) < KeyAt(s, key, j)
  }

  /** Every key is below `bound`. */
  predicate Below<T>(s: seq<T>, key: T -> int, bound: int) {
    forall i :: 0 <= i < |s| ==> key(s[i]) < bound
  }

  /** Strictly descending by `key`. */
  predicate Descending<T>(s: seq<T>, key: T -> int) {
    forall i, j :: 0 <= i < j < |s| ==> KeyAt(s, key, i) > KeyAt(s, key, j)
  }

  /** Appending an element whose key is the current bound keeps a sequence ascending
      and below the next bound. */
  lemma AscendingSnoc<T>(s: seq<T>, x: T, key: T -> int, bound: int)
    requires Ascending(s, key) && Below(s, key, bound) && key(x) == bound
    ensures Ascending(s + [x], key) && Below(s + [x], key, bound + 1)
  {
    var t := s + [x];
    forall i, j | 0 <= i < j < |t| ensures KeyAt(t, key, i) < KeyAt(t, key, j) {
      assert KeyAt(t, key, i) == KeyAt(s, key, i);
      if j < |s| {
        assert KeyAt(t, key, j) == KeyAt(s, key, j);
      }
    }
  }

  /** Replacing elements by ones with the same keys keeps the order. */
  lemma AscendingSameKeys<T>(s: seq<T>, t: seq<T>, key: T -> int)
    requires Ascending(s, key) && |s| == |t|
    requires forall i :: 0 <= i < |s| ==> key(s[i]) == key(t[i])
    ensures Ascending(t, key)
  {
    forall i, j | 0 <= i < j < |t| ensures KeyAt(t, key, i) < KeyAt(t, key, j) {
      assert KeyAt(t, key, i) == KeyAt(s, key, i) && KeyAt(t, key, j) == KeyAt(s, key, j);
    }
  }

  /** An ascending sequence has pairwise distinct keys, hence one element per key. */
  lemma AscendingUnique<T>(s: seq<T>, key: T -> int, x: T, y: T)
    requires Ascending(s, key) && x in s && y in s && key(x) == key(y)
    ensures x == y
  {
    var i :| 0 <= i < |s| && s[i] == x;
    var j :| 0 <= j < |s| && s[j] == y;
    assert KeyAt(s, key, i) == KeyAt(s, key, j);
  }

  /** Filtering keeps relative order, so it keeps a sequence ascending. */
  lemma {:induction false} FilterAscending<T(!new)>(s: seq<T>, keep: T -> bool, key: T -> int)
    requires Ascending(s, key)
    ensures Ascending(Filter(s, keep), key)
  {
    if s != [] {
      var init := s[..|s| - 1];
      var last := s[|s| - 1];
      forall i, j | 0 <= i < j < |init| ensures KeyAt(init, key, i) < KeyAt(init, key, j) {
        assert KeyAt(init, key, i) == KeyAt(s, key, i) && KeyAt(init, key, j) == KeyAt(s, key, j);
      }
      FilterAscending(init, keep, key);
      var f := Filter(init, keep);
      forall k | 0 <= k < |f| ensures key(f[k]) < key(last) {
        assert f[k] in init;
        var i :| 0 <= i < |init| && init[i] == f[k];
        assert KeyAt(s, key, i) < KeyAt(s, key, |s| - 1);
      }
      var r := Filter(s, keep);
      if keep(last) {
        assert r == f + [last];
        forall i, j | 0 <= i < j < |r| ensures KeyAt(r, key, i) < KeyAt(r, key, j) {
          assert KeyAt(r, key, i) == KeyAt(f, key, i);
          if j < |f| {
            assert KeyAt(r, key, j) == KeyAt(f, key, j);
          }
        }
      } else {
        assert r == f;
      }
    }
  }

  lemma FilterBelow<T(!new)>(s: seq<T>, keep: T -> bool, key: T -> int, bound: int)
    requires Below(s, key, bound)
    ensures Below(Filter(s, keep), key, bound)
  {
    var f := Filter(s, keep);
    forall k | 0 <= k < |f| ensures key(f[k]) < bound {
      assert f[k] in f;
      var i :| 0 <= i < |s| && s[i] == f[k];
    }
  }

  /** The elements of `s` in reverse order. */
  function Reverse<T>(s: seq<T>): (r: seq<T>)
    ensures |r| == |s|
    ensures forall i :: 0 <= i < |s| ==> r[i] == s[|s| - 1 - i]
  {
    if s == [] then [] else [s[|s| - 1]] + Reverse(s[..|s| - 1])
  }

  /** Reversing keeps the elements. */
  lemma ReverseMembers<T>(s: seq<T>)
    ensures forall i :: 0 <= i < |s| ==> s[i] in Reverse(s)
    ensures forall i :: 0 <= i < |s| ==> Reverse(s)[i] in s
  {
    var r := Reverse(s);
    forall i | 0 <= i < |s| ensures s[i] in r {
      assert r[|s| - 1 - i] == s[i];
    }
  }

  /** Reversing an ascending sequence gives a descending one. */
  lemma ReverseAscending<T>(s: seq<T>, key: T -> int)
    requires Ascending(s, key)
    ensures Descending(Reverse(s), key)
  {
    var r := Reverse(s);
    forall i, j | 0 <= i < j < |r| ensures KeyAt(r, key, i) > KeyAt(r, key, j) {
      assert KeyAt(s, key, |s| - 1 - j) < KeyAt(s, key, |s| - 1 - i);
    }
  }

  /** The concatenation of a sequence of strings (`+=` in a loop, `join("")`). */
  function Concat(ss: seq<string>): string {
    if ss == [] then "" else Concat(ss[..|ss| - 1]) + ss[|ss| - 1]
  }

  lemma ConcatSnoc(ss: seq<string>, s: string)
    ensures Concat(ss + [s]) == Concat(ss) + s
  {
    assert (ss + [s])[..|ss|] == ss;
  }

  lemma {:induction false} ConcatAppend(a: seq<string>, b: seq<string>)
    ensures Concat(a + b) == Concat(a) + Concat(b)
  {
    if b == [] {
      assert a + b == a;
    } else {
      var init, last := b[..|b| - 1], b[|b| - 1];
      assert b == init + [last];
      assert a + b == (a + init) + [last];
      calc {
        Concat(a + b);
        { ConcatSnoc(a + init, last); }
        Concat(a + init) + last;
        { ConcatAppend(a, init); }
        (Concat(a) + Concat(init)) + last;
        Concat(a) + (Concat(init) + last);
        { ConcatSnoc(init, last); }
        Concat(a) + Concat(b);
      }
    }
  }
}
