/** String operations the source takes from JavaScript: truthiness of an optional string, the default
    ordering used by `Array.prototype.sort`, `toLowerCase` and `includes`. */
module Strings {
  import opened Wrappers

  /** JavaScript truthiness of an optional string field: absent and `""` are both falsy. */
  predicate IsTruthy(s: Option<string>) {
    s.Some? && s.value != ""
  }

  // ---- Lexicographic order (the comparison of `Array.prototype.sort` without a comparator) ----

  /** `a` sorts before or equal to `b`: a proper prefix comes first, otherwise the first differing character decides. */
  predicate Le(a: string, b: string)
    decreases |a|
  {
    |a| == 0 || (|b| > 0 && (a[0] < b[0] || (a[0] == b[0] && Le(a[1..], b[1..]))))
  }

  predicate Lt(a: string, b: string) {
    Le(a, b) && a != b
  }

  lemma {:induction false} LeTotal(a: string, b: string)
    ensures Le(a, b) || Le(b, a)
    decreases |a|
  {
    if |a| > 0 && |b| > 0 && a[0] == b[0] {
      LeTotal(a[1..], b[1..]);
    }
  }

  lemma {:induction false} LeAntisymmetric(a: string, b: string)
    requires Le(a, b) && Le(b, a)
    ensures a == b
    decreases |a|
  {
    if |a| > 0 {
      LeAntisymmetric(a[1..], b[1..]);
      assert a == [a[0]] + a[1..] && b == [b[0]] + b[1..];
    }
  }

  lemma {:induction false} LeTransitive(a: string, b: string, c: string)
    requires Le(a, b) && Le(b, c)
    ensures Le(a, c)
    decreases |a|
  {
    if |a| > 0 && a[0] == b[0] && b[0] == c[0] {
      LeTransitive(a[1..], b[1..], c[1..]);
    }
  }

  lemma LtTransitive(a: string, b: string, c: string)
    requires Lt(a, b) && Lt(b, c)
    ensures Lt(a, c)
  {
    LeTransitive(a, b, c);
    if a == c {
      LeAntisymmetric(a, b);
    }
  }

  ghost predicate StrictlySorted(s: seq<string>) {
    forall i, j :: 0 <= i < j < |s| ==> Lt(s[i], s[j])
  }

  ghost predicate Distinct<T>(s: seq<T>) {
    forall i, j :: 0 <= i < j < |s| ==> s[i] != s[j]
  }

  /** Inserts `x` into a strictly sorted sequence, keeping it strictly sorted; an `x` already present is not repeated. */
  function Insert(s: seq<string>, x: string): (r: seq<string>)
    ensures forall i :: 0 <= i < |r| ==> r[i] in s || r[i] == x
    ensures x in r && forall i :: 0 <= i < |s| ==> s[i] in r
    ensures StrictlySorted(s) ==> StrictlySorted(r)
    decreases |s|
  {
    if |s| == 0 then [x]
    else if x == s[0] then s
    else if Le(x, s[0]) then
      InsertFront(s, x);
      [x] + s
    else
      var rest := Insert(s[1..], x);
      InsertBehind(s, x, rest);
      [s[0]] + rest
  }

  lemma InsertFront(s: seq<string>, x: string)
    requires |s| > 0 && Lt(x, s[0])
    ensures StrictlySorted(s) ==> StrictlySorted([x] + s)
  {
    if StrictlySorted(s) {
      forall j | 0 < j < |s| ensures Lt(x, s[j]) {
        LtTransitive(x, s[0], s[j]);
      }
    }
  }

  lemma InsertBehind(s: seq<string>, x: string, rest: seq<string>)
    requires |s| > 0 && !Le(x, s[0])
    requires forall i :: 0 <= i < |rest| ==> rest[i] in s[1..] || rest[i] == x
    requires StrictlySorted(s[1..]) ==> StrictlySorted(rest)
    ensures StrictlySorted(s) ==> StrictlySorted([s[0]] + rest)
  {
    if StrictlySorted(s) {
      LeTotal(x, s[0]);
      assert StrictlySorted(s[1..]) by {
        forall i, j | 0 <= i < j < |s[1..]| ensures Lt(s[1..][i], s[1..][j]) {
          assert s[1..][i] == s[i + 1] && s[1..][j] == s[j + 1];
        }
      }
      forall i | 0 <= i < |rest| ensures Lt(s[0], rest[i]) {
        if rest[i] != x {
          var k :| 0 <= k < |s[1..]| && s[1..][k] == rest[i];
          assert s[k + 1] == rest[i];
        }
      }
    }
  }

  /** The result of `Array.prototype.sort` on an array of distinct strings: the same strings in ascending order. */
  function Sort(xs: seq<string>): (r: seq<string>)
    requires Distinct(xs)
    ensures StrictlySorted(r)
    ensures forall i :: 0 <= i < |r| ==> r[i] in xs
    ensures forall i :: 0 <= i < |xs| ==> xs[i] in r
    decreases |xs|
  {
    if |xs| == 0 then []
    else
      var front := xs[..|xs| - 1];
      assert forall i :: 0 <= i < |xs| - 1 ==> xs[i] == front[i];
      Insert(Sort(front), xs[|xs| - 1])
  }

  /** On distinct input nothing is dropped, so `Sort` returns a permutation, as `Array.prototype.sort` does. */
  lemma {:induction false} SortKeepsLength(xs: seq<string>)
    requires Distinct(xs)
    ensures |Sort(xs)| == |xs|
    decreases |xs|
  {
    if |xs| > 0 {
      var front := xs[..|xs| - 1];
      var last := xs[|xs| - 1];
      SortKeepsLength(front);
      assert last !in Sort(front);
      InsertNewLength(Sort(front), last);
    }
  }

  lemma {:induction false} InsertNewLength(s: seq<string>, x: string)
    requires x !in s
    ensures |Insert(s, x)| == |s| + 1
    decreases |s|
  {
    if |s| > 0 && !Le(x, s[0]) {
      InsertNewLength(s[1..], x);
    }
  }

  /** Two strictly sorted sequences with the same elements are equal: the sort result does not depend on
      the order in which the strings were collected. */
  lemma {:induction false} StrictlySortedUnique(a: seq<string>, b: seq<string>)
    requires StrictlySorted(a) && StrictlySorted(b)
    requires forall x :: x in a <==> x in b
    ensures a == b
    decreases |a|
  {
    assert |a| > 0 ==> a[0] in b;
    assert |b| > 0 ==> b[0] in a;
    if |a| > 0 {
      // Each head is the least element of both sequences.
      assert a[0] == b[0] by {
        assert a[0] in a && b[0] in b;
        if a[0] != b[0] {
          var i :| 0 <= i < |b| && b[i] == a[0];
          var j :| 0 <= j < |a| && a[j] == b[0];
          assert i > 0 && j > 0;
          assert Lt(b[0], a[0]) && Lt(a[0], b[0]);
          LeAntisymmetric(a[0], b[0]);
        }
      }
      assert forall x :: x in a[1..] <==> x in b[1..] by {
        forall x ensures x in a[1..] <==> x in b[1..] {
          if x in a[1..] {
            var i :| 1 <= i < |a| && a[i] == x;
            assert x in a;
            var j :| 0 <= j < |b| && b[j] == x;
            assert Lt(a[0], a[i]);
            assert j > 0;
          }
          if x in b[1..] {
            var j :| 1 <= j < |b| && b[j] == x;
            assert x in b;
            var i :| 0 <= i < |a| && a[i] == x;
            assert Lt(b[0], b[j]);
            assert i > 0;
          }
        }
      }
      StrictlySortedUnique(a[1..], b[1..]);
      assert a == [a[0]] + a[1..] && b == [b[0]] + b[1..];
    }
  }

  // ---- toLowerCase and includes ----

  /** `toLowerCase` on one character, for the ASCII letters (other case mappings are not modelled). */
  function LowerChar(c: char): char {
    if 'A' <= c <= 'Z' then (c as int + 32) as char else c
  }

  function ToLower(s: string): (r: string)
    ensures |r| == |s|
    ensures forall i :: 0 <= i < |s| ==> r[i] == LowerChar(s[i])
  {
    seq(|s|, i requires 0 <= i < |s| => LowerChar(s[i]))
  }

  /** `sub` starts at position `i` of `s`. */
  predicate OccursAt(s: string, sub: string, i: nat) {
    i + |sub| <= |s| && s[i..i + |sub|] == sub
  }

  /** `String.prototype.includes`: `sub` occurs somewhere in `s`. */
  function Contains(s: string, sub: string): (b: bool)
    ensures b <==> exists i: nat :: i <= |s| && OccursAt(s, sub, i)
    decreases |s|
  {
    if OccursAt(s, sub, 0) then true
    else if |s| == 0 then false
    else
      var b := Contains(s[1..], sub);
      OccursAtTail(s, sub);
      assert b ==> exists i: nat :: i <= |s| && OccursAt(s, sub, i) by {
        if b {
          var i: nat :| i <= |s[1..]| && OccursAt(s[1..], sub, i);
          assert OccursAt(s, sub, i + 1);
        }
      }
      assert (exists i: nat :: i <= |s| && OccursAt(s, sub, i)) ==> b by {
        if exists i: nat :: i <= |s| && OccursAt(s, sub, i) {
          var i: nat :| i <= |s| && OccursAt(s, sub, i);
          assert i > 0;
          assert OccursAt(s[1..], sub, i - 1);
        }
      }
      b
  }

  lemma OccursAtTail(s: string, sub: string)
    requires |s| > 0
    ensures forall i: nat :: OccursAt(s[1..], sub, i) <==> OccursAt(s, sub, i + 1)
  {
    forall i: nat ensures OccursAt(s[1..], sub, i) <==> OccursAt(s, sub, i + 1) {
      if i + |sub| <= |s[1..]| {
        assert s[1..][i..i + |sub|] == s[i + 1..i + 1 + |sub|];
      }
    }
  }
}
