/** Helpers shared by the client views and the server handlers: the optional value,
    JavaScript truthiness of optional strings, the array idioms the code leans on
    (`filter`, `filter(x => x.id !== id)`, `[...new Set(xs)]`) and the ASCII
    string operations (`trim`, `split`, `join`, `toLowerCase`, `includes`). */
module Common {

  datatype Option<T> = None | Some(value: T)

  /** `!s` in JavaScript for a field that is a string or absent. */
  predicate Falsy(s: Option<string>) {
    s.None? || s.value == ""
  }

  /** `s || fallback` for an optional string. */
  function OrElse(s: Option<string>, fallback: string): (r: string)
    ensures Falsy(s) ==> r == fallback
    ensures !Falsy(s) ==> r == s.value
  {
    if Falsy(s) then fallback else s.value
  }

  /** What a caller of `x || fallback` relies on: `x || ''` is the string itself whenever
      it is present, a non-empty fallback gives a non-empty result, and applying the
      same fallback again changes nothing. */
  lemma OrElseLaws(s: Option<string>, fallback: string)
    ensures s.Some? ==> OrElse(s, "") == s.value
    ensures fallback != "" ==> OrElse(s, fallback) != ""
    ensures OrElse(Some(OrElse(s, fallback)), fallback) == OrElse(s, fallback)
  {
  }

  // ---------------------------------------------------------------------------
  // Sequences

  /** `a` occurs in `b` in the same relative order (not necessarily contiguously). */
  predicate IsSubsequence<T(==)>(a: seq<T>, b: seq<T>)
    decreases |b|
  {
    if a == [] then true
    else if b == [] then false
    else if a[0] == b[0] then IsSubsequence(a[1..], b[1..])
    else IsSubsequence(a, b[1..])
  }

  lemma {:induction false} SubsequenceOfSelf<T>(a: seq<T>)
    ensures IsSubsequence(a, a)
  {
    if a != [] {
      SubsequenceOfSelf(a[1..]);
    }
  }

  lemma {:induction false} SubsequenceOfTail<T>(a: seq<T>, b: seq<T>, x: T)
    requires IsSubsequence(a, b)
    ensures IsSubsequence(a, [x] + b)
    decreases |a| + |b|, 1
  {
    if a != [] {
      assert ([x] + b)[1..] == b;
      if a[0] == x {
        SubsequenceDropHead(a, b);
      }
    }
  }

  lemma {:induction false} SubsequenceDropHead<T>(a: seq<T>, b: seq<T>)
    requires a != [] && IsSubsequence(a, b)
    ensures IsSubsequence(a[1..], b)
    decreases |a| + |b|, 0
  {
    assert [b[0]] + b[1..] == b;
    if a[0] == b[0] {
      if a[1..] != [] {
        SubsequenceOfTail(a[1..], b[1..], b[0]);
      }
    } else {
      SubsequenceDropHead(a, b[1..]);
      if a[1..] != [] {
        SubsequenceOfTail(a[1..], b[1..], b[0]);
      }
    }
  }

  /** `xs.filter(keep)`: the elements that satisfy `keep`, in their original order. */
  function Filter<T(==,!new)>(xs: seq<T>, keep: T -> bool): (r: seq<T>)
    ensures |r| <= |xs|
    ensures forall i :: 0 <= i < |r| ==> keep(r[i])
    ensures forall x :: x in r <==> x in xs && keep(x)
    ensures IsSubsequence(r, xs)
  {
    if xs == [] then []
    else
      var rest := Filter(xs[1..], keep);
      assert xs == [xs[0]] + xs[1..];
      if keep(xs[0]) then
        assert ([xs[0]] + rest)[1..] == rest;
        [xs[0]] + rest
      else
        SubsequenceOfTail(rest, xs[1..], xs[0]);
        rest
  }

  lemma FilterCons<T(!new)>(x: T, xs: seq<T>, keep: T -> bool)
    ensures Filter([x] + xs, keep) == (if keep(x) then [x] else []) + Filter(xs, keep)
  {
    assert ([x] + xs)[0] == x && ([x] + xs)[1..] == xs;
  }

  /** Filtering keeps every accepted element with its multiplicity. */
  lemma {:induction false} FilterMultiset<T(!new)>(xs: seq<T>, keep: T -> bool)
    ensures forall x :: multiset(Filter(xs, keep))[x] == if keep(x) then multiset(xs)[x] else 0
  {
    if xs != [] {
      var r := Filter(xs[1..], keep);
      FilterMultiset(xs[1..], keep);
      FilterCons(xs[0], xs[1..], keep);
      assert xs == [xs[0]] + xs[1..];
      assert multiset(xs) == multiset{xs[0]} + multiset(xs[1..]);
      if keep(xs[0]) {
        assert multiset(Filter(xs, keep)) == multiset{xs[0]} + multiset(r);
      } else {
        assert Filter(xs, keep) == r;
      }
    }
  }

  lemma {:induction false} FilterKeepsAll<T(!new)>(xs: seq<T>, keep: T -> bool)
    requires forall i :: 0 <= i < |xs| ==> keep(xs[i])
    ensures Filter(xs, keep) == xs
  {
    if xs != [] {
      FilterKeepsAll(xs[1..], keep);
    }
  }

  /** `xs.filter(x => key(x) !== k)`: drop every element whose key is `k`. */
  function RemoveKey<T(==,!new), K(==)>(xs: seq<T>, key: T -> K, k: K): (r: seq<T>)
    ensures |r| <= |xs|
    ensures forall i :: 0 <= i < |r| ==> key(r[i]) != k
    ensures forall x :: x in r <==> x in xs && key(x) != k
    ensures IsSubsequence(r, xs)
  {
    if xs == [] then []
    else
      var rest := RemoveKey(xs[1..], key, k);
      assert xs == [xs[0]] + xs[1..];
      if key(xs[0]) != k then
        assert ([xs[0]] + rest)[1..] == rest;
        [xs[0]] + rest
      else
        SubsequenceOfTail(rest, xs[1..], xs[0]);
        rest
  }

  /** Removing a key no element carries changes nothing. */
  lemma {:induction false} RemoveKeyAbsent<T(!new), K>(xs: seq<T>, key: T -> K, k: K)
    requires forall i :: 0 <= i < |xs| ==> key(xs[i]) != k
    ensures RemoveKey(xs, key, k) == xs
  {
    if xs != [] {
      RemoveKeyAbsent(xs[1..], key, k);
    }
  }

  /** Removing the same key twice is removing it once. */
  lemma RemoveKeyIdempotent<T(!new), K>(xs: seq<T>, key: T -> K, k: K)
    ensures RemoveKey(RemoveKey(xs, key, k), key, k) == RemoveKey(xs, key, k)
  {
    RemoveKeyAbsent(RemoveKey(xs, key, k), key, k);
  }

  lemma RemoveKeyCons<T(!new), K>(x: T, xs: seq<T>, key: T -> K, k: K)
    ensures RemoveKey([x] + xs, key, k) == (if key(x) != k then [x] else []) + RemoveKey(xs, key, k)
  {
    assert ([x] + xs)[0] == x && ([x] + xs)[1..] == xs;
  }

  /** Removal distributes over concatenation. */
  lemma {:induction false} RemoveKeyAppend<T(!new), K>(a: seq<T>, b: seq<T>, key: T -> K, k: K)
    ensures RemoveKey(a + b, key, k) == RemoveKey(a, key, k) + RemoveKey(b, key, k)
  {
    if a != [] {
      var t := a[1..];
      assert a + b == [a[0]] + (t + b);
      assert a == [a[0]] + t;
      RemoveKeyAppend(t, b, key, k);
      RemoveKeyCons(a[0], t + b, key, k);
      RemoveKeyCons(a[0], t, key, k);
    } else {
      assert a + b == b;
    }
  }

  /** Removal keeps every other element with its multiplicity. */
  lemma {:induction false} RemoveKeyMultiset<T(!new), K>(xs: seq<T>, key: T -> K, k: K)
    ensures forall x :: multiset(RemoveKey(xs, key, k))[x] == if key(x) == k then 0 else multiset(xs)[x]
  {
    if xs != [] {
      var r := RemoveKey(xs[1..], key, k);
      RemoveKeyMultiset(xs[1..], key, k);
      RemoveKeyCons(xs[0], xs[1..], key, k);
      assert xs == [xs[0]] + xs[1..];
      assert multiset(xs) == multiset{xs[0]} + multiset(xs[1..]);
      if key(xs[0]) != k {
        assert multiset(RemoveKey(xs, key, k)) == multiset{xs[0]} + multiset(r);
      } else {
        assert RemoveKey(xs, key, k) == r;
      }
    }
  }

  /** Index of the first occurrence of `x` in `xs`. */
  function FirstIndex<T(==)>(xs: seq<T>, x: T): (i: nat)
    requires x in xs
    ensures i < |xs| && xs[i] == x
    ensures forall j :: 0 <= j < i ==> xs[j] != x
  {
    if xs[0] == x then 0 else 1 + FirstIndex(xs[1..], x)
  }

  lemma {:induction false} FirstIndexInPrefix<T>(xs: seq<T>, n: nat, x: T)
    requires n <= |xs| && x in xs[..n]
    ensures FirstIndex(xs, x) == FirstIndex(xs[..n], x)
  {
    var i := FirstIndex(xs[..n], x);
    var j := FirstIndex(xs, x);
    assert xs[i] == x;
    assert j <= i;
    assert xs[..n][j] == x;
  }

  predicate NoDuplicates<T(==)>(xs: seq<T>) {
    forall i, j :: 0 <= i < j < |xs| ==> xs[i] != xs[j]
  }

  /** `[...new Set(xs)]`: each distinct element once, in order of first appearance. */
  function Dedup<T(==,!new)>(xs: seq<T>): (r: seq<T>)
    ensures forall x :: x in r <==> x in xs
    ensures NoDuplicates(r)
    ensures forall i, j :: 0 <= i < j < |r| ==> FirstIndex(xs, r[i]) < FirstIndex(xs, r[j])
  {
    if xs == [] then []
    else
      var n := |xs| - 1;
      var init := xs[..n];
      var r := Dedup(init);
      assert xs == init + [xs[n]];
      forall y | y in r ensures FirstIndex(xs, y) == FirstIndex(init, y) {
        FirstIndexInPrefix(xs, n, y);
      }
      if xs[n] in r then r
      else
        assert FirstIndex(xs, xs[n]) == n;
        r + [xs[n]]
  }

  // ---------------------------------------------------------------------------
  // Strings (ASCII only)

  /** The ASCII characters that `String.prototype.trim` removes. */
  predicate IsSpace(c: char) {
    c == ' ' || c == '\t' || c == '\n' || c == '\r' || c == '\U{B}' || c == '\U{C}'
  }

  /** No leading or trailing white space. */
  predicate IsTrimmed(s: string) {
    s == [] || (!IsSpace(s[0]) && !IsSpace(s[|s| - 1]))
  }

  function TrimStart(s: string): (r: string)
    ensures r == [] || !IsSpace(r[0])
    ensures |r| <= |s| && r == s[|s| - |r|..]
    ensures forall i :: 0 <= i < |s| - |r| ==> IsSpace(s[i])
  {
    if s != [] && IsSpace(s[0]) then TrimStart(s[1..]) else s
  }

  function TrimEnd(s: string): (r: string)
    ensures r == [] || !IsSpace(r[|r| - 1])
    ensures |r| <= |s| && r == s[..|r|]
    ensures forall i :: |r| <= i < |s| ==> IsSpace(s[i])
  {
    if s != [] && IsSpace(s[|s| - 1]) then TrimEnd(s[..|s| - 1]) else s
  }

  /** `s.trim()`. */
  function Trim(s: string): (r: string)
    ensures IsTrimmed(r)
    ensures r == [] <==> forall i :: 0 <= i < |s| ==> IsSpace(s[i])
    ensures IsTrimmed(s) ==> r == s
  {
    var t := TrimStart(s);
    var r := TrimEnd(t);
    assert r != [] ==> r[0] == t[0];
    assert r == [] ==> t == [];
    r
  }

  /** `trim` removes exactly the leading and trailing spaces: the result is a slice of
      the input with nothing but spaces before and after it. */
  lemma TrimRemovesOuterSpaces(s: string)
    ensures exists i, j :: 0 <= i <= j <= |s| && Trim(s) == s[i..j] &&
              (forall k :: 0 <= k < i ==> IsSpace(s[k])) && (forall k :: j <= k < |s| ==> IsSpace(s[k]))
  {
    TrimIsSlice(s, TrimStart(s), TrimEnd(TrimStart(s)));
  }

  /** Cutting spaces off the front of `s` (giving `t`) and then off the back of `t`
      (giving `r`) leaves a slice of `s` with only spaces around it. */
  lemma TrimIsSlice(s: string, t: string, r: string)
    requires |t| <= |s| && t == s[|s| - |t|..] && forall k :: 0 <= k < |s| - |t| ==> IsSpace(s[k])
    requires |r| <= |t| && r == t[..|r|] && forall k :: |r| <= k < |t| ==> IsSpace(t[k])
    ensures exists i, j :: 0 <= i <= j <= |s| && r == s[i..j] &&
              (forall k :: 0 <= k < i ==> IsSpace(s[k])) && (forall k :: j <= k < |s| ==> IsSpace(s[k]))
  {
    var i := |s| - |t|;
    var j := i + |r|;
    assert r == s[i..j];
    assert forall k :: 0 <= k < i ==> IsSpace(s[k]);
    assert forall k :: j <= k < |s| ==> IsSpace(s[k]) by {
      forall k | j <= k < |s| ensures IsSpace(s[k]) {
        assert s[k] == t[k - i];
        assert |r| <= k - i < |t|;
      }
    }
  }

  /** A leading blank does not survive `trim`. */
  lemma TrimSpacePrefix(s: string)
    ensures Trim(" " + s) == Trim(s)
  {
    assert (" " + s)[1..] == s;
  }

  /** `s.split(sep)` for a one-character separator. */
  function Split(s: string, sep: char): (r: seq<string>)
    ensures |r| >= 1
    ensures forall i :: 0 <= i < |r| ==> sep !in r[i]
  {
    if s == [] then [""]
    else
      var rest := Split(s[1..], sep);
      if s[0] == sep then [""] + rest
      else [[s[0]] + rest[0]] + rest[1..]
  }

  /** `xs.join(sep)`. */
  function Join(xs: seq<string>, sep: string): (r: string)
    decreases |xs|
  {
    if |xs| == 0 then ""
    else if |xs| == 1 then xs[0]
    else xs[0] + sep + Join(xs[1..], sep)
  }

  /** Joining the pieces of a split restores the string. */
  lemma {:induction false} JoinSplit(s: string, sep: char)
    ensures Join(Split(s, sep), [sep]) == s
  {
    if s != [] {
      var rest := Split(s[1..], sep);
      JoinSplit(s[1..], sep);
      if s[0] == sep {
        assert ([""] + rest)[1..] == rest;
      } else if |rest| > 1 {
        assert ([[s[0]] + rest[0]] + rest[1..])[1..] == rest[1..];
      }
    }
  }

  /** A prefix without the separator sticks to the first piece. */
  lemma {:induction false} SplitPrefix(a: string, t: string, sep: char)
    requires sep !in a
    ensures Split(a + t, sep) == [a + Split(t, sep)[0]] + Split(t, sep)[1..]
  {
    if a != [] {
      assert (a + t)[1..] == a[1..] + t;
      SplitPrefix(a[1..], t, sep);
      assert [a[0]] + (a[1..] + Split(t, sep)[0]) == a + Split(t, sep)[0];
    } else {
      assert a + t == t;
      assert a + Split(t, sep)[0] == Split(t, sep)[0];
      assert Split(t, sep) == [Split(t, sep)[0]] + Split(t, sep)[1..];
    }
  }

  /** `xs.map(l => l.trim())`. */
  function TrimAll(xs: seq<string>): (r: seq<string>)
    ensures |r| == |xs|
    ensures forall i :: 0 <= i < |r| ==> r[i] == Trim(xs[i])
  {
    if xs == [] then [] else [Trim(xs[0])] + TrimAll(xs[1..])
  }

  /** ASCII `toLowerCase` of one character. */
  function LowerChar(c: char): (r: char)
  {
    if 'A' <= c <= 'Z' then (c as int + 32) as char else c
  }

  /** ASCII `s.toLowerCase()`. */
  function Lower(s: string): (r: string)
    ensures |r| == |s|
    ensures forall i :: 0 <= i < |s| ==> r[i] == LowerChar(s[i])
  {
    if s == [] then [] else [LowerChar(s[0])] + Lower(s[1..])
  }

  /** Lower-casing is idempotent. */
  lemma {:induction false} LowerIdempotent(s: string)
    ensures Lower(Lower(s)) == Lower(s)
  {
    if s != [] {
      LowerIdempotent(s[1..]);
      assert Lower(s)[1..] == Lower(s[1..]);
    }
  }

  predicate StartsWith(s: string, prefix: string) {
    |prefix| <= |s| && s[..|prefix|] == prefix
  }

  /** `hay.includes(needle)`. */
  predicate Contains(hay: string, needle: string)
    decreases |hay|
  {
    StartsWith(hay, needle) || (hay != [] && Contains(hay[1..], needle))
  }
}
