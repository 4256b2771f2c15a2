/** The JavaScript built-ins the client's state logic relies on, as pure functions
    with their properties proved. */
module Js {

  // ---------------------------------------------------------------------------
  // String.prototype.toLowerCase (ASCII letters only)
  // ---------------------------------------------------------------------------

  /** One character lower-cased: 'A'..'Z' map to 'a'..'z', everything else is kept. */
  function LowerChar(c: char): char
  {
    if 'A' <= c <= 'Z' then (c as int - 'A' as int + 'a' as int) as char else c
  }

  /** `s.toLowerCase()`: the same length, each character lower-cased in place. */
  function ToLowerCase(s: string): (r: string)
    ensures |r| == |s|
    ensures forall i :: 0 <= i < |s| ==> r[i] == LowerChar(s[i])
  {
    if s == [] then [] else [LowerChar(s[0])] + ToLowerCase(s[1..])
  }

  // ---------------------------------------------------------------------------
  // String.prototype.includes
  // ---------------------------------------------------------------------------

  /** `needle` occurs in `hay` starting at position `i`. */
  ghost predicate OccursAt(hay: string, needle: string, i: int)
  {
    0 <= i && i + |needle| <= |hay| && hay[i..i + |needle|] == needle
  }

  /** `needle` occurs somewhere in `hay`. */
  ghost predicate Occurs(hay: string, needle: string)
  {
    exists i :: OccursAt(hay, needle, i)
  }

  /** `hay.includes(needle)`: a left-to-right scan for `needle`. The empty
      string is included in every string, and nothing longer than `hay` is. */
  predicate Includes(hay: string, needle: string): (found: bool)
    ensures needle == [] ==> found
    ensures found ==> |needle| <= |hay|
    decreases |hay|
  {
    if |hay| < |needle| then false
    else if hay[..|needle|] == needle then true
    else Includes(hay[1..], needle)
  }

  /** A slice of the tail is the slice of the whole shifted by one. */
  lemma TailSlice(s: string, from: nat, n: nat)
    requires from + n < |s|
    ensures s[1..][from..from + n] == s[from + 1..from + 1 + n]
  {
  }

  /** The scan finds `needle` exactly when it occurs somewhere in `hay`. */
  lemma {:induction false} IncludesIffOccurs(hay: string, needle: string)
    ensures Includes(hay, needle) <==> exists i :: OccursAt(hay, needle, i)
    decreases |hay|
  {
    if |hay| < |needle| {
    } else if hay[..|needle|] == needle {
      assert OccursAt(hay, needle, 0);
    } else {
      IncludesIffOccurs(hay[1..], needle);
      if exists i :: OccursAt(hay, needle, i) {
        var i :| OccursAt(hay, needle, i);
        assert i != 0;
        TailSlice(hay, i - 1, |needle|);
        assert OccursAt(hay[1..], needle, i - 1);
      }
      if exists j :: OccursAt(hay[1..], needle, j) {
        var j :| OccursAt(hay[1..], needle, j);
        TailSlice(hay, j, |needle|);
        assert OccursAt(hay, needle, j + 1);
      }
    }
  }

  // ---------------------------------------------------------------------------
  // Array.prototype.filter
  // ---------------------------------------------------------------------------

  /** `a` can be obtained from `b` by deleting elements, so `a` keeps `b`'s order. */
  predicate IsSubsequence<T(==)>(a: seq<T>, b: seq<T>)
    decreases |b|
  {
    a == [] || (b != [] && if a[0] == b[0] then IsSubsequence(a[1..], b[1..]) else IsSubsequence(a, b[1..]))
  }

  /** `s.filter(keep)`: the elements `keep` accepts, left to right; never
      longer than `s`, and every element of it accepted. */
  function Filter<T>(s: seq<T>, keep: T -> bool): (r: seq<T>)
    ensures |r| <= |s|
    ensures forall i :: 0 <= i < |r| ==> keep(r[i])
  {
    if s == [] then [] else (if keep(s[0]) then [s[0]] else []) + Filter(s[1..], keep)
  }

  /** The filter keeps exactly the accepted elements, each as often as it occurs. */
  lemma {:induction false} FilterCounts<T(!new)>(s: seq<T>, keep: T -> bool)
    ensures forall x :: multiset(Filter(s, keep))[x] == if keep(x) then multiset(s)[x] else 0
  {
    if s != [] {
      FilterCounts(s[1..], keep);
      assert s == [s[0]] + s[1..];
    }
  }

  /** The filter keeps the order of its input. */
  lemma {:induction false} FilterIsSubsequence<T(!new)>(s: seq<T>, keep: T -> bool)
    ensures IsSubsequence(Filter(s, keep), s)
  {
    if s != [] {
      var rest := Filter(s[1..], keep);
      FilterIsSubsequence(s[1..], keep);
      if keep(s[0]) {
        assert ([s[0]] + rest)[1..] == rest;
      } else if rest != [] {
        assert Filter(s, keep) == rest;
        FilterCounts(s[1..], keep);
        assert multiset(rest)[rest[0]] > 0;
        assert rest[0] != s[0];
      }
    }
  }

  /** Filtering distributes over concatenation. */
  lemma {:induction false} FilterAppend<T(!new)>(s: seq<T>, t: seq<T>, keep: T -> bool)
    ensures Filter(s + t, keep) == Filter(s, keep) + Filter(t, keep)
  {
    if s == [] {
      assert s + t == t;
    } else {
      var head := if keep(s[0]) then [s[0]] else [];
      calc {
        Filter(s + t, keep);
        { assert (s + t)[0] == s[0]; assert (s + t)[1..] == s[1..] + t; }
        head + Filter(s[1..] + t, keep);
        { FilterAppend(s[1..], t, keep); }
        head + (Filter(s[1..], keep) + Filter(t, keep));
        (head + Filter(s[1..], keep)) + Filter(t, keep);
        Filter(s, keep) + Filter(t, keep);
      }
    }
  }

  /** A filter that accepts every element returns its input unchanged. */
  lemma {:induction false} FilterKeepsAll<T(!new)>(s: seq<T>, keep: T -> bool)
    requires forall i :: 0 <= i < |s| ==> keep(s[i])
    ensures Filter(s, keep) == s
  {
    if s != [] {
      FilterKeepsAll(s[1..], keep);
    }
  }

  // ---------------------------------------------------------------------------
  // Array.prototype.splice(start, 1)
  // ---------------------------------------------------------------------------

  /** `s` with the element at `i` deleted. */
  function Without<T>(s: seq<T>, i: int): seq<T>
    requires 0 <= i < |s|
  {
    s[..i] + s[i + 1..]
  }

  /** The position `splice(start, 1)` acts on in an array of length `len`:
      a negative start counts back from the end (but not past the front), and a
      start past the end is clamped to the end. */
  function SpliceStart(len: nat, start: int): (k: nat)
    ensures k <= len
    ensures 0 <= start <= len ==> k == start
    ensures start > len ==> k == len
    ensures start < 0 && len + start >= 0 ==> k == len + start
    ensures len + start < 0 ==> k == 0
  {
    if start < 0 then (if len + start < 0 then 0 else len + start)
    else if start > len then len
    else start
  }

  /** The array `splice(start, 1)` leaves behind. It never fails: an in-bounds
      start deletes that element, a start at or past the end deletes nothing, a
      negative start deletes counting from the end. */
  function SpliceOne<T>(s: seq<T>, start: int): (r: seq<T>)
    ensures 0 <= start < |s| ==> r == Without(s, start)
    ensures start >= |s| || s == [] ==> r == s
    ensures -|s| <= start < 0 ==> r == Without(s, |s| + start)
    ensures start < -|s| && s != [] ==> r == Without(s, 0)
  {
    var k := SpliceStart(|s|, start);
    if k < |s| then Without(s, k) else s
  }

  // ---------------------------------------------------------------------------
  // TypeError
  // ---------------------------------------------------------------------------

  /** The message of the TypeError thrown when reading property `prop` of
      `base` ("null" or "undefined"), in the V8 engine's wording. */
  function CannotRead(base: string, prop: string): (message: string)
    ensures var head := "Cannot read properties of " + base;
      |head| <= |message| && message[..|head|] == head
    ensures var tail := "(reading '" + prop + "')";
      |tail| <= |message| && message[|message| - |tail|..] == tail
  {
    "Cannot read properties of " + base + " (reading '" + prop + "')"
  }
}
