/**
 * The few functions of Go's `strings` package that the gateway's handlers use,
 * on strings taken as sequences of code points.
 */
module Strings {

  /** Go's `unicode.IsSpace`: the Latin-1 spaces plus the other White_Space code points. */
  predicate IsSpace(c: char) {
    ('\t' <= c <= '\r') || c == ' ' || c == '\U{0085}' || c == '\U{00A0}'
    || c == '\U{1680}' || ('\U{2000}' <= c <= '\U{200A}') || c == '\U{2028}' || c == '\U{2029}'
    || c == '\U{202F}' || c == '\U{205F}' || c == '\U{3000}'
  }

  predicate AllSpace(s: string) {
    forall k :: 0 <= k < |s| ==> IsSpace(s[k])
  }

  /** `strings.HasPrefix(s, p)` */
  predicate HasPrefix(s: string, p: string) {
    p <= s
  }

  /** `strings.TrimPrefix(s, p)` */
  function TrimPrefix(s: string, p: string): (r: string)
    ensures HasPrefix(s, p) ==> s == p + r
    ensures !HasPrefix(s, p) ==> r == s
  {
    if HasPrefix(s, p) then s[|p|..] else s
  }

  // ---------------------------------------------------------------------------
  // strings.Split(s, sep) for a one-character separator

  /** Number of occurrences of `c` in `s`. */
  function Count(s: string, c: char): nat {
    if s == [] then 0 else (if s[0] == c then 1 else 0) + Count(s[1..], c)
  }

  /** Glues `parts` together with `c` between neighbours (Go's `strings.Join`). */
  function Join(parts: seq<string>, c: char): string {
    if |parts| == 0 then []
    else if |parts| == 1 then parts[0]
    else parts[0] + [c] + Join(parts[1..], c)
  }

  /**
   * `strings.Split(s, string(c))`: the maximal pieces of `s` between occurrences
   * of `c`. There is always one more piece than there are separators, no piece
   * holds the separator, and joining the pieces gives `s` back.
   */
  function Split(s: string, c: char): (parts: seq<string>)
    ensures |parts| == Count(s, c) + 1
    ensures forall p | p in parts :: c !in p
    ensures Join(parts, c) == s
  {
    if s == [] then [[]]
    else
      var rest := Split(s[1..], c);
      if s[0] == c then
        assert Join([[]] + rest, c) == [c] + Join(rest, c) by {
          assert ([[]] + rest)[1..] == rest;
        }
        assert s == [c] + s[1..];
        [[]] + rest
      else
        var parts := [[s[0]] + rest[0]] + rest[1..];
        assert parts[1..] == rest[1..];
        assert Join(parts, c) == [s[0]] + Join(rest, c);
        assert s == [s[0]] + s[1..];
        parts
  }

  /** A string without the separator splits into itself. */
  lemma SplitWithout(s: string, c: char)
    requires c !in s
    ensures Split(s, c) == [s]
  {
  }

  /** A string with exactly one separator splits into the two pieces around it. */
  lemma {:induction false} SplitOnce(a: string, c: char, b: string)
    requires c !in a && c !in b
    ensures Split(a + [c] + b, c) == [a, b]
  {
    var s := a + [c] + b;
    if a == [] {
      assert s[1..] == b;
      SplitWithout(b, c);
    } else {
      assert s[0] == a[0] && s[1..] == a[1..] + [c] + b;
      SplitOnce(a[1..], c, b);
      assert [a[0]] + a[1..] == a;
    }
  }

  // ---------------------------------------------------------------------------
  // strings.SplitN(s, string(c), 2)

  /** Index of the first occurrence of `c` in `s`. */
  function IndexOf(s: string, c: char): (i: nat)
    requires c in s
    ensures i < |s| && s[i] == c && c !in s[..i]
  {
    if s[0] == c then 0
    else
      assert c in s[1..] by { assert s == [s[0]] + s[1..]; }
      var j := IndexOf(s[1..], c);
      assert s[..j + 1] == [s[0]] + s[1..][..j];
      j + 1
  }

  /**
   * `strings.SplitN(s, string(c), 2)`: `[s]` when `c` does not occur, otherwise
   * the piece before the first `c` and everything after it.
   */
  function SplitFirst(s: string, c: char): (parts: seq<string>)
    ensures |parts| == 2 <==> c in s
    ensures |parts| == 1 <==> c !in s
    ensures |parts| == 1 ==> parts[0] == s
    ensures |parts| == 2 ==> s == parts[0] + [c] + parts[1] && c !in parts[0]
  {
    if c in s then
      var i := IndexOf(s, c);
      assert s == s[..i] + [c] + s[i + 1..];
      [s[..i], s[i + 1..]]
    else [s]
  }

  /** The cut falls at the first separator, wherever later ones are. */
  lemma SplitFirstAt(a: string, c: char, b: string)
    requires c !in a
    ensures SplitFirst(a + [c] + b, c) == [a, b]
  {
    var s := a + [c] + b;
    assert s[|a|] == c;
    var i := IndexOf(s, c);
    assert s[..i] == a && s[i + 1..] == b;
  }

  // ---------------------------------------------------------------------------
  // strings.TrimSpace

  /** Length of the run of spaces at the front of `s`. */
  function LeadingSpaces(s: string): (n: nat)
    ensures n <= |s|
    ensures AllSpace(s[..n])
    ensures n < |s| ==> !IsSpace(s[n])
  {
    if s == [] || !IsSpace(s[0]) then 0
    else
      var m := LeadingSpaces(s[1..]);
      assert s[..m + 1] == [s[0]] + s[1..][..m];
      m + 1
  }

  /** Where the run of spaces at the back of `s` begins. */
  function TrailingStart(s: string): (n: nat)
    ensures n <= |s|
    ensures AllSpace(s[n..])
    ensures 0 < n ==> !IsSpace(s[n - 1])
  {
    if s == [] || !IsSpace(s[|s| - 1]) then |s|
    else
      var m := TrailingStart(s[..|s| - 1]);
      assert s[m..] == s[..|s| - 1][m..] + [s[|s| - 1]];
      m
  }

  /**
   * `strings.TrimSpace(s)`: `s` with its leading and trailing white space removed.
   * The result is a slice of `s` framed by white space only, and it neither
   * starts nor ends with white space.
   */
  function TrimSpace(s: string): (r: string)
    ensures r == [] || (!IsSpace(r[0]) && !IsSpace(r[|r| - 1]))
    ensures exists i :: 0 <= i <= i + |r| <= |s| && s[i..i + |r|] == r && AllSpace(s[..i]) && AllSpace(s[i + |r|..])
  {
    var a := LeadingSpaces(s);
    var t := s[a..];
    var b := TrailingStart(t);
    assert s[a..a + b] == t[..b];
    assert s[a + b..] == t[b..];
    assert b > 0 ==> !IsSpace(t[0]) by {
      if b > 0 && a < |s| { assert t[0] == s[a]; }
    }
    t[..b]
  }

  lemma {:induction false} LeadingSpacesPadded(pre: string, rest: string)
    requires AllSpace(pre)
    requires rest == [] || !IsSpace(rest[0])
    ensures LeadingSpaces(pre + rest) == |pre|
  {
    if pre == [] {
      assert pre + rest == rest;
    } else {
      assert (pre + rest)[0] == pre[0];
      assert (pre + rest)[1..] == pre[1..] + rest;
      LeadingSpacesPadded(pre[1..], rest);
    }
  }

  lemma {:induction false} TrailingStartPadded(rest: string, post: string)
    requires AllSpace(post)
    requires rest == [] || !IsSpace(rest[|rest| - 1])
    ensures TrailingStart(rest + post) == |rest|
  {
    if post == [] {
      assert rest + post == rest;
    } else {
      var s := rest + post;
      assert s[|s| - 1] == post[|post| - 1];
      assert s[..|s| - 1] == rest + post[..|post| - 1];
      TrailingStartPadded(rest, post[..|post| - 1]);
    }
  }

  /** Removing white-space padding from a string without edge spaces gives it back. */
  lemma TrimSpacePadded(pre: string, core: string, post: string)
    requires AllSpace(pre) && AllSpace(post)
    requires core == [] || (!IsSpace(core[0]) && !IsSpace(core[|core| - 1]))
    ensures TrimSpace(pre + core + post) == core
  {
    var s := pre + core + post;
    if core == [] {
      assert s == (pre + post) + [];
      LeadingSpacesPadded(pre + post, []);
    } else {
      assert s == pre + (core + post);
      LeadingSpacesPadded(pre, core + post);
      assert s[|pre|..] == core + post;
      TrailingStartPadded(core, post);
      assert (core + post)[..|core|] == core;
    }
  }

  // ---------------------------------------------------------------------------
  // strings.Replace(s, p, "", -1)

  /** `p` occurs somewhere in `s` (Go's `strings.Contains` for a substring). */
  predicate Contains(s: string, p: string) {
    exists i :: 0 <= i <= |s| && p <= s[i..]
  }

  /** `k` copies of `p` back to back. */
  function Repeat(p: string, k: nat): string {
    if k == 0 then [] else p + Repeat(p, k - 1)
  }

  /**
   * `strings.Replace(s, p, "", -1)`: every occurrence of `p` found by scanning `s`
   * from the left, without overlaps, is deleted.
   */
  function RemoveAll(s: string, p: string): (r: string)
    requires p != []
    ensures |r| <= |s|
    decreases |s|
  {
    if s == [] then []
    else if HasPrefix(s, p) then RemoveAll(s[|p|..], p)
    else [s[0]] + RemoveAll(s[1..], p)
  }

  /** Deleting `p` neither adds nor loses any character that `p` does not contain. */
  lemma {:induction false} RemoveAllKeeps(s: string, p: string, x: char)
    requires p != [] && x !in p
    ensures x in RemoveAll(s, p) <==> x in s
    decreases |s|
  {
    if s == [] {
    } else if HasPrefix(s, p) {
      RemoveAllKeeps(s[|p|..], p, x);
      assert s == s[..|p|] + s[|p|..] && s[..|p|] == p;
    } else {
      RemoveAllKeeps(s[1..], p, x);
      assert s == [s[0]] + s[1..];
    }
  }

  /** A string in which `p` does not occur is left alone. */
  lemma {:induction false} RemoveAllAbsent(s: string, p: string)
    requires p != [] && !Contains(s, p)
    ensures RemoveAll(s, p) == s
    decreases |s|
  {
    if s != [] {
      assert s[0..] == s;
      assert !HasPrefix(s, p);
      assert !Contains(s[1..], p) by {
        forall i | 0 <= i <= |s[1..]| ensures !(p <= s[1..][i..]) {
          assert s[1..][i..] == s[i + 1..];
        }
      }
      RemoveAllAbsent(s[1..], p);
    }
  }

  /** Deleting from `k` copies of `p` leaves nothing. */
  lemma {:induction false} RemoveAllRepeat(p: string, k: nat)
    requires p != []
    ensures RemoveAll(Repeat(p, k), p) == []
  {
    if k > 0 {
      var s := Repeat(p, k);
      assert HasPrefix(s, p) && s[|p|..] == Repeat(p, k - 1);
      RemoveAllRepeat(p, k - 1);
    }
  }

  /** Only copies of `p` back to back vanish completely. */
  lemma {:induction false} RemoveAllEmpty(s: string, p: string)
    requires p != [] && RemoveAll(s, p) == []
    ensures exists k :: s == Repeat(p, k)
    decreases |s|
  {
    if s == [] {
      assert s == Repeat(p, 0);
    } else {
      assert HasPrefix(s, p);
      RemoveAllEmpty(s[|p|..], p);
      var k: nat :| s[|p|..] == Repeat(p, k);
      assert s == p + s[|p|..] == Repeat(p, k + 1);
    }
  }

  /** A leading `p` is deleted and the scan resumes right after it. */
  lemma RemoveAllPrefixed(p: string, t: string)
    requires p != []
    ensures RemoveAll(p + t, p) == RemoveAll(t, p)
  {
  }
}
