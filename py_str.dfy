/** The few Python `str` operations the agent relies on: `strip`, `rstrip(chars)`,
    `startswith` and the first-occurrence search behind `split(sep, 1)`. */
module PyStr {
  import opened Wrappers

  /** Python's `str.isspace()`: the code points `strip()` removes by default. */
  predicate IsSpace(c: char)
  {
    var n := c as int;
    (0x09 <= n <= 0x0D) || (0x1C <= n <= 0x20) || n == 0x85 || n == 0xA0 || n == 0x1680
    || (0x2000 <= n <= 0x200A) || n == 0x2028 || n == 0x2029 || n == 0x202F
    || n == 0x205F || n == 0x3000
  }

  /** Number of leading characters of `s` that `drop` accepts. */
  function CountLeading(s: string, drop: char -> bool): (n: nat)
    ensures n <= |s|
    ensures forall k :: 0 <= k < n ==> drop(s[k])
    ensures n == |s| || !drop(s[n])
  {
    if s == [] || !drop(s[0]) then 0 else 1 + CountLeading(s[1..], drop)
  }

  /** Number of trailing characters of `s` that `drop` accepts. */
  function CountTrailing(s: string, drop: char -> bool): (n: nat)
    ensures n <= |s|
    ensures forall k :: |s| - n <= k < |s| ==> drop(s[k])
    ensures n == |s| || !drop(s[|s| - n - 1])
  {
    if s == [] || !drop(s[|s| - 1]) then 0 else 1 + CountTrailing(s[..|s| - 1], drop)
  }

  /** `s.lstrip(chars)` where `drop` says which characters are in `chars`. */
  function LStrip(s: string, drop: char -> bool): string
  {
    s[CountLeading(s, drop)..]
  }

  /** `s.rstrip(chars)` where `drop` says which characters are in `chars`. */
  function RStrip(s: string, drop: char -> bool): string
  {
    s[..|s| - CountTrailing(s, drop)]
  }

  /** `s.strip(chars)`: both ends. */
  function Strip(s: string, drop: char -> bool): (r: string)
    ensures |r| <= |s|
    ensures forall c :: c in r ==> c in s
    ensures r == [] || (!drop(r[0]) && !drop(r[|r| - 1]))
  {
    var t := LStrip(s, drop);
    var r := RStrip(t, drop);
    assert forall c :: c in r ==> c in t;
    r
  }

  /** The stripped text is the slice of `s` left once dropped characters are
      removed from both ends: everything outside it is dropped. */
  lemma StripIsSlice(s: string, drop: char -> bool)
    ensures exists i, j ::
      && 0 <= i <= j <= |s| && Strip(s, drop) == s[i..j]
      && (forall k :: 0 <= k < i ==> drop(s[k]))
      && (forall k :: j <= k < |s| ==> drop(s[k]))
  {
    var i := CountLeading(s, drop);
    var t := s[i..];
    var j := i + |t| - CountTrailing(t, drop);
    assert Strip(s, drop) == s[i..j];
    assert forall k :: j <= k < |s| ==> s[k] == t[k - i];
  }

  /** `s.strip()` with no argument: Unicode whitespace. */
  function StripSpace(s: string): string
  {
    Strip(s, IsSpace)
  }

  /** Index of the first occurrence of `c` in `s`, the split point of `s.split(c, 1)`. */
  function IndexOf(s: string, c: char): (r: Option<nat>)
    ensures r.None? <==> c !in s
    ensures r.Some? ==> r.value < |s| && s[r.value] == c && c !in s[..r.value]
  {
    if s == [] then None
    else if s[0] == c then Some(0)
    else
      match IndexOf(s[1..], c)
      case None => None
      case Some(i) =>
        assert s[..i + 1] == [s[0]] + s[1..][..i];
        Some(i + 1)
  }

  /** Stripping twice is the same as stripping once. */
  lemma {:induction false} StripIdempotent(s: string, drop: char -> bool)
    ensures Strip(Strip(s, drop), drop) == Strip(s, drop)
  {
    var r := Strip(s, drop);
    if r != [] {
      assert CountLeading(r, drop) == 0;
      assert CountTrailing(r, drop) == 0;
    }
  }

  /** Characters that `drop` accepts, appended at the end, are stripped again. */
  lemma {:induction false} StripIgnoresTrailing(s: string, tail: string, drop: char -> bool)
    requires forall k :: 0 <= k < |tail| ==> drop(tail[k])
    ensures Strip(s + tail, drop) == Strip(s, drop)
  {
    var n := CountLeading(s, drop);
    if n == |s| {
      LeadingAllDropped(s + tail, drop);
    } else {
      LeadingUnaffectedByTail(s, tail, drop);
      assert LStrip(s + tail, drop) == LStrip(s, drop) + tail;
      TrailingAbsorbsTail(LStrip(s, drop), tail, drop);
    }
  }

  lemma {:induction false} LeadingAllDropped(s: string, drop: char -> bool)
    requires forall k :: 0 <= k < |s| ==> drop(s[k])
    ensures Strip(s, drop) == []
  {
  }

  lemma {:induction false} LeadingUnaffectedByTail(s: string, tail: string, drop: char -> bool)
    requires CountLeading(s, drop) < |s|
    ensures CountLeading(s + tail, drop) == CountLeading(s, drop)
  {
    if drop(s[0]) {
      assert (s + tail)[1..] == s[1..] + tail;
      LeadingUnaffectedByTail(s[1..], tail, drop);
    }
  }

  lemma {:induction false} TrailingAbsorbsTail(t: string, tail: string, drop: char -> bool)
    requires forall k :: 0 <= k < |tail| ==> drop(tail[k])
    ensures RStrip(t + tail, drop) == RStrip(t, drop)
    decreases |tail|
  {
    if tail != [] {
      var u := t + tail;
      assert u[..|u| - 1] == t + tail[..|tail| - 1];
      assert drop(u[|u| - 1]);
      assert RStrip(u, drop) == RStrip(u[..|u| - 1], drop);
      TrailingAbsorbsTail(t, tail[..|tail| - 1], drop);
    } else {
      assert t + tail == t;
    }
  }

  /** Text that starts and ends with kept characters is left as it is. */
  lemma StripKeeps(s: string, drop: char -> bool)
    requires s != [] && !drop(s[0]) && !drop(s[|s| - 1])
    ensures Strip(s, drop) == s
  {
    assert CountLeading(s, drop) == 0;
    assert CountTrailing(s, drop) == 0;
  }

  /** A dropped character in front is stripped. */
  lemma StripDropsFront(c: char, s: string, drop: char -> bool)
    requires drop(c)
    ensures Strip([c] + s, drop) == Strip(s, drop)
  {
    assert ([c] + s)[1..] == s;
    assert LStrip([c] + s, drop) == LStrip(s, drop);
  }
}
