/**
 * The few Python string and list primitives that the IPv64 client uses to take a
 * host name apart: `str.split` on one separator character, `str.join`, slices with
 * negative bounds (`xs[-2:]`, `s[:-k]`) and `str.removesuffix`.
 * A Dafny `char` is a Unicode scalar value, so a string here is a Python `str`
 * that holds no lone surrogate code point (U+D800 to U+DFFF).
 */
module PyStr {

  /** Number of occurrences of `c` in `s` (Python's `s.count(c)`). */
  function Count(s: string, c: char): (n: nat)
    ensures n <= |s|
    ensures n == 0 <==> c !in s
  {
    if s == [] then 0 else (if s[0] == c then 1 else 0) + Count(s[1..], c)
  }

  /** `s.endswith(suffix)`: `s` is some string followed by `suffix`. */
  predicate EndsWith(s: string, suffix: string)
    ensures EndsWith(s, suffix) <==> |suffix| <= |s| && s == s[..|s| - |suffix|] + suffix
  {
    |suffix| <= |s| && s[|s| - |suffix|..] == suffix
  }

  /**
   * `sep.join(parts)` for a one-character separator: the first part comes first,
   * and there is a separator as soon as there are two parts.
   */
  function Join(parts: seq<string>, sep: char): (s: string)
    ensures |parts| >= 1 ==> |parts[0]| <= |s| && s[..|parts[0]|] == parts[0]
    ensures |parts| >= 2 ==> |parts[0]| < |s| && s[|parts[0]|] == sep
  {
    if |parts| == 0 then ""
    else if |parts| == 1 then parts[0]
    else parts[0] + [sep] + Join(parts[1..], sep)
  }

  /** Joining separator-free parts puts exactly one separator between neighbours and none elsewhere. */
  lemma {:induction false} JoinCount(parts: seq<string>, sep: char)
    requires NoSep(parts, sep)
    ensures Count(Join(parts, sep), sep) == if |parts| == 0 then 0 else |parts| - 1
    decreases |parts|
  {
    if |parts| >= 2 {
      var rest := Join(parts[1..], sep);
      NoSepTail(parts, 1, sep);
      JoinCount(parts[1..], sep);
      assert sep !in parts[0];
      CountConcat(parts[0], [sep], sep);
      CountConcat(parts[0] + [sep], rest, sep);
    }
  }

  /** Occurrences in a concatenation add up. */
  lemma {:induction false} CountConcat(a: string, b: string, c: char)
    ensures Count(a + b, c) == Count(a, c) + Count(b, c)
    decreases |a|
  {
    if a != [] {
      CountConcat(a[1..], b, c);
      assert (a + b)[1..] == a[1..] + b;
    } else {
      assert a + b == b;
    }
  }

  /** Putting `c` in front of the first part puts it in front of the join. */
  lemma JoinFirst(c: char, parts: seq<string>, sep: char)
    requires |parts| >= 1
    ensures Join([[c] + parts[0]] + parts[1..], sep) == [c] + Join(parts, sep)
  {
    var q := [[c] + parts[0]] + parts[1..];
    assert q[1..] == parts[1..];
  }

  /** Every part is free of the separator. */
  predicate NoSep(parts: seq<string>, sep: char)
  {
    forall i :: 0 <= i < |parts| ==> sep !in parts[i]
  }

  /**
   * `s.split(sep)`: cuts `s` at every occurrence of `sep`. There is always one part
   * more than there are separators (so `"".split(".") == [""]`), no part contains the
   * separator, and joining the parts gives `s` back.
   */
  function Split(s: string, sep: char): (parts: seq<string>)
    ensures |parts| == Count(s, sep) + 1
    ensures NoSep(parts, sep)
    ensures Join(parts, sep) == s
  {
    if s == [] then [""]
    else
      var rest := Split(s[1..], sep);
      if s[0] == sep then
        assert ([""] + rest)[1..] == rest;
        [""] + rest
      else
        var parts := [[s[0]] + rest[0]] + rest[1..];
        JoinFirst(s[0], rest, sep);
        assert s == [s[0]] + s[1..];
        parts
  }

  /** Python's normalisation of a slice bound `i` on a sequence of length `n`. */
  function SliceIndex(i: int, n: nat): (k: nat)
    ensures k <= n
  {
    if i < 0 then (if n + i < 0 then 0 else n + i)
    else if i > n then n
    else i
  }

  /** `xs[start:]` */
  function SliceFrom<T>(xs: seq<T>, start: int): (r: seq<T>)
    ensures start < 0 ==> |r| == if |xs| < -start then |xs| else -start
    ensures |r| <= |xs| && r == xs[|xs| - |r|..]
  {
    xs[SliceIndex(start, |xs|)..]
  }

  /** `s[:stop]` */
  function SliceTo<T>(s: seq<T>, stop: int): (r: seq<T>)
    ensures stop < 0 ==> |r| == if |s| + stop < 0 then 0 else |s| + stop
    ensures |r| <= |s| && r == s[..|r|]
  {
    s[..SliceIndex(stop, |s|)]
  }

  /**
   * `s.removesuffix(suffix)`: when `s` ends with a non-empty `suffix`, the result put
   * back in front of `suffix` is `s`; otherwise `s` is returned unchanged.
   */
  function RemoveSuffix(s: string, suffix: string): (r: string)
    ensures suffix != [] && EndsWith(s, suffix) ==> r + suffix == s
    ensures !(suffix != [] && EndsWith(s, suffix)) ==> r == s
  {
    if suffix != [] && EndsWith(s, suffix) then s[..|s| - |suffix|] else s
  }

  /** A concatenation ends with its right operand. */
  lemma EndsWithConcat(a: string, b: string)
    ensures EndsWith(a + b, b)
  {
    assert (a + b)[|a + b| - |b|..] == b;
  }

  /** Joining two non-empty lists of parts puts one separator between their joins. */
  lemma {:induction false} JoinConcat(a: seq<string>, b: seq<string>, sep: char)
    requires |a| >= 1 && |b| >= 1
    ensures Join(a + b, sep) == Join(a, sep) + [sep] + Join(b, sep)
    decreases |a|
  {
    if |a| == 1 {
      assert (a + b)[1..] == b;
    } else {
      JoinConcat(a[1..], b, sep);
      assert (a + b)[1..] == a[1..] + b;
    }
  }

  /** Splitting a separator-free string gives the string alone. */
  lemma {:induction false} SplitNoSep(a: string, sep: char)
    requires sep !in a
    ensures Split(a, sep) == [a]
  {
    var parts := Split(a, sep);
    assert Count(a, sep) == 0;
    assert |parts| == 1;
    assert Join(parts, sep) == parts[0];
  }

  /** A separator-free part followed by a separator splits off as the first part. */
  lemma {:induction false} SplitCons(a: string, r: string, sep: char)
    requires sep !in a
    ensures Split(a + [sep] + r, sep) == [a] + Split(r, sep)
    decreases |a|
  {
    var s := a + [sep] + r;
    if a == [] {
      assert s[0] == sep && s[1..] == r;
    } else {
      var t := a[1..] + [sep] + r;
      assert s[0] == a[0] != sep;
      assert s[1..] == t;
      SplitCons(a[1..], r, sep);
      var rest := Split(t, sep);
      assert rest[0] == a[1..] && rest[1..] == Split(r, sep);
      assert [a[0]] + a[1..] == a;
    }
  }

  /** Two parts join with one separator between them. */
  lemma JoinTwo(x: string, y: string, sep: char)
    ensures Join([x, y], sep) == x + [sep] + y
  {
    assert [x, y][1..] == [y];
  }

  /** Every tail of a separator-free list is separator-free. */
  lemma NoSepTail(parts: seq<string>, k: nat, sep: char)
    requires k <= |parts| && NoSep(parts, sep)
    ensures NoSep(parts[k..], sep) && NoSep(parts[..k], sep)
  {
    forall i | 0 <= i < |parts| - k ensures sep !in parts[k..][i] {
      assert parts[k..][i] == parts[k + i];
    }
  }

  /** `split` undoes `join` on separator-free parts. */
  lemma {:induction false} SplitJoin(parts: seq<string>, sep: char)
    requires |parts| >= 1
    requires NoSep(parts, sep)
    ensures Split(Join(parts, sep), sep) == parts
    decreases |parts|
  {
    if |parts| == 1 {
      SplitNoSep(parts[0], sep);
    } else {
      assert sep !in parts[0];
      SplitJoin(parts[1..], sep);
      SplitCons(parts[0], Join(parts[1..], sep), sep);
      assert [parts[0]] + parts[1..] == parts;
    }
  }
}
