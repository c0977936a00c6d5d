/**
 * The string operations of Python's `str` and `os.path` that the modelled
 * code relies on: substring search, `lower`, `strip`, `split`, `rfind`,
 * `os.path.basename`, `os.path.splitext` and decimal `int`/`str` conversion.
 */
module Text {
  import opened Wrappers

  // ---------------------------------------------------------------------
  // Substring search (`t in s`, `s.find(t)`)

  /** `t` occurs in `s` starting at index `i`. */
  predicate OccursAt(s: string, t: string, i: int) {
    0 <= i && i + |t| <= |s| && s[i..i + |t|] == t
  }

  /** First occurrence of `t` in `s` at or after `from`, or -1. */
  function IndexFrom(s: string, t: string, from: nat): (r: int)
    requires from <= |s|
    ensures r == -1 || (from <= r && OccursAt(s, t, r))
    ensures forall k :: from <= k && (r == -1 || k < r) ==> !OccursAt(s, t, k)
    decreases |s| - from
  {
    if from + |t| > |s| then -1
    else if s[from..from + |t|] == t then from
    else if from == |s| then -1
    else IndexFrom(s, t, from + 1)
  }

  /** `s.find(t)`: the first occurrence of `t` in `s`, or -1. */
  function IndexOf(s: string, t: string): (r: int)
    ensures r == -1 || OccursAt(s, t, r)
    ensures forall k :: 0 <= k && (r == -1 || k < r) ==> !OccursAt(s, t, k)
  {
    IndexFrom(s, t, 0)
  }

  /** Python's `t in s` on strings. */
  predicate Contains(s: string, t: string)
    ensures Contains(s, t) <==> exists k :: OccursAt(s, t, k)
  {
    IndexOf(s, t) >= 0
  }

  /** A string without an occurrence of `t` has none in any slice either. */
  lemma {:induction false} NoOccurrenceInSlice(s: string, t: string, i: int, j: int)
    requires 0 <= i <= j <= |s|
    requires !Contains(s, t)
    ensures !Contains(s[i..j], t)
  {
    forall k | OccursAt(s[i..j], t, k) ensures OccursAt(s, t, i + k) {
      forall m | 0 <= m < |t| ensures s[i + k..i + k + |t|][m] == t[m] {
        assert s[i..j][k..k + |t|][m] == t[m];
      }
    }
  }

  // ---------------------------------------------------------------------
  // Case and whitespace

  /** `c.lower()` for ASCII letters; other characters are left as they are. */
  function LowerChar(c: char): char {
    if 'A' <= c <= 'Z' then (c as int + 32) as char else c
  }

  /** `s.lower()`. */
  function Lower(s: string): (r: string)
    ensures |r| == |s|
    ensures forall k :: 0 <= k < |s| ==> r[k] == LowerChar(s[k])
  {
    seq(|s|, k requires 0 <= k < |s| => LowerChar(s[k]))
  }

  /** Lower-casing twice is lower-casing once: the result has no upper-case ASCII letter left. */
  lemma LowerIdempotent(s: string)
    ensures Lower(Lower(s)) == Lower(s)
    ensures forall k :: 0 <= k < |s| ==> !('A' <= Lower(s)[k] <= 'Z')
  {
  }

  /** The characters Python's `str.isspace` accepts. */
  predicate IsSpace(c: char) {
    || '\t' <= c <= '\r'
    || '\U{1C}' <= c <= ' '
    || c == '\U{85}' || c == '\U{A0}' || c == '\U{1680}'
    || '\U{2000}' <= c <= '\U{200A}'
    || c == '\U{2028}' || c == '\U{2029}' || c == '\U{202F}' || c == '\U{205F}' || c == '\U{3000}'
  }

  /** `s.lstrip()`. */
  function StripLeft(s: string): (r: string)
    ensures |r| <= |s| && r == s[|s| - |r|..]
    ensures forall k :: 0 <= k < |s| - |r| ==> IsSpace(s[k])
    ensures r == [] || !IsSpace(r[0])
  {
    if |s| > 0 && IsSpace(s[0]) then
      var r := StripLeft(s[1..]);
      assert s[1..][|s| - 1 - |r|..] == s[|s| - |r|..];
      assert forall k :: 0 < k < |s| ==> s[1..][k - 1] == s[k];
      r
    else s
  }

  /** `s.rstrip()`. */
  function StripRight(s: string): (r: string)
    ensures |r| <= |s| && r == s[..|r|]
    ensures forall k :: |r| <= k < |s| ==> IsSpace(s[k])
    ensures r == [] || !IsSpace(r[|r| - 1])
  {
    if |s| > 0 && IsSpace(s[|s| - 1]) then
      var r := StripRight(s[..|s| - 1]);
      assert s[..|s| - 1][..|r|] == s[..|r|];
      assert forall k :: 0 <= k < |s| - 1 ==> s[..|s| - 1][k] == s[k];
      r
    else s
  }

  /** `s.strip()`: `s` without its leading and trailing whitespace. */
  function Strip(s: string): string {
    StripRight(StripLeft(s))
  }

  /** What `strip` leaves is the slice of `s` that starts after its leading whitespace. */
  lemma StripIsSlice(s: string)
    ensures OccursAt(s, Strip(s), |s| - |StripLeft(s)|)
  {
    PrefixOfSuffix(s, StripLeft(s), Strip(s));
  }

  /** What `strip` leaves neither starts nor ends with whitespace. */
  lemma StripTrimsBothEnds(s: string)
    ensures Strip(s) == [] || (!IsSpace(Strip(s)[0]) && !IsSpace(Strip(s)[|Strip(s)| - 1]))
  {
    PrefixOfSuffix(s, StripLeft(s), Strip(s));
  }

  /**
   * A prefix `r` of a suffix `left` of `s` occurs in `s` where `left` starts;
   * when `left` does not start and `r` does not end with whitespace, `r`
   * neither starts nor ends with it.
   */
  lemma PrefixOfSuffix(s: string, left: string, r: string)
    requires |left| <= |s| && left == s[|s| - |left|..]
    requires |r| <= |left| && r == left[..|r|]
    requires left == [] || !IsSpace(left[0])
    requires r == [] || !IsSpace(r[|r| - 1])
    ensures OccursAt(s, r, |s| - |left|)
    ensures r == [] || (!IsSpace(r[0]) && !IsSpace(r[|r| - 1]))
  {
    assert s[|s| - |left|..][..|r|] == s[|s| - |left|..|s| - |left| + |r|];
    if r != [] {
      assert r[0] == left[0];
    }
  }

  /** What `strip` removes is whitespace. */
  lemma StripRemovesSpace(s: string)
    ensures forall k :: 0 <= k < |s| - |StripLeft(s)| ==> IsSpace(s[k])
    ensures forall k :: |s| - |StripLeft(s)| + |Strip(s)| <= k < |s| ==> IsSpace(s[k])
  {
    var left := StripLeft(s);
    var lo := |s| - |left|;
    StripIsSlice(s);
    forall k | lo + |Strip(s)| <= k < |s| ensures IsSpace(s[k]) {
      assert s[k] == left[k - lo];
    }
  }

  // ---------------------------------------------------------------------
  // `str.split(sep)` and its inverse `sep.join(parts)`

  /** `s.split(sep)` for a non-empty separator: left to right, non-overlapping. */
  function Split(s: string, sep: string): (parts: seq<string>)
    requires |sep| > 0
    ensures |parts| >= 1
    decreases |s|
  {
    var i := IndexOf(s, sep);
    if i < 0 then [s] else [s[..i]] + Split(s[i + |sep|..], sep)
  }

  /** `sep.join(parts)`. */
  function Join(parts: seq<string>, sep: string): string {
    if |parts| == 0 then ""
    else if |parts| == 1 then parts[0]
    else parts[0] + sep + Join(parts[1..], sep)
  }

  /** A string is the concatenation of its slices around two cut points. */
  lemma ThreeSlices(s: string, i: int, j: int)
    requires 0 <= i <= j <= |s|
    ensures s == s[..i] + s[i..j] + s[j..]
  {
    assert s[i..] == s[i..j] + s[j..];
  }

  /** Joining a first part in front of at least one more. */
  lemma JoinCons(a: string, tail: seq<string>, sep: string)
    requires |tail| >= 1
    ensures Join([a] + tail, sep) == a + sep + Join(tail, sep)
  {
    assert ([a] + tail)[1..] == tail;
  }

  /** One step of a split: the text before the first separator, then the split of the rest. */
  lemma SplitStep(s: string, sep: string)
    requires |sep| > 0
    ensures var i := IndexOf(s, sep);
      && (i < 0 ==> Split(s, sep) == [s])
      && (i >= 0 ==>
            && i + |sep| <= |s|
            && Split(s, sep) == [s[..i]] + Split(s[i + |sep|..], sep)
            && s == s[..i] + sep + s[i + |sep|..])
  {
    var i := IndexOf(s, sep);
    if i >= 0 {
      ThreeSlices(s, i, i + |sep|);
    }
  }

  /** Joining the parts of a split with the separator gives back the string. */
  lemma {:induction false} JoinSplit(s: string, sep: string)
    requires |sep| > 0
    ensures Join(Split(s, sep), sep) == s
    decreases |s|
  {
    SplitStep(s, sep);
    var i := IndexOf(s, sep);
    if i >= 0 {
      var rest := s[i + |sep|..];
      JoinSplit(rest, sep);
      JoinCons(s[..i], Split(rest, sep), sep);
    }
  }

  /** No part of a split contains the separator. */
  lemma {:induction false} SplitPartsHaveNoSeparator(s: string, sep: string)
    requires |sep| > 0
    ensures forall p :: p in Split(s, sep) ==> !Contains(p, sep)
    decreases |s|
  {
    var i := IndexOf(s, sep);
    if i >= 0 {
      SplitPartsHaveNoSeparator(s[i + |sep|..], sep);
      forall k | 0 <= k ensures !OccursAt(s[..i], sep, k) {
        if k + |sep| <= i {
          assert k < i && !OccursAt(s, sep, k);
          assert s[..i][k..k + |sep|] == s[k..k + |sep|];
        }
      }
    }
  }

  /**
   * The first part of `a + " - " + rest` is `a` exactly when `a + " -"` holds
   * no `" - "` (no separator inside `a` or straddling its end), and then the
   * other parts are those of `rest`.
   */
  lemma {:induction false} SplitFirstPart(a: string, rest: string)
    ensures Split(a + " - " + rest, " - ")[0] == a <==> !Contains(a + " -", " - ")
    ensures !Contains(a + " -", " - ") ==> Split(a + " - " + rest, " - ") == [a] + Split(rest, " - ")
  {
    var s := a + " - " + rest;
    var head := a + " -";
    assert OccursAt(s, " - ", |a|) by {
      assert s[|a|..|a| + 3] == " - ";
    }
    forall k | 0 <= k < |a| ensures OccursAt(s, " - ", k) <==> OccursAt(head, " - ", k) {
      assert s[k..k + 3] == head[k..k + 3];
    }
    var i := IndexOf(s, " - ");
    if !Contains(head, " - ") {
      assert i == |a|;
      assert s[..|a|] == a;
      assert s[|a| + 3..] == rest;
    } else {
      var k :| OccursAt(head, " - ", k);
      assert OccursAt(s, " - ", k);
      assert |Split(s, " - ")[0]| == i < |a|;
    }
  }

  /** `SplitFirstPart` for a string already known to be `a + " - " + rest`. */
  lemma SplitAfterFirst(s: string, a: string, rest: string)
    requires s == a + " - " + rest && !Contains(a + " -", " - ")
    ensures Split(s, " - ") == [a] + Split(rest, " - ")
  {
    SplitFirstPart(a, rest);
  }

  // ---------------------------------------------------------------------
  // Paths (`str.rfind`, `os.path.basename`, `os.path.splitext`)

  /** `s.rfind(c)`: the last index of `c` in `s`, or -1. */
  function LastIndexOf(s: string, c: char): (r: int)
    ensures -1 <= r < |s|
    ensures r >= 0 ==> s[r] == c
    ensures forall k :: r < k < |s| ==> s[k] != c
  {
    if |s| == 0 then -1
    else if s[|s| - 1] == c then |s| - 1
    else LastIndexOf(s[..|s| - 1], c)
  }

  /** The last `c` of `a + b` is the last one of `b` if `b` has one, else the last one of `a`. */
  lemma {:induction false} LastIndexOfAppend(a: string, b: string, c: char)
    ensures LastIndexOf(a + b, c) ==
      if LastIndexOf(b, c) >= 0 then |a| + LastIndexOf(b, c) else LastIndexOf(a, c)
    decreases |b|
  {
    if |b| > 0 && b[|b| - 1] != c {
      assert (a + b)[..|a + b| - 1] == a + b[..|b| - 1];
      LastIndexOfAppend(a, b[..|b| - 1], c);
    } else if |b| == 0 {
      assert a + b == a;
    }
  }

  /** `os.path.basename(p)`: what follows the last `/`. */
  function Basename(p: string): (r: string)
    ensures |r| <= |p| && r == p[|p| - |r|..]
    ensures '/' !in r
    ensures |r| < |p| ==> p[|p| - |r| - 1] == '/'
  {
    var cut := LastIndexOf(p, '/') + 1;
    assert forall c :: c in p[cut..] ==> c != '/';
    p[cut..]
  }

  /** The base name of `dir + "/" + name` is `name` when `name` has no `/`. */
  lemma BasenameUnderDirectory(dir: string, name: string)
    requires '/' !in name
    ensures Basename(dir + "/" + name) == name
  {
    LastIndexOfAppend(dir + "/", name, '/');
    assert LastIndexOf(dir + "/", '/') == |dir|;
    assert (dir + "/" + name)[|dir| + 1..] == name;
  }

  /** Some character of `p[lo..hi]` is not a dot. */
  predicate HasNonDot(p: string, lo: int, hi: int)
    requires 0 <= lo && hi <= |p|
  {
    exists k | lo <= k < hi :: p[k] != '.'
  }

  /**
   * `os.path.splitext(p)[0]`: `p` without its last extension. The extension
   * starts at the last dot of the final path component, provided that some
   * character before that dot in the component is not a dot itself (leading
   * dots do not start an extension).
   */
  function StripExt(p: string): (root: string)
    ensures |root| <= |p| && root == p[..|root|]
    ensures var ext := p[|root|..];
      ext == [] || (ext[0] == '.' && forall k :: 0 < k < |ext| ==> ext[k] != '.' && ext[k] != '/')
    ensures |root| < |p| ==> HasNonDot(p, LastIndexOf(p, '/') + 1, |root|)
    ensures |root| == |p| ==>
      forall i, j :: LastIndexOf(p, '/') < i < j < |p| && p[i] != '.' ==> p[j] != '.'
  {
    var sep := LastIndexOf(p, '/');
    var dot := LastIndexOf(p, '.');
    if dot > sep && HasNonDot(p, sep + 1, dot) then p[..dot] else p
  }

  /** Dot-freeness of a range is the same seen inside `name` or inside a string that contains `name` at `off`. */
  lemma HasNonDotShift(p: string, off: nat, name: string, lo: int, hi: int)
    requires off + |name| <= |p| && p[off..off + |name|] == name
    requires 0 <= lo <= hi <= |name|
    ensures HasNonDot(p, off + lo, off + hi) == HasNonDot(name, lo, hi)
  {
    if HasNonDot(name, lo, hi) {
      var k :| lo <= k < hi && name[k] != '.';
      assert p[off + k] == p[off..off + |name|][k];
    }
    if HasNonDot(p, off + lo, off + hi) {
      var k :| off + lo <= k < off + hi && p[k] != '.';
      assert name[k - off] == p[k];
    }
  }

  /** Only the final component's extension is cut: a directory prefix is kept whole. */
  lemma StripExtUnderDirectory(dir: string, name: string)
    requires '/' !in name
    ensures StripExt(dir + "/" + name) == dir + "/" + StripExt(name)
  {
    var p := dir + "/" + name;
    var off := |dir| + 1;
    LastIndexOfAppend(dir + "/", name, '/');
    LastIndexOfAppend(dir + "/", name, '.');
    assert LastIndexOf(dir + "/", '/') == |dir|;
    assert LastIndexOf(name, '/') == -1;
    var dot := LastIndexOf(p, '.');
    var ndot := LastIndexOf(name, '.');
    assert LastIndexOf(p, '/') == |dir|;
    if ndot >= 0 {
      assert dot == off + ndot;
      assert p[off..off + |name|] == name;
      HasNonDotShift(p, off, name, 0, ndot);
      assert p[..dot] == dir + "/" + name[..ndot];
    } else {
      assert dot <= |dir|;
    }
  }

  // ---------------------------------------------------------------------
  // Decimal integers (`int(text)` and `str(n)`)

  predicate IsDigit(c: char) {
    '0' as int <= c as int <= '9' as int
  }

  /** A non-empty run of ASCII decimal digits. */
  predicate IsDigits(s: string) {
    |s| > 0 && forall k :: 0 <= k < |s| ==> IsDigit(s[k])
  }

  /** The value of a run of decimal digits. */
  function DigitsValue(s: string): nat
    requires forall k :: 0 <= k < |s| ==> IsDigit(s[k])
  {
    if |s| == 0 then 0
    else
      assert IsDigit(s[|s| - 1]);
      DigitsValue(s[..|s| - 1]) * 10 + (s[|s| - 1] as int - '0' as int)
  }

  /** `int(text)`: optional surrounding whitespace, an optional sign, then decimal digits; None stands for ValueError. */
  function ParseInt(text: string): (r: Option<int>) {
    var t := Strip(text);
    if |t| > 0 && (t[0] == '-' || t[0] == '+') then
      if IsDigits(t[1..]) then
        Some((if t[0] == '-' then -1 else 1) * DigitsValue(t[1..]))
      else None
    else if IsDigits(t) then Some(DigitsValue(t))
    else None
  }

  function DigitChar(d: nat): char
    requires d < 10
  {
    ('0' as int + d) as char
  }

  /** `str(n)` for a natural number. */
  function NatToString(n: nat): (s: string)
    ensures IsDigits(s)
  {
    if n < 10 then [DigitChar(n)] else NatToString(n / 10) + [DigitChar(n % 10)]
  }

  /** `str(n)` (and `f"{n}"`) for an integer. */
  function IntToString(n: int): string {
    if n < 0 then "-" + NatToString(-n) else NatToString(n)
  }

  lemma {:induction false} DigitsValueOfNatToString(n: nat)
    ensures DigitsValue(NatToString(n)) == n
  {
    if n >= 10 {
      DigitsValueOfNatToString(n / 10);
      var s := NatToString(n);
      assert s[..|s| - 1] == NatToString(n / 10);
    }
  }

  /** Reading back a written integer gives the integer: `int(str(n)) == n`. */
  lemma ParseIntRoundTrip(n: int)
    ensures ParseInt(IntToString(n)) == Some(n)
  {
    var s := IntToString(n);
    var m := if n < 0 then -n else n;
    DigitsValueOfNatToString(m);
    var digits := NatToString(m);
    assert !IsSpace(s[0]) && !IsSpace(s[|s| - 1]);
    assert StripLeft(s) == s;
    assert Strip(s) == s;
    if n < 0 {
      assert s[1..] == digits;
    } else {
      assert s == digits;
    }
  }
}
