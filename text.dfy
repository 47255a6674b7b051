/** The string operations of Go's standard library that the command relies
    on: `strings.TrimSpace`, `strings.ToLower`, `strings.ReplaceAll` with a
    one-character pattern, and byte-wise string ordering. */
module Text {

  /** Go's `unicode.IsSpace`: the ASCII spaces, NEL, NO-BREAK SPACE and the
      other code points of Unicode's White_Space property. */
  predicate IsSpace(c: char)
  {
    var n := c as int;
    (0x09 <= n <= 0x0D) || n == 0x20 || n == 0x85 || n == 0xA0
    || n == 0x1680 || (0x2000 <= n <= 0x200A) || n == 0x2028 || n == 0x2029
    || n == 0x202F || n == 0x205F || n == 0x3000
  }

  /** Drops leading white space. */
  function TrimLeft(s: string): (r: string)
    ensures |r| <= |s| && r == s[|s| - |r|..]
    ensures forall i :: 0 <= i < |s| - |r| ==> IsSpace(s[i])
    ensures r == [] || !IsSpace(r[0])
    decreases |s|
  {
    if s != [] && IsSpace(s[0]) then TrimLeft(s[1..]) else s
  }

  /** Drops trailing white space. */
  function TrimRight(s: string): (r: string)
    ensures |r| <= |s| && r == s[..|r|]
    ensures forall i :: |r| <= i < |s| ==> IsSpace(s[i])
    ensures r == [] || !IsSpace(r[|r| - 1])
    decreases |s|
  {
    if s != [] && IsSpace(s[|s| - 1]) then TrimRight(s[..|s| - 1]) else s
  }

  predicate AllSpace(s: string)
  {
    forall i :: 0 <= i < |s| ==> IsSpace(s[i])
  }

  /** `strings.TrimSpace`. */
  function TrimSpace(s: string): string
  {
    TrimRight(TrimLeft(s))
  }

  /** What `TrimSpace` promises: `s` is its result framed by white space
      only, and the result neither starts nor ends with white space. */
  lemma TrimSpaceFramed(s: string)
    ensures var r := TrimSpace(s);
      (r == [] || (!IsSpace(r[0]) && !IsSpace(r[|r| - 1])))
      && exists pre, post :: s == pre + r + post && AllSpace(pre) && AllSpace(post)
  {
    var l := TrimLeft(s);
    var r := TrimRight(l);
    TrimSpaceEnds(l, r);
    var pre, post := s[..|s| - |l|], l[|r|..];
    Regroup(s, |s| - |l|, l, r);
    SpacePrefix(s, |s| - |l|);
    SpaceSuffix(l, |r|);
    FramedBy(s, pre, r, post);
  }

  lemma FramedBy(s: string, pre: string, r: string, post: string)
    requires s == pre + r + post && AllSpace(pre) && AllSpace(post)
    ensures exists pre', post' :: s == pre' + r + post' && AllSpace(pre') && AllSpace(post')
  {
  }

  lemma TrimSpaceEnds(l: string, r: string)
    requires l == [] || !IsSpace(l[0])
    requires r == TrimRight(l)
    ensures r == [] || (!IsSpace(r[0]) && !IsSpace(r[|r| - 1]))
  {
    if r != [] {
      assert r[0] == l[0];
    }
  }

  lemma SpacePrefix(s: string, n: nat)
    requires n <= |s| && forall i :: 0 <= i < n ==> IsSpace(s[i])
    ensures AllSpace(s[..n])
  {
    forall i | 0 <= i < n ensures IsSpace(s[..n][i]) {
      assert s[..n][i] == s[i];
    }
  }

  lemma SpaceSuffix(s: string, n: nat)
    requires n <= |s| && forall i :: n <= i < |s| ==> IsSpace(s[i])
    ensures AllSpace(s[n..])
  {
    forall i | 0 <= i < |s| - n ensures IsSpace(s[n..][i]) {
      assert s[n..][i] == s[n + i];
    }
  }

  lemma Regroup(s: string, k: nat, l: string, r: string)
    requires k <= |s| && l == s[k..] && |r| <= |l| && r == l[..|r|]
    ensures s == s[..k] + r + l[|r|..]
  {
    assert s == s[..k] + l;
    assert l == r + l[|r|..];
  }

  /** A text that neither starts nor ends with white space is kept as it
      is. */
  lemma TrimSpaceUnpadded(s: string)
    requires s == [] || (!IsSpace(s[0]) && !IsSpace(s[|s| - 1]))
    ensures TrimSpace(s) == s
  {
    assert TrimLeft(s) == s;
    assert TrimRight(s) == s;
  }

  /** Trimming twice is trimming once. */
  lemma TrimSpaceIdempotent(s: string)
    ensures TrimSpace(TrimSpace(s)) == TrimSpace(s)
  {
    TrimSpaceFramed(s);
    TrimSpaceUnpadded(TrimSpace(s));
  }

  /** `strings.ToLower` on ASCII letters; every other code point is kept. */
  function LowerChar(c: char): char
  {
    if 'A' <= c <= 'Z' then (c as int + 32) as char else c
  }

  function Lower(s: string): string
  {
    seq(|s|, i requires 0 <= i < |s| => LowerChar(s[i]))
  }

  /** `strings.ReplaceAll(s, [from], to)`: every occurrence of the character
      `from` is replaced by `to`, everything else is kept in order. */
  function ReplaceAll(s: string, from: char, to: string): (r: string)
    ensures forall i :: 0 <= i < |r| ==> (r[i] in s && r[i] != from) || r[i] in to
    ensures from !in to ==> from !in r
    decreases |s|
  {
    if s == [] then []
    else (if s[0] == from then to else [s[0]]) + ReplaceAll(s[1..], from, to)
  }

  /** Replacing a character by itself changes nothing. */
  lemma {:induction false} ReplaceAllBySelf(s: string, c: char)
    ensures ReplaceAll(s, c, [c]) == s
    decreases |s|
  {
    if s != [] {
      ReplaceAllBySelf(s[1..], c);
    }
  }

  /** Every line feed of `s` ends a "\r\n" pair. */
  predicate CrlfOnly(s: string)
  {
    forall i :: 0 <= i < |s| && s[i] == '\n' ==> 0 < i && s[i - 1] == '\r'
  }

  /** After "\n" is replaced by "\r\n", every line feed is preceded by a
      carriage return. */
  lemma {:induction false} ReplaceAllMakesCrlf(s: string)
    ensures CrlfOnly(ReplaceAll(s, '\n', "\r\n"))
    decreases |s|
  {
    if s != [] {
      ReplaceAllMakesCrlf(s[1..]);
      var head := if s[0] == '\n' then "\r\n" else [s[0]];
      var tail := ReplaceAll(s[1..], '\n', "\r\n");
      var r := ReplaceAll(s, '\n', "\r\n");
      assert r == head + tail;
      assert tail != [] ==> tail[0] != '\n';
      forall i | 0 <= i < |r| ensures r[i] == '\n' ==> 0 < i && r[i - 1] == '\r' {
        if i < |head| {
          assert r[i] == head[i];
          assert i > 0 ==> r[i - 1] == head[i - 1];
        } else if i == |head| {
          assert r[i] == tail[0];
        } else {
          var j := i - |head|;
          assert r[i] == tail[j] && r[i - 1] == tail[j - 1];
          assert tail[j] == '\n' ==> tail[j - 1] == '\r';
        }
      }
    }
  }

  /** The inverse normalisation: every "\r\n" becomes "\n". */
  function CrlfToLf(s: string): string
    decreases |s|
  {
    if |s| >= 2 && s[0] == '\r' && s[1] == '\n' then "\n" + CrlfToLf(s[2..])
    else if s == [] then []
    else [s[0]] + CrlfToLf(s[1..])
  }

  /** Windows line endings are undone exactly by `CrlfToLf`: the rewrite
      loses no information, whatever carriage returns `s` already held. */
  lemma {:induction false} CrlfRoundTrip(s: string)
    ensures CrlfToLf(ReplaceAll(s, '\n', "\r\n")) == s
    decreases |s|
  {
    if s != [] {
      var tail := ReplaceAll(s[1..], '\n', "\r\n");
      CrlfRoundTrip(s[1..]);
      if s[0] == '\n' {
        assert ReplaceAll(s, '\n', "\r\n") == "\r\n" + tail;
        assert ("\r\n" + tail)[2..] == tail;
      } else {
        assert ReplaceAll(s, '\n', "\r\n") == [s[0]] + tail;
        assert tail != [] ==> tail[0] != '\n';
        assert ([s[0]] + tail)[1..] == tail;
      }
    }
  }

  predicate IsDigit(c: char)
  {
    '0' <= c <= '9'
  }

  predicate AllDigits(s: string)
  {
    forall i :: 0 <= i < |s| ==> IsDigit(s[i])
  }

  /** Go's `<` on strings: byte-wise lexicographic order (code point order
      here, which agrees with it on ASCII). */
  predicate LexLess(a: string, b: string)
    decreases |a|
  {
    b != [] && (a == [] || a[0] < b[0] || (a[0] == b[0] && LexLess(a[1..], b[1..])))
  }

  lemma {:induction false} LexLessIrreflexive(a: string)
    ensures !LexLess(a, a)
    decreases |a|
  {
    if a != [] {
      LexLessIrreflexive(a[1..]);
    }
  }

  /** Between strings of equal length the order is decided inside them, so
      anything appended afterwards does not change it. */
  lemma {:induction false} LexLessAppend(a: string, b: string, x: string, y: string)
    requires |a| == |b| && LexLess(a, b)
    ensures LexLess(a + x, b + y)
    decreases |a|
  {
    assert (a + x)[0] == a[0] && (b + y)[0] == b[0];
    if a[0] == b[0] && !(a[0] < b[0]) {
      LexLessAppend(a[1..], b[1..], x, y);
      assert (a + x)[1..] == a[1..] + x;
      assert (b + y)[1..] == b[1..] + y;
    }
  }

  /** A common prefix does not change the order. */
  lemma {:induction false} LexLessPrefix(p: string, x: string, y: string)
    requires LexLess(x, y)
    ensures LexLess(p + x, p + y)
    decreases |p|
  {
    if p == [] {
      assert p + x == x && p + y == y;
    } else {
      LexLessPrefix(p[1..], x, y);
      assert (p + x)[1..] == p[1..] + x;
      assert (p + y)[1..] == p[1..] + y;
    }
  }
}
