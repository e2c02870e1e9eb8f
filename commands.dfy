/**
 * How the session loop reads one input line: `/exit` and `/rewind` in any
 * letter case are commands, a line of only whitespace is skipped, and any
 * other line is sent as a prompt with surrounding whitespace removed.
 */
module Commands {

  /** The characters Python's `str.strip()` removes. */
  predicate IsSpace(c: char)
  {
    ('\t' <= c <= '\r') || ('\U{1C}' <= c <= ' ') || c == '\U{85}' || c == '\U{A0}' ||
    c == '\U{1680}' || ('\U{2000}' <= c <= '\U{200A}') || c == '\U{2028}' || c == '\U{2029}' ||
    c == '\U{202F}' || c == '\U{205F}' || c == '\U{3000}'
  }

  ghost predicate AllSpace(s: string)
  {
    forall k :: 0 <= k < |s| ==> IsSpace(s[k])
  }

  /** `s` without its leading whitespace. */
  function StripLeft(s: string): (r: string)
    ensures |r| <= |s| && r == s[|s| - |r|..]
    ensures forall k :: 0 <= k < |s| - |r| ==> IsSpace(s[k])
    ensures r != [] ==> !IsSpace(r[0])
  {
    if s != [] && IsSpace(s[0]) then StripLeft(s[1..]) else s
  }

  /** `s` without its trailing whitespace. */
  function StripRight(s: string): (r: string)
    ensures |r| <= |s| && r == s[..|r|]
    ensures forall k :: |r| <= k < |s| ==> IsSpace(s[k])
    ensures r != [] ==> !IsSpace(r[|r| - 1])
  {
    if s != [] && IsSpace(s[|s| - 1]) then StripRight(s[..|s| - 1]) else s
  }

  /** Python's `str.strip()`: `s` without whitespace at either end. */
  function Strip(s: string): (r: string)
    ensures |r| <= |s|
    ensures r == [] <==> AllSpace(s)
    ensures r != [] ==> !IsSpace(r[0]) && !IsSpace(r[|r| - 1])
    ensures var lo := |s| - |StripLeft(s)|;
      lo + |r| <= |s| && s[lo..lo + |r|] == r &&
      (forall k :: 0 <= k < lo ==> IsSpace(s[k])) &&
      (forall k :: lo + |r| <= k < |s| ==> IsSpace(s[k]))
  {
    var left := StripLeft(s);
    var r := StripRight(left);
    StripBothEnds(s, left, r);
    r
  }

  /**
   * Cutting leading whitespace and then trailing whitespace leaves a slice
   * of `s` with only whitespace around it, which is empty exactly when `s`
   * is all whitespace.
   */
  lemma StripBothEnds(s: string, left: string, r: string)
    requires |left| <= |s| && left == s[|s| - |left|..]
    requires forall k :: 0 <= k < |s| - |left| ==> IsSpace(s[k])
    requires left != [] ==> !IsSpace(left[0])
    requires |r| <= |left| && r == left[..|r|]
    requires forall k :: |r| <= k < |left| ==> IsSpace(left[k])
    requires r != [] ==> !IsSpace(r[|r| - 1])
    ensures r == [] <==> AllSpace(s)
    ensures r != [] ==> !IsSpace(r[0]) && !IsSpace(r[|r| - 1])
    ensures var lo := |s| - |left|;
      lo + |r| <= |s| && s[lo..lo + |r|] == r &&
      (forall k :: 0 <= k < lo ==> IsSpace(s[k])) &&
      (forall k :: lo + |r| <= k < |s| ==> IsSpace(s[k]))
  {
    var lo := |s| - |left|;
    forall k | lo + |r| <= k < |s| ensures IsSpace(s[k]) {
      assert s[k] == left[k - lo];
    }
    if r != [] {
      assert r[0] == left[0];
      assert s[lo] == r[0];
    }
  }

  lemma {:induction false} StripLeftPadded(a: string, t: string)
    requires AllSpace(a) && (t == [] || !IsSpace(t[0]))
    ensures StripLeft(a + t) == t
  {
    if a != [] {
      assert (a + t)[1..] == a[1..] + t;
      StripLeftPadded(a[1..], t);
    }
  }

  lemma {:induction false} StripRightPadded(t: string, b: string)
    requires AllSpace(b) && (t == [] || !IsSpace(t[|t| - 1]))
    ensures StripRight(t + b) == t
  {
    if b != [] {
      assert (t + b)[..|t + b| - 1] == t + b[..|b| - 1];
      StripRightPadded(t, b[..|b| - 1]);
    } else {
      assert t + b == t;
    }
  }

  /**
   * Strip is fully determined: whitespace around a text that neither starts
   * nor ends with whitespace is exactly what it removes.
   */
  lemma StripOfPadded(a: string, t: string, b: string)
    requires AllSpace(a) && AllSpace(b)
    requires t == [] || (!IsSpace(t[0]) && !IsSpace(t[|t| - 1]))
    ensures Strip(a + t + b) == t
  {
    if t == [] {
      assert a + t + b == a + b;
      assert AllSpace(a + b);
    } else {
      assert a + t + b == a + (t + b);
      StripLeftPadded(a, t + b);
      StripRightPadded(t, b);
    }
  }

  /** Python's `str.lower()` on ASCII letters; other characters are kept. */
  function Lower(s: string): (r: string)
    ensures |r| == |s|
    ensures forall k :: 0 <= k < |s| ==>
      r[k] == if 'A' <= s[k] <= 'Z' then s[k] - 'A' + 'a' else s[k]
  {
    if s == [] then []
    else
      var c := s[0];
      [if 'A' <= c <= 'Z' then c - 'A' + 'a' else c] + Lower(s[1..])
  }

  const ExitWord: string := "/exit"
  const RewindWord: string := "/rewind"

  /** What the session loop does with one input line. */
  datatype Command = Exit | Rewind | Blank | Prompt(text: string)

  /**
   * The commands are recognised on the raw line (so " /exit" is a prompt);
   * blank lines are skipped; the prompt is the stripped line.
   */
  function Dispatch(line: string): (c: Command)
    ensures c == Exit <==> Lower(line) == ExitWord
    ensures c == Rewind <==> Lower(line) == RewindWord
    ensures c == Blank <==> Lower(line) != ExitWord && Lower(line) != RewindWord && AllSpace(line)
    ensures c.Prompt? ==> c.text == Strip(line) && c.text != [] && |c.text| <= |line|
  {
    var lowered := Lower(line);
    if lowered == ExitWord then Exit
    else if lowered == RewindWord then Rewind
    else if Strip(line) == [] then Blank
    else Prompt(Strip(line))
  }

}
