/** The parts of Ruby's String and Array behaviour the core relies on:
    `String#strip`, ActiveSupport's `blank?`, and `Array#join`. */
module RubyText {

  /** The characters `String#strip` removes: NUL, horizontal tab, line feed,
      vertical tab, form feed, carriage return and space. */
  predicate IsStripSpace(c: char) {
    c == '\0' || c == ' ' || ('\t' <= c <= '\r')
  }

  /** The ASCII members of the POSIX class `[[:space:]]` that `blank?` matches. */
  predicate IsBlankSpace(c: char) {
    c == ' ' || ('\t' <= c <= '\r')
  }

  /** `s.blank?` for a string: empty or made only of white space. */
  predicate Blank(s: string) {
    forall i :: 0 <= i < |s| ==> IsBlankSpace(s[i])
  }

  predicate StartsWith(s: string, prefix: string) {
    |prefix| <= |s| && s[..|prefix|] == prefix
  }

  predicate EndsWith(s: string, suffix: string) {
    |suffix| <= |s| && s[|s| - |suffix|..] == suffix
  }

  /** `t` occurs in `s` starting at index `i`. */
  predicate OccursAt(s: string, t: string, i: nat) {
    i + |t| <= |s| && s[i..i + |t|] == t
  }

  /** `s.include?(t)`. */
  predicate Contains(s: string, t: string) {
    exists i: nat :: i <= |s| && OccursAt(s, t, i)
  }

  /** `s.lstrip`: the longest suffix of `s` that does not start with white space. */
  function StripLeft(s: string): (r: string)
    ensures |r| <= |s| && r == s[|s| - |r|..]
    ensures r == [] || !IsStripSpace(r[0])
    ensures forall i :: 0 <= i < |s| - |r| ==> IsStripSpace(s[i])
  {
    if s != [] && IsStripSpace(s[0]) then StripLeft(s[1..]) else s
  }

  /** `s.rstrip`: the longest prefix of `s` that does not end with white space. */
  function StripRight(s: string): (r: string)
    ensures |r| <= |s| && r == s[..|r|]
    ensures r == [] || !IsStripSpace(r[|r| - 1])
    ensures forall i :: |r| <= i < |s| ==> IsStripSpace(s[i])
  {
    if s != [] && IsStripSpace(s[|s| - 1]) then StripRight(s[..|s| - 1]) else s
  }

  /** `s.strip`. */
  function Strip(s: string): string {
    StripRight(StripLeft(s))
  }

  /** `lstrip` removes exactly a white-space prefix in front of a visible character. */
  lemma StripLeftPadded(pre: string, y: string)
    requires forall i :: 0 <= i < |pre| ==> IsStripSpace(pre[i])
    requires y != [] && !IsStripSpace(y[0])
    ensures StripLeft(pre + y) == y
  {
    var s := pre + y;
    var l := StripLeft(s);
    var cut := |s| - |l|;
    assert s[|pre|] == y[0];
    assert cut <= |pre|;
    assert l != [] && l[0] == s[cut];
    assert forall i :: 0 <= i < |pre| ==> s[i] == pre[i];
    assert cut == |pre|;
  }

  /** `rstrip` removes exactly a white-space suffix after a visible character. */
  lemma StripRightPadded(y: string, post: string)
    requires forall i :: 0 <= i < |post| ==> IsStripSpace(post[i])
    requires y != [] && !IsStripSpace(y[|y| - 1])
    ensures StripRight(y + post) == y
  {
    var l := y + post;
    var r := StripRight(l);
    assert l[|y| - 1] == y[|y| - 1];
    assert |r| >= |y|;
    assert r != [] && r[|r| - 1] == l[|r| - 1];
    assert forall i :: |y| <= i < |l| ==> l[i] == post[i - |y|];
    assert |r| == |y|;
  }

  /** Stripping a text padded with white space on both sides gives back the text,
      provided the text itself begins and ends with a visible character. */
  lemma StripPadded(pre: string, x: string, post: string)
    requires forall i :: 0 <= i < |pre| ==> IsStripSpace(pre[i])
    requires forall i :: 0 <= i < |post| ==> IsStripSpace(post[i])
    requires x != [] && !IsStripSpace(x[0]) && !IsStripSpace(x[|x| - 1])
    ensures Strip(pre + x + post) == x
  {
    assert pre + x + post == pre + (x + post);
    StripLeftPadded(pre, x + post);
    StripRightPadded(x, post);
  }

  /** `lines.join(sep)`. */
  function Join(lines: seq<string>, sep: string): string {
    if |lines| == 0 then ""
    else if |lines| == 1 then lines[0]
    else lines[0] + sep + Join(lines[1..], sep)
  }

  /** Joining a concatenation joins the two halves with one more separator. */
  lemma {:induction false} JoinAppend(a: seq<string>, b: seq<string>, sep: string)
    requires a != [] && b != []
    ensures Join(a + b, sep) == Join(a, sep) + sep + Join(b, sep)
  {
    if |a| == 1 {
      assert (a + b)[1..] == b;
    } else {
      assert (a + b)[1..] == a[1..] + b;
      JoinAppend(a[1..], b, sep);
    }
  }

  /** A joined text begins with its first line. */
  lemma {:induction false} JoinStartsWith(lines: seq<string>, sep: string)
    requires lines != []
    ensures StartsWith(Join(lines, sep), lines[0])
  {
    if |lines| > 1 {
      assert Join(lines, sep) == lines[0] + (sep + Join(lines[1..], sep));
    }
  }

  /** A joined text ends with its last line. */
  lemma {:induction false} JoinEndsWith(lines: seq<string>, sep: string)
    requires lines != []
    ensures EndsWith(Join(lines, sep), lines[|lines| - 1])
  {
    if |lines| > 1 {
      JoinEndsWith(lines[1..], sep);
      var j := Join(lines[1..], sep);
      var last := lines[|lines| - 1];
      assert Join(lines, sep) == (lines[0] + sep) + j;
      assert j[|j| - |last|..] == last;
    }
  }

  /** Every line of a joined text occurs in it verbatim. */
  lemma {:induction false} JoinContainsLine(lines: seq<string>, sep: string, k: nat)
    requires k < |lines|
    ensures Contains(Join(lines, sep), lines[k])
  {
    var s := Join(lines, sep);
    if k == 0 {
      JoinStartsWith(lines, sep);
      assert OccursAt(s, lines[0], 0);
    } else {
      JoinContainsLine(lines[1..], sep, k - 1);
      var rest := Join(lines[1..], sep);
      var t := lines[k];
      assert lines[1..][k - 1] == t;
      var i: nat :| i <= |rest| && OccursAt(rest, t, i);
      var off := |lines[0]| + |sep|;
      assert s == (lines[0] + sep) + rest;
      assert s[off + i..off + i + |t|] == rest[i..i + |t|];
      assert OccursAt(s, t, off + i);
    }
  }

  /** A text that is some prefix, then `t`, then some suffix, contains `t`. */
  lemma ContainsInfix(p: string, t: string, q: string)
    ensures Contains(p + t + q, t)
  {
    var s := p + t + q;
    assert s[|p|..|p| + |t|] == t;
    assert OccursAt(s, t, |p|);
  }
}
