/** Python string helpers used by the transcript pipeline: whitespace, `strip`,
    `" ".join`, and `str.find`. */
module Text {

  /** `str.isspace` on one character, which is also what `\s` matches. */
  predicate IsSpace(c: char) {
    || '\t' <= c <= '\r'
    || '\U{1c}' <= c <= ' '
    || c == '\U{85}' || c == '\U{a0}' || c == '\U{1680}'
    || '\U{2000}' <= c <= '\U{200a}'
    || c == '\U{2028}' || c == '\U{2029}' || c == '\U{202f}' || c == '\U{205f}' || c == '\U{3000}'
  }

  /** All of them by code point. */
  lemma SpacesByCodePoint(c: char)
    ensures IsSpace(c) <==>
      c as int in {0x9, 0xa, 0xb, 0xc, 0xd, 0x1c, 0x1d, 0x1e, 0x1f, 0x20, 0x85, 0xa0, 0x1680, 0x2000, 0x2001,
        0x2002, 0x2003, 0x2004, 0x2005, 0x2006, 0x2007, 0x2008, 0x2009, 0x200a, 0x2028, 0x2029, 0x202f, 0x205f, 0x3000}
  {
  }

  predicate Blank(s: string) {
    forall i | 0 <= i < |s| :: IsSpace(s[i])
  }

  /** The end of the white space that begins at `i`. */
  function Lead(s: string, i: nat): (n: nat)
    requires i <= |s|
    ensures i <= n <= |s|
    decreases |s| - i
  {
    if i < |s| && IsSpace(s[i]) then Lead(s, i + 1) else i
  }

  /** The start of the white space that ends at `i`. */
  function Trail(s: string, i: nat): (n: nat)
    requires i <= |s|
    ensures n <= i
  {
    if i > 0 && IsSpace(s[i - 1]) then Trail(s, i - 1) else i
  }

  function LStrip(s: string): string {
    s[Lead(s, 0)..]
  }

  function RStrip(s: string): string {
    s[..Trail(s, |s|)]
  }

  /** `s.strip()`. */
  function Strip(s: string): string {
    RStrip(LStrip(s))
  }

  /** `" ".join(parts)`. */
  function Join(parts: seq<string>): string {
    if |parts| == 0 then ""
    else if |parts| == 1 then parts[0]
    else Join(parts[..|parts| - 1]) + " " + parts[|parts| - 1]
  }

  predicate OccursAt(text: string, pattern: string, i: nat) {
    i + |pattern| <= |text| && text[i..i + |pattern|] == pattern
  }

  /** `text.find(pattern, from)`: the first occurrence at or after `from`, or -1. */
  function Find(text: string, pattern: string, from: nat): (r: int)
    ensures r == -1 || from <= r
    decreases |text| - from
  {
    if from + |pattern| > |text| then -1
    else if OccursAt(text, pattern, from) then from
    else Find(text, pattern, from + 1)
  }

  lemma {:induction false} FindFacts(text: string, pattern: string, from: nat)
    ensures var r := Find(text, pattern, from);
      && (r == -1 || OccursAt(text, pattern, r))
      && forall i: nat | from <= i && (r == -1 || i < r) :: !OccursAt(text, pattern, i)
    decreases |text| - from
  {
    if from + |pattern| <= |text| && !OccursAt(text, pattern, from) {
      FindFacts(text, pattern, from + 1);
    }
  }

  lemma {:induction false} LeadFacts(s: string, i: nat)
    requires i <= |s|
    ensures forall j | i <= j < Lead(s, i) :: IsSpace(s[j])
    ensures Lead(s, i) < |s| ==> !IsSpace(s[Lead(s, i)])
    decreases |s| - i
  {
    if i < |s| && IsSpace(s[i]) {
      LeadFacts(s, i + 1);
    }
  }

  lemma {:induction false} TrailFacts(s: string, i: nat)
    requires i <= |s|
    ensures forall j | Trail(s, i) <= j < i :: IsSpace(s[j])
    ensures Trail(s, i) > 0 ==> !IsSpace(s[Trail(s, i) - 1])
  {
    if i > 0 && IsSpace(s[i - 1]) {
      TrailFacts(s, i - 1);
    }
  }

  lemma LStripFacts(s: string)
    ensures var r := LStrip(s);
      && |r| <= |s| && r == s[|s| - |r|..]
      && (r == "" <==> Blank(s))
      && (r != "" ==> !IsSpace(r[0]))
  {
    LeadFacts(s, 0);
  }

  lemma RStripFacts(s: string)
    ensures var r := RStrip(s);
      && |r| <= |s| && r == s[..|r|]
      && (r == "" <==> Blank(s))
      && (r != "" ==> !IsSpace(r[|r| - 1]))
  {
    TrailFacts(s, |s|);
  }

  lemma {:induction false} LeadAppend(a: string, b: string, i: nat)
    requires i <= |a| && Lead(a, i) < |a|
    ensures Lead(a + b, i) == Lead(a, i)
    decreases |a| - i
  {
    if IsSpace(a[i]) {
      LeadAppend(a, b, i + 1);
    }
  }

  lemma {:induction false} TrailAppend(a: string, b: string, i: nat)
    requires i <= |b| && Trail(b, i) > 0
    ensures Trail(a + b, |a| + i) == |a| + Trail(b, i)
  {
    if IsSpace(b[i - 1]) {
      TrailAppend(a, b, i - 1);
    }
  }

  lemma LStripAppend(a: string, b: string)
    requires !Blank(a)
    ensures LStrip(a + b) == LStrip(a) + b
  {
    LeadFacts(a, 0);
    LeadAppend(a, b, 0);
  }

  lemma RStripAppend(a: string, b: string)
    requires !Blank(b)
    ensures RStrip(a + b) == a + RStrip(b)
  {
    TrailFacts(b, |b|);
    TrailAppend(a, b, |b|);
  }

  lemma Reassociate(a: string, b: string, c: string)
    ensures a + b + c == a + (b + c)
  {
  }

  /** Stripping a text with nonblank ends touches only those ends. */
  lemma StripEnds(a: string, mid: string, b: string)
    requires !Blank(a) && !Blank(b)
    ensures Strip(a + mid + b) == LStrip(a) + (mid + RStrip(b))
  {
    Reassociate(a, mid, b);
    LStripAppend(a, mid + b);
    Reassociate(LStrip(a), mid, b);
    RStripAppend(LStrip(a) + mid, b);
    Reassociate(LStrip(a), mid, RStrip(b));
  }

  /** A text whose last character is not white space loses nothing on the right. */
  lemma StripSolidEnd(s: string)
    requires s != "" && !IsSpace(s[|s| - 1])
    ensures Strip(s) == LStrip(s) != ""
  {
    assert !Blank(s);
    LStripFacts(s);
    RStripFacts(LStrip(s));
    var l := LStrip(s);
    assert l[|l| - 1] == s[|s| - 1];
  }

  lemma StripIdempotent(s: string)
    ensures Strip(Strip(s)) == Strip(s)
    ensures Strip(s) == "" <==> Blank(s)
  {
    var l := LStrip(s);
    LStripFacts(s);
    RStripFacts(l);
    if !Blank(s) {
      assert !IsSpace(l[0]);
      assert !Blank(l);
      var r := RStrip(l);
      assert r[0] == l[0];
      LStripFacts(r);
    }
  }

  lemma {:induction false} JoinSplit(a: seq<string>, b: seq<string>)
    requires a != [] && b != []
    ensures Join(a + b) == Join(a) + " " + Join(b)
  {
    var n := |b| - 1;
    var ab := a + b;
    assert ab[..|ab| - 1] == a + b[..n] && ab[|ab| - 1] == b[n];
    if n == 0 {
      assert a + b[..n] == a;
    } else {
      JoinSplit(a, b[..n]);
      assert Join(a) + " " + Join(b[..n]) + " " + b[n] == Join(a) + " " + (Join(b[..n]) + " " + b[n]);
    }
  }
}
