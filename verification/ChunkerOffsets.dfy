/** Where sentences lie in the text, and what that means for the offsets, sizes and
    uniqueness of a packing. */
module ChunkerOffsets {
  import opened Text
  import opened Chunker

  // ----- Placement of sentences -----

  /** Sentence `i` is a slice of the text, set apart from its neighbours. */
  ghost predicate SentenceOk(text: string, ss: seq<Sentence>, i: nat)
    requires i < |ss|
  {
    var s := ss[i];
    && s.End() <= |text| && s.text == text[s.start..s.End()] && s.text != ""
    && (i > 0 ==> !IsSpace(s.text[0]) && ss[i - 1].End() < s.start)
    && (i + 1 < |ss| ==> !IsSpace(s.text[|s.text| - 1]))
  }

  ghost predicate WellPlaced(text: string, ss: seq<Sentence>) {
    && (forall i {:trigger SentenceOk(text, ss, i)} | 0 <= i < |ss| :: SentenceOk(text, ss, i))
    && (|ss| == 1 ==> !Blank(ss[0].text))
  }

  lemma NotBlankAt(s: string, i: nat)
    requires i < |s| && !IsSpace(s[i])
    ensures !Blank(s)
  {
  }

  lemma SentenceNotBlank(text: string, ss: seq<Sentence>, i: nat)
    requires WellPlaced(text, ss) && i < |ss|
    ensures !Blank(ss[i].text)
  {
    assert SentenceOk(text, ss, i);
    if i > 0 {
      NotBlankAt(ss[i].text, 0);
    } else if |ss| > 1 {
      NotBlankAt(ss[i].text, |ss[i].text| - 1);
    }
  }

  /** A sentence may stand before well placed ones if a separator lies between them. */
  lemma PrependPlaced(text: string, s: Sentence, rest: seq<Sentence>)
    requires WellPlaced(text, rest) && rest != []
    requires s.End() < rest[0].start < |text| && s.text == text[s.start..s.End()] && s.text != ""
    requires !IsSpace(s.text[|s.text| - 1]) && !IsSpace(text[rest[0].start])
    ensures WellPlaced(text, [s] + rest)
  {
    var ss := [s] + rest;
    forall i | 0 <= i < |ss| ensures SentenceOk(text, ss, i) {
      assert i > 0 ==> SentenceOk(text, rest, i - 1);
    }
  }

  /** Well placed sentences that start at `a` and leave only white space behind. */
  ghost predicate Covers(text: string, ss: seq<Sentence>, a: nat) {
    && WellPlaced(text, ss) && ss != [] && ss[0].start == a
    && ss[|ss| - 1].End() <= |text| && Blank(text[ss[|ss| - 1].End()..])
  }

  lemma OneSentenceCovers(text: string, s: Sentence)
    requires s.End() <= |text| && s.text == text[s.start..s.End()] && !Blank(s.text)
    requires Blank(text[s.End()..])
    ensures Covers(text, [s], s.start)
  {
    assert SentenceOk(text, [s], 0);
  }

  /** The last piece covers the rest of the text. */
  lemma LastPieceCovers(text: string, a: nat)
    requires PieceStart(text, a) && a < |text| && (a == 0 ==> !Blank(text))
    ensures Covers(text, [Sentence(a, text[a..])], a)
  {
    if a == 0 {
      assert text[a..] == text;
    } else {
      NotBlankAt(text[a..], 0);
    }
    OneSentenceCovers(text, Sentence(a, text[a..]));
  }

  /** The first piece from `a` on, if a separator ends it. */
  lemma PieceBeforeSeparator(text: string, a: nat)
    requires PieceStart(text, a) && a < |text| && NextSeparator(text, a) < |text|
    ensures var p := NextSeparator(text, a);
      a < p && !IsSpace(text[p - 1]) && p < SkipSpaces(text, p)
  {
    SeparatorFacts(text, a);
    assert !SeparatorAt(text, a);
  }

  lemma {:induction false} LocatedCovers(text: string, a: nat)
    requires PieceStart(text, a) && a < |text| && (a == 0 ==> !Blank(text))
    ensures Covers(text, Located(text, a), a)
    decreases |text| - a
  {
    hide Covers, Blank, IsSpace;
    var p := NextSeparator(text, a);
    if p == |text| {
      LastPieceCovers(text, a);
    } else if SkipSpaces(text, p) == |text| {
      LastSentenceCovers(text, a);
      assert Located(text, a) == [Sentence(a, text[a..p])];
    } else {
      LocatedCovers(text, SkipSpaces(text, p));
      FirstSentenceCovers(text, a, Located(text, SkipSpaces(text, p)));
    }
  }

  /** Only white space follows the piece. */
  lemma LastSentenceCovers(text: string, a: nat)
    requires PieceStart(text, a) && a < |text| && NextSeparator(text, a) < |text|
    requires SkipSpaces(text, NextSeparator(text, a)) == |text|
    ensures Covers(text, [Sentence(a, text[a..NextSeparator(text, a)])], a)
  {
    var p := NextSeparator(text, a);
    PieceBeforeSeparator(text, a);
    NotBlankAt(text[a..p], p - a - 1);
    SkipFacts(text, p);
    OneSentenceCovers(text, Sentence(a, text[a..p]));
  }

  /** More sentences follow it. */
  lemma FirstSentenceCovers(text: string, a: nat, rest: seq<Sentence>)
    requires PieceStart(text, a) && a < |text| && NextSeparator(text, a) < |text|
    requires var next := SkipSpaces(text, NextSeparator(text, a)); next < |text| && Covers(text, rest, next)
    ensures Covers(text, [Sentence(a, text[a..NextSeparator(text, a)])] + rest, a)
  {
    hide WellPlaced, Blank;
    PieceBeforeSeparator(text, a);
    PrependPlaced(text, Sentence(a, text[a..NextSeparator(text, a)]), rest);
  }

  /** For a text that is not blank, the recovered sentences are well placed. */
  lemma SentencesPlaced(text: string)
    requires !Blank(text)
    ensures Covers(text, Sentences(text), 0)
  {
    LocatedCovers(text, 0);
  }

  // ----- Sizes -----

  lemma StripShorter(s: string)
    ensures |Strip(s)| <= |s|
  {
    LStripFacts(s);
    RStripFacts(LStrip(s));
  }

  /** Every sentence has at most `longest` characters. */
  ghost predicate NoLongerThan(ss: seq<Sentence>, longest: nat) {
    forall i | 0 <= i < |ss| :: |ss[i].text| <= longest
  }

  /** No chunk is longer than the target or than its overlap, a space and one sentence. */
  lemma ChunkSize(ss: seq<Sentence>, target: nat, overlap: nat, gs: seq<Group>, k: nat, longest: nat)
    requires Packs(ss, target, overlap, gs) && k < |gs| && NoLongerThan(ss, longest)
    ensures |gs[k].chunk.text| <= target || |gs[k].chunk.text| <= overlap + 1 + longest
    ensures overlap + 1 + longest <= target ==> |gs[k].chunk.text| <= target
  {
    var g := gs[k];
    assert Emitted(ss, target, g) && Linked(ss, overlap, gs, k);
    StripShorter(Body(g.carry, ss, g.from, g.to));
    assert |g.carry| <= overlap;
    if g.from == g.to - 1 {
      assert |Body(g.carry, ss, g.from, g.to)| <= overlap + 1 + |ss[g.from].text|;
    } else {
      assert SizeWith(g.carry, ss, g.from, g.to - 1) <= target;
    }
  }

  // ----- Offsets -----

  /** A joined chunk is never longer than the stretch of text it covers. */
  lemma {:induction false} SpanBound(text: string, ss: seq<Sentence>, carry: string, origin: int, a: nat, b: nat)
    requires WellPlaced(text, ss) && a < b <= |ss|
    requires if |carry| == 0 then origin == ss[a].start else a > 0 && origin == ss[a - 1].End() - |carry|
    ensures |Body(carry, ss, a, b)| <= ss[b - 1].End() - origin
    decreases b
  {
    assert SentenceOk(text, ss, b - 1);
    if b - 1 > a {
      SpanBound(text, ss, carry, origin, a, b - 1);
    }
  }

  /** What a group's offsets are, and how they compare with its predecessor's. */
  lemma GroupSpan(text: string, ss: seq<Sentence>, target: nat, overlap: nat, gs: seq<Group>, k: nat)
    requires Packs(ss, target, overlap, gs) && WellPlaced(text, ss) && k < |gs|
    ensures var g := gs[k];
      && g.from < g.to <= |ss|
      && g.chunk.charEnd == ss[g.to - 1].End() <= |text|
      && (k == 0 ==> |g.carry| == 0)
      && (|g.carry| == 0 ==> g.chunk.charStart == ss[g.from].start)
      && (k > 0 ==> 0 < g.from == gs[k - 1].to && g.carry == Carry(gs[k - 1].chunk.text, overlap))
      && (k > 0 && |g.carry| > 0 ==> g.chunk.charStart == gs[k - 1].chunk.charEnd - overlap)
  {
    hide Strip, Body, Fits;
    var g := gs[k];
    assert Emitted(ss, target, g) && Linked(ss, overlap, gs, k);
    assert SentenceOk(text, ss, g.to - 1);
    if k > 0 {
      assert Emitted(ss, target, gs[k - 1]);
    }
  }

  lemma ChunkSpan(text: string, ss: seq<Sentence>, target: nat, overlap: nat, gs: seq<Group>, k: nat)
    requires Packs(ss, target, overlap, gs) && WellPlaced(text, ss) && k < |gs|
    ensures |gs[k].chunk.text| <= gs[k].chunk.charEnd - gs[k].chunk.charStart
  {
    var g := gs[k];
    GroupSpan(text, ss, target, overlap, gs, k);
    assert Emitted(ss, target, g);
    if k > 0 {
      GroupSpan(text, ss, target, overlap, gs, k - 1);
    }
    SpanBound(text, ss, g.carry, g.chunk.charStart, g.from, g.to);
    StripShorter(Body(g.carry, ss, g.from, g.to));
  }

  lemma {:induction false} EndsAscend(text: string, ss: seq<Sentence>, i: nat, j: nat)
    requires WellPlaced(text, ss) && i < j < |ss|
    ensures ss[i].End() < ss[j].start < ss[j].End()
    decreases j
  {
    assert SentenceOk(text, ss, j);
    if i < j - 1 {
      EndsAscend(text, ss, i, j - 1);
    }
  }

  /** No chunk's text is empty. */
  lemma ChunkNotEmpty(text: string, ss: seq<Sentence>, target: nat, overlap: nat, gs: seq<Group>, k: nat)
    requires Packs(ss, target, overlap, gs) && WellPlaced(text, ss) && k < |gs|
    ensures gs[k].chunk.text != ""
  {
    var g := gs[k];
    assert Emitted(ss, target, g);
    SentenceNotBlank(text, ss, g.to - 1);
    var body, s := Body(g.carry, ss, g.from, g.to), ss[g.to - 1].text;
    var i :| 0 <= i < |s| && !IsSpace(s[i]);
    NotBlankAt(body, |body| - |s| + i);
    StripIdempotent(body);
  }

  /** Offsets are in range and strictly increasing, for any white space. */
  lemma OffsetsIncrease(text: string, target: nat, overlap: nat, gs: seq<Group>, k: nat)
    requires !Blank(text) && Packs(Sentences(text), target, overlap, gs) && k < |gs|
    ensures 0 <= gs[k].chunk.charStart < gs[k].chunk.charEnd <= |text|
    ensures k > 0 ==> gs[k - 1].chunk.charStart < gs[k].chunk.charStart
    ensures k > 0 ==> gs[k - 1].chunk.charEnd < gs[k].chunk.charEnd
    decreases k
  {
    var ss := Sentences(text);
    SentencesPlaced(text);
    GroupSpan(text, ss, target, overlap, gs, k);
    ChunkSpan(text, ss, target, overlap, gs, k);
    ChunkNotEmpty(text, ss, target, overlap, gs, k);
    if k > 0 {
      OffsetsIncrease(text, target, overlap, gs, k - 1);
      OffsetStep(text, ss, target, overlap, gs, k);
    }
  }

  lemma OffsetStep(text: string, ss: seq<Sentence>, target: nat, overlap: nat, gs: seq<Group>, k: nat)
    requires Packs(ss, target, overlap, gs) && WellPlaced(text, ss) && 0 < k < |gs|
    ensures gs[k - 1].chunk.charStart < gs[k].chunk.charStart
    ensures gs[k - 1].chunk.charEnd < gs[k].chunk.charEnd
  {
    GroupSpan(text, ss, target, overlap, gs, k);
    GroupSpan(text, ss, target, overlap, gs, k - 1);
    ChunkSpan(text, ss, target, overlap, gs, k - 1);
    ChunkNotEmpty(text, ss, target, overlap, gs, k - 1);
    EndsAscend(text, ss, gs[k].from - 1, gs[k].to - 1);
    EndsAscend(text, ss, gs[k].from - 1, gs[k].from);
  }

  // ----- Uniqueness -----

  /** Of two greedy groups that begin alike, neither ends before the other. */
  lemma SameEnd(ss: seq<Sentence>, target: nat, g: Group, h: Group)
    requires Emitted(ss, target, g) && Emitted(ss, target, h) && g.from == h.from && g.carry == h.carry
    ensures g.to == h.to
  {
  }

  /** The description leaves no choice: two packings of the same sentences are equal. */
  lemma PackingUnique(ss: seq<Sentence>, target: nat, overlap: nat, gs: seq<Group>, hs: seq<Group>)
    requires Packs(ss, target, overlap, gs) && Packs(ss, target, overlap, hs)
    ensures gs == hs
  {
    var n := if |gs| <= |hs| then |gs| else |hs|;
    PrefixUnique(ss, target, overlap, gs, hs, n);
    assert n == |gs| || Linked(ss, overlap, gs, n);
    assert n == |hs| || Linked(ss, overlap, hs, n);
  }

  lemma {:induction false} PrefixUnique(ss: seq<Sentence>, target: nat, overlap: nat, gs: seq<Group>, hs: seq<Group>, n: nat)
    requires PacksPrefix(ss, target, overlap, gs) && PacksPrefix(ss, target, overlap, hs)
    requires n <= |gs| && n <= |hs|
    ensures forall k | 0 <= k < n :: gs[k] == hs[k]
  {
    if n > 0 {
      PrefixUnique(ss, target, overlap, gs, hs, n - 1);
      NextUnique(ss, target, overlap, gs, hs, n - 1);
    }
  }

  /** A group is determined by its predecessor. */
  lemma NextUnique(ss: seq<Sentence>, target: nat, overlap: nat, gs: seq<Group>, hs: seq<Group>, k: nat)
    requires PacksPrefix(ss, target, overlap, gs) && PacksPrefix(ss, target, overlap, hs)
    requires k < |gs| && k < |hs| && (k > 0 ==> gs[k - 1] == hs[k - 1])
    ensures gs[k] == hs[k]
  {
    hide Strip, Body, Carry, Fits, SizeWith;
    assert Linked(ss, overlap, gs, k) && Linked(ss, overlap, hs, k);
    assert Emitted(ss, target, gs[k]) && Emitted(ss, target, hs[k]);
    SameEnd(ss, target, gs[k], hs[k]);
  }
}
