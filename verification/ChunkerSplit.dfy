/** Where a transcript is split: at the white space after '.', '!' or '?', and nowhere
    else. The description is independent of the search, and admits one list of sentences. */
module ChunkerSplit {
  import opened Text
  import opened Chunker
  import opened ChunkerOffsets

  /** White space after the end of a sentence. */
  predicate SplitPoint(text: string, p: nat) {
    0 < p < |text| && text[p - 1] in ['.', '!', '?'] && IsSpace(text[p])
  }

  /** Sentence `i` is a slice without a split point inside; the white space after it
      begins at a split point, and the next sentence begins where that white space ends. */
  ghost predicate SplitOff(text: string, ss: seq<Sentence>, i: nat)
    requires i < |ss|
  {
    var s := ss[i];
    && |s.text| > 0 && s.End() <= |text| && s.text == text[s.start..s.End()]
    && (forall p | s.start < p < s.End() :: !SplitPoint(text, p))
    && (s.End() < |text| ==> SplitPoint(text, s.End()))
    && (if i + 1 < |ss| then
          && s.End() < ss[i + 1].start < |text| && !IsSpace(text[ss[i + 1].start])
          && (forall p | s.End() <= p < ss[i + 1].start :: IsSpace(text[p]))
        else
          forall p | s.End() <= p < |text| :: IsSpace(text[p]))
  }

  /** The sentences of the text from `a` on. */
  ghost predicate SplitFrom(text: string, ss: seq<Sentence>, a: nat) {
    && ss != [] && ss[0].start == a
    && forall i {:trigger SplitOff(text, ss, i)} | 0 <= i < |ss| :: SplitOff(text, ss, i)
  }

  lemma PrependSplit(text: string, s: Sentence, rest: seq<Sentence>)
    requires rest != [] && SplitFrom(text, rest, rest[0].start) && SplitOff(text, [s, rest[0]], 0)
    ensures SplitFrom(text, [s] + rest, s.start)
  {
    var ss := [s] + rest;
    forall i | 0 <= i < |ss| ensures SplitOff(text, ss, i) {
      if i > 0 {
        assert SplitOff(text, rest, i - 1);
      }
    }
  }

  lemma {:induction false} LocatedSplits(text: string, a: nat)
    requires PieceStart(text, a) && a < |text|
    ensures SplitFrom(text, Located(text, a), a)
    decreases |text| - a
  {
    var p := NextSeparator(text, a);
    SeparatorFacts(text, a);
    var s := Sentence(a, text[a..p]);
    assert forall q: nat :: SplitPoint(text, q) <==> SeparatorAt(text, q);
    if p < |text| {
      var next := SkipSpaces(text, p);
      SkipFacts(text, p);
      assert !SeparatorAt(text, a);
      if next < |text| {
        LocatedSplits(text, next);
        PrependSplit(text, s, Located(text, next));
      } else {
        assert SplitOff(text, [s], 0);
      }
    } else {
      assert SplitOff(text, [s], 0);
    }
  }

  /** Sentence `i` of two such lists is the same, up to there. */
  lemma SameSentence(text: string, ss: seq<Sentence>, tt: seq<Sentence>, i: nat)
    requires i < |ss| && i < |tt| && SplitOff(text, ss, i) && SplitOff(text, tt, i) && ss[i].start == tt[i].start
    ensures ss[i] == tt[i]
    ensures i + 1 < |ss| <==> i + 1 < |tt|
    ensures i + 1 < |ss| && i + 1 < |tt| ==> ss[i + 1].start == tt[i + 1].start
  {
  }

  lemma {:induction false} SplitUniqueUpTo(text: string, ss: seq<Sentence>, tt: seq<Sentence>, a: nat, n: nat)
    requires SplitFrom(text, ss, a) && SplitFrom(text, tt, a) && n < |ss|
    ensures n < |tt| && ss[..n + 1] == tt[..n + 1]
    ensures n + 1 < |ss| <==> n + 1 < |tt|
    ensures n + 1 < |ss| && n + 1 < |tt| ==> ss[n + 1].start == tt[n + 1].start
  {
    if n > 0 {
      SplitUniqueUpTo(text, ss, tt, a, n - 1);
      assert ss[..n + 1] == ss[..n] + [ss[n]] && tt[..n + 1] == tt[..n] + [tt[n]];
    }
    assert SplitOff(text, ss, n) && SplitOff(text, tt, n);
    SameSentence(text, ss, tt, n);
  }

  /** The sentences of a text are the one list in which every white space after '.', '!' or
      '?' ends a sentence and no other does. */
  lemma SentencesAreTheSplit(text: string, ss: seq<Sentence>)
    requires text != ""
    ensures ss == Sentences(text) <==> SplitFrom(text, ss, 0)
  {
    LocatedSplits(text, 0);
    if SplitFrom(text, ss, 0) {
      SplitUniqueUpTo(text, ss, Sentences(text), 0, |ss| - 1);
      assert ss[..|ss|] == ss && Sentences(text)[..|ss|] == Sentences(text);
    }
  }

  /** In plain characters: a sentence that has a successor ends in '.', '!' or '?', and none
      has one of them before white space inside. */
  lemma SplitsAtTerminators(text: string)
    requires text != ""
    ensures var ss := Sentences(text);
      && (forall i | 0 <= i < |ss| - 1 ::
            0 < ss[i].End() <= |text| && text[ss[i].End() - 1] in ['.', '!', '?'])
      && (forall i, p | 0 <= i < |ss| && ss[i].start < p < ss[i].End() && p < |text| ::
            !(text[p - 1] in ['.', '!', '?'] && IsSpace(text[p])))
  {
    var ss := Sentences(text);
    SentencesAreTheSplit(text, ss);
    forall i | 0 <= i < |ss| - 1 ensures 0 < ss[i].End() <= |text| && text[ss[i].End() - 1] in ['.', '!', '?'] {
      assert SplitOff(text, ss, i);
    }
    forall i, p | 0 <= i < |ss| && ss[i].start < p < ss[i].End() && p < |text|
      ensures !(text[p - 1] in ['.', '!', '?'] && IsSpace(text[p]))
    {
      assert SplitOff(text, ss, i) && !SplitPoint(text, p);
    }
  }

  // ----- Greedy packing in characters -----

  lemma JoinedSize(carry: string, ss: seq<Sentence>, a: nat, b: nat)
    requires a < b < |ss|
    ensures |Join(Parts(carry, ss, a, b + 1))| == SizeWith(carry, ss, a, b)
  {
    hide Join, Parts;
    JoinIsBody(carry, ss, a, b + 1);
  }

  /** A chunk with a successor was closed because one more sentence would have made it longer
      than the target; all its sentences after the first were joined within the target. */
  lemma GreedyInCharacters(ss: seq<Sentence>, target: nat, overlap: nat, gs: seq<Group>, k: nat)
    requires Packs(ss, target, overlap, gs) && k < |gs|
    ensures var g := gs[k];
      && g.from < g.to <= |ss| && g.chunk.text == Strip(Join(Parts(g.carry, ss, g.from, g.to)))
      && (g.to < |ss| ==> |Join(Parts(g.carry, ss, g.from, g.to + 1))| > target)
      && (forall j | g.from + 1 < j <= g.to :: |Join(Parts(g.carry, ss, g.from, j))| <= target)
  {
    hide Join, Parts, Body, Strip, SizeWith, Linked;
    var g := gs[k];
    assert Emitted(ss, target, g);
    JoinIsBody(g.carry, ss, g.from, g.to);
    if g.to < |ss| {
      JoinedSize(g.carry, ss, g.from, g.to);
    }
    forall j | g.from + 1 < j <= g.to ensures |Join(Parts(g.carry, ss, g.from, j))| <= target {
      JoinedSize(g.carry, ss, g.from, j - 1);
      assert SizeWith(g.carry, ss, g.from, j - 1) <= target;
    }
  }
}
