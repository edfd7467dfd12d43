/** When a chunk's text is the transcript between its offsets: the exact condition,
    for one run and for all targets and overlaps. */
module ChunkerFaithful {
  import opened Text
  import opened Chunker
  import opened ChunkerOffsets
  import opened ChunkerFidelity

  /** The chunk's offsets delimit its text in the transcript, up to white space at the ends. */
  ghost predicate Faithful(text: string, c: Chunk) {
    0 <= c.charStart <= c.charEnd <= |text| && c.text == Strip(text[c.charStart..c.charEnd])
  }

  /** Sentence `j` follows its predecessor after exactly one space. */
  predicate SingleGap(text: string, ss: seq<Sentence>, j: nat)
    requires 0 < j < |ss|
  {
    ss[j - 1].End() <= ss[j].start <= |text| && text[ss[j - 1].End()..ss[j].start] == " "
  }

  /** All gaps between the carry (if any) and the sentences `ss[a..b]` are single. */
  ghost predicate Tight(text: string, ss: seq<Sentence>, carry: string, a: nat, b: nat)
    requires b <= |ss|
  {
    forall j {:trigger SingleGap(text, ss, j)} | a <= j < b && 0 < j && (a < j || |carry| > 0) :: SingleGap(text, ss, j)
  }

  // ----- Strings -----

  lemma AppendStep(x: string, y: string, gap: string, s: string)
    requires |x| <= |y| && |gap| >= 1
    ensures x + " " + s == y + gap + s <==> x == y && gap == " "
  {
    if x + " " + s == y + gap + s {
      assert |x + " " + s| == |x| + 1 + |s| && |y + gap + s| == |y| + |gap| + |s|;
      assert (x + " " + s)[..|x|] == x && (y + gap + s)[..|x|] == y;
      assert (x + " " + s)[|x|] == ' ' && (y + gap + s)[|x|] == gap[0];
    }
  }

  lemma CancelMiddle(a: string, x: string, y: string, b: string)
    requires a + (x + b) == a + (y + b)
    ensures x == y
  {
    assert (a + (x + b))[|a|..] == x + b && (a + (y + b))[|a|..] == y + b;
    assert |x| == |y|;
    assert (x + b)[..|x|] == x && (y + b)[..|x|] == y;
  }

  /** Between nonblank ends, stripping forgets nothing. */
  lemma StripSame(u: string, x: string, y: string, v: string)
    requires !Blank(u) && !Blank(v) && Strip(u + x + v) == Strip(u + y + v)
    ensures x == y
  {
    StripEnds(u, x, v);
    StripEnds(u, y, v);
    CancelMiddle(LStrip(u), x, y, RStrip(v));
  }

  // ----- One group -----

  /** The group starts at `origin`, and what it carries is the text up to its first sentence. */
  ghost predicate Origin(text: string, ss: seq<Sentence>, carry: string, origin: int, a: nat)
    requires a < |ss|
  {
    if |carry| == 0 then origin == ss[a].start
    else
      && a > 0 && 0 <= origin == ss[a - 1].End() - |carry|
      && ss[a - 1].End() <= |text| && text[origin..ss[a - 1].End()] == carry
      && !IsSpace(carry[|carry| - 1])
  }

  lemma SplitSlice(text: string, o: int, e: int, s: int, f: int)
    requires 0 <= o <= e <= s <= f <= |text|
    ensures text[o..f] == text[o..e] + text[e..s] + text[s..f]
  {
  }

  /** The body is, character for character, the text from `origin` to its last sentence. */
  ghost predicate IsSlice(text: string, ss: seq<Sentence>, carry: string, origin: int, a: nat, b: nat)
    requires a <= b <= |ss| && 0 < b
  {
    0 <= origin <= ss[b - 1].End() <= |text| && Body(carry, ss, a, b) == text[origin..ss[b - 1].End()]
  }

  /** One sentence more: body and slice still agree if the gap before it is single. */
  lemma SliceStep(text: string, ss: seq<Sentence>, carry: string, origin: int, a: nat, j: nat)
    requires WellPlaced(text, ss) && a <= j < |ss| && 0 < j && (|carry| > 0 || a < j)
    requires 0 <= origin <= ss[j - 1].End() <= |text| && |Body(carry, ss, a, j)| <= ss[j - 1].End() - origin
    ensures origin <= ss[j].End() <= |text|
    ensures IsSlice(text, ss, carry, origin, a, j + 1) <==> IsSlice(text, ss, carry, origin, a, j) && SingleGap(text, ss, j)
  {
    assert SentenceOk(text, ss, j);
    SplitSlice(text, origin, ss[j - 1].End(), ss[j].start, ss[j].End());
    AppendStep(Body(carry, ss, a, j), text[origin..ss[j - 1].End()], text[ss[j - 1].End()..ss[j].start], ss[j].text);
  }

  lemma FirstSentenceIsSlice(text: string, ss: seq<Sentence>, carry: string, origin: int, a: nat)
    requires WellPlaced(text, ss) && a < |ss| && Origin(text, ss, carry, origin, a)
    ensures 0 <= origin <= ss[a].End() <= |text|
    ensures IsSlice(text, ss, carry, origin, a, a + 1) <==> Tight(text, ss, carry, a, a + 1)
  {
    if |carry| == 0 {
      assert SentenceOk(text, ss, a);
    } else {
      SliceStep(text, ss, carry, origin, a, a);
      assert Tight(text, ss, carry, a, a + 1) <==> SingleGap(text, ss, a);
    }
  }

  /** A body equals the slice it spans exactly when its gaps are single. */
  lemma {:induction false} BodyIsSlice(text: string, ss: seq<Sentence>, carry: string, origin: int, a: nat, b: nat)
    requires WellPlaced(text, ss) && a < b <= |ss| && Origin(text, ss, carry, origin, a)
    ensures 0 <= origin <= ss[b - 1].End() <= |text|
    ensures IsSlice(text, ss, carry, origin, a, b) <==> Tight(text, ss, carry, a, b)
    decreases b
  {
    hide IsSlice, Tight, SingleGap, WellPlaced, Body, Origin;
    if b - 1 == a {
      FirstSentenceIsSlice(text, ss, carry, origin, a);
    } else {
      OriginIs(text, ss, carry, origin, a);
      BodyIsSlice(text, ss, carry, origin, a, b - 1);
      SpanBound(text, ss, carry, origin, a, b - 1);
      SliceStep(text, ss, carry, origin, a, b - 1);
      TightSnoc(text, ss, carry, a, b);
    }
  }

  lemma TightSnoc(text: string, ss: seq<Sentence>, carry: string, a: nat, b: nat)
    requires a + 1 < b <= |ss|
    ensures Tight(text, ss, carry, a, b) <==> Tight(text, ss, carry, a, b - 1) && SingleGap(text, ss, b - 1)
  {
  }

  lemma {:induction false} BodyHead(carry: string, ss: seq<Sentence>, a: nat, b: nat)
    requires a < b <= |ss|
    ensures var u := if |carry| == 0 then ss[a].text else carry;
      |u| <= |Body(carry, ss, a, b)| && Body(carry, ss, a, b)[..|u|] == u
    decreases b
  {
    if b - 1 > a {
      BodyHead(carry, ss, a, b - 1);
    }
  }

  function FirstPart(carry: string, ss: seq<Sentence>, a: nat): string
    requires a < |ss|
  {
    if |carry| == 0 then ss[a].text else carry
  }

  /** A group of at least two parts lies between its first part and its last sentence. */
  lemma BodyFrame(carry: string, ss: seq<Sentence>, a: nat, b: nat) returns (x: string)
    requires a < b <= |ss| && (|carry| > 0 || a + 1 < b)
    ensures Body(carry, ss, a, b) == FirstPart(carry, ss, a) + x + ss[b - 1].text
  {
    var front := Body(carry, ss, a, b - 1);
    if a < b - 1 {
      BodyHead(carry, ss, a, b - 1);
    } else {
      assert front[..|carry|] == carry;
    }
    x := FrameString(front, FirstPart(carry, ss, a), ss[b - 1].text);
  }

  lemma FrameString(front: string, u: string, v: string) returns (x: string)
    requires |u| <= |front| && front[..|u|] == u
    ensures front + " " + v == u + x + v
  {
    x := front[|u|..] + " ";
    assert front + " " == u + x;
  }

  lemma FirstPartIsText(text: string, ss: seq<Sentence>, carry: string, origin: int, a: nat)
    requires WellPlaced(text, ss) && a < |ss| && Origin(text, ss, carry, origin, a)
    ensures var m := origin + |FirstPart(carry, ss, a)|;
      0 <= origin && m <= |text| && text[origin..m] == FirstPart(carry, ss, a)
        && m <= if |carry| == 0 then ss[a].End() else ss[a].start
  {
    hide IsSpace, Blank;
    assert SentenceOk(text, ss, a);
  }

  lemma SliceFrame(text: string, ss: seq<Sentence>, carry: string, origin: int, a: nat, b: nat) returns (y: string)
    requires WellPlaced(text, ss) && a < b <= |ss| && Origin(text, ss, carry, origin, a)
    requires |carry| > 0 || a + 1 < b
    requires 0 <= origin <= ss[b - 1].End() <= |text|
    ensures text[origin..ss[b - 1].End()] == FirstPart(carry, ss, a) + y + ss[b - 1].text
  {
    hide IsSpace, Blank, Origin, FirstPart;
    var m := origin + |FirstPart(carry, ss, a)|;
    FirstPartIsText(text, ss, carry, origin, a);
    assert SentenceOk(text, ss, b - 1);
    if a < b - 1 {
      EndsAscend(text, ss, a, b - 1);
    }
    y := text[m..ss[b - 1].start];
    SplitSlice(text, origin, m, ss[b - 1].start, ss[b - 1].End());
  }

  /** So the stripped texts agree exactly when the gaps are single. */
  lemma StrippedBodyIsSlice(text: string, ss: seq<Sentence>, carry: string, origin: int, a: nat, b: nat)
    requires WellPlaced(text, ss) && a < b <= |ss| && Origin(text, ss, carry, origin, a)
    ensures 0 <= origin <= ss[b - 1].End() <= |text|
    ensures Strip(Body(carry, ss, a, b)) == Strip(text[origin..ss[b - 1].End()]) <==> Tight(text, ss, carry, a, b)
  {
    hide Strip, Body, Origin, FirstPart;
    BodyIsSlice(text, ss, carry, origin, a, b);
    if |carry| > 0 || a + 1 < b {
      var x, y := Frames(text, ss, carry, origin, a, b);
      StripSameIff(FirstPart(carry, ss, a), x, y, ss[b - 1].text);
    }
  }

  /** Body and slice differ at most between the first part and the last sentence. */
  lemma Frames(text: string, ss: seq<Sentence>, carry: string, origin: int, a: nat, b: nat) returns (x: string, y: string)
    requires WellPlaced(text, ss) && a < b <= |ss| && Origin(text, ss, carry, origin, a) && (|carry| > 0 || a + 1 < b)
    requires 0 <= origin <= ss[b - 1].End() <= |text|
    ensures Body(carry, ss, a, b) == FirstPart(carry, ss, a) + x + ss[b - 1].text
    ensures text[origin..ss[b - 1].End()] == FirstPart(carry, ss, a) + y + ss[b - 1].text
    ensures !Blank(FirstPart(carry, ss, a)) && !Blank(ss[b - 1].text)
  {
    hide Body;
    SentenceNotBlank(text, ss, a);
    SentenceNotBlank(text, ss, b - 1);
    if |carry| > 0 {
      NotBlankAt(carry, |carry| - 1);
    }
    x := BodyFrame(carry, ss, a, b);
    y := SliceFrame(text, ss, carry, origin, a, b);
  }

  lemma StripSameIff(u: string, x: string, y: string, v: string)
    requires !Blank(u) && !Blank(v)
    ensures Strip(u + x + v) == Strip(u + y + v) <==> u + x + v == u + y + v
  {
    hide Strip, Blank;
    if Strip(u + x + v) == Strip(u + y + v) {
      StripSame(u, x, y, v);
    }
  }

  // ----- A whole packing -----

  /** The gaps inside group `k` are single spaces. */
  ghost predicate TightGroup(text: string, ss: seq<Sentence>, g: Group) {
    g.to <= |ss| && Tight(text, ss, g.carry, g.from, g.to)
  }

  /** If a group is tight, what it hands on is the text before its end. */
  lemma CarryIsText(text: string, ss: seq<Sentence>, overlap: nat, g: Group)
    requires WellPlaced(text, ss) && g.from < g.to < |ss| && Origin(text, ss, g.carry, g.chunk.charStart, g.from)
    requires g.chunk.text == Strip(Body(g.carry, ss, g.from, g.to)) && g.chunk.charEnd == ss[g.to - 1].End()
    requires TightGroup(text, ss, g) && |Carry(g.chunk.text, overlap)| > 0
    ensures Origin(text, ss, Carry(g.chunk.text, overlap), g.chunk.charEnd - overlap, g.to)
  {
    hide Strip, Body, IsSlice, WellPlaced, Tight, Origin, IsSpace;
    SentenceEndsSolid(text, ss, g.to - 1);
    BodyIsSlice(text, ss, g.carry, g.chunk.charStart, g.from, g.to);
    SliceCarry(text, ss, g.carry, g.chunk.charStart, g.from, g.to, g.chunk.text, overlap);
    SliceIsOrigin(text, ss, Carry(g.chunk.text, overlap), g.chunk.charEnd - overlap, g.to);
  }

  lemma OriginIs(text: string, ss: seq<Sentence>, carry: string, origin: int, a: nat)
    requires a < |ss| && Origin(text, ss, carry, origin, a)
    ensures if |carry| == 0 then origin == ss[a].start else a > 0 && origin == ss[a - 1].End() - |carry|
  {
  }

  lemma SliceIsOrigin(text: string, ss: seq<Sentence>, carry: string, origin: int, to: nat)
    requires 0 < to < |ss| && |carry| > 0 && 0 <= origin == ss[to - 1].End() - |carry| && ss[to - 1].End() <= |text|
    requires carry == text[origin..ss[to - 1].End()] && !IsSpace(text[ss[to - 1].End() - 1])
    ensures Origin(text, ss, carry, origin, to)
  {
    hide IsSpace;
    assert carry[|carry| - 1] == text[ss[to - 1].End() - 1];
  }

  lemma SentenceEndsSolid(text: string, ss: seq<Sentence>, i: nat)
    requires WellPlaced(text, ss) && i + 1 < |ss|
    ensures 0 < ss[i].End() <= |text| && !IsSpace(text[ss[i].End() - 1])
  {
    assert SentenceOk(text, ss, i);
  }

  lemma SliceCarry(text: string, ss: seq<Sentence>, carry: string, origin: int, a: nat, b: nat, emitted: string, overlap: nat)
    requires a < b <= |ss| && IsSlice(text, ss, carry, origin, a, b) && emitted == Strip(Body(carry, ss, a, b))
    requires 0 < ss[b - 1].End() && !IsSpace(text[ss[b - 1].End() - 1]) && |emitted| > overlap > 0
    ensures overlap <= ss[b - 1].End() && Carry(emitted, overlap) == text[ss[b - 1].End() - overlap..ss[b - 1].End()]
  {
    CarryOfSlice(text, origin, ss[b - 1].End(), Body(carry, ss, a, b), emitted, overlap);
  }

  /** What a stripped slice hands on is the end of that slice. */
  lemma CarryOfSlice(text: string, o: int, e: int, body: string, emitted: string, overlap: nat)
    requires 0 <= o <= e <= |text| && body == text[o..e] && emitted == Strip(body)
    requires 0 < e && !IsSpace(text[e - 1]) && |emitted| > overlap > 0
    ensures overlap <= e && Carry(emitted, overlap) == text[e - overlap..e]
  {
    StripSolidEnd(body);
    LStripFacts(body);
  }

  ghost predicate GroupOrigin(text: string, ss: seq<Sentence>, g: Group) {
    g.from < |ss| && Origin(text, ss, g.carry, g.chunk.charStart, g.from)
  }

  /** A chunk whose carry is faithful is itself faithful exactly when it is tight. */
  lemma FaithfulHere(text: string, ss: seq<Sentence>, target: nat, g: Group)
    requires Emitted(ss, target, g) && WellPlaced(text, ss) && GroupOrigin(text, ss, g)
    ensures Faithful(text, g.chunk) <==> TightGroup(text, ss, g)
  {
    StrippedBodyIsSlice(text, ss, g.carry, g.chunk.charStart, g.from, g.to);
  }

  /** And then its successor's carry is faithful too. */
  lemma OriginMoves(text: string, ss: seq<Sentence>, target: nat, overlap: nat, gs: seq<Group>, k: nat)
    requires Packs(ss, target, overlap, gs) && WellPlaced(text, ss) && k + 1 < |gs|
    requires GroupOrigin(text, ss, gs[k]) && TightGroup(text, ss, gs[k])
    ensures GroupOrigin(text, ss, gs[k + 1])
  {
    hide Strip, Body, Fits, WellPlaced, TightGroup, GroupOrigin, Linked;
    GroupSpan(text, ss, target, overlap, gs, k);
    GroupSpan(text, ss, target, overlap, gs, k + 1);
    assert Emitted(ss, target, gs[k]);
    NextOrigin(text, ss, overlap, gs[k], gs[k + 1]);
  }

  lemma NextOrigin(text: string, ss: seq<Sentence>, overlap: nat, g: Group, h: Group)
    requires WellPlaced(text, ss) && g.from < g.to == h.from < |ss| && GroupOrigin(text, ss, g) && TightGroup(text, ss, g)
    requires g.chunk.text == Strip(Body(g.carry, ss, g.from, g.to)) && g.chunk.charEnd == ss[g.to - 1].End()
    requires h.carry == Carry(g.chunk.text, overlap)
    requires h.chunk.charStart == if |h.carry| == 0 then ss[h.from].start else g.chunk.charEnd - overlap
    ensures GroupOrigin(text, ss, h)
  {
    hide Strip, Body, WellPlaced, TightGroup, Carry;
    if |h.carry| > 0 {
      CarryIsText(text, ss, overlap, g);
    }
  }

  ghost predicate AllFaithful(text: string, gs: seq<Group>, n: nat)
    requires n <= |gs|
  {
    forall k | 0 <= k < n :: Faithful(text, gs[k].chunk)
  }

  ghost predicate AllTight(text: string, ss: seq<Sentence>, gs: seq<Group>, n: nat)
    requires n <= |gs|
  {
    forall k | 0 <= k < n :: TightGroup(text, ss, gs[k])
  }

  lemma FirstOrigin(text: string, ss: seq<Sentence>, target: nat, overlap: nat, gs: seq<Group>)
    requires Packs(ss, target, overlap, gs) && WellPlaced(text, ss) && gs != []
    ensures GroupOrigin(text, ss, gs[0])
  {
    GroupSpan(text, ss, target, overlap, gs, 0);
  }

  lemma {:induction false} FaithfulPrefix(text: string, ss: seq<Sentence>, target: nat, overlap: nat, gs: seq<Group>, n: nat)
    requires Packs(ss, target, overlap, gs) && WellPlaced(text, ss) && n <= |gs|
    ensures AllFaithful(text, gs, n) <==> AllTight(text, ss, gs, n)
    ensures n < |gs| && AllTight(text, ss, gs, n) ==> GroupOrigin(text, ss, gs[n])
    decreases n
  {
    hide Faithful, TightGroup, GroupOrigin, SentenceOk, Linked;
    if n == 0 {
      if gs != [] {
        FirstOrigin(text, ss, target, overlap, gs);
      }
    } else {
      FaithfulPrefix(text, ss, target, overlap, gs, n - 1);
      assert Emitted(ss, target, gs[n - 1]);
      if AllTight(text, ss, gs, n - 1) {
        FaithfulHere(text, ss, target, gs[n - 1]);
        if n < |gs| && TightGroup(text, ss, gs[n - 1]) {
          OriginMoves(text, ss, target, overlap, gs, n - 1);
        }
      }
    }
  }

  /** One run: every chunk's text is the transcript between its offsets exactly
      when every gap inside a chunk is one space. */
  lemma FaithfulIffTight(text: string, target: nat, overlap: nat, gs: seq<Group>)
    requires !Blank(text) && Packs(Sentences(text), target, overlap, gs)
    ensures AllFaithful(text, gs, |gs|) <==> AllTight(text, Sentences(text), gs, |gs|)
  {
    SentencesPlaced(text);
    FaithfulPrefix(text, Sentences(text), target, overlap, gs, |gs|);
  }

  /** Sentences are separated by exactly one space. */
  ghost predicate OneSpaced(text: string) {
    var ss := Sentences(text);
    forall j {:trigger SingleGap(text, ss, j)} | 0 < j < |ss| :: SingleGap(text, ss, j)
  }

  /** Every chunk of every packing of `text` is faithful. */
  ghost predicate AlwaysFaithful(text: string) {
    forall target: nat, overlap: nat, gs: seq<Group> | overlap < target && Packs(Sentences(text), target, overlap, gs) ::
      AllFaithful(text, gs, |gs|)
  }

  /** A target no text exceeds packs everything into one chunk. */
  lemma OneChunk(text: string, ss: seq<Sentence>) returns (target: nat, gs: seq<Group>)
    requires WellPlaced(text, ss) && ss != []
    ensures target > 0 && Packs(ss, target, 0, gs)
    ensures |gs| == 1 && gs[0].from == 0 && gs[0].to == |ss| && |gs[0].carry| == 0
  {
    var n := |ss|;
    target := |Body("", ss, 0, n)| + 1;
    gs := [Group(Chunk(Strip(Body("", ss, 0, n)), ss[0].start, ss[n - 1].End()), "", 0, n)];
    forall j | 0 < j < n ensures SizeWith("", ss, 0, j) <= target {
      BodyGrows(ss, j + 1, n);
    }
    assert Emitted(ss, target, gs[0]) && Linked(ss, 0, gs, 0);
  }

  lemma {:induction false} BodyGrows(ss: seq<Sentence>, a: nat, b: nat)
    requires a <= b <= |ss|
    ensures |Body("", ss, 0, a)| <= |Body("", ss, 0, b)|
    decreases b
  {
    if a < b {
      BodyGrows(ss, a, b - 1);
    }
  }

  /** The caller's condition: offsets delimit chunk texts for every target and
      overlap exactly when sentences are separated by one space each. */
  lemma AlwaysFaithfulIffOneSpaced(text: string)
    requires !Blank(text)
    ensures AlwaysFaithful(text) <==> OneSpaced(text)
  {
    var ss := Sentences(text);
    SentencesPlaced(text);
    if OneSpaced(text) {
      forall target: nat, overlap: nat, gs: seq<Group> | overlap < target && Packs(ss, target, overlap, gs)
        ensures AllFaithful(text, gs, |gs|)
      {
        assert forall i | 0 <= i < |gs| :: Emitted(ss, target, gs[i]);
        FaithfulIffTight(text, target, overlap, gs);
      }
    }
    if AlwaysFaithful(text) {
      var target, gs := OneChunk(text, ss);
      FaithfulIffTight(text, target, 0, gs);
      assert TightGroup(text, ss, gs[0]);
    }
  }

  /** Two spaces are enough: a chunk holding both sentences has one space between them. */
  lemma TwoSpacesUnfaithful()
    ensures Sentences("A.  B.") == [Sentence(0, "A."), Sentence(4, "B.")]
    ensures !AlwaysFaithful("A.  B.")
  {
    var text := "A.  B.";
    assert SeparatorAt(text, 2) && !SeparatorAt(text, 1);
    assert NextSeparator(text, 0) == NextSeparator(text, 1) == 2;
    assert SkipSpaces(text, 2) == SkipSpaces(text, 3) == 4;
    assert NextSeparator(text, 4) == NextSeparator(text, 5) == NextSeparator(text, 6) == 6;
    assert text[0..2] == "A." && text[4..] == "B.";
    assert Located(text, 4) == [Sentence(4, "B.")];
    assert !SingleGap(text, Sentences(text), 1);
    AlwaysFaithfulIffOneSpaced(text);
  }

  /** Then the chunks alone rebuild the transcript itself. */
  lemma OneSpacedChunksRebuildText(text: string, target: nat, overlap: nat, gs: seq<Group>)
    requires !Blank(text) && OneSpaced(text) && Packs(Sentences(text), target, overlap, gs)
    ensures Rebuild(ChunksOf(gs), overlap) == Strip(text)
  {
    hide Strip, Body, Rebuild, Packs, SentenceOk, Blank;
    var ss := Sentences(text);
    SentencesPlaced(text);
    ChunksRebuildSentences(text, target, overlap, gs);
    BodyAll(ss);
    BodyIsSlice(text, ss, "", 0, 0, |ss|);
    var e := ss[|ss| - 1].End();
    WholeText(text, e);
  }

  lemma WholeText(text: string, e: nat)
    requires e <= |text| && Blank(text[e..])
    ensures Strip(text[0..e]) == Strip(text)
  {
    StripDropsTail(text[0..e], text[e..]);
    assert text[0..e] + text[e..] == text;
  }

  lemma StripDropsTail(x: string, tail: string)
    requires Blank(tail)
    ensures Strip(x + tail) == Strip(x)
  {
    if Blank(x) {
      assert Blank(x + tail);
      StripIdempotent(x);
      StripIdempotent(x + tail);
    } else {
      LStripAppend(x, tail);
      TrailThrough(LStrip(x), tail, |tail|);
      assert tail[..|tail|] == tail;
    }
  }

  lemma {:induction false} TrailThrough(x: string, tail: string, n: nat)
    requires Blank(tail) && n <= |tail|
    ensures Trail(x + tail, |x| + n) == Trail(x, |x|)
  {
    if n > 0 {
      TrailThrough(x, tail, n - 1);
    } else {
      TrailOfPrefix(x, tail, |x|);
    }
  }

  lemma {:induction false} TrailOfPrefix(x: string, y: string, n: nat)
    requires n <= |x|
    ensures Trail(x + y, n) == Trail(x, n)
  {
    if n > 0 && IsSpace(x[n - 1]) {
      TrailOfPrefix(x, y, n - 1);
    }
  }
}
