/** What chunk texts say about the transcript: the chunks always rebuild the joined
    sentences, and a chunk's text is the text between its offsets exactly when the
    gaps inside it are single spaces. */
module ChunkerFidelity {
  import opened Text
  import opened Chunker
  import opened ChunkerOffsets

  // ----- Reconstruction -----

  /** What `c` adds to its predecessor: its text after the overlap it repeats. */
  function NewText(prev: Chunk, c: Chunk, overlap: nat): string {
    var repeated := LStrip(Carry(prev.text, overlap));
    if |Carry(prev.text, overlap)| == 0 then " " + c.text
    else if |repeated| <= |c.text| then c.text[|repeated|..]
    else ""
  }

  /** Rebuild the transcript from the chunks alone. */
  function Rebuild(chunks: seq<Chunk>, overlap: nat): string {
    var n := |chunks|;
    if n == 0 then ""
    else if n == 1 then chunks[0].text
    else Rebuild(chunks[..n - 1], overlap) + NewText(chunks[n - 2], chunks[n - 1], overlap)
  }

  /** A body begins as its first sentence does when it carries nothing. */
  lemma {:induction false} BodyBegins(ss: seq<Sentence>, a: nat, b: nat)
    requires a < b <= |ss| && ss[a].text != ""
    ensures |Body("", ss, a, b)| >= |ss[a].text| && Body("", ss, a, b)[0] == ss[a].text[0]
    decreases b
  {
    if b - 1 > a {
      BodyBegins(ss, a, b - 1);
    }
  }

  lemma BodyEnds(carry: string, ss: seq<Sentence>, a: nat, b: nat)
    requires a < b <= |ss| && ss[b - 1].text != ""
    ensures var body := Body(carry, ss, a, b);
      body != "" && body[|body| - 1] == ss[b - 1].text[|ss[b - 1].text| - 1]
  {
  }

  lemma {:induction false} BodySplit(ss: seq<Sentence>, m: nat, b: nat)
    requires 0 < m < b <= |ss|
    ensures Body("", ss, 0, b) == Body("", ss, 0, m) + " " + Body("", ss, m, b)
    decreases b
  {
    if b > m + 1 {
      BodySplit(ss, m, b - 1);
      AppendPart(Body("", ss, 0, m) + " ", Body("", ss, m, b - 1), ss[b - 1].text);
    }
  }

  lemma AppendPart(x: string, y: string, s: string)
    ensures (x + y) + " " + s == x + (y + " " + s)
  {
  }

  lemma {:induction false} BodyCarries(carry: string, ss: seq<Sentence>, a: nat, b: nat)
    requires a < b <= |ss| && |carry| > 0
    ensures Body(carry, ss, a, b) == carry + " " + Body("", ss, a, b)
    decreases b
  {
    if b > a + 1 {
      BodyCarries(carry, ss, a, b - 1);
      AppendPart(carry + " ", Body("", ss, a, b - 1), ss[b - 1].text);
    }
  }

  /** Stripping a solid left part, a space, and a part that begins solid. */
  lemma StripPair(x: string, g: string)
    requires x != "" && !IsSpace(x[|x| - 1]) && g != "" && !IsSpace(g[0])
    ensures Strip(x + " " + g) == LStrip(x) + (" " + RStrip(g))
    ensures Strip(x) == LStrip(x) && Strip(g) == RStrip(g)
  {
    NotBlankAt(x, |x| - 1);
    NotBlankAt(g, 0);
    StripEnds(x, " ", g);
    StripSolidEnd(x);
  }

  /** A stripped, nonempty text ends solid, and so does what it hands on. */
  lemma CarrySolid(body: string, overlap: nat)
    requires Strip(body) != ""
    ensures var c := Carry(Strip(body), overlap); |c| > 0 ==> !IsSpace(c[|c| - 1])
  {
    RStripFacts(LStrip(body));
  }

  /** The text a chunk adds, if its body is the carry followed by `added`. */
  lemma AddedText(prev: Chunk, c: Chunk, overlap: nat, added: string)
    requires added != "" && !IsSpace(added[0])
    requires var carry := Carry(prev.text, overlap);
      && (|carry| > 0 ==> !IsSpace(carry[|carry| - 1]))
      && c.text == Strip(if |carry| == 0 then added else carry + " " + added)
    ensures NewText(prev, c, overlap) == " " + RStrip(added)
  {
    var carry := Carry(prev.text, overlap);
    StripPair(if |carry| == 0 then "." else carry, added);
  }

  /** Step of the reconstruction: what chunk `k` adds is its new sentences. */
  lemma NewTextIsNewSentences(text: string, ss: seq<Sentence>, target: nat, overlap: nat, gs: seq<Group>, k: nat)
    requires Packs(ss, target, overlap, gs) && WellPlaced(text, ss) && 0 < k < |gs|
    ensures gs[k].from < gs[k].to <= |ss|
    ensures NewText(gs[k - 1].chunk, gs[k].chunk, overlap) == " " + RStrip(Body("", ss, gs[k].from, gs[k].to))
  {
    hide Strip, Body, Fits, SentenceOk;
    var g := gs[k];
    GroupSpan(text, ss, target, overlap, gs, k);
    assert Emitted(ss, target, g);
    CarryEndsSolid(text, ss, target, overlap, gs, k - 1);
    GroupText(text, ss, target, g);
    AddedText(gs[k - 1].chunk, g.chunk, overlap, Body("", ss, g.from, g.to));
  }

  /** A later group's text is its carry and its new sentences, which begin solid. */
  lemma GroupText(text: string, ss: seq<Sentence>, target: nat, g: Group)
    requires Emitted(ss, target, g) && WellPlaced(text, ss) && g.from > 0
    ensures var added := Body("", ss, g.from, g.to);
      && g.chunk.text == Strip(if |g.carry| == 0 then added else g.carry + " " + added)
      && added != "" && !IsSpace(added[0])
  {
    assert SentenceOk(text, ss, g.from);
    BodyBegins(ss, g.from, g.to);
    if |g.carry| > 0 {
      BodyCarries(g.carry, ss, g.from, g.to);
    }
  }

  lemma CarryEndsSolid(text: string, ss: seq<Sentence>, target: nat, overlap: nat, gs: seq<Group>, k: nat)
    requires Packs(ss, target, overlap, gs) && WellPlaced(text, ss) && k < |gs|
    ensures var c := Carry(gs[k].chunk.text, overlap); |c| > 0 ==> !IsSpace(c[|c| - 1])
  {
    ChunkNotEmpty(text, ss, target, overlap, gs, k);
    assert Emitted(ss, target, gs[k]);
    CarrySolid(Body(gs[k].carry, ss, gs[k].from, gs[k].to), overlap);
  }

  /** The chunks of any packing, taken alone, rebuild all sentences joined by one
      space: nothing is lost or repeated, whatever the white space was. */
  lemma ChunksRebuildSentences(text: string, target: nat, overlap: nat, gs: seq<Group>)
    requires !Blank(text) && Packs(Sentences(text), target, overlap, gs)
    ensures Rebuild(ChunksOf(gs), overlap) == Strip(Join(Texts(Sentences(text))))
  {
    var ss := Sentences(text);
    SentencesPlaced(text);
    assert gs != [];
    RebuildPrefix(text, ss, target, overlap, gs, |gs|);
    assert gs[..|gs|] == gs;
    BodyAll(ss);
  }

  lemma BodyAll(ss: seq<Sentence>)
    ensures Body("", ss, 0, |ss|) == Join(Texts(ss))
  {
    JoinIsBody("", ss, 0, |ss|);
    assert ss[0..|ss|] == ss;
    assert Parts("", ss, 0, |ss|) == Texts(ss);
  }

  lemma {:induction false} RebuildPrefix(text: string, ss: seq<Sentence>, target: nat, overlap: nat, gs: seq<Group>, k: nat)
    requires Packs(ss, target, overlap, gs) && WellPlaced(text, ss) && 0 < k <= |gs|
    ensures 0 < gs[k - 1].to <= |ss|
    ensures Rebuild(ChunksOf(gs[..k]), overlap) == Strip(Body("", ss, 0, gs[k - 1].to))
  {
    hide Strip, Body, Rebuild, NewText, Packs, WellPlaced, ChunksOf;
    var g := gs[k - 1];
    if k == 1 {
      RebuildFirst(ss, target, overlap, gs);
    } else {
      GroupSpan(text, ss, target, overlap, gs, k - 1);
      RebuildPrefix(text, ss, target, overlap, gs, k - 1);
      NewTextIsNewSentences(text, ss, target, overlap, gs, k - 1);
      RebuildSnoc(gs, k, overlap);
      StripGrows(text, ss, g.from, g.to);
    }
  }

  lemma RebuildFirst(ss: seq<Sentence>, target: nat, overlap: nat, gs: seq<Group>)
    requires Packs(ss, target, overlap, gs) && gs != []
    ensures 0 < gs[0].to <= |ss|
    ensures Rebuild(ChunksOf(gs[..1]), overlap) == Strip(Body("", ss, 0, gs[0].to))
  {
    hide Strip, Body;
    assert Emitted(ss, target, gs[0]) && Linked(ss, overlap, gs, 0);
    assert ChunksOf(gs[..1]) == [gs[0].chunk];
  }

  lemma RebuildSnoc(gs: seq<Group>, k: nat, overlap: nat)
    requires 1 < k <= |gs|
    ensures Rebuild(ChunksOf(gs[..k]), overlap) ==
      Rebuild(ChunksOf(gs[..k - 1]), overlap) + NewText(gs[k - 2].chunk, gs[k - 1].chunk, overlap)
  {
    var chunks := ChunksOf(gs[..k]);
    assert chunks[..k - 1] == ChunksOf(gs[..k - 1]);
    assert |chunks| == k && chunks[k - 2] == gs[k - 2].chunk && chunks[k - 1] == gs[k - 1].chunk;
  }

  /** More sentences only append to the stripped text. */
  lemma StripGrows(text: string, ss: seq<Sentence>, m: nat, b: nat)
    requires WellPlaced(text, ss) && 0 < m < b <= |ss|
    ensures Strip(Body("", ss, 0, b)) == Strip(Body("", ss, 0, m)) + (" " + RStrip(Body("", ss, m, b)))
  {
    assert SentenceOk(text, ss, m - 1) && SentenceOk(text, ss, m);
    BodyEnds("", ss, 0, m);
    BodyBegins(ss, m, b);
    BodySplit(ss, m, b);
    StripPair(Body("", ss, 0, m), Body("", ss, m, b));
  }
}
