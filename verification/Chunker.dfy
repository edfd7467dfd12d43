/** Sentence-aware chunking of transcripts (ai-service/app/chunker.py): the
    regular-expression split, the offset recovery, and the greedy packer with its
    nested `flush`, proved against a declarative description of the packing. */
module Chunker {
  import opened Text

  datatype Chunk = Chunk(text: string, charStart: int, charEnd: int)

  datatype Sentence = Sentence(start: nat, text: string) {
    function End(): nat { start + |text| }
  }

  datatype ChunkError = BadTarget | BadOverlap
  datatype ChunkResult = Chunks(chunks: seq<Chunk>) | Invalid(error: ChunkError)

  const DEFAULT_TARGET_CHARS: nat := 1200
  const DEFAULT_OVERLAP_CHARS: nat := 240

  // ----- Sentence splitting -----

  predicate IsTerminator(c: char) {
    c == '.' || c == '!' || c == '?'
  }

  /** White space directly after a terminator begins a separator. */
  predicate SeparatorAt(text: string, p: nat) {
    0 < p < |text| && IsTerminator(text[p - 1]) && IsSpace(text[p])
  }

  function NextSeparator(text: string, p: nat): (q: nat)
    requires p <= |text|
    ensures p <= q <= |text|
    decreases |text| - p
  {
    if p == |text| || SeparatorAt(text, p) then p else NextSeparator(text, p + 1)
  }

  function SkipSpaces(text: string, p: nat): (q: nat)
    requires p <= |text|
    ensures p <= q <= |text|
    ensures q < |text| ==> !IsSpace(text[q])
    decreases |text| - p
  {
    if p < |text| && IsSpace(text[p]) then SkipSpaces(text, p + 1) else p
  }

  lemma {:induction false} SeparatorFacts(text: string, p: nat)
    requires p <= |text|
    ensures NextSeparator(text, p) < |text| ==> SeparatorAt(text, NextSeparator(text, p))
    ensures forall i | p <= i < NextSeparator(text, p) :: !SeparatorAt(text, i)
    decreases |text| - p
  {
    if p < |text| && !SeparatorAt(text, p) {
      SeparatorFacts(text, p + 1);
    }
  }

  lemma {:induction false} SkipFacts(text: string, p: nat)
    requires p <= |text|
    ensures forall i | p <= i < SkipSpaces(text, p) :: IsSpace(text[i])
    decreases |text| - p
  {
    if p < |text| && IsSpace(text[p]) {
      SkipFacts(text, p + 1);
    }
  }

  /** A position where a piece of the split can begin. */
  predicate PieceStart(text: string, a: nat) {
    a <= |text| && (0 < a < |text| ==> !IsSpace(text[a]))
  }

  /** `_SENTENCE_SPLIT.split(text)` from a piece start on; the last piece may be empty. */
  function Split(text: string, a: nat): seq<string>
    requires PieceStart(text, a)
    decreases |text| - a
  {
    var p := NextSeparator(text, a);
    if p == |text| then [text[a..]] else [text[a..p]] + Split(text, SkipSpaces(text, p))
  }

  /** The nonempty pieces with their true positions. */
  function Located(text: string, a: nat): seq<Sentence>
    requires PieceStart(text, a)
    decreases |text| - a
  {
    var p := NextSeparator(text, a);
    if a == |text| then []
    else if p == |text| then [Sentence(a, text[a..])]
    else [Sentence(a, text[a..p])] + Located(text, SkipSpaces(text, p))
  }

  function Sentences(text: string): seq<Sentence> {
    Located(text, 0)
  }

  /** `find` cannot stop inside the separator: the piece does not begin with white space. */
  lemma FindHitsTrueStart(text: string, piece: string, cursor: nat, a: nat)
    requires cursor <= a && OccursAt(text, piece, a) && piece != ""
    requires a == cursor || (a == SkipSpaces(text, cursor) && !IsSpace(piece[0]))
    ensures Find(text, piece, cursor) == a
  {
    SkipFacts(text, cursor);
    FindFacts(text, piece, cursor);
    forall r: nat | cursor <= r < a ensures !OccursAt(text, piece, r) {
      if r + |piece| <= |text| {
        assert text[r..r + |piece|][0] == text[r];
      }
    }
  }

  /** Where lines 70-73 place a piece. */
  function Place(text: string, raw: string, cursor: nat): nat {
    var idx := Find(text, raw, cursor);
    if idx == -1 then cursor else idx
  }

  /** Lines 65-75: recover each piece's offset by searching forward from a cursor. */
  function LocateFrom(text: string, raws: seq<string>, cursor: nat): seq<Sentence> {
    if raws == [] then []
    else if raws[0] == "" then LocateFrom(text, raws[1..], cursor)
    else
      var idx := Place(text, raws[0], cursor);
      [Sentence(idx, raws[0])] + LocateFrom(text, raws[1..], idx + |raws[0]|)
  }

  lemma LocateHead(text: string, raw: string, rest: seq<string>, cursor: nat)
    ensures var idx := Place(text, raw, cursor);
      LocateFrom(text, [raw] + rest, cursor) ==
      if raw == "" then LocateFrom(text, rest, cursor)
      else [Sentence(idx, raw)] + LocateFrom(text, rest, idx + |raw|)
  {
    assert ([raw] + rest)[1..] == rest;
  }

  lemma {:induction false} SearchRecoversOffsets(text: string, cursor: nat, a: nat)
    requires cursor <= |text| && a == (if cursor == 0 then 0 else SkipSpaces(text, cursor))
    ensures LocateFrom(text, Split(text, a), cursor) == Located(text, a)
    decreases |text| - a
  {
    hide Find, IsSpace;
    var p := NextSeparator(text, a);
    var piece := text[a..p];
    assert a < |text| ==> !SeparatorAt(text, a);
    if p == |text| {
      assert text[a..] == piece;
      LocateHead(text, piece, [], cursor);
      assert Split(text, a) == [piece] + [];
      if a < p {
        FindHitsTrueStart(text, piece, cursor, a);
        assert LocateFrom(text, [], p) == [];
      }
    } else {
      var next := SkipSpaces(text, p);
      assert LocateFrom(text, Split(text, next), p) == Located(text, next) by {
        SearchRecoversOffsets(text, p, next);
      }
      assert Place(text, piece, cursor) == a by {
        FindHitsTrueStart(text, piece, cursor, a);
      }
      LocateHead(text, piece, Split(text, next), cursor);
    }
  }

  method Locate(text: string) returns (sentences: seq<Sentence>)
    ensures sentences == Sentences(text)
  {
    var raws := Split(text, 0);
    SearchRecoversOffsets(text, 0, 0);
    sentences := LocateAll(text, raws);
  }

  method LocateAll(text: string, pieces: seq<string>) returns (sentences: seq<Sentence>)
    ensures sentences == LocateFrom(text, pieces, 0)
  {
    sentences := [];
    var raws := pieces;
    var cursor: nat := 0;
    while raws != []
      invariant sentences + LocateFrom(text, raws, cursor) == LocateFrom(text, pieces, 0)
    {
      var raw := raws[0];
      raws := raws[1..];
      if raw == "" {
        continue;
      }
      var idx := Find(text, raw, cursor);
      if idx == -1 {
        // Defensive in the source; `SearchRecoversOffsets` shows it is never taken.
        idx := cursor;
      }
      sentences := sentences + [Sentence(idx, raw)];
      cursor := idx + |raw|;
    }
  }

  // ----- What a packing is -----

  function Texts(ss: seq<Sentence>): (r: seq<string>)
    ensures |r| == |ss| && forall i | 0 <= i < |ss| :: r[i] == ss[i].text
  {
    seq(|ss|, i requires 0 <= i < |ss| => ss[i].text)
  }

  /** What a chunk hands to its successor: its last `overlap` characters, or nothing. */
  function Carry(emitted: string, overlap: nat): (r: string)
    ensures |r| == if |emitted| > overlap then overlap else 0
  {
    if overlap > 0 && |emitted| > overlap then emitted[|emitted| - overlap..] else ""
  }

  /** The buffer that holds a carry and the sentences `ss[a..b]`. */
  function Parts(carry: string, ss: seq<Sentence>, a: nat, b: nat): seq<string>
    requires a <= b <= |ss|
  {
    (if |carry| == 0 then [] else [carry]) + Texts(ss[a..b])
  }

  /** The same, joined: the carry, then each sentence after one space. */
  function Body(carry: string, ss: seq<Sentence>, a: nat, b: nat): string
    requires a <= b <= |ss|
    decreases b
  {
    if b == a then carry
    else if |carry| == 0 && b == a + 1 then ss[a].text
    else Body(carry, ss, a, b - 1) + " " + ss[b - 1].text
  }

  lemma {:induction false} JoinIsBody(carry: string, ss: seq<Sentence>, a: nat, b: nat)
    requires a <= b <= |ss|
    ensures Join(Parts(carry, ss, a, b)) == Body(carry, ss, a, b)
    decreases b
  {
    hide Join, Parts;
    if b == a {
      PartsStart(carry, ss, a);
    } else {
      JoinIsBody(carry, ss, a, b - 1);
      PartsSnoc(carry, ss, a, b);
      JoinAppend(Parts(carry, ss, a, b - 1), ss[b - 1].text);
    }
  }

  lemma PartsStart(carry: string, ss: seq<Sentence>, a: nat)
    requires a <= |ss|
    ensures Parts(carry, ss, a, a) == (if |carry| == 0 then [] else [carry]) && Join(Parts(carry, ss, a, a)) == carry
  {
    assert Texts(ss[a..a]) == [];
    assert Join([carry]) == carry;
  }

  lemma PartsSnoc(carry: string, ss: seq<Sentence>, a: nat, b: nat)
    requires a < b <= |ss|
    ensures Parts(carry, ss, a, b) == Parts(carry, ss, a, b - 1) + [ss[b - 1].text]
    ensures Parts(carry, ss, a, b - 1) == [] <==> |carry| == 0 && b == a + 1
  {
    assert Texts(ss[a..b]) == Texts(ss[a..b - 1]) + [ss[b - 1].text];
  }

  lemma {:induction false} BodyStable(carry: string, ss: seq<Sentence>, s: Sentence, a: nat, b: nat)
    requires a <= b <= |ss|
    ensures Body(carry, ss + [s], a, b) == Body(carry, ss, a, b)
    decreases b
  {
    if b > a {
      BodyStable(carry, ss, s, a, b - 1);
    }
  }

  /** The size a chunk would have with `ss[b]` joined to it. */
  function SizeWith(carry: string, ss: seq<Sentence>, a: nat, b: nat): nat
    requires a <= b < |ss|
  {
    |Body(carry, ss, a, b)| + 1 + |ss[b].text|
  }

  /** One emitted chunk: the carry it began with and its new sentences `ss[from..to]`. */
  datatype Group = Group(chunk: Chunk, carry: string, from: nat, to: nat)

  /** Every sentence after the first of a group still fitted when it joined. */
  ghost predicate Fits(ss: seq<Sentence>, target: nat, carry: string, a: nat, b: nat)
    requires a <= b <= |ss|
  {
    forall j | a < j < b :: SizeWith(carry, ss, a, j) <= target
  }

  /** The chunk is its carry and its sentences joined and stripped, and it was
      closed only because the next sentence did not fit. */
  ghost predicate Emitted(ss: seq<Sentence>, target: nat, g: Group) {
    && g.from < g.to <= |ss|
    && g.chunk.text == Strip(Body(g.carry, ss, g.from, g.to))
    && g.chunk.charEnd == ss[g.to - 1].End()
    && Fits(ss, target, g.carry, g.from, g.to)
    && (g.to < |ss| ==> SizeWith(g.carry, ss, g.from, g.to) > target)
  }

  /** Group `k` takes up where its predecessor ended, with the predecessor's overlap. */
  ghost predicate Linked(ss: seq<Sentence>, overlap: nat, gs: seq<Group>, k: nat)
    requires k < |gs|
  {
    var g := gs[k];
    && g.from == NextFrom(gs, k) < |ss|
    && g.carry == NextCarry(overlap, gs, k)
    && g.chunk.charStart == NextStart(ss, overlap, gs, k)
  }

  /** The first sentence that `gs[..k]` do not hold. */
  function NextFrom(gs: seq<Group>, k: nat): nat
    requires k <= |gs|
  {
    if k == 0 then 0 else gs[k - 1].to
  }

  /** What the chunk after `gs[..k]` begins with. */
  function NextCarry(overlap: nat, gs: seq<Group>, k: nat): string
    requires k <= |gs|
  {
    if k == 0 then "" else Carry(gs[k - 1].chunk.text, overlap)
  }

  /** Where that chunk starts: at its carry, or else at its first sentence. */
  function NextStart(ss: seq<Sentence>, overlap: nat, gs: seq<Group>, k: nat): int
    requires k <= |gs|
  {
    if |NextCarry(overlap, gs, k)| > 0 then gs[k - 1].chunk.charEnd - overlap
    else if NextFrom(gs, k) < |ss| then ss[NextFrom(gs, k)].start
    else 0
  }

  ghost predicate PacksPrefix(ss: seq<Sentence>, target: nat, overlap: nat, gs: seq<Group>) {
    && (forall k {:trigger Emitted(ss, target, gs[k])} | 0 <= k < |gs| :: Emitted(ss, target, gs[k]))
    && (forall k {:trigger Linked(ss, overlap, gs, k)} | 0 <= k < |gs| :: Linked(ss, overlap, gs, k))
  }

  function ChunksOf(gs: seq<Group>): (r: seq<Chunk>)
    ensures |r| == |gs| && forall i | 0 <= i < |gs| :: r[i] == gs[i].chunk
  {
    seq(|gs|, i requires 0 <= i < |gs| => gs[i].chunk)
  }

  /** A complete greedy packing: every sentence is new in exactly one chunk, in order. */
  ghost predicate Packs(ss: seq<Sentence>, target: nat, overlap: nat, gs: seq<Group>) {
    PacksPrefix(ss, target, overlap, gs) && NextFrom(gs, |gs|) == |ss|
  }

  lemma CloseGroup(ss: seq<Sentence>, target: nat, overlap: nat, gs: seq<Group>, g: Group)
    requires PacksPrefix(ss, target, overlap, gs) && NextFrom(gs, |gs|) < |ss|
    requires Emitted(ss, target, g)
    requires g.from == NextFrom(gs, |gs|) && g.carry == NextCarry(overlap, gs, |gs|) && g.chunk.charStart == NextStart(ss, overlap, gs, |gs|)
    ensures PacksPrefix(ss, target, overlap, gs + [g])
  {
    var gs' := gs + [g];
    forall k | 0 <= k < |gs'| ensures Linked(ss, overlap, gs', k) {
      assert k < |gs| ==> Linked(ss, overlap, gs, k);
    }
  }

  lemma EmittedStable(ss: seq<Sentence>, s: Sentence, target: nat, g: Group)
    requires Emitted(ss, target, g)
    requires g.to == |ss| ==> |Body(g.carry, ss, g.from, |ss|)| + 1 + |s.text| > target
    ensures Emitted(ss + [s], target, g)
  {
    hide Strip, Body, Fits;
    BodyStable(g.carry, ss, s, g.from, g.to);
    FitsStable(ss, s, target, g.carry, g.from, g.to);
  }

  lemma LinkedStable(ss: seq<Sentence>, s: Sentence, overlap: nat, gs: seq<Group>, k: nat)
    requires k < |gs| && Linked(ss, overlap, gs, k)
    ensures Linked(ss + [s], overlap, gs, k)
  {
    hide NextCarry;
  }

  lemma NextSentence(ss: seq<Sentence>, s: Sentence, target: nat, overlap: nat, gs: seq<Group>)
    requires PacksPrefix(ss, target, overlap, gs)
    requires gs != [] && NextFrom(gs, |gs|) == |ss| ==>
      var g := gs[|gs| - 1];
      g.from <= |ss| && |Body(g.carry, ss, g.from, |ss|)| + 1 + |s.text| > target
    ensures PacksPrefix(ss + [s], target, overlap, gs)
  {
    hide Body, Strip, Fits, SizeWith, NextCarry;
    forall k | 0 <= k < |gs| ensures Emitted(ss + [s], target, gs[k]) && Linked(ss + [s], overlap, gs, k) {
      assert Emitted(ss, target, gs[k]) && Linked(ss, overlap, gs, k);
      if k + 1 < |gs| {
        assert Linked(ss, overlap, gs, k + 1);
      }
      EmittedStable(ss, s, target, gs[k]);
      LinkedStable(ss, s, overlap, gs, k);
    }
  }

  lemma PartsGrow(carry: string, ss: seq<Sentence>, s: Sentence, a: nat)
    requires a <= |ss|
    ensures Parts(carry, ss + [s], a, |ss| + 1) == Parts(carry, ss, a, |ss|) + [s.text]
  {
    assert (ss + [s])[a..|ss|] == ss[a..];
    PartsSnoc(carry, ss + [s], a, |ss| + 1);
  }

  lemma FitsStable(ss: seq<Sentence>, s: Sentence, target: nat, carry: string, a: nat, b: nat)
    requires a <= b <= |ss| && Fits(ss, target, carry, a, b)
    ensures Fits(ss + [s], target, carry, a, b)
  {
    forall j | a < j < b ensures SizeWith(carry, ss + [s], a, j) <= target {
      BodyStable(carry, ss, s, a, j);
      assert SizeWith(carry, ss, a, j) <= target;
    }
  }

  // ----- The packer -----

  datatype Offset = NoOffset | At(pos: int)

  /** The variables `flush` shares with the loop around it. */
  datatype PackState = PackState(buf: seq<string>, start: Offset, end: int, len: nat, chunks: seq<Chunk>)

  const EMPTY: PackState := PackState([], NoOffset, 0, 0, [])

  /** `flush`: emit the buffer and keep the tail of what was just emitted. */
  function Flushed(p: PackState, overlap: nat): PackState {
    if p.buf == [] || p.start == NoOffset then p else
      var joined := Strip(Join(p.buf));
      var emitted := p.(chunks := p.chunks + [Chunk(joined, p.start.pos, p.end)]);
      var tail := Carry(joined, overlap);
      if |tail| > 0 then emitted.(buf := [tail], start := At(p.end - |tail|), len := |tail|)
      else emitted.(buf := [], start := NoOffset, len := 0)
  }

  function Begun(p: PackState, s: Sentence): PackState {
    if p.start == NoOffset then p.(start := At(s.start)) else p
  }

  predicate Overfull(p: PackState, s: Sentence, target: nat) {
    p.len > 0 && p.len + 1 + |s.text| > target
  }

  function Appended(p: PackState, s: Sentence): PackState {
    p.(buf := p.buf + [s.text], end := s.End(), len := p.len + (if p.len > 0 then 1 else 0) + |s.text|)
  }

  /** One iteration of the packing loop. */
  function Packed(p: PackState, s: Sentence, target: nat, overlap: nat): PackState {
    if Overfull(Begun(p, s), s, target)
    then Appended(Begun(Flushed(Begun(p, s), overlap), s), s)
    else Appended(Begun(p, s), s)
  }

  function PackAll(ss: seq<Sentence>, target: nat, overlap: nat): PackState {
    if ss == [] then EMPTY
    else Packed(PackAll(ss[..|ss| - 1], target, overlap), ss[|ss| - 1], target, overlap)
  }

  class Packer {
    const target: nat
    const overlap: nat
    var buf: seq<string>
    var bufStart: Offset
    var bufEnd: int
    var bufLen: nat
    var chunks: seq<Chunk>

    ghost function View(): PackState
      reads this
    {
      PackState(buf, bufStart, bufEnd, bufLen, chunks)
    }

    constructor (target: nat, overlap: nat)
      ensures View() == EMPTY && this.target == target && this.overlap == overlap
    {
      this.target, this.overlap := target, overlap;
      buf, bufStart, bufEnd, bufLen, chunks := [], NoOffset, 0, 0, [];
    }

    method Flush()
      modifies this
      ensures View() == Flushed(old(View()), overlap)
    {
      if buf == [] || bufStart == NoOffset {
        return;
      }
      var joined := Strip(Join(buf));
      chunks := chunks + [Chunk(joined, bufStart.pos, bufEnd)];
      if overlap > 0 && |joined| > overlap {
        var tail := joined[|joined| - overlap..];
        buf := [tail];
        bufStart := At(bufEnd - |tail|);
        bufLen := |tail|;
      } else {
        buf := [];
        bufStart := NoOffset;
        bufLen := 0;
      }
    }

    method Add(s: Sentence)
      modifies this
      ensures View() == Packed(old(View()), s, target, overlap)
    {
      if bufStart == NoOffset {
        bufStart := At(s.start);
      }
      if bufLen > 0 && bufLen + 1 + |s.text| > target {
        Flush();
        if bufStart == NoOffset {
          bufStart := At(s.start);
        }
      }
      buf := buf + [s.text];
      bufEnd := s.start + |s.text|;
      bufLen := bufLen + (if bufLen > 0 then 1 else 0) + |s.text|;
    }
  }

  // ----- The loop keeps a packing -----

  /** The buffer is the carry of the last chunk plus the sentences added since. */
  ghost predicate Holds(p: PackState, ss: seq<Sentence>, target: nat, overlap: nat, gs: seq<Group>) {
    && PacksPrefix(ss, target, overlap, gs)
    && p.chunks == ChunksOf(gs)
    && NextFrom(gs, |gs|) <= |ss|
    && Fits(ss, target, NextCarry(overlap, gs, |gs|), NextFrom(gs, |gs|), |ss|)
    && p.buf == Parts(NextCarry(overlap, gs, |gs|), ss, NextFrom(gs, |gs|), |ss|)
    && p.len == |Join(p.buf)|
    && (p.buf == [] <==> p.len == 0)
    && MarksHold(p, ss, overlap, gs)
  }

  ghost predicate MarksHold(p: PackState, ss: seq<Sentence>, overlap: nat, gs: seq<Group>) {
    && (ss != [] ==> p.end == ss[|ss| - 1].End())
    && p.start == BufferStart(ss, overlap, gs)
  }

  function BufferStart(ss: seq<Sentence>, overlap: nat, gs: seq<Group>): Offset {
    if |NextCarry(overlap, gs, |gs|)| == 0 && NextFrom(gs, |gs|) >= |ss| then NoOffset else At(NextStart(ss, overlap, gs, |gs|))
  }

  /** What a flush does to a buffer that is not empty. */
  lemma FlushedIs(p: PackState, overlap: nat)
    requires p.buf != [] && p.start != NoOffset
    ensures var chunk := Chunk(Strip(Join(p.buf)), p.start.pos, p.end);
      var tail := Carry(chunk.text, overlap); var p' := Flushed(p, overlap);
      && p'.chunks == p.chunks + [chunk] && p'.end == p.end
      && p'.buf == (if |tail| == 0 then [] else [tail]) && p'.len == |tail|
      && p'.start == if |tail| == 0 then NoOffset else At(p.end - overlap)
  {
    hide Strip, Join;
  }

  lemma PartsNonempty(carry: string, ss: seq<Sentence>, a: nat)
    requires a < |ss|
    ensures Parts(carry, ss, a, |ss|) != []
  {
    assert |Texts(ss[a..])| > 0;
  }

  lemma FlushKeeps(p: PackState, ss: seq<Sentence>, target: nat, overlap: nat, gs: seq<Group>, g: Group)
    requires Holds(p, ss, target, overlap, gs) && NextFrom(gs, |gs|) < |ss|
    requires g == Group(Chunk(Strip(Join(p.buf)), p.start.pos, p.end), NextCarry(overlap, gs, |gs|), NextFrom(gs, |gs|), |ss|)
    ensures Holds(Flushed(p, overlap), ss, target, overlap, gs + [g])
  {
    hide PacksPrefix, Strip, Join, Body, Parts, Carry, Flushed, ChunksOf, SizeWith;
    JoinIsBody(NextCarry(overlap, gs, |gs|), ss, NextFrom(gs, |gs|), |ss|);
    PartsNonempty(NextCarry(overlap, gs, |gs|), ss, NextFrom(gs, |gs|));
    CloseGroup(ss, target, overlap, gs, g);
    FlushedIs(p, overlap);
    PartsStart(Carry(g.chunk.text, overlap), ss, |ss|);
    assert ChunksOf(gs + [g]) == ChunksOf(gs) + [g.chunk];
  }

  lemma AppendKeeps(p: PackState, ss: seq<Sentence>, s: Sentence, target: nat, overlap: nat, gs: seq<Group>)
    requires Holds(p, ss, target, overlap, gs) && s.text != ""
    requires gs != [] && NextFrom(gs, |gs|) == |ss| ==>
      var g := gs[|gs| - 1];
      g.from <= |ss| && |Body(g.carry, ss, g.from, |ss|)| + 1 + |s.text| > target
    requires NextFrom(gs, |gs|) < |ss| ==> p.len + 1 + |s.text| <= target
    ensures Holds(Appended(Begun(p, s), s), ss + [s], target, overlap, gs)
  {
    hide PacksPrefix, MarksHold, Fits, Body, Parts, Join, NextCarry, NextFrom, ChunksOf;
    NextSentence(ss, s, target, overlap, gs);
    PartsGrow(NextCarry(overlap, gs, |gs|), ss, s, NextFrom(gs, |gs|));
    AppendFits(p, ss, s, target, NextCarry(overlap, gs, |gs|), NextFrom(gs, |gs|));
    JoinAppend(p.buf, s.text);
    MarksMove(p, ss, s, overlap, gs);
  }

  lemma MarksMove(p: PackState, ss: seq<Sentence>, s: Sentence, overlap: nat, gs: seq<Group>)
    requires MarksHold(p, ss, overlap, gs) && NextFrom(gs, |gs|) <= |ss|
    ensures MarksHold(Appended(Begun(p, s), s), ss + [s], overlap, gs)
  {
  }

  lemma AppendFits(p: PackState, ss: seq<Sentence>, s: Sentence, target: nat, carry: string, a: nat)
    requires a <= |ss| && Fits(ss, target, carry, a, |ss|)
    requires p.buf == Parts(carry, ss, a, |ss|) && p.len == |Join(p.buf)|
    requires a < |ss| ==> p.len + 1 + |s.text| <= target
    ensures Fits(ss + [s], target, carry, a, |ss| + 1)
  {
    FitsStable(ss, s, target, carry, a, |ss|);
    BodyStable(carry, ss, s, a, |ss|);
    JoinIsBody(carry, ss, a, |ss|);
    forall j | a < j < |ss| + 1 ensures SizeWith(carry, ss + [s], a, j) <= target {
    }
  }

  lemma StepKeeps(p: PackState, ss: seq<Sentence>, s: Sentence, target: nat, overlap: nat, gs: seq<Group>) returns (gs': seq<Group>)
    requires Holds(p, ss, target, overlap, gs) && s.text != ""
    requires if ss == [] then gs == [] else NextFrom(gs, |gs|) < |ss|
    ensures Holds(Packed(p, s, target, overlap), ss + [s], target, overlap, gs')
    ensures NextFrom(gs', |gs'|) <= |ss|
  {
    gs' := gs;
    if Overfull(p, s, target) {
      var g := Group(Chunk(Strip(Join(p.buf)), p.start.pos, p.end), NextCarry(overlap, gs, |gs|), NextFrom(gs, |gs|), |ss|);
      FlushKeeps(p, ss, target, overlap, gs, g);
      JoinIsBody(g.carry, ss, g.from, |ss|);
      gs' := gs + [g];
      AppendKeeps(Flushed(p, overlap), ss, s, target, overlap, gs');
    } else {
      if ss != [] {
        BufferNonempty(p, ss, target, overlap, gs);
      }
      AppendKeeps(p, ss, s, target, overlap, gs);
    }
  }

  lemma BufferNonempty(p: PackState, ss: seq<Sentence>, target: nat, overlap: nat, gs: seq<Group>)
    requires Holds(p, ss, target, overlap, gs) && NextFrom(gs, |gs|) < |ss|
    ensures p.len > 0
  {
    assert Texts(ss[NextFrom(gs, |gs|)..]) != [];
  }

  lemma {:induction false} PackAllHolds(ss: seq<Sentence>, target: nat, overlap: nat) returns (gs: seq<Group>)
    requires forall i | 0 <= i < |ss| :: ss[i].text != ""
    ensures Holds(PackAll(ss, target, overlap), ss, target, overlap, gs)
    ensures if ss == [] then gs == [] else NextFrom(gs, |gs|) < |ss|
  {
    if ss == [] {
      gs := [];
    } else {
      var prev, s := ss[..|ss| - 1], ss[|ss| - 1];
      assert ss == prev + [s];
      gs := PackAllHolds(prev, target, overlap);
      gs := StepKeeps(PackAll(prev, target, overlap), prev, s, target, overlap, gs);
    }
  }

  lemma JoinAppend(parts: seq<string>, last: string)
    ensures Join(parts + [last]) == if parts == [] then last else Join(parts) + " " + last
  {
    assert (parts + [last])[..|parts|] == parts;
  }

  /** The last flush closes the packing. */
  lemma PackingComplete(ss: seq<Sentence>, target: nat, overlap: nat) returns (gs: seq<Group>)
    requires ss != [] && forall i | 0 <= i < |ss| :: ss[i].text != ""
    ensures Packs(ss, target, overlap, gs)
    ensures Flushed(PackAll(ss, target, overlap), overlap).chunks == ChunksOf(gs)
  {
    var open := PackAllHolds(ss, target, overlap);
    var p := PackAll(ss, target, overlap);
    var g := Group(Chunk(Strip(Join(p.buf)), p.start.pos, p.end), NextCarry(overlap, open, |open|), NextFrom(open, |open|), |ss|);
    FlushKeeps(p, ss, target, overlap, open, g);
    gs := open + [g];
  }

  /** The value of `chunk_text` for valid arguments. */
  function ChunkAll(text: string, target: nat, overlap: nat): seq<Chunk> {
    if Blank(text) then [] else Flushed(PackAll(Sentences(text), target, overlap), overlap).chunks
  }

  lemma ChunkAllPacks(text: string, target: nat, overlap: nat) returns (gs: seq<Group>)
    requires !Blank(text)
    ensures Packs(Sentences(text), target, overlap, gs) && ChunkAll(text, target, overlap) == ChunksOf(gs)
  {
    LocatedNonempty(text, 0);
    gs := PackingComplete(Sentences(text), target, overlap);
  }

  /** `chunk_text`. */
  method ChunkText(text: string, target: int, overlap: int) returns (r: ChunkResult, ghost groups: seq<Group>)
    ensures r.Invalid? <==> !Blank(text) && !(0 <= overlap < target)
    ensures r.Invalid? ==> r.error == if target <= 0 then BadTarget else BadOverlap
    ensures r.Chunks? && Blank(text) ==> r.chunks == []
    ensures r.Chunks? && !Blank(text) ==>
      && Packs(Sentences(text), target, overlap, groups) && r.chunks == ChunksOf(groups)
      && r.chunks == ChunkAll(text, target, overlap)
  {
    groups := [];
    StripIdempotent(text);
    if text == "" || Strip(text) == "" {
      return Chunks([]), groups;
    }
    if target <= 0 {
      return Invalid(BadTarget), groups;
    }
    if overlap < 0 || overlap >= target {
      return Invalid(BadOverlap), groups;
    }
    var sentences := Locate(text);
    var packer := new Packer(target, overlap);
    for i := 0 to |sentences|
      invariant packer.View() == PackAll(sentences[..i], target, overlap)
      invariant packer.target == target && packer.overlap == overlap
    {
      assert sentences[..i + 1][..i] == sentences[..i];
      packer.Add(sentences[i]);
    }
    assert sentences[..|sentences|] == sentences;
    LocatedNonempty(text, 0);
    groups := PackingComplete(sentences, target, overlap);
    if packer.buf != [] {
      packer.Flush();
    }
    r := Chunks(packer.chunks);
  }

  lemma {:induction false} LocatedNonempty(text: string, a: nat)
    requires PieceStart(text, a)
    ensures forall i | 0 <= i < |Located(text, a)| :: Located(text, a)[i].text != ""
    ensures a < |text| ==> Located(text, a) != []
    decreases |text| - a
  {
    var p := NextSeparator(text, a);
    if p < |text| {
      LocatedNonempty(text, SkipSpaces(text, p));
    }
  }
}
