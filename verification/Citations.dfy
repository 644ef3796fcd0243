/** Chunks with their anchors and citation keys. */
module Citations {
  import opened Text
  import opened Decimal
  import opened Chunking

  /** The part of a citation that names the source version. */
  function Stem(sourceId: string, sourceVersion: string): string {
    sourceId + "@" + sourceVersion + "#"
  }

  function Span(first: nat, last: nat): string {
    "L" + Show(first) + "-L" + Show(last)
  }

  function FirstLine(block: seq<Part>): nat
    requires block != []
  {
    block[0].line
  }

  function LastLine(block: seq<Part>): nat
    requires block != []
  {
    block[|block| - 1].line
  }

  /** `_make_chunk`. */
  function MakeChunk(sourceId: string, sourceVersion: string, index: nat, block: seq<Part>): Chunk
    requires block != []
  {
    Chunk(index, Stem(sourceId, sourceVersion) + Span(FirstLine(block), LastLine(block)),
          "lines " + Show(FirstLine(block)) + "-" + Show(LastLine(block)), Join(block))
  }

  ghost predicate NoneEmpty(blocks: seq<seq<Part>>) {
    forall i :: 0 <= i < |blocks| ==> blocks[i] != []
  }

  function RawChunks(sourceId: string, sourceVersion: string, blocks: seq<seq<Part>>): (chunks: seq<Chunk>)
    requires NoneEmpty(blocks)
    ensures |chunks| == |blocks|
  {
    if blocks == [] then []
    else
      var n := |blocks| - 1;
      RawChunks(sourceId, sourceVersion, blocks[..n]) + [MakeChunk(sourceId, sourceVersion, n, blocks[n])]
  }

  lemma {:induction false} RawAt(sourceId: string, sourceVersion: string, blocks: seq<seq<Part>>, i: nat)
    requires NoneEmpty(blocks) && i < |blocks|
    ensures RawChunks(sourceId, sourceVersion, blocks)[i] == MakeChunk(sourceId, sourceVersion, i, blocks[i])
  {
    if i < |blocks| - 1 { RawAt(sourceId, sourceVersion, blocks[..|blocks| - 1], i); }
  }

  function Occurrences(chunks: seq<Chunk>, citation: string): nat {
    if chunks == [] then 0
    else Occurrences(chunks[..|chunks| - 1], citation) + (if chunks[|chunks| - 1].citation == citation then 1 else 0)
  }

  function Suffixed(citation: string, occurrence: nat): string {
    if occurrence == 1 then citation else citation + "-P" + Show(occurrence)
  }

  function OccurrenceAt(chunks: seq<Chunk>, i: nat): nat
    requires i < |chunks|
  {
    Occurrences(chunks[..i], chunks[i].citation) + 1
  }

  /** The second pass: a repeated citation gets the number of its occurrence. */
  function Renamed(chunks: seq<Chunk>): seq<Chunk> {
    seq(|chunks|, i requires 0 <= i < |chunks| =>
      chunks[i].(citation := Suffixed(chunks[i].citation, OccurrenceAt(chunks, i))))
  }

  function ContentBlocks(content: string, max: nat): (blocks: seq<seq<Part>>)
    requires max > 0
    ensures NoneEmpty(blocks)
  {
    var parts := PartsOf(ContentLines(content), max);
    PartsAreGood(ContentLines(content), max);
    BlocksAreACut(parts, max);
    Blocks(parts, max)
  }

  /** `_chunk_content`. */
  function Chunks(sourceId: string, sourceVersion: string, content: string, max: nat): seq<Chunk>
    requires max > 0
  {
    Renamed(RawChunks(sourceId, sourceVersion, ContentBlocks(content, max)))
  }

  lemma {:induction false} PartsAreGood(lines: seq<string>, max: nat)
    requires max > 0
    ensures Good(PartsOf(lines, max), max)
  {
    if lines != [] { PartsAreGood(lines[..|lines| - 1], max); }
  }

  // ----- Nothing is lost -----

  function Concat(texts: seq<string>): string {
    if texts == [] then [] else texts[0] + Concat(texts[1..])
  }

  /** The text that `parts` hold for one line. */
  function LineText(parts: seq<Part>, line: nat): string {
    if parts == [] then []
    else
      var last := parts[|parts| - 1];
      LineText(parts[..|parts| - 1], line) + (if last.line == line then last.text else [])
  }

  lemma {:induction false} PiecesMakeTheLine(line: string, max: nat)
    requires max > 0
    ensures Concat(Pieces(line, max)) == line
    decreases |line|
  {
    if |line| > max {
      PiecesMakeTheLine(line[max..], max);
      assert line == line[..max] + line[max..];
    } else if line != [] {
      assert Concat([line]) == line + Concat([line][1..]);
    }
  }

  lemma {:induction false} LineTextMore(parts: seq<Part>, line: nat, pieces: seq<string>, at: nat)
    ensures LineText(parts + Numbered(line, pieces), at) ==
            LineText(parts, at) + (if at == line then Concat(pieces) else [])
    decreases pieces
  {
    if pieces == [] {
      assert parts + Numbered(line, pieces) == parts;
    } else {
      var one := parts + [Part(line, pieces[0])];
      assert one[..|parts|] == parts;
      assert parts + Numbered(line, pieces) == one + Numbered(line, pieces[1..]);
      LineTextMore(one, line, pieces[1..], at);
    }
  }

  /** The parts of each line concatenate to that line, and there are no other parts. */
  lemma {:induction false} PartsMakeTheLines(lines: seq<string>, max: nat, line: nat)
    requires max > 0
    ensures LineText(PartsOf(lines, max), line) == if 1 <= line <= |lines| then lines[line - 1] else []
  {
    if lines != [] {
      var front, last := lines[..|lines| - 1], lines[|lines| - 1];
      PartsMakeTheLines(front, max, line);
      LineTextMore(PartsOf(front, max), |lines|, Pieces(last, max), line);
      PiecesMakeTheLine(last, max);
    }
  }

  // ----- Anchors -----

  /** Line numbers start at 1 and never jump. */
  ghost predicate Consecutive(parts: seq<Part>, last: nat) {
    && (parts != [] ==> parts[0].line == 1 && parts[|parts| - 1].line == last)
    && (parts == [] ==> last == 0)
    && forall i :: 0 < i < |parts| ==> parts[i - 1].line <= parts[i].line <= parts[i - 1].line + 1
  }

  lemma ConsecutiveMore(parts: seq<Part>, last: nat, more: seq<Part>)
    requires Consecutive(parts, last) && more != []
    requires forall i :: 0 <= i < |more| ==> more[i].line == last + 1
    ensures Consecutive(parts + more, last + 1)
  {
  }

  lemma {:induction false} PartsAreConsecutive(lines: seq<string>, max: nat)
    requires max > 0 && forall i :: 0 <= i < |lines| ==> lines[i] != []
    ensures Consecutive(PartsOf(lines, max), |lines|)
  {
    if lines != [] {
      var front, last := lines[..|lines| - 1], lines[|lines| - 1];
      PartsAreConsecutive(front, max);
      var parts, more := PartsOf(front, max), Numbered(|lines|, Pieces(last, max));
      assert more != [] && forall i :: 0 <= i < |more| ==> more[i].line == |lines|;
      ConsecutiveMore(parts, |front|, more);
    }
  }

  lemma {:induction false} FlattenStarts(blocks: seq<seq<Part>>, n: nat)
    requires n <= |blocks|
    ensures Flatten(blocks[..n]) <= Flatten(blocks)
  {
    if n == |blocks| {
      assert blocks[..n] == blocks;
    } else {
      assert blocks[..|blocks| - 1][..n] == blocks[..n];
      FlattenStarts(blocks[..|blocks| - 1], n);
    }
  }

  /** Chunk `i` ends where chunk `i + 1` begins. */
  lemma BlocksMeet(blocks: seq<seq<Part>>, i: nat)
    requires NoneEmpty(blocks) && i + 1 < |blocks|
    ensures exists k :: 0 < k < |Flatten(blocks)| && Flatten(blocks)[k - 1] == blocks[i][|blocks[i]| - 1]
                        && Flatten(blocks)[k] == blocks[i + 1][0]
  {
    var k := |Flatten(blocks[..i + 1])|;
    FlattenStarts(blocks, i + 2);
    assert blocks[..i + 2][..i + 1] == blocks[..i + 1];
    assert blocks[..i + 1][..i] == blocks[..i];
    assert Flatten(blocks[..i + 2])[k - 1] == blocks[i][|blocks[i]| - 1];
    assert Flatten(blocks[..i + 2])[k] == blocks[i + 1][0];
  }

  /** The anchors of the chunks run through lines 1 to `last` in order and skip none. */
  ghost predicate Covering(blocks: seq<seq<Part>>, last: nat)
    requires NoneEmpty(blocks)
  {
    && (blocks != [] ==> FirstLine(blocks[0]) == 1 && LastLine(blocks[|blocks| - 1]) == last)
    && (blocks == [] ==> last == 0)
    && (forall i :: 0 <= i < |blocks| ==> FirstLine(blocks[i]) <= LastLine(blocks[i]))
    && (forall i :: 0 < i < |blocks| ==> LastLine(blocks[i - 1]) <= FirstLine(blocks[i]) <= LastLine(blocks[i - 1]) + 1)
  }

  lemma LinesAreMonotone(parts: seq<Part>, last: nat, i: nat, j: nat)
    requires Consecutive(parts, last) && i <= j < |parts|
    ensures parts[i].line <= parts[j].line
    decreases j - i
  {
    if i < j { LinesAreMonotone(parts, last, i, j - 1); }
  }

  lemma BlockIsASlice(blocks: seq<seq<Part>>, i: nat) returns (at: nat)
    requires i < |blocks|
    ensures at + |blocks[i]| <= |Flatten(blocks)| && Flatten(blocks)[at..at + |blocks[i]|] == blocks[i]
    ensures i == 0 ==> at == 0
  {
    at := |Flatten(blocks[..i])|;
    assert blocks[..i + 1][..i] == blocks[..i];
    FlattenStarts(blocks, i + 1);
    assert Flatten(blocks[..i + 1])[at..] == blocks[i];
    assert Flatten(blocks)[..|Flatten(blocks[..i + 1])|] == Flatten(blocks[..i + 1]);
  }

  /** Consecutive lines, cut into blocks, have anchors without gaps. */
  lemma CutIsCovering(blocks: seq<seq<Part>>, last: nat)
    requires NoneEmpty(blocks) && Consecutive(Flatten(blocks), last)
    ensures Covering(blocks, last)
  {
    var parts := Flatten(blocks);
    forall i | 0 <= i < |blocks| ensures FirstLine(blocks[i]) <= LastLine(blocks[i]) {
      var at := BlockIsASlice(blocks, i);
      assert blocks[i][0] == parts[at] && blocks[i][|blocks[i]| - 1] == parts[at + |blocks[i]| - 1];
      LinesAreMonotone(parts, last, at, at + |blocks[i]| - 1);
    }
    forall i | 0 < i < |blocks|
      ensures LastLine(blocks[i - 1]) <= FirstLine(blocks[i]) <= LastLine(blocks[i - 1]) + 1
    {
      BlocksMeet(blocks, i - 1);
    }
    if blocks != [] {
      var at := BlockIsASlice(blocks, 0);
      assert blocks[0][0] == parts[0];
    }
  }

  lemma NotBlank(s: string, k: nat)
    requires k < |s| && !IsSpace(s[k])
    ensures !IsBlank(s)
  {
  }

  lemma {:induction false} StrippedKeepsText(s: string, k: nat)
    requires k < |s| && !IsSpace(s[k])
    ensures StrippedLines(SplitLines(s)) != []
    decreases |s|
  {
    var i := FirstBreak(s);
    if i == |s| {
      NotBlank(s, k);
      assert SplitLines(s)[0] == s;
    } else {
      var width := if s[i] == '\r' && i + 1 < |s| && s[i + 1] == '\n' then 2 else 1;
      var line, rest := s[..i], s[i + width..];
      assert SplitLines(s) == [line] + SplitLines(rest);
      if k < i {
        NotBlank(line, k);
      } else {
        assert k >= i + width;
        StrippedKeepsText(rest, k - i - width);
      }
    }
  }

  /** The texts of the chunks: the joined blocks, within both limits. */
  lemma ChunkTexts(sourceId: string, sourceVersion: string, content: string, max: nat, i: nat)
    requires max > 0 && i < |Chunks(sourceId, sourceVersion, content, max)|
    ensures var blocks := ContentBlocks(content, max);
            var chunk := Chunks(sourceId, sourceVersion, content, max)[i];
            && |Chunks(sourceId, sourceVersion, content, max)| == |blocks|
            && chunk.index == i && chunk.text == Join(blocks[i])
            && 0 < |blocks[i]| <= MAX_PARTS && |chunk.text| <= max
  {
    var parts := PartsOf(ContentLines(content), max);
    PartsAreGood(ContentLines(content), max);
    BlocksAreACut(parts, max);
    RawAt(sourceId, sourceVersion, ContentBlocks(content, max), i);
  }

  /** What the chunks of a source keep of its content: every non-blank line is there in full
      and in order, and the anchors run from line 1 to the last without a gap. */
  lemma ChunksKeepTheContent(content: string, max: nat)
    requires max > 0 && !IsBlank(content)
    ensures var lines := ContentLines(content);
            var blocks := ContentBlocks(content, max);
            && |blocks| > 0 && Covering(blocks, |lines|)
            && (forall n :: 1 <= n <= |lines| ==> lines[n - 1] != [] && LineText(Flatten(blocks), n) == lines[n - 1])
  {
    var lines := ContentLines(content);
    var parts := PartsOf(lines, max);
    var k :| 0 <= k < |content| && !IsSpace(content[k]);
    StrippedKeepsText(content, k);
    PartsAreGood(lines, max);
    BlocksAreACut(parts, max);
    PartsAreConsecutive(lines, max);
    CutIsCovering(Blocks(parts, max), |lines|);
    forall n | 1 <= n <= |lines| ensures LineText(parts, n) == lines[n - 1] { PartsMakeTheLines(lines, max, n); }
  }

  /** No cut of the same parts into texts within the limits gives fewer chunks. */
  lemma ChunksAreFewest(sourceId: string, sourceVersion: string, content: string, max: nat, cut: seq<seq<Part>>)
    requires max > 0 && IsCut(cut, PartsOf(ContentLines(content), max), max)
    ensures |Chunks(sourceId, sourceVersion, content, max)| <= |cut|
  {
    PartsAreGood(ContentLines(content), max);
    GreedyIsOptimal(PartsOf(ContentLines(content), max), max, cut);
  }

  // ----- Names -----

  function LeadingDigits(s: string): nat {
    if s == [] || !IsDigit(s[0]) then 0 else 1 + LeadingDigits(s[1..])
  }

  lemma {:induction false} LeadingDigitsOf(a: string, x: string)
    requires AllDigits(a) && (x != [] ==> !IsDigit(x[0]))
    ensures LeadingDigits(a + x) == |a|
  {
    if a == [] {
      assert a + x == x;
    } else {
      assert (a + x)[1..] == a[1..] + x;
      LeadingDigitsOf(a[1..], x);
    }
  }

  /** A numeral followed by something that is no digit can be read back. */
  lemma NumeralEnds(m: nat, x: string, n: nat, y: string)
    requires Show(m) + x == Show(n) + y
    requires (x != [] ==> !IsDigit(x[0])) && (y != [] ==> !IsDigit(y[0]))
    ensures m == n && x == y
  {
    LeadingDigitsOf(Show(m), x);
    LeadingDigitsOf(Show(n), y);
    var whole := Show(m) + x;
    assert Show(m) == whole[..|Show(m)|] && x == whole[|Show(m)|..];
    assert Show(n) == whole[..|Show(n)|] && y == whole[|Show(n)|..];
    ShowInjective(m, n);
  }

  function Ending(occurrence: nat): string {
    if occurrence == 1 then [] else "-P" + Show(occurrence)
  }

  lemma EndingInjective(k: nat, n: nat)
    requires Ending(k) == Ending(n)
    ensures k == n
  {
    if k != 1 && n != 1 {
      assert Show(k) == Ending(k)[2..] && Show(n) == Ending(n)[2..];
      ShowInjective(k, n);
    }
  }

  lemma SpanInOrder(a: nat, b: nat, k: nat)
    ensures Span(a, b) + Ending(k) == "L" + (Show(a) + ("-L" + (Show(b) + Ending(k))))
  {
    Associative("L" + Show(a) + "-L", Show(b), Ending(k));
    Associative("L" + Show(a), "-L", Show(b) + Ending(k));
    Associative("L", Show(a), "-L" + (Show(b) + Ending(k)));
  }

  /** First line, last line and occurrence can be read back from what follows the stem. */
  lemma SpanInjective(a: nat, b: nat, k: nat, c: nat, d: nat, n: nat)
    requires Span(a, b) + Ending(k) == Span(c, d) + Ending(n)
    ensures a == c && b == d && k == n
  {
    SpanInOrder(a, b, k);
    SpanInOrder(c, d, n);
    var u, v := Show(b) + Ending(k), Show(d) + Ending(n);
    var x, y := "-L" + u, "-L" + v;
    assert Show(a) + x == ("L" + (Show(a) + x))[1..] && Show(c) + y == ("L" + (Show(c) + y))[1..];
    NumeralEnds(a, x, c, y);
    assert u == x[2..] && v == y[2..];
    NumeralEnds(b, Ending(k), d, Ending(n));
    EndingInjective(k, n);
  }

  lemma {:induction false} OccurrencesGrow(chunks: seq<Chunk>, i: nat, j: nat)
    requires i < j <= |chunks|
    ensures Occurrences(chunks[..i], chunks[i].citation) < Occurrences(chunks[..j], chunks[i].citation)
    decreases j - i
  {
    assert chunks[..j][..j - 1] == chunks[..j - 1];
    if i < j - 1 { OccurrencesGrow(chunks, i, j - 1); }
  }

  lemma SuffixedIsEnding(citation: string, k: nat)
    ensures Suffixed(citation, k) == citation + Ending(k)
  {
    if k == 1 {
      assert citation + [] == citation;
    } else {
      assert citation + "-P" + Show(k) == citation + ("-P" + Show(k));
    }
  }

  /** What follows the stem in the name of chunk `i`: its lines, then its occurrence. */
  function NameTail(blocks: seq<seq<Part>>, raw: seq<Chunk>, i: nat): string
    requires NoneEmpty(blocks) && i < |blocks| == |raw|
  {
    Span(FirstLine(blocks[i]), LastLine(blocks[i])) + Ending(OccurrenceAt(raw, i))
  }

  lemma RenamedCitation(raw: seq<Chunk>, i: nat, base: string)
    requires i < |raw| && raw[i].citation == base
    ensures Renamed(raw)[i].citation == base + Ending(OccurrenceAt(raw, i))
  {
    SuffixedIsEnding(base, OccurrenceAt(raw, i));
  }

  lemma NameShape(sourceId: string, sourceVersion: string, blocks: seq<seq<Part>>, i: nat)
    requires NoneEmpty(blocks) && i < |blocks|
    ensures var raw := RawChunks(sourceId, sourceVersion, blocks);
            Renamed(raw)[i].citation == Stem(sourceId, sourceVersion) + NameTail(blocks, raw, i)
  {
    var raw := RawChunks(sourceId, sourceVersion, blocks);
    var stem, span := Stem(sourceId, sourceVersion), Span(FirstLine(blocks[i]), LastLine(blocks[i]));
    RawAt(sourceId, sourceVersion, blocks, i);
    RenamedCitation(raw, i, stem + span);
    Associative(stem, span, Ending(OccurrenceAt(raw, i)));
  }

  lemma Associative(a: string, b: string, c: string)
    ensures (a + b) + c == a + (b + c)
  {
  }

  /** Chunks with the same tail would be the same occurrence of the same lines. */
  lemma TailsAreDistinct(sourceId: string, sourceVersion: string, blocks: seq<seq<Part>>, i: nat, j: nat)
    requires NoneEmpty(blocks) && i < j < |blocks|
    ensures var raw := RawChunks(sourceId, sourceVersion, blocks); NameTail(blocks, raw, i) != NameTail(blocks, raw, j)
  {
    var raw := RawChunks(sourceId, sourceVersion, blocks);
    if NameTail(blocks, raw, i) == NameTail(blocks, raw, j) {
      RawAt(sourceId, sourceVersion, blocks, i);
      RawAt(sourceId, sourceVersion, blocks, j);
      SpanInjective(FirstLine(blocks[i]), LastLine(blocks[i]), OccurrenceAt(raw, i),
                    FirstLine(blocks[j]), LastLine(blocks[j]), OccurrenceAt(raw, j));
      OccurrencesGrow(raw, i, j);
    }
  }

  lemma SamePrefix(stem: string, p: string, q: string)
    requires stem + p == stem + q
    ensures p == q
  {
    assert p == (stem + p)[|stem|..] && q == (stem + q)[|stem|..];
  }

  /** All citations of one source version are pairwise distinct. */
  lemma CitationsAreDistinct(sourceId: string, sourceVersion: string, content: string, max: nat, i: nat, j: nat)
    requires max > 0 && i < j < |Chunks(sourceId, sourceVersion, content, max)|
    ensures Chunks(sourceId, sourceVersion, content, max)[i].citation !=
            Chunks(sourceId, sourceVersion, content, max)[j].citation
  {
    var blocks := ContentBlocks(content, max);
    var raw := RawChunks(sourceId, sourceVersion, blocks);
    NameShape(sourceId, sourceVersion, blocks, i);
    NameShape(sourceId, sourceVersion, blocks, j);
    TailsAreDistinct(sourceId, sourceVersion, blocks, i, j);
    if Renamed(raw)[i].citation == Renamed(raw)[j].citation {
      SamePrefix(Stem(sourceId, sourceVersion), NameTail(blocks, raw, i), NameTail(blocks, raw, j));
    }
  }

  // ----- The splitter as the service runs it -----

  lemma PlaceMore(parts: seq<Part>, part: Part, max: nat)
    ensures PlaceAll(parts + [part], max) == Place(PlaceAll(parts, max), part, max)
  {
    assert (parts + [part])[..|parts|] == parts;
  }

  /** The splitter after it has placed `parts`, starting as `g`. */
  function PlaceFrom(g: Splitter, parts: seq<Part>, max: nat): Splitter {
    if parts == [] then g else Place(PlaceFrom(g, parts[..|parts| - 1], max), parts[|parts| - 1], max)
  }

  lemma {:induction false} PlaceFromAll(before: seq<Part>, parts: seq<Part>, max: nat)
    ensures PlaceFrom(PlaceAll(before, max), parts, max) == PlaceAll(before + parts, max)
  {
    if parts == [] {
      assert before + parts == before;
    } else {
      var front, last := parts[..|parts| - 1], parts[|parts| - 1];
      PlaceFromAll(before, front, max);
      var longer := before + front;
      PlaceMore(longer, last, max);
      assert before + parts == longer + [last];
    }
  }

  lemma PartsMore(lines: seq<string>, i: nat, max: nat)
    requires max > 0 && i < |lines|
    ensures PartsOf(lines[..i + 1], max) == PartsOf(lines[..i], max) + Numbered(i + 1, Pieces(lines[i], max))
  {
    assert lines[..i + 1][..i] == lines[..i];
  }

  lemma RawMore(sourceId: string, sourceVersion: string, done: seq<seq<Part>>, current: seq<Part>)
    requires NoneEmpty(done) && current != []
    ensures NoneEmpty(done + [current])
    ensures RawChunks(sourceId, sourceVersion, done + [current]) ==
            RawChunks(sourceId, sourceVersion, done) + [MakeChunk(sourceId, sourceVersion, |done|, current)]
  {
    assert (done + [current])[..|done|] == done;
  }

  ghost predicate Filling(sourceId: string, sourceVersion: string, g: Splitter, chunks: seq<Chunk>,
                          current: seq<Part>, currentSize: nat)
  {
    && current == g.current && currentSize == |Join(current)|
    && NoneEmpty(g.done) && chunks == RawChunks(sourceId, sourceVersion, g.done)
  }

  predicate Cuts(current: seq<Part>, currentSize: nat, part: Part, max: nat) {
    current != [] && (|current| >= MAX_PARTS || currentSize + |part.text| + 1 > max)
  }

  /** One turn of the inner loop, with the size kept up to date instead of recomputed. */
  lemma PlacedFills(sourceId: string, sourceVersion: string, g: Splitter, chunks: seq<Chunk>, current: seq<Part>,
                    currentSize: nat, part: Part, max: nat)
    requires Filling(sourceId, sourceVersion, g, chunks, current, currentSize)
    ensures Cuts(current, currentSize, part, max) ==>
              Filling(sourceId, sourceVersion, Place(g, part, max),
                      chunks + [MakeChunk(sourceId, sourceVersion, |chunks|, current)], [] + [part], |part.text|)
    ensures !Cuts(current, currentSize, part, max) ==>
              Filling(sourceId, sourceVersion, Place(g, part, max), chunks, current + [part],
                      currentSize + |part.text| + (if current == [] then 0 else 1))
  {
    JoinMore(g.current, part);
    JoinMore([], part);
    assert [] + [part] == [part];
    if current != [] { RawMore(sourceId, sourceVersion, g.done, current); }
  }

  /** Both passes of `_chunk_content`: the greedy loop, then the renaming loop. */
  method ChunkContent(sourceId: string, sourceVersion: string, content: string, max: nat) returns (unique: seq<Chunk>)
    requires max > 0
    ensures unique == Chunks(sourceId, sourceVersion, content, max)
  {
    var lines := ContentLines(content);
    ghost var g := Splitter([], []);
    var chunks: seq<Chunk> := [];
    var current: seq<Part> := [];
    var currentSize := 0;
    for i := 0 to |lines|
      invariant g == PlaceAll(PartsOf(lines[..i], max), max)
      invariant Filling(sourceId, sourceVersion, g, chunks, current, currentSize)
    {
      var parts := Numbered(i + 1, Pieces(lines[i], max));
      ghost var before := PartsOf(lines[..i], max);
      PartsMore(lines, i, max);
      chunks, current, currentSize := PlaceParts(sourceId, sourceVersion, parts, max, chunks, current, currentSize, g);
      g := PlaceFrom(g, parts, max);
      PlaceFromAll(before, parts, max);
    }
    assert lines[..|lines|] == lines;
    if current != [] {
      RawMore(sourceId, sourceVersion, g.done, current);
      chunks := chunks + [MakeChunk(sourceId, sourceVersion, |chunks|, current)];
    }
    unique := NumberOccurrences(chunks);
  }

  /** The inner loop, over the parts of one line. */
  method PlaceParts(sourceId: string, sourceVersion: string, parts: seq<Part>, max: nat, chunks0: seq<Chunk>,
                    current0: seq<Part>, currentSize0: nat, ghost g0: Splitter)
    returns (chunks: seq<Chunk>, current: seq<Part>, currentSize: nat)
    requires Filling(sourceId, sourceVersion, g0, chunks0, current0, currentSize0)
    ensures Filling(sourceId, sourceVersion, PlaceFrom(g0, parts, max), chunks, current, currentSize)
  {
    chunks, current, currentSize := chunks0, current0, currentSize0;
    for k := 0 to |parts|
      invariant Filling(sourceId, sourceVersion, PlaceFrom(g0, parts[..k], max), chunks, current, currentSize)
    {
      assert parts[..k + 1][..k] == parts[..k];
      chunks, current, currentSize :=
        PlacePart(sourceId, sourceVersion, parts[k], max, chunks, current, currentSize, PlaceFrom(g0, parts[..k], max));
    }
    assert parts[..|parts|] == parts;
  }

  /** The body of the inner loop. */
  method PlacePart(sourceId: string, sourceVersion: string, part: Part, max: nat, chunks0: seq<Chunk>,
                   current0: seq<Part>, currentSize0: nat, ghost g0: Splitter)
    returns (chunks: seq<Chunk>, current: seq<Part>, currentSize: nat)
    requires Filling(sourceId, sourceVersion, g0, chunks0, current0, currentSize0)
    ensures Filling(sourceId, sourceVersion, Place(g0, part, max), chunks, current, currentSize)
  {
    chunks, current, currentSize := chunks0, current0, currentSize0;
    PlacedFills(sourceId, sourceVersion, g0, chunks, current, currentSize, part, max);
    var nextSize := currentSize + |part.text| + (if current != [] then 1 else 0);
    if current != [] && (|current| >= MAX_PARTS || nextSize > max) {
      chunks := chunks + [MakeChunk(sourceId, sourceVersion, |chunks|, current)];
      current, currentSize := [], 0;
    }
    current := current + [part];
    currentSize := currentSize + |part.text| + (if |current| > 1 then 1 else 0);
  }

  method NumberOccurrences(chunks: seq<Chunk>) returns (unique: seq<Chunk>)
    ensures unique == Renamed(chunks)
  {
    var occurrences: map<string, nat> := map[];
    unique := [];
    for i := 0 to |chunks|
      invariant unique == Renamed(chunks)[..i]
      invariant forall c :: (if c in occurrences then occurrences[c] else 0) == Occurrences(chunks[..i], c)
    {
      var chunk := chunks[i];
      assert chunks[..i + 1][..i] == chunks[..i];
      var occurrence := (if chunk.citation in occurrences then occurrences[chunk.citation] else 0) + 1;
      occurrences := occurrences[chunk.citation := occurrence];
      unique := unique + [chunk.(citation := Suffixed(chunk.citation, occurrence))];
    }
  }
}
