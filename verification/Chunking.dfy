/** Splitting a source's text into chunks: as few as the two size limits allow, and lossless. */
module Chunking {
  import opened Text

  const MAX_PARTS := 8

  /** A piece of a line: `line` counts the non-blank lines from 1. */
  datatype Part = Part(line: nat, text: string)

  datatype Chunk = Chunk(index: nat, citation: string, anchor: string, text: string)

  predicate IsLineBreak(c: char) {
    var n := c as int;
    10 <= n <= 13 || 28 <= n <= 30 || n == 0x85 || n == 0x2028 || n == 0x2029
  }

  function FirstBreak(s: string): (i: nat)
    ensures i <= |s| && (i < |s| ==> IsLineBreak(s[i]))
    ensures forall j :: 0 <= j < i ==> !IsLineBreak(s[j])
  {
    if s == [] || IsLineBreak(s[0]) then 0 else 1 + FirstBreak(s[1..])
  }

  /** `content.splitlines()`. */
  function SplitLines(s: string): seq<string>
    decreases |s|
  {
    if s == [] then []
    else
      var i := FirstBreak(s);
      if i == |s| then [s]
      else
        var width := if s[i] == '\r' && i + 1 < |s| && s[i + 1] == '\n' then 2 else 1;
        [s[..i]] + SplitLines(s[i + width..])
  }

  function StrippedLines(lines: seq<string>): (r: seq<string>)
    ensures forall i :: 0 <= i < |r| ==> r[i] != []
  {
    if lines == [] then []
    else (if Strip(lines[0]) == [] then [] else [Strip(lines[0])]) + StrippedLines(lines[1..])
  }

  /** The lines that are chunked: the non-blank ones, stripped, or else the stripped content. */
  function ContentLines(content: string): (r: seq<string>)
    ensures r != []
  {
    var lines := StrippedLines(SplitLines(content));
    if lines == [] then [Strip(content)] else lines
  }

  /** A line cut into pieces of `max` characters. */
  function Pieces(line: string, max: nat): (r: seq<string>)
    requires max > 0
    ensures forall i :: 0 <= i < |r| ==> 0 < |r[i]| <= max
  {
    if line == [] then []
    else if |line| <= max then [line]
    else [line[..max]] + Pieces(line[max..], max)
  }

  function Numbered(line: nat, pieces: seq<string>): (r: seq<Part>)
    ensures |r| == |pieces|
    ensures forall i :: 0 <= i < |r| ==> r[i] == Part(line, pieces[i])
  {
    if pieces == [] then [] else [Part(line, pieces[0])] + Numbered(line, pieces[1..])
  }

  /** All parts of the first `|lines|` lines, in order. */
  function PartsOf(lines: seq<string>, max: nat): seq<Part>
    requires max > 0
  {
    if lines == [] then []
    else PartsOf(lines[..|lines| - 1], max) + Numbered(|lines|, Pieces(lines[|lines| - 1], max))
  }

  /** `"\n".join` of the texts. */
  function Join(block: seq<Part>): string {
    if block == [] then []
    else if |block| == 1 then block[0].text
    else Join(block[..|block| - 1]) + "\n" + block[|block| - 1].text
  }

  function Flatten(blocks: seq<seq<Part>>): seq<Part> {
    if blocks == [] then [] else Flatten(blocks[..|blocks| - 1]) + blocks[|blocks| - 1]
  }

  /** What both limits allow in one chunk. */
  predicate Fits(block: seq<Part>, max: nat) {
    |block| <= MAX_PARTS && |Join(block)| <= max
  }

  predicate Good(parts: seq<Part>, max: nat) {
    forall i :: 0 <= i < |parts| ==> 0 < |parts[i].text| <= max
  }

  /** The splitter between two parts: the chunks it has closed and the one it is filling. */
  datatype Splitter = Splitter(done: seq<seq<Part>>, current: seq<Part>)

  function Place(g: Splitter, part: Part, max: nat): Splitter {
    if g.current != [] && (|g.current| >= MAX_PARTS || |Join(g.current)| + |part.text| + 1 > max)
    then Splitter(g.done + [g.current], [part])
    else Splitter(g.done, g.current + [part])
  }

  function PlaceAll(parts: seq<Part>, max: nat): Splitter {
    if parts == [] then Splitter([], []) else Place(PlaceAll(parts[..|parts| - 1], max), parts[|parts| - 1], max)
  }

  function Close(g: Splitter): seq<seq<Part>> {
    if g.current == [] then g.done else g.done + [g.current]
  }

  /** The blocks of parts that become chunks. */
  function Blocks(parts: seq<Part>, max: nat): seq<seq<Part>> {
    Close(PlaceAll(parts, max))
  }

  lemma JoinMore(block: seq<Part>, part: Part)
    ensures |Join(block + [part])| == |Join(block)| + |part.text| + (if block == [] then 0 else 1)
  {
    assert (block + [part])[..|block|] == block;
  }

  lemma {:induction false} JoinSuffix(block: seq<Part>, k: nat)
    requires k <= |block|
    ensures |Join(block[k..])| <= |Join(block)|
  {
    if k < |block| {
      var front, last := block[..|block| - 1], block[|block| - 1];
      assert block == front + [last] && block[k..] == front[k..] + [last];
      JoinMore(front, last);
      JoinMore(front[k..], last);
      JoinSuffix(front, k);
    }
  }

  lemma FlattenMore(blocks: seq<seq<Part>>, block: seq<Part>)
    ensures Flatten(blocks + [block]) == Flatten(blocks) + block
  {
    assert (blocks + [block])[..|blocks|] == blocks;
  }

  /** Nothing is lost or moved, no closed chunk is empty, and every chunk fits. */
  ghost predicate Kept(g: Splitter, parts: seq<Part>, max: nat) {
    && Flatten(g.done) + g.current == parts
    && (parts != [] ==> g.current != [])
    && Fits(g.current, max)
    && forall i :: 0 <= i < |g.done| ==> g.done[i] != [] && Fits(g.done[i], max)
  }

  lemma CutKeeps(g: Splitter, front: seq<Part>, last: Part, max: nat)
    requires Kept(g, front, max) && 0 < |last.text| <= max && g.current != []
    ensures Kept(Splitter(g.done + [g.current], [last]), front + [last], max)
  {
    FlattenMore(g.done, g.current);
    assert Join([last]) == last.text;
  }

  lemma ExtendKeeps(g: Splitter, front: seq<Part>, last: Part, max: nat)
    requires Kept(g, front, max) && Fits(g.current + [last], max)
    ensures Kept(Splitter(g.done, g.current + [last]), front + [last], max)
  {
    assert Flatten(g.done) + (g.current + [last]) == Flatten(g.done) + g.current + [last];
  }

  lemma PlaceKeeps(g: Splitter, front: seq<Part>, last: Part, max: nat)
    requires Kept(g, front, max) && 0 < |last.text| <= max
    requires front == [] ==> g.current == []
    ensures Kept(Place(g, last, max), front + [last], max)
  {
    JoinMore(g.current, last);
    if g.current != [] && (|g.current| >= MAX_PARTS || |Join(g.current)| + |last.text| + 1 > max) {
      CutKeeps(g, front, last, max);
    } else {
      ExtendKeeps(g, front, last, max);
    }
  }

  lemma {:induction false} PlacedPartsAreKept(parts: seq<Part>, max: nat)
    requires Good(parts, max)
    ensures Kept(PlaceAll(parts, max), parts, max)
  {
    if parts != [] {
      var front, last := parts[..|parts| - 1], parts[|parts| - 1];
      PlacedPartsAreKept(front, max);
      assert parts == front + [last];
      PlaceKeeps(PlaceAll(front, max), front, last, max);
    }
  }

  /** The chunks are a lossless cut of the parts into non-empty blocks that fit. */
  lemma BlocksAreACut(parts: seq<Part>, max: nat)
    requires Good(parts, max)
    ensures Flatten(Blocks(parts, max)) == parts
    ensures forall i :: 0 <= i < |Blocks(parts, max)| ==>
            Blocks(parts, max)[i] != [] && Fits(Blocks(parts, max)[i], max)
  {
    PlacedPartsAreKept(parts, max);
    var g := PlaceAll(parts, max);
    if g.current != [] { FlattenMore(g.done, g.current); }
  }

  ghost predicate IsCut(cut: seq<seq<Part>>, parts: seq<Part>, max: nat) {
    && Flatten(cut) == parts
    && forall i :: 0 <= i < |cut| ==> Fits(cut[i], max)
  }

  /** The greedy splitter is never behind another cut: it has no more blocks, and with the
      same number its open block is no longer. */
  lemma {:induction false} GreedyStaysAhead(parts: seq<Part>, max: nat, cut: seq<seq<Part>>)
    requires Good(parts, max) && IsCut(cut, parts, max) && parts != []
    ensures var g := PlaceAll(parts, max);
            |g.done| + 1 <= |cut| && (|g.done| + 1 == |cut| ==> |g.current| <= |cut[|cut| - 1]|)
    decreases |parts|, |cut|
  {
    var early, tail := cut[..|cut| - 1], cut[|cut| - 1];
    if tail == [] {
      assert Flatten(early) + [] == Flatten(early);
      GreedyStaysAhead(parts, max, early);
    } else {
      var front, last := parts[..|parts| - 1], parts[|parts| - 1];
      var shorter := tail[..|tail| - 1];
      assert parts == Flatten(early) + tail;
      assert tail == shorter + [last] && Flatten(early) + shorter == front;
      PlacedPartsAreKept(front, max);
      if front != [] {
        ShorterIsACut(early, shorter, last, front, max);
        GreedyStaysAhead(front, max, early + [shorter]);
        var g := PlaceAll(front, max);
        if |g.done| == |early| { NoNewBlock(g, front, last, max, |front| - |shorter|); }
      }
    }
  }

  lemma ShorterIsACut(early: seq<seq<Part>>, shorter: seq<Part>, last: Part, front: seq<Part>, max: nat)
    requires Flatten(early) + shorter == front && Fits(shorter + [last], max)
    requires forall i :: 0 <= i < |early| ==> Fits(early[i], max)
    ensures IsCut(early + [shorter], front, max)
  {
    JoinMore(shorter, last);
    FlattenMore(early, shorter);
  }

  /** If a longer tail of the parts fits together with `last`, the open block takes `last` too. */
  lemma NoNewBlock(g: Splitter, front: seq<Part>, last: Part, max: nat, k: nat)
    requires Kept(g, front, max) && k <= |front| - |g.current|
    requires Fits(front[k..] + [last], max)
    ensures Place(g, last, max) == Splitter(g.done, g.current + [last])
  {
    var whole := front[k..] + [last];
    var skip := |front| - k - |g.current|;
    assert g.current == front[|front| - |g.current|..];
    assert whole[skip..] == g.current + [last];
    JoinSuffix(whole, skip);
    JoinMore(g.current, last);
  }

  /** No cut of the same parts into blocks that fit has fewer blocks than the splitter makes. */
  lemma GreedyIsOptimal(parts: seq<Part>, max: nat, cut: seq<seq<Part>>)
    requires Good(parts, max) && IsCut(cut, parts, max)
    ensures |Blocks(parts, max)| <= |cut|
  {
    if parts != [] {
      GreedyStaysAhead(parts, max, cut);
      PlacedPartsAreKept(parts, max);
    }
  }
}
