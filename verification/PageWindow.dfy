/** The page-window chunker: what one run over a document computes, as functions on the text, and
    the chunker object whose loops compute exactly that. */
module PageWindow {
  import opened PyText

  datatype DocumentChunk = DocumentChunk(
    ordinal: nat, text: string, startOffset: nat, endOffset: nat, pageNumber: nat)

  /** A half-open range of one stripped page. */
  datatype Window = Window(start: nat, end: nat)

  /** Window sizes a chunking profile may carry: the overlap is shorter than the window. */
  datatype Config = Config(maxChars: nat, overlapChars: nat) {
    predicate Valid() {
      overlapChars < maxChars
    }
  }

  // ---------------------------------------------------------------- one window

  /** A window may end at `index` because the character before it is whitespace. */
  ghost predicate BreakAt(page: string, index: int) {
    0 < index <= |page| && IsSpace(page[index - 1])
  }

  /** The nearest break at or before `index` and past `minimum`, or `otherwise`. */
  function LastBreak(page: string, minimum: nat, index: nat, otherwise: nat): (r: nat)
    requires minimum <= index <= |page|
    ensures r == otherwise || (minimum < r <= index && BreakAt(page, r))
    ensures forall i :: minimum < i <= index && BreakAt(page, i) ==> i <= r && BreakAt(page, r)
  {
    if index == minimum then otherwise
    else if IsSpace(page[index - 1]) then
      index
    else
      LastBreak(page, minimum, index - 1, otherwise)
  }

  /** The last break in the second half of a full window, or its full size when there is none there; the
      end of the page when that is within reach. */
  ghost predicate EndsWell(c: Config, page: string, start: nat, end: nat) {
    if start + c.maxChars >= |page| then end == |page|
    else
      && start + c.maxChars / 2 < end <= start + c.maxChars
      && (BreakAt(page, end) || end == start + c.maxChars)
      && forall i :: start + c.maxChars / 2 < i <= start + c.maxChars && BreakAt(page, i) ==> i <= end && BreakAt(page, end)
  }

  /** Where a window of at most `maxChars` characters from `start` ends. */
  function WindowEnd(c: Config, page: string, start: nat): (end: nat)
    requires c.Valid() && start < |page|
    ensures start < end <= |page| && end <= start + c.maxChars
    ensures EndsWell(c, page, start, end)
  {
    var full := Least(start + c.maxChars, |page|);
    if full < |page| then LastBreak(page, start + (full - start) / 2, full, full) else full
  }

  /** The nearest word start at or before `candidate`, never before `floor`. */
  function WordStart(page: string, floor: nat, candidate: nat): (r: nat)
    requires floor <= candidate <= |page|
    ensures floor <= r <= candidate
    ensures r == floor || BreakAt(page, r)
    ensures forall i :: r < i <= candidate ==> !BreakAt(page, i)
  {
    if candidate == floor || IsSpace(page[candidate - 1]) then candidate
    else WordStart(page, floor, candidate - 1)
  }

  /** The nearest word start at or before `end - overlapChars` and after `start`, or one past `start`. */
  ghost predicate StartsWell(c: Config, page: string, start: nat, end: nat, r: nat) {
    var candidate := Greatest(end - c.overlapChars, start + 1);
    && start < r <= candidate && (r == start + 1 || BreakAt(page, r))
    && forall i :: r < i <= candidate ==> !BreakAt(page, i)
  }

  /** Where the window after `[start, end)` begins: back by the overlap, then to a word start. */
  function NextStart(c: Config, page: string, start: nat, end: nat): (r: nat)
    requires c.Valid() && start < end <= |page|
    ensures start < r <= end
    ensures StartsWell(c, page, start, end, r)
  {
    WordStart(page, start + 1, Greatest(end - c.overlapChars, start + 1))
  }

  function Least(a: int, b: int): (r: int)
    ensures r <= a && r <= b && (r == a || r == b)
  {
    if a <= b then a else b
  }

  function Greatest(a: int, b: int): (r: int)
    ensures r >= a && r >= b && (r == a || r == b)
  {
    if a >= b then a else b
  }

  /** All windows of a page from `start` on. */
  function Windows(c: Config, page: string, start: nat): (ws: seq<Window>)
    requires c.Valid() && start < |page|
    ensures |ws| > 0 && ws[0] == Window(start, WindowEnd(c, page, start))
    decreases |page| - start
  {
    var end := WindowEnd(c, page, start);
    if end == |page| then [Window(start, end)]
    else [Window(start, end)] + Windows(c, page, NextStart(c, page, start, end))
  }

  // ---------------------------------------------------------------- chunks of windows and pages

  /** The stripped text of a window and where it begins in the page; empty for a blank window. */
  datatype Piece = Piece(text: string, start: nat)

  predicate InPage(page: string, w: Window) {
    w.start < w.end <= |page|
  }

  function PieceOf(page: string, w: Window): Piece
    requires InPage(page, w)
  {
    var raw := page[w.start..w.end];
    Piece(Strip(raw), w.start + Lead(raw))
  }

  /** The pieces of a page from the window at `start` on. */
  function Pieces(c: Config, page: string, start: nat): seq<Piece>
    requires c.Valid() && start < |page|
    decreases |page| - start
  {
    var end := WindowEnd(c, page, start);
    var piece := PieceOf(page, Window(start, end));
    if end == |page| then [piece] else [piece] + Pieces(c, page, NextStart(c, page, start, end))
  }

  function PagePieces(c: Config, page: string): seq<Piece>
    requires c.Valid()
  {
    if page == "" then [] else Pieces(c, page, 0)
  }

  /** A piece as a chunk; `pageStart` is the page's offset in the document. */
  function ChunkOf(p: Piece, pageStart: nat, number: nat, ordinal: nat): DocumentChunk {
    DocumentChunk(ordinal, p.text, pageStart + p.start, pageStart + p.start + |p.text|, number)
  }

  /** Appends one piece to the chunks already emitted; an empty piece adds nothing. */
  function EmitOne(p: Piece, pageStart: nat, number: nat, ordinalStart: nat, done: seq<DocumentChunk>): seq<DocumentChunk> {
    if p.text == "" then done else done + [ChunkOf(p, pageStart, number, ordinalStart + |done|)]
  }

  /** The chunks of a list of pieces, numbered on from `ordinal`. */
  function Emit(ps: seq<Piece>, pageStart: nat, number: nat, ordinal: nat): seq<DocumentChunk> {
    if ps == [] then []
    else if ps[0].text == "" then Emit(ps[1..], pageStart, number, ordinal)
    else [ChunkOf(ps[0], pageStart, number, ordinal)] + Emit(ps[1..], pageStart, number, ordinal + 1)
  }

  lemma EmitNone(pageStart: nat, number: nat, ordinal: nat)
    ensures Emit([], pageStart, number, ordinal) == []
  {
  }

  lemma {:induction false} EmitStep(ps: seq<Piece>, pageStart: nat, number: nat, ordinalStart: nat, done: seq<DocumentChunk>)
    requires ps != []
    ensures var next := EmitOne(ps[0], pageStart, number, ordinalStart, done);
            done + Emit(ps, pageStart, number, ordinalStart + |done|)
            == next + Emit(ps[1..], pageStart, number, ordinalStart + |next|)
  {
  }

  /** The chunks of one raw page that begins at `pageStart` in the document. */
  function PageChunks(c: Config, raw: string, pageStart: nat, number: nat, ordinal: nat): seq<DocumentChunk>
    requires c.Valid()
  {
    Emit(PagePieces(c, Strip(raw)), pageStart + Lead(raw), number, ordinal)
  }

  /** The chunks of the pages from one page on. */
  function PagesChunks(c: Config, pages: seq<string>, pageStart: nat, number: nat, ordinal: nat): seq<DocumentChunk>
    requires c.Valid()
  {
    if pages == [] then []
    else
      var here := PageChunks(c, pages[0], pageStart, number, ordinal);
      here + PagesChunks(c, pages[1..], pageStart + |pages[0]| + 1, number + 1, ordinal + |here|)
  }

  lemma {:induction false} PiecesStep(c: Config, page: string, start: nat)
    requires c.Valid() && start < |page|
    ensures var end := WindowEnd(c, page, start); var ps := Pieces(c, page, start);
            && ps != [] && ps[0] == PieceOf(page, Window(start, end))
            && ps[1..] == if end == |page| then [] else Pieces(c, page, NextStart(c, page, start, end))
  {
  }

  lemma PagesNone(c: Config, pageStart: nat, number: nat, ordinal: nat)
    requires c.Valid()
    ensures PagesChunks(c, [], pageStart, number, ordinal) == []
  {
  }

  lemma {:induction false} PagesStep(c: Config, pages: seq<string>, pageStart: nat, number: nat, done: seq<DocumentChunk>)
    requires c.Valid() && pages != []
    ensures var next := done + PageChunks(c, pages[0], pageStart, number, |done|);
            done + PagesChunks(c, pages, pageStart, number, |done|)
            == next + PagesChunks(c, pages[1..], pageStart + |pages[0]| + 1, number + 1, |next|)
  {
    hide PageChunks;
  }

  /** Everything the chunker produces for a document. */
  function DocumentChunks(c: Config, text: string): seq<DocumentChunk>
    requires c.Valid()
  {
    PagesChunks(c, Split(text, FORM_FEED), 0, 1, 0)
  }

  lemma DocumentIsPages(c: Config, text: string)
    requires c.Valid()
    ensures DocumentChunks(c, text) == PagesChunks(c, Split(text, FORM_FEED), 0, 1, 0)
  {
    hide PagesChunks, PageChunks, Split;
  }

  /** The page without surrounding whitespace, and how much of it stood in front. */
  function Stripped(raw: string): (string, nat) {
    (Strip(raw), Lead(raw))
  }

  lemma PageChunksOf(c: Config, raw: string, pageStart: nat, number: nat, ordinal: nat)
    requires c.Valid()
    ensures PageChunks(c, raw, pageStart, number, ordinal)
         == Emit(PagePieces(c, Stripped(raw).0), pageStart + Stripped(raw).1, number, ordinal)
  {
    hide Strip, Lead, PagePieces, Emit, IsSpace;
  }

  lemma NoPieces(c: Config)
    requires c.Valid()
    ensures PagePieces(c, "") == []
  {
    hide Pieces;
  }

  /** The chunks of a raw page are those of what stripping leaves, shifted by what it took in front. */
  lemma RawPage(c: Config, raw: string, pageStart: nat, number: nat, ordinal: nat)
    requires c.Valid()
    ensures PageChunks(c, raw, pageStart, number, ordinal)
         == if Stripped(raw).0 == "" then []
            else Emit(PagePieces(c, Stripped(raw).0), pageStart + Stripped(raw).1, number, ordinal)
  {
    hide *;
    PageChunksOf(c, raw, pageStart, number, ordinal);
    if Stripped(raw).0 == "" {
      NoPieces(c);
      EmitNone(pageStart + Stripped(raw).1, number, ordinal);
    }
  }

  // ---------------------------------------------------------------- the chunker object

  /** One chunker per profile; the constructor's check is `Valid`. */
  class PageWindowDocumentChunker {
    const config: Config

    constructor (config: Config)
      requires config.Valid()
      ensures this.config == config
    {
      this.config := config;
    }

    method Chunk(text: string) returns (chunks: seq<DocumentChunk>)
      requires config.Valid()
      ensures chunks == DocumentChunks(config, text)
    {
      hide *;
      chunks := [];
      var pageStart: nat := 0;
      var pages := Split(text, FORM_FEED);
      ghost var all := DocumentChunks(config, text);
      DocumentIsPages(config, text);
      assert pages[0..] == pages;
      for i := 0 to |pages|
        invariant chunks + PagesChunks(config, pages[i..], pageStart, i + 1, |chunks|) == all
      {
        PagesStep(config, pages[i..], pageStart, i + 1, chunks);
        assert pages[i..][1..] == pages[i + 1..];
        var here := ChunkRawPage(pages[i], pageStart, i + 1, |chunks|);
        chunks := chunks + here;
        pageStart := pageStart + |pages[i]| + 1;
      }
      PagesNone(config, pageStart, |pages| + 1, |chunks|);
    }

    /** The body of the page loop: strip the raw page and chunk what is left of it. */
    method ChunkRawPage(raw: string, pageStart: nat, number: nat, ordinalStart: nat) returns (here: seq<DocumentChunk>)
      requires config.Valid()
      ensures here == PageChunks(config, raw, pageStart, number, ordinalStart)
    {
      RawPage(config, raw, pageStart, number, ordinalStart);
      hide *;
      var (page, leading) := Stripped(raw);
      here := [];
      if page != "" {
        here := ChunkPage(page, pageStart + leading, number, ordinalStart);
      }
    }

    method ChunkPage(page: string, pageStart: nat, number: nat, ordinalStart: nat) returns (chunks: seq<DocumentChunk>)
      requires config.Valid() && page != ""
      ensures chunks == Emit(PagePieces(config, page), pageStart, number, ordinalStart)
    {
      hide PieceOf, EmitOne, Emit, Pieces, NextStart;
      chunks := [];
      var start: nat := 0;
      ghost var all := Emit(PagePieces(config, page), pageStart, number, ordinalStart);
      ghost var pieces := Pieces(config, page, 0);
      while start < |page|
        invariant start < |page| && pieces == Pieces(config, page, start)
        invariant chunks + Emit(pieces, pageStart, number, ordinalStart + |chunks|) == all
        decreases |page| - start
      {
        PiecesStep(config, page, start);
        EmitStep(pieces, pageStart, number, ordinalStart, chunks);
        var end := Least(start + config.maxChars, |page|);
        if end < |page| {
          end := PreferredBreak(page, start, end);
        }
        chunks := AppendWindow(page, start, end, pageStart, number, ordinalStart, chunks);
        pieces := pieces[1..];
        if end == |page| {
          assert chunks + Emit([], pageStart, number, ordinalStart + |chunks|)
              == chunks by { EmitNone(pageStart, number, ordinalStart + |chunks|); }
          break;
        }
        start := FindNextStart(page, start, end);
      }
    }

    /** The body of the window loop between choosing `end` and moving `start`. */
    static method AppendWindow(page: string, start: nat, end: nat, pageStart: nat, number: nat, ordinalStart: nat,
                               done: seq<DocumentChunk>) returns (chunks: seq<DocumentChunk>)
      requires start < end <= |page|
      ensures chunks == EmitOne(PieceOf(page, Window(start, end)), pageStart, number, ordinalStart, done)
    {
      hide Strip, Lead;
      chunks := done;
      var raw := page[start..end];
      var leading := Lead(raw);
      var text := Strip(raw);
      if text != "" {
        var chunkStart := start + leading;
        chunks := chunks + [DocumentChunk(ordinalStart + |chunks|, text, pageStart + chunkStart,
            pageStart + chunkStart + |text|, number)];
      }
    }

    method FindNextStart(text: string, currentStart: nat, end: nat) returns (candidate: nat)
      requires config.Valid() && currentStart < end <= |text|
      ensures candidate == NextStart(config, text, currentStart, end)
    {
      candidate := Greatest(end - config.overlapChars, currentStart + 1);
      while candidate > currentStart + 1 && !IsSpace(text[candidate - 1])
        invariant currentStart + 1 <= candidate <= |text|
        invariant WordStart(text, currentStart + 1, candidate) == NextStart(config, text, currentStart, end)
      {
        candidate := candidate - 1;
      }
    }

    static method PreferredBreak(text: string, start: nat, end: nat) returns (index: nat)
      requires start < end <= |text|
      ensures index == LastBreak(text, start + (end - start) / 2, end, end)
    {
      var minimum := start + (end - start) / 2;
      index := end;
      while index > minimum
        invariant minimum <= index <= end
        invariant LastBreak(text, minimum, index, end) == LastBreak(text, minimum, end, end)
      {
        if IsSpace(text[index - 1]) {
          return;
        }
        index := index - 1;
      }
      return end;
    }
  }
}
