/** What the page-window chunker promises: windows chain over a page without a gap, chunks quote the
    document exactly, both offsets never go back, and no visible character is lost. */
module PageWindowLaws {
  import opened PyText
  import opened PageWindow

  // ---------------------------------------------------------------- windows of one page

  /** How one window follows another: the start moves forward, the end never back, the overlap is
      kept, and the new start is a word start or the very next character. */
  ghost predicate Follows(c: Config, page: string, a: Window, b: Window) {
    && a.start < b.start <= a.end <= b.end
    && a.end - b.start >= Least(c.overlapChars, a.end - a.start - 1)
    && (BreakAt(page, b.start) || b.start == a.start + 1)
  }

  /** A window fits the size limit, and only the last one of a page may be at most half of it. */
  ghost predicate WellSized(c: Config, page: string, w: Window) {
    && InPage(page, w)
    && w.end - w.start <= c.maxChars
    && (w.end < |page| ==> 2 * (w.end - w.start) > c.maxChars)
  }

  lemma EndNeverMovesBack(c: Config, page: string, start: nat, later: nat)
    requires c.Valid() && start < later < |page|
    ensures WindowEnd(c, page, start) <= WindowEnd(c, page, later)
  {
    var full, full' := Least(start + c.maxChars, |page|), Least(later + c.maxChars, |page|);
    var end, end' := WindowEnd(c, page, start), WindowEnd(c, page, later);
    if full < |page| && full' < |page| {
      var minimum, minimum' := start + (full - start) / 2, later + (full' - later) / 2;
      assert minimum < minimum';
      if BreakAt(page, end) {
        assert end > minimum' ==> end <= end';
      } else {
        assert end == full;
        assert BreakAt(page, end') ==> end' > full;
      }
    }
  }

  lemma NextFollows(c: Config, page: string, start: nat)
    requires c.Valid() && start < |page| && WindowEnd(c, page, start) < |page|
    ensures var end := WindowEnd(c, page, start);
            var next := NextStart(c, page, start, end);
            Follows(c, page, Window(start, end), Window(next, WindowEnd(c, page, next)))
  {
    EndNeverMovesBack(c, page, start, NextStart(c, page, start, WindowEnd(c, page, start)));
  }

  lemma WindowIsWellSized(c: Config, page: string, start: nat)
    requires c.Valid() && start < |page|
    ensures WellSized(c, page, Window(start, WindowEnd(c, page, start)))
  {
  }

  /** The windows of a page chain from `start` to the end of the page, each following the one
      before it, and there are at most as many of them as characters left. */
  lemma {:induction false} WindowsChain(c: Config, page: string, start: nat)
    requires c.Valid() && start < |page|
    ensures var ws := Windows(c, page, start);
            && 0 < |ws| <= |page| - start
            && ws[0].start == start && ws[|ws| - 1].end == |page|
            && (forall i :: 0 <= i < |ws| ==> WellSized(c, page, ws[i]))
            && (forall i :: 0 < i < |ws| ==> Follows(c, page, ws[i - 1], ws[i]))
    decreases |page| - start
  {
    var end := WindowEnd(c, page, start);
    WindowIsWellSized(c, page, start);
    if end < |page| {
      var next := NextStart(c, page, start, end);
      NextFollows(c, page, start);
      WindowsChain(c, page, next);
      assert Windows(c, page, start) == [Window(start, end)] + Windows(c, page, next);
      hide Windows, Follows, WellSized, NextStart;
    }
  }

  /** Between any two windows of a page, both ends are ordered. */
  lemma {:induction false} WindowsOrdered(c: Config, page: string, ws: seq<Window>, i: nat, j: nat)
    requires i <= j < |ws|
    requires forall k :: 0 < k < |ws| ==> Follows(c, page, ws[k - 1], ws[k])
    ensures ws[i].start <= ws[j].start && ws[i].end <= ws[j].end
    decreases j
  {
    if i < j {
      WindowsOrdered(c, page, ws, i, j - 1);
      assert Follows(c, page, ws[j - 1], ws[j]);
    }
  }

  /** No gap: every position between the first start and the last end is inside a window. */
  lemma {:induction false} ChainCovers(c: Config, page: string, ws: seq<Window>, p: nat) returns (i: nat)
    requires ws != [] && ws[0].start <= p < ws[|ws| - 1].end
    requires forall k :: 0 < k < |ws| ==> Follows(c, page, ws[k - 1], ws[k])
    ensures i < |ws| && ws[i].start <= p < ws[i].end
  {
    var last := |ws| - 1;
    if ws[last].start <= p {
      i := last;
    } else {
      var front := ws[..last];
      assert forall k :: 0 < k < |front| ==> Follows(c, page, front[k - 1], front[k]) by {
        forall k | 0 < k < |front| ensures Follows(c, page, front[k - 1], front[k]) {
          assert Follows(c, page, ws[k - 1], ws[k]);
        }
      }
      assert Follows(c, page, ws[last - 1], ws[last]);
      i := ChainCovers(c, page, front, p);
    }
  }

  // ---------------------------------------------------------------- pieces of windows

  lemma {:induction false} PiecesAreWindows(c: Config, page: string, start: nat)
    requires c.Valid() && start < |page|
    ensures var ws, ps := Windows(c, page, start), Pieces(c, page, start);
            |ps| == |ws| && forall i :: 0 <= i < |ws| ==> InPage(page, ws[i]) && ps[i] == PieceOf(page, ws[i])
    decreases |page| - start
  {
    var end := WindowEnd(c, page, start);
    PiecesStep(c, page, start);
    if end < |page| {
      var next := NextStart(c, page, start, end);
      PiecesAreWindows(c, page, next);
      assert Windows(c, page, start) == [Window(start, end)] + Windows(c, page, next);
      hide Windows, Pieces, PieceOf, NextStart, WindowEnd, InPage;
      assert Pieces(c, page, start) == [Pieces(c, page, start)[0]] + Pieces(c, page, next);
    } else {
      assert Windows(c, page, start) == [Window(start, end)];
    }
  }

  /** A piece is the exact text of the visible part of its window. */
  lemma PieceIsExact(page: string, w: Window)
    requires InPage(page, w) && PieceOf(page, w).text != ""
    ensures var p := PieceOf(page, w); var end := p.start + |p.text|;
            && w.start <= p.start < end <= w.end
            && page[p.start..end] == p.text
            && !IsSpace(page[p.start]) && !IsSpace(page[end - 1])
  {
    hide Lead, Trail, Strip, IsSpace;
    var raw := page[w.start..w.end];
    SliceOfSlice(page, w.start, w.end, Lead(raw), Trail(raw));
    assert page[w.start + Lead(raw)] == raw[Lead(raw)];
    assert page[w.start + Trail(raw) - 1] == raw[Trail(raw) - 1];
  }

  /** Every visible character of a window is in its piece. */
  lemma PieceCovers(page: string, w: Window, p: nat)
    requires InPage(page, w) && w.start <= p < w.end && !IsSpace(page[p])
    ensures var piece := PieceOf(page, w);
            piece.text != "" && piece.start <= p < piece.start + |piece.text|
  {
    hide Lead, Trail, Strip, IsSpace;
    var raw := page[w.start..w.end];
    assert raw[p - w.start] == page[p];
    assert p - w.start >= Lead(raw);
  }

  lemma PiecesOrdered(page: string, a: Window, b: Window)
    requires InPage(page, a) && InPage(page, b) && a.start <= b.start && a.end <= b.end
    requires PieceOf(page, a).text != "" && PieceOf(page, b).text != ""
    ensures var p, q := PieceOf(page, a), PieceOf(page, b);
            p.start <= q.start && p.start + |p.text| <= q.start + |q.text|
  {
    PieceIsExact(page, a);
    PieceIsExact(page, b);
    hide PieceOf, Lead, Trail, Strip, IsSpace;
    var p, q := PieceOf(page, a), PieceOf(page, b);
    VisibleInPiece(page, a, q.start);
    VisibleInPiece(page, b, p.start + |p.text| - 1);
  }

  lemma VisibleInPiece(page: string, w: Window, p: nat)
    requires InPage(page, w) && p < |page| && !IsSpace(page[p])
    ensures var piece := PieceOf(page, w);
            w.start <= p < w.end ==> piece.start <= p < piece.start + |piece.text|
  {
    hide PieceOf, Lead, Trail, Strip, IsSpace;
    if w.start <= p < w.end {
      PieceCovers(page, w, p);
    }
  }

  // ---------------------------------------------------------------- emission

  /** Chunk `j` comes from piece `i`. */
  lemma {:induction false} EmitOrigin(ps: seq<Piece>, pageStart: nat, number: nat, ordinal: nat, j: nat) returns (i: nat)
    requires j < |Emit(ps, pageStart, number, ordinal)|
    ensures i < |ps| && ps[i].text != ""
    ensures Emit(ps, pageStart, number, ordinal)[j] == ChunkOf(ps[i], pageStart, number, ordinal + j)
  {
    if ps[0].text == "" {
      var k := EmitOrigin(ps[1..], pageStart, number, ordinal, j);
      i := k + 1;
    } else if j == 0 {
      i := 0;
    } else {
      var k := EmitOrigin(ps[1..], pageStart, number, ordinal + 1, j - 1);
      i := k + 1;
    }
  }

  /** Later chunks come from later pieces. */
  lemma {:induction false} EmitOrder(ps: seq<Piece>, pageStart: nat, number: nat, ordinal: nat, j: nat, k: nat)
    returns (a: nat, b: nat)
    requires j < k < |Emit(ps, pageStart, number, ordinal)|
    ensures a < b < |ps| && ps[a].text != "" && ps[b].text != ""
    ensures Emit(ps, pageStart, number, ordinal)[j] == ChunkOf(ps[a], pageStart, number, ordinal + j)
    ensures Emit(ps, pageStart, number, ordinal)[k] == ChunkOf(ps[b], pageStart, number, ordinal + k)
  {
    if ps[0].text == "" {
      a, b := EmitOrder(ps[1..], pageStart, number, ordinal, j, k);
      a, b := a + 1, b + 1;
    } else if j == 0 {
      a := 0;
      b := EmitOrigin(ps[1..], pageStart, number, ordinal + 1, k - 1);
      b := b + 1;
    } else {
      a, b := EmitOrder(ps[1..], pageStart, number, ordinal + 1, j - 1, k - 1);
      a, b := a + 1, b + 1;
    }
  }

  /** Every nonempty piece becomes a chunk. */
  lemma {:induction false} EmitHas(ps: seq<Piece>, pageStart: nat, number: nat, ordinal: nat, i: nat) returns (j: nat)
    requires i < |ps| && ps[i].text != ""
    ensures j < |Emit(ps, pageStart, number, ordinal)|
    ensures Emit(ps, pageStart, number, ordinal)[j] == ChunkOf(ps[i], pageStart, number, ordinal + j)
  {
    if i == 0 {
      j := 0;
    } else if ps[0].text == "" {
      j := EmitHas(ps[1..], pageStart, number, ordinal, i - 1);
    } else {
      j := EmitHas(ps[1..], pageStart, number, ordinal + 1, i - 1);
      j := j + 1;
    }
  }

  // ---------------------------------------------------------------- chunks of one page

  /** A chunk quotes `text`, which begins at `at` in the document: exact offsets, nothing to trim at
      either end, within the size limit. */
  ghost predicate Quotes(c: Config, text: string, at: nat, ch: DocumentChunk) {
    && at <= ch.startOffset < ch.endOffset <= at + |text|
    && text[ch.startOffset - at..ch.endOffset - at] == ch.text
    && !IsSpace(text[ch.startOffset - at]) && !IsSpace(text[ch.endOffset - at - 1])
    && |ch.text| <= c.maxChars
  }

  lemma PageIsPieces(c: Config, raw: string, pageStart: nat, number: nat, ordinal: nat)
    requires c.Valid()
    ensures PageChunks(c, raw, pageStart, number, ordinal)
         == Emit(PagePieces(c, Strip(raw)), pageStart + Lead(raw), number, ordinal)
  {
    hide Emit, PagePieces, Strip, Lead;
  }

  /** Every piece of a page is the piece of one of its windows. */
  lemma PieceOfPage(c: Config, page: string, i: nat)
    requires c.Valid() && i < |PagePieces(c, page)|
    ensures page != "" && i < |Windows(c, page, 0)|
    ensures var w := Windows(c, page, 0)[i];
            WellSized(c, page, w) && PagePieces(c, page)[i] == PieceOf(page, w)
  {
    assert page != "" && PagePieces(c, page) == Pieces(c, page, 0) by {
      hide Pieces;
    }
    hide *;
    PiecesAreWindows(c, page, 0);
    WindowsChain(c, page, 0);
  }

  lemma PieceQuotes(c: Config, page: string, w: Window)
    requires WellSized(c, page, w) && PieceOf(page, w).text != ""
    ensures Quotes(c, page, 0, ChunkOf(PieceOf(page, w), 0, 0, 0))
  {
    PieceIsExact(page, w);
    hide PieceOf, IsSpace;
  }

  lemma PageChunkExact(c: Config, raw: string, pageStart: nat, number: nat, ordinal: nat, j: nat)
    requires c.Valid() && j < |PageChunks(c, raw, pageStart, number, ordinal)|
    ensures var ch := PageChunks(c, raw, pageStart, number, ordinal)[j];
            ch.ordinal == ordinal + j && ch.pageNumber == number && Quotes(c, raw, pageStart, ch)
  {
    hide *;
    var page, ps := Strip(raw), PagePieces(c, Strip(raw));
    PageIsPieces(c, raw, pageStart, number, ordinal);
    var i := EmitOrigin(ps, pageStart + Lead(raw), number, ordinal, j);
    PieceOfPage(c, page, i);
    PieceQuotes(c, page, Windows(c, page, 0)[i]);
    ShiftQuote(c, raw, ps[i], pageStart, number, ordinal + j);
  }

  /** A quote from the stripped page is a quote from the raw page, shifted by what `lstrip` took. */
  lemma ShiftQuote(c: Config, raw: string, piece: Piece, pageStart: nat, number: nat, ordinal: nat)
    requires Quotes(c, Strip(raw), 0, ChunkOf(piece, 0, 0, 0))
    ensures var ch := ChunkOf(piece, pageStart + Lead(raw), number, ordinal);
            ch.ordinal == ordinal && ch.pageNumber == number && Quotes(c, raw, pageStart, ch)
  {
    hide Lead, Trail, Strip, IsSpace;
    PageSlice(raw, piece.start, piece.start + |piece.text|);
  }

  /** Offsets into the stripped page are offsets into the raw page, shifted by what `lstrip` took. */
  lemma PageSlice(raw: string, from: nat, to: nat)
    requires from < to <= |Strip(raw)|
    ensures Lead(raw) + to <= |raw|
    ensures Strip(raw)[from..to] == raw[Lead(raw) + from..Lead(raw) + to]
    ensures Strip(raw)[from] == raw[Lead(raw) + from] && Strip(raw)[to - 1] == raw[Lead(raw) + to - 1]
  {
    hide Lead, Trail, Strip, IsSpace;
    SliceOfSlice(raw, Lead(raw), Trail(raw), from, to);
  }

  lemma PageChunksOrdered(c: Config, raw: string, pageStart: nat, number: nat, ordinal: nat, j: nat, k: nat)
    requires c.Valid() && j < k < |PageChunks(c, raw, pageStart, number, ordinal)|
    ensures var chs := PageChunks(c, raw, pageStart, number, ordinal);
            chs[j].startOffset <= chs[k].startOffset && chs[j].endOffset <= chs[k].endOffset
  {
    hide PageChunks, PagePieces, Emit, Windows, Pieces, PieceOf, Lead, Trail, Strip, IsSpace, Follows, WellSized;
    var page, ps := Strip(raw), PagePieces(c, Strip(raw));
    PageIsPieces(c, raw, pageStart, number, ordinal);
    var a, b := EmitOrder(ps, pageStart + Lead(raw), number, ordinal, j, k);
    PiecesOfPageOrdered(c, page, a, b);
  }

  lemma PiecesOfPageOrdered(c: Config, page: string, a: nat, b: nat)
    requires c.Valid() && a < b < |PagePieces(c, page)|
    requires PagePieces(c, page)[a].text != "" && PagePieces(c, page)[b].text != ""
    ensures var p, q := PagePieces(c, page)[a], PagePieces(c, page)[b];
            p.start <= q.start && p.start + |p.text| <= q.start + |q.text|
  {
    hide PagePieces, Windows, PieceOf, Follows;
    PieceOfPage(c, page, a);
    PieceOfPage(c, page, b);
    WindowsChain(c, page, 0);
    WindowsOrdered(c, page, Windows(c, page, 0), a, b);
    PiecesOrdered(page, Windows(c, page, 0)[a], Windows(c, page, 0)[b]);
  }

  /** Every visible character of a page is in one of its pieces. */
  lemma PagePiecesCover(c: Config, page: string, p: nat) returns (i: nat)
    requires c.Valid() && p < |page| && !IsSpace(page[p])
    ensures i < |PagePieces(c, page)|
    ensures var piece := PagePieces(c, page)[i]; piece.text != "" && piece.start <= p < piece.start + |piece.text|
  {
    assert PagePieces(c, page) == Pieces(c, page, 0) by {
      hide Pieces;
    }
    hide PagePieces, Pieces, Windows, PieceOf, Follows, WellSized, IsSpace;
    WindowsChain(c, page, 0);
    i := ChainCovers(c, page, Windows(c, page, 0), p);
    PiecesAreWindows(c, page, 0);
    PieceCovers(page, Windows(c, page, 0)[i], p);
  }

  lemma PageChunksCover(c: Config, raw: string, pageStart: nat, number: nat, ordinal: nat, p: nat) returns (j: nat)
    requires c.Valid() && p < |raw| && !IsSpace(raw[p])
    ensures j < |PageChunks(c, raw, pageStart, number, ordinal)|
    ensures var ch := PageChunks(c, raw, pageStart, number, ordinal)[j];
            ch.startOffset <= pageStart + p < ch.endOffset
  {
    hide PageChunks, PagePieces, Emit, Lead, Trail, Strip, IsSpace;
    var page, ps := Strip(raw), PagePieces(c, Strip(raw));
    PageIsPieces(c, raw, pageStart, number, ordinal);
    StripKeeps(raw, p);
    var i := PagePiecesCover(c, page, p - Lead(raw));
    j := EmitHas(ps, pageStart + Lead(raw), number, ordinal, i);
  }

  /** Stripping never removes a visible character. */
  lemma StripKeeps(raw: string, p: nat)
    requires p < |raw| && !IsSpace(raw[p])
    ensures Lead(raw) <= p < Lead(raw) + |Strip(raw)| && Strip(raw)[p - Lead(raw)] == raw[p]
  {
    hide Lead, Trail, Strip, IsSpace;
  }

  // ---------------------------------------------------------------- the whole document

  /** Chunk `j` of a list of pages is chunk `at` of page `i`. */
  lemma {:induction false} PagesOrigin(c: Config, pages: seq<string>, pageStart: nat, number: nat, ordinal: nat, j: nat)
    returns (i: nat, first: nat, at: nat)
    requires c.Valid() && j < |PagesChunks(c, pages, pageStart, number, ordinal)|
    ensures i < |pages| && first + at == ordinal + j
    ensures var own := PageChunks(c, pages[i], pageStart + PartStart(pages, i), number + i, first);
            at < |own| && PagesChunks(c, pages, pageStart, number, ordinal)[j] == own[at]
  {
    hide PageChunks;
    var here := PageChunks(c, pages[0], pageStart, number, ordinal);
    if j < |here| {
      i, first, at := 0, ordinal, j;
    } else {
      i, first, at := PagesOrigin(c, pages[1..], pageStart + |pages[0]| + 1, number + 1, ordinal + |here|, j - |here|);
      i := i + 1;
    }
  }

  /** Of two chunks, the later one is on the same page and later there, or on a later page. */
  lemma {:induction false} PagesOrder(c: Config, pages: seq<string>, pageStart: nat, number: nat, ordinal: nat, j: nat,
                                      k: nat) returns (i: nat, first: nat, at: nat, i': nat, first': nat, at': nat)
    requires c.Valid() && j < k < |PagesChunks(c, pages, pageStart, number, ordinal)|
    ensures i <= i' < |pages| && (i == i' ==> first == first' && at < at')
    ensures var own := PageChunks(c, pages[i], pageStart + PartStart(pages, i), number + i, first);
            at < |own| && PagesChunks(c, pages, pageStart, number, ordinal)[j] == own[at]
    ensures var own := PageChunks(c, pages[i'], pageStart + PartStart(pages, i'), number + i', first');
            at' < |own| && PagesChunks(c, pages, pageStart, number, ordinal)[k] == own[at']
  {
    hide PageChunks;
    var here := PageChunks(c, pages[0], pageStart, number, ordinal);
    var start', ordinal' := pageStart + |pages[0]| + 1, ordinal + |here|;
    if k < |here| {
      i, first, at, i', first', at' := 0, ordinal, j, 0, ordinal, k;
    } else if j < |here| {
      i, first, at := 0, ordinal, j;
      i', first', at' := PagesOrigin(c, pages[1..], start', number + 1, ordinal', k - |here|);
      i' := i' + 1;
    } else {
      i, first, at, i', first', at' := PagesOrder(c, pages[1..], start', number + 1, ordinal', j - |here|, k - |here|);
      i, i' := i + 1, i' + 1;
    }
  }

  /** The chunks of page `i` are a slice of the chunks of all pages. */
  lemma {:induction false} PagesHave(c: Config, pages: seq<string>, pageStart: nat, number: nat, ordinal: nat, i: nat)
    returns (first: nat)
    requires c.Valid() && i < |pages|
    ensures var own := PageChunks(c, pages[i], pageStart + PartStart(pages, i), number + i, first);
            forall ch :: ch in own ==> ch in PagesChunks(c, pages, pageStart, number, ordinal)
  {
    hide PageChunks;
    if i == 0 {
      first := ordinal;
    } else {
      var here := PageChunks(c, pages[0], pageStart, number, ordinal);
      first := PagesHave(c, pages[1..], pageStart + |pages[0]| + 1, number + 1, ordinal + |here|, i - 1);
    }
  }

  lemma {:induction false} PartsInOrder(parts: seq<string>, i: nat, i': nat)
    requires i < i' < |parts|
    ensures PartStart(parts, i) + |parts[i]| < PartStart(parts, i')
  {
    if i > 0 {
      PartsInOrder(parts[1..], i - 1, i' - 1);
    }
  }

  /** Exact citations: a chunk is the trimmed, nonempty, page-local quote its offsets name; its page
      number is one more than the form feeds before it; chunks are numbered from zero. */
  lemma ChunksAreExactCitations(c: Config, text: string, j: nat)
    requires c.Valid() && j < |DocumentChunks(c, text)|
    ensures var ch := DocumentChunks(c, text)[j];
            && ch.ordinal == j
            && Quotes(c, text, 0, ch)
            && FORM_FEED !in ch.text
            && ch.pageNumber == 1 + Count(text[..ch.startOffset], FORM_FEED)
  {
    hide *;
    var pages := Split(text, FORM_FEED);
    DocumentIsPages(c, text);
    var i, first, at := PagesOrigin(c, pages, 0, 1, 0, j);
    var start := PartStart(pages, i);
    PageChunkExact(c, pages[i], start, 1 + i, first, at);
    SplitSlice(text, FORM_FEED, i);
    SplitCount(text, FORM_FEED, i);
    var ch := DocumentChunks(c, text)[j];
    PageOffsets(c, text, pages[i], start, ch);
  }

  /** A quote from a page that is a slice of the text is a quote from the text. */
  lemma PageOffsets(c: Config, text: string, page: string, start: nat, ch: DocumentChunk)
    requires start + |page| <= |text| && text[start..start + |page|] == page && FORM_FEED !in page
    requires Quotes(c, page, start, ch)
    ensures Quotes(c, text, 0, ch) && FORM_FEED !in ch.text
    ensures Count(text[..ch.startOffset], FORM_FEED) == Count(text[..start], FORM_FEED)
  {
    hide IsSpace, Count;
    var from, to := ch.startOffset - start, ch.endOffset - start;
    SliceOfSlice(text, start, start + |page|, from, to);
    assert page[from] == text[ch.startOffset] && page[to - 1] == text[ch.endOffset - 1];
    assert text[..ch.startOffset] == text[..start] + page[..from];
    CountSplit(text[..start], page[..from], FORM_FEED);
    CountAbsent(page[..from], FORM_FEED);
  }

  /** Both offsets are non-decreasing over the whole document. */
  lemma ChunksAreOrdered(c: Config, text: string, j: nat, k: nat)
    requires c.Valid() && j < k < |DocumentChunks(c, text)|
    ensures var chs := DocumentChunks(c, text);
            chs[j].startOffset <= chs[k].startOffset && chs[j].endOffset <= chs[k].endOffset
  {
    hide Split, PartStart, PageChunks, PagesChunks, DocumentChunks, IsSpace;
    var pages := Split(text, FORM_FEED);
    DocumentIsPages(c, text);
    var i, first, at, i', first', at' := PagesOrder(c, pages, 0, 1, 0, j, k);
    if i == i' {
      PageChunksOrdered(c, pages[i], PartStart(pages, i), 1 + i, first, at, at');
    } else {
      PageChunkExact(c, pages[i], PartStart(pages, i), 1 + i, first, at);
      PageChunkExact(c, pages[i'], PartStart(pages, i'), 1 + i', first', at');
      PartsInOrder(pages, i, i');
    }
  }

  /** Coverage: every visible character of the document lies inside at least one chunk. */
  lemma ChunksCoverTheText(c: Config, text: string, p: nat)
    requires c.Valid() && p < |text| && !IsSpace(text[p])
    ensures exists ch :: ch in DocumentChunks(c, text) && ch.startOffset <= p < ch.endOffset
  {
    hide *;
    var pages := Split(text, FORM_FEED);
    FormFeedIsSpace();
    var i := SplitCovers(text, FORM_FEED, p);
    SplitSlice(text, FORM_FEED, i);
    DocumentIsPages(c, text);
    var start := PartStart(pages, i);
    var first := PagesHave(c, pages, 0, 1, 0, i);
    assert pages[i][p - start] == text[start..start + |pages[i]|][p - start];
    var j := PageChunksCover(c, pages[i], start, 1 + i, first, p - start);
    var ch := PageChunks(c, pages[i], start, 1 + i, first)[j];
    assert ch in DocumentChunks(c, text);
  }
}
