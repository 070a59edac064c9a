/**
 * src/rag/chunking/markdown_aware.py: sections first, recursive splitting inside a long section, and the
 * same greedy span recovery over the whole text. The heading expression is not modelled: `sections` is any
 * ordered partition of the text.
 */
module MarkdownChunker {
  import opened Schemas
  import opened Text
  import opened Segments
  import opened Collections
  import Recursive = RecursiveChunker

  const VERSION := "1.0"

  /** What one section contributes: blank sections are dropped, long ones are split. */
  function SectionSegments(section: string, size: nat): seq<Segment>
    requires size >= 1
  {
    if Blank(section) then [Gap(section)]
    else if |section| <= size then [Piece(section)]
    else Recursive.Split(section, size, Recursive.SEPARATORS)
  }

  function AllSegments(sections: seq<string>, size: nat): seq<Segment>
    requires size >= 1
  {
    if sections == [] then []
    else SectionSegments(sections[0], size) + AllSegments(sections[1..], size)
  }

  /** Characters that may fall between chunks: whitespace, and the full stop of the separator ". ". */
  ghost predicate IsMark(c: char) {
    IsSpace(c) || c == '.'
  }

  ghost const MARKS: set<char> := set c: char | IsMark(c)

  ghost predicate Faithful(segs: seq<Segment>, size: nat) {
    forall s :: s in segs ==>
      if s.Piece? then 0 < |s.text| <= size else forall c :: c in s.text ==> c in MARKS
  }

  lemma SectionLossless(section: string, size: nat)
    requires size >= 1
    ensures Flatten(SectionSegments(section, size)) == section
    ensures Faithful(SectionSegments(section, size), size)
  {
    if !Blank(section) && |section| > size {
      Recursive.SplitLossless(section, size, Recursive.SEPARATORS);
      forall s | s in SectionSegments(section, size) && s.Gap?
        ensures forall c :: c in s.text ==> c in MARKS
      {
        assert s.text in Recursive.SEPARATORS;
      }
    }
  }

  lemma {:induction false} AllLossless(sections: seq<string>, size: nat)
    requires size >= 1
    ensures Flatten(AllSegments(sections, size)) == Concat(sections)
    ensures Faithful(AllSegments(sections, size), size)
  {
    if sections != [] {
      SectionLossless(sections[0], size);
      AllLossless(sections[1..], size);
      FlattenConcat(SectionSegments(sections[0], size), AllSegments(sections[1..], size));
    }
  }

  lemma {:induction false} FaithfulPieces(segs: seq<Segment>, size: nat)
    requires Faithful(segs, size)
    ensures forall p :: p in Pieces(segs) ==> 0 < |p| <= size
  {
    if segs != [] {
      FaithfulPieces(segs[1..], size);
    }
  }

  /**
   * Span fidelity for markdown: no search fails, spans are exact, ordered and disjoint, pieces fit, and every
   * character other than whitespace and the full stop lies under a span.
   */
  lemma SpanFidelity(text: string, sections: seq<string>, size: nat, spans: seq<Span>)
    requires size >= 1 && Concat(sections) == text
    requires Located(text, Pieces(AllSegments(sections, size)), spans, 0, 0)
    ensures var pieces := Pieces(AllSegments(sections, size));
            && NeverLost(text, pieces, spans, 0, 0)
            && Exact(text, 0, spans, pieces)
            && (forall p :: p in pieces ==> 0 < |p| <= size)
            && forall q :: 0 <= q < |text| && !IsMark(text[q]) ==> Covered(spans, q)
  {
    var segs := AllSegments(sections, size);
    AllLossless(sections, size);
    FaithfulPieces(segs, size);
    assert text[0..] == text;
    LocatedExact(text, segs, Pieces(segs), spans, 0, 0);
    PiecesCarryTheWeight(segs, MARKS);
    ExactCovers(text, 0, spans, Pieces(segs), MARKS);
  }

  /** The chunk made of the `k`-th piece: its text is stripped, its span is not. */
  function Stripped(doc: Document, indexVersion: string, hash: IdHash, k: nat, piece: string, span: Span): Chunk {
    Recursive.Stamp(doc, indexVersion, VERSION, hash, k, Strip(piece), span)
  }

  /** `chunks` so far, one for each of the located `pieces`. */
  ghost predicate Emitted(doc: Document, text: string, indexVersion: string, hash: IdHash,
                          chunks: seq<Chunk>, spans: seq<Span>, pieces: seq<string>)
  {
    && Located(text, pieces, spans, 0, 0)
    && |chunks| == |pieces|
    && forall k :: 0 <= k < |chunks| ==> chunks[k] == Stripped(doc, indexVersion, hash, k, pieces[k], spans[k])
  }

  lemma EmittedSnoc(doc: Document, text: string, indexVersion: string, hash: IdHash,
                    chunks: seq<Chunk>, spans: seq<Span>, pieces: seq<string>, piece: string)
    requires Emitted(doc, text, indexVersion, hash, chunks, spans, pieces)
    requires 0 <= ResumeAt(spans, 0, 0, |spans|)
    ensures var span := Search(text, piece, ResumeAt(spans, 0, 0, |spans|));
            Emitted(doc, text, indexVersion, hash,
                    chunks + [Stripped(doc, indexVersion, hash, |chunks|, piece, span)], spans + [span],
                    pieces + [piece])
  {
    LocatedSnoc(text, pieces, spans, 0, 0, piece);
  }

  /** src/rag/chunking/markdown_aware.py:18-65, with a heading or another nonblank section present */
  method ChunkDocument(doc: Document, sections: seq<string>, indexVersion: string, size: nat, overlap: int,
                       hash: IdHash)
    returns (chunks: seq<Chunk>, ghost spans: seq<Span>)
    requires size >= 1
    requires Concat(sections) == doc.text.GetOr("")
    ensures !Blank(doc.text.GetOr("")) ==>
              Emitted(doc, doc.text.GetOr(""), indexVersion, hash, chunks, spans, Pieces(AllSegments(sections, size)))
    ensures Blank(doc.text.GetOr("")) ==>
              var pieces := Pieces(Recursive.Split(doc.text.GetOr(""), size, Recursive.SEPARATORS));
              && Located(doc.text.GetOr(""), pieces, spans, 0, Recursive.Skip(overlap))
              && |chunks| == |pieces|
              && forall k :: 0 <= k < |chunks| ==>
                   chunks[k] == Recursive.Stamp(doc, indexVersion, Recursive.VERSION, hash, k, pieces[k], spans[k])
  {
    var text := doc.text.GetOr("");
    if text == "" {
      return [], [];
    }
    var kept := DropBlank(sections);
    BlankConcat(sections);
    if kept == [] {
      chunks, spans := Recursive.ChunkDocument(doc, indexVersion, size, overlap, hash);
      return;
    }
    chunks, spans := ChunkSections(doc, text, kept, indexVersion, size, hash);
    KeptPieces(sections, size);
  }

  /** `[s for s in sections if s.strip()]` */
  function DropBlank(sections: seq<string>): (kept: seq<string>)
    ensures forall s :: s in kept ==> !Blank(s)
  {
    if sections == [] then []
    else (if Blank(sections[0]) then [] else [sections[0]]) + DropBlank(sections[1..])
  }

  lemma {:induction false} BlankConcat(sections: seq<string>)
    ensures DropBlank(sections) == [] <==> Blank(Concat(sections))
  {
    if sections != [] {
      BlankConcat(sections[1..]);
      var head, tail := sections[0], Concat(sections[1..]);
      BlankSum(head, tail);
    }
  }

  lemma BlankSum(a: string, b: string)
    ensures Blank(a + b) <==> Blank(a) && Blank(b)
  {
    if Blank(a + b) {
      assert forall i :: 0 <= i < |a| ==> a[i] == (a + b)[i];
      assert forall i :: 0 <= i < |b| ==> b[i] == (a + b)[|a| + i];
    }
  }

  /** Dropping the blank sections changes no piece. */
  lemma {:induction false} KeptPieces(sections: seq<string>, size: nat)
    requires size >= 1
    ensures Pieces(AllSegments(DropBlank(sections), size)) == Pieces(AllSegments(sections, size))
  {
    if sections != [] {
      var head, tail := sections[0], sections[1..];
      KeptPieces(tail, size);
      FlattenConcat(SectionSegments(head, size), AllSegments(tail, size));
      if Blank(head) {
        assert DropBlank(sections) == DropBlank(tail);
        assert Pieces([Gap(head)]) == [];
      } else {
        assert DropBlank(sections) == [head] + DropBlank(tail);
        FlattenConcat(SectionSegments(head, size), AllSegments(DropBlank(tail), size));
      }
    }
  }

  /** The loop over sections, src/rag/chunking/markdown_aware.py:36-65. */
  method ChunkSections(doc: Document, text: string, sections: seq<string>, indexVersion: string, size: nat,
                       hash: IdHash)
    returns (chunks: seq<Chunk>, ghost spans: seq<Span>)
    requires size >= 1
    requires forall s :: s in sections ==> !Blank(s)
    ensures Emitted(doc, text, indexVersion, hash, chunks, spans, Pieces(AllSegments(sections, size)))
  {
    chunks, spans := [], [];
    ghost var done := [];
    var cursor: nat := 0;
    for i := 0 to |sections|
      invariant Emitted(doc, text, indexVersion, hash, chunks, spans, done)
      invariant cursor == ResumeAt(spans, 0, 0, |spans|)
      invariant SectionsLeft(sections, i, size, done)
    {
      var pieces := SectionPieces(sections[i], size);
      SectionStep(sections, i, size, done);
      chunks, cursor, spans := EmitPieces(doc, text, pieces, indexVersion, hash, chunks, cursor, spans, done);
      done := done + pieces;
    }
    assert sections[|sections|..] == [];
    assert done + [] == done;
  }

  /** With `done` emitted after `i` sections, the other sections make up the rest of the pieces. */
  ghost predicate SectionsLeft(sections: seq<string>, i: nat, size: nat, done: seq<string>)
    requires size >= 1 && i <= |sections|
  {
    done + Pieces(AllSegments(sections[i..], size)) == Pieces(AllSegments(sections, size))
  }

  lemma SectionStep(sections: seq<string>, i: nat, size: nat, done: seq<string>)
    requires size >= 1 && i < |sections| && SectionsLeft(sections, i, size, done)
    ensures SectionsLeft(sections, i + 1, size, done + Pieces(SectionSegments(sections[i], size)))
  {
    DropStep(sections, i);
    FlattenConcat(SectionSegments(sections[i], size), AllSegments(sections[i + 1..], size));
    AppendAssoc(done, Pieces(SectionSegments(sections[i], size)), Pieces(AllSegments(sections[i + 1..], size)));
  }

  /** src/rag/chunking/markdown_aware.py:40 */
  method SectionPieces(section: string, size: nat) returns (pieces: seq<string>)
    requires size >= 1 && !Blank(section)
    ensures pieces == Pieces(SectionSegments(section, size))
    ensures Recursive.Cut(pieces, section, size, Recursive.SEPARATORS)
  {
    if |section| <= size {
      pieces := [section];
    } else {
      pieces := Recursive.SplitText(section, size, Recursive.SEPARATORS);
    }
  }

  /** The loop over the pieces of one section, src/rag/chunking/markdown_aware.py:41-64. */
  method EmitPieces(doc: Document, text: string, pieces: seq<string>, indexVersion: string, hash: IdHash,
                    before: seq<Chunk>, start0: nat, ghost spans0: seq<Span>, ghost done0: seq<string>)
    returns (chunks: seq<Chunk>, cursor: nat, ghost spans: seq<Span>)
    requires Emitted(doc, text, indexVersion, hash, before, spans0, done0)
    requires start0 == ResumeAt(spans0, 0, 0, |spans0|)
    ensures Emitted(doc, text, indexVersion, hash, chunks, spans, done0 + pieces)
    ensures cursor == ResumeAt(spans, 0, 0, |spans|)
  {
    chunks, cursor, spans := before, start0, spans0;
    ghost var done := done0;
    for i := 0 to |pieces|
      invariant Emitted(doc, text, indexVersion, hash, chunks, spans, done)
      invariant cursor == ResumeAt(spans, 0, 0, |spans|)
      invariant done == done0 + pieces[..i]
    {
      var piece := pieces[i];
      var start := Find(text, piece, cursor);
      if start < 0 {
        start := cursor;
      }
      var end := start + |piece|;
      EmittedSnoc(doc, text, indexVersion, hash, chunks, spans, done, piece);
      chunks := chunks + [Stripped(doc, indexVersion, hash, |chunks|, piece, (start, end))];
      done, spans := done + [piece], spans + [(start, end)];
      cursor := end;
      assert done == done0 + pieces[..i + 1];
    }
    assert pieces[..|pieces|] == pieces;
  }

  /**
   * With this overlap every piece of the text is found where it lies; a blank text is left to the recursive
   * chunker.
   */
  ghost predicate Recovers(text: string, sections: seq<string>, size: nat, overlap: int)
    requires size >= 1
  {
    if Blank(text) then Recursive.Recovers(text, size, overlap)
    else
      var pieces := Pieces(AllSegments(sections, size));
      forall spans :: Located(text, pieces, spans, 0, 0) ==>
        NeverLost(text, pieces, spans, 0, 0) && Exact(text, 0, spans, pieces)
  }

  /** The overlap reaches the recovery of blank texts only, where a negative one loses pieces. */
  lemma RecoveryExactly(size: nat, overlap: int)
    requires size >= 1
    ensures (forall text, sections :: Concat(sections) == text ==> Recovers(text, sections, size, overlap)) <==>
              overlap >= 0
    ensures forall text, sections :: Concat(sections) == text && !Blank(text) ==>
              Recovers(text, sections, size, overlap)
  {
    forall text, sections | Concat(sections) == text && (overlap >= 0 || !Blank(text))
      ensures Recovers(text, sections, size, overlap)
    {
      Found(text, sections, size, overlap);
    }
    if overlap < 0 {
      var tabs := Recursive.Tabs(size + 1);
      Recursive.TabsAreLost(size, overlap);
      assert Concat([tabs]) == tabs;
      assert !Recovers(tabs, [tabs], size, overlap);
    }
  }

  lemma Found(text: string, sections: seq<string>, size: nat, overlap: int)
    requires size >= 1 && Concat(sections) == text && (overlap >= 0 || !Blank(text))
    ensures Recovers(text, sections, size, overlap)
  {
    if Blank(text) {
      Recursive.AllFound(text, size, overlap);
    } else {
      var pieces := Pieces(AllSegments(sections, size));
      forall spans | Located(text, pieces, spans, 0, 0)
        ensures NeverLost(text, pieces, spans, 0, 0) && Exact(text, 0, spans, pieces)
      {
        SpanFidelity(text, sections, size, spans);
      }
    }
  }
}
