/** src/rag/chunking/fixed.py: overlapping character windows. */
module FixedChunker {
  import opened Schemas
  import opened Text
  import opened Segments
  import opened Collections
  import Recursive = RecursiveChunker

  const VERSION := "1.0"

  function WindowEnd(length: nat, size: nat, start: nat): nat {
    if start + size < length then start + size else length
  }

  /** The windows from `start` on, up to and including the first that reaches the end of the text. */
  function Windows(length: nat, size: nat, step: nat, start: nat): seq<Span>
    requires step >= 1
    decreases length - start
  {
    if start >= length then []
    else
      var end := WindowEnd(length, size, start);
      [(start, end)] + if end >= length then [] else Windows(length, size, step, start + step)
  }

  /** Every window is a slice of a text of this length. */
  predicate Inside(windows: seq<Span>, length: nat) {
    forall k :: 0 <= k < |windows| ==> 0 <= windows[k].0 <= windows[k].1 <= length
  }

  lemma {:induction false} WindowsInside(length: nat, size: nat, step: nat, start: nat)
    requires step >= 1
    ensures Inside(Windows(length, size, step, start), length)
    ensures forall w :: w in Windows(length, size, step, start) ==> start <= w.0 && w.1 - w.0 <= size
    decreases length - start
  {
    if start < length && WindowEnd(length, size, start) < length {
      WindowsInside(length, size, step, start + step);
    }
  }

  /** The windows that hold something besides whitespace. */
  function Kept(text: string, windows: seq<Span>): seq<Span>
    requires Inside(windows, |text|)
  {
    if windows == [] then []
    else
      var a, b := windows[0].0, windows[0].1;
      (if Blank(text[a..b]) then [] else [windows[0]]) + Kept(text, windows[1..])
  }

  lemma {:induction false} KeptHasIt(text: string, windows: seq<Span>, k: nat)
    requires Inside(windows, |text|) && k < |windows|
    requires !Blank(text[windows[k].0..windows[k].1])
    ensures windows[k] in Kept(text, windows)
  {
    if k > 0 {
      KeptHasIt(text, windows[1..], k - 1);
    }
  }

  lemma {:induction false} KeptFrom(text: string, windows: seq<Span>)
    requires Inside(windows, |text|)
    ensures forall w :: w in Kept(text, windows) ==> w in windows
  {
    if windows != [] {
      KeptFrom(text, windows[1..]);
    }
  }

  /** The kept windows of a text, each of which becomes a chunk. */
  ghost function ChunkWindows(text: string, size: nat, step: nat): seq<Span>
    requires step >= 1
  {
    WindowsInside(|text|, size, step, 0);
    Kept(text, Windows(|text|, size, step, 0))
  }

  /** `c` is the chunk of window `w`, with the given ordinal: the text of the window and its span. */
  ghost predicate Matches(c: Chunk, w: Span, doc: Document, text: string, indexVersion: string, hash: IdHash,
                          ordinal: nat)
  {
    0 <= w.0 <= w.1 <= |text| && c == Recursive.Stamp(doc, indexVersion, VERSION, hash, ordinal, text[w.0..w.1], w)
  }

  /** One chunk for each window, in order, numbered from 0. */
  ghost predicate Chunked(chunks: seq<Chunk>, windows: seq<Span>, doc: Document, text: string,
                          indexVersion: string, hash: IdHash)
  {
    && |chunks| == |windows|
    && forall k :: 0 <= k < |chunks| ==> Matches(chunks[k], windows[k], doc, text, indexVersion, hash, k)
  }

  /** One more window behind: one more chunk, unless the window is blank. */
  lemma ChunkedSnoc(chunks: seq<Chunk>, windows: seq<Span>, doc: Document, text: string,
                    indexVersion: string, hash: IdHash, w: Span)
    requires 0 <= w.0 <= w.1 <= |text| && Inside(windows, |text|)
    requires Chunked(chunks, Kept(text, windows), doc, text, indexVersion, hash)
    ensures Inside(windows + [w], |text|)
    ensures var next := if Blank(text[w.0..w.1]) then []
                        else [Recursive.Stamp(doc, indexVersion, VERSION, hash, |chunks|, text[w.0..w.1], w)];
            Chunked(chunks + next, Kept(text, windows + [w]), doc, text, indexVersion, hash)
  {
    KeptSnoc(text, windows, w);
    var kept := Kept(text, windows);
    if Blank(text[w.0..w.1]) {
      assert chunks + [] == chunks && kept + [] == kept;
    } else {
      var more := chunks + [Recursive.Stamp(doc, indexVersion, VERSION, hash, |chunks|, text[w.0..w.1], w)];
      forall k | 0 <= k < |more|
        ensures Matches(more[k], (kept + [w])[k], doc, text, indexVersion, hash, k)
      {
        assert k < |chunks| ==> Matches(chunks[k], kept[k], doc, text, indexVersion, hash, k);
      }
    }
  }

  lemma InsideSnoc(windows: seq<Span>, w: Span, length: nat)
    requires 0 <= w.0 <= w.1 <= length && Inside(windows, length)
    ensures Inside(windows + [w], length)
  {
  }

  /** The window, if it holds something besides whitespace. */
  function KeptOne(text: string, w: Span): seq<Span>
    requires 0 <= w.0 <= w.1 <= |text|
  {
    if Blank(text[w.0..w.1]) then [] else [w]
  }

  lemma KeptCons(text: string, w: Span, rest: seq<Span>)
    requires 0 <= w.0 <= w.1 <= |text| && Inside(rest, |text|)
    ensures Inside([w] + rest, |text|) && Kept(text, [w] + rest) == KeptOne(text, w) + Kept(text, rest)
  {
    assert ([w] + rest)[1..] == rest;
  }

  lemma {:induction false} KeptSnoc(text: string, windows: seq<Span>, w: Span)
    requires 0 <= w.0 <= w.1 <= |text| && Inside(windows, |text|)
    ensures Inside(windows + [w], |text|)
    ensures Kept(text, windows + [w]) == Kept(text, windows) + KeptOne(text, w)
  {
    InsideSnoc(windows, w, |text|);
    if windows == [] {
      KeptCons(text, w, []);
      assert [] + [w] == [w] + [];
    } else {
      var head, tail := windows[0], windows[1..];
      KeptSnoc(text, tail, w);
      InsideSnoc(tail, w, |text|);
      KeptCons(text, head, tail + [w]);
      KeptCons(text, head, tail);
      assert windows == [head] + tail && windows + [w] == [head] + (tail + [w]);
      AppendAssoc(KeptOne(text, head), Kept(text, tail), KeptOne(text, w));
    }
  }

  /** src/rag/chunking/fixed.py:12-48 */
  method ChunkDocument(doc: Document, indexVersion: string, size: nat, overlap: int, hash: IdHash)
    returns (chunks: seq<Chunk>)
    ensures var text := doc.text.GetOr("");
            Chunked(chunks, ChunkWindows(text, size, Max(size - overlap, 1)), doc, text, indexVersion, hash)
  {
    var text := doc.text.GetOr("");
    if text == "" {
      return [];
    }
    var step := Max(size - overlap, 1);
    WindowsInside(|text|, size, step, 0);
    ghost var seen;
    chunks, seen := CutWindows(doc, text, indexVersion, size, step, hash);
    assert seen == Windows(|text|, size, step, 0);
  }

  /** The loop is about to look at `start`: it has seen all windows before, and made their chunks. */
  ghost predicate Cutting(doc: Document, text: string, indexVersion: string, size: nat, step: nat, hash: IdHash,
                          chunks: seq<Chunk>, seen: seq<Span>, start: nat)
    requires step >= 1
  {
    && Inside(seen, |text|)
    && Chunked(chunks, Kept(text, seen), doc, text, indexVersion, hash)
    && seen + Windows(|text|, size, step, start) == Windows(|text|, size, step, 0)
  }

  /** The same, when the loop is about to test `start`: past the end there is nothing left to cut. */
  ghost predicate CutTo(doc: Document, text: string, indexVersion: string, size: nat, step: nat, hash: IdHash,
                        chunks: seq<Chunk>, seen: seq<Span>, start: nat)
    requires step >= 1
  {
    Cutting(doc, text, indexVersion, size, step, hash, chunks, seen, if start < |text| then start else |text|)
  }

  function Next(length: nat, size: nat, step: nat, start: nat): nat {
    if WindowEnd(length, size, start) >= length then length else start + step
  }

  /** A blank window is passed over. */
  lemma CutBlank(doc: Document, text: string, indexVersion: string, size: nat, step: nat, hash: IdHash,
                 chunks: seq<Chunk>, seen: seq<Span>, start: nat)
    requires step >= 1 && start < |text| && Blank(text[start..WindowEnd(|text|, size, start)])
    requires CutTo(doc, text, indexVersion, size, step, hash, chunks, seen, start)
    ensures CutTo(doc, text, indexVersion, size, step, hash, chunks, seen + [(start, WindowEnd(|text|, size, start))],
                  Next(|text|, size, step, start))
  {
    var w := (start, WindowEnd(|text|, size, start));
    ChunkedSnoc(chunks, seen, doc, text, indexVersion, hash, w);
    AppendAssoc(seen, [w], Windows(|text|, size, step, Next(|text|, size, step, start)));
    assert chunks + [] == chunks;
  }

  /** A window that holds something becomes the next chunk. */
  lemma CutKept(doc: Document, text: string, indexVersion: string, size: nat, step: nat, hash: IdHash,
                chunks: seq<Chunk>, seen: seq<Span>, start: nat, chunk: Chunk)
    requires step >= 1 && start < |text| && !Blank(text[start..WindowEnd(|text|, size, start)])
    requires var end := WindowEnd(|text|, size, start);
             chunk == Recursive.Stamp(doc, indexVersion, VERSION, hash, |chunks|, text[start..end], (start, end))
    requires CutTo(doc, text, indexVersion, size, step, hash, chunks, seen, start)
    ensures CutTo(doc, text, indexVersion, size, step, hash, chunks + [chunk],
                  seen + [(start, WindowEnd(|text|, size, start))], Next(|text|, size, step, start))
  {
    var w := (start, WindowEnd(|text|, size, start));
    ChunkedSnoc(chunks, seen, doc, text, indexVersion, hash, w);
    AppendAssoc(seen, [w], Windows(|text|, size, step, Next(|text|, size, step, start)));
  }

  /** The window loop, src/rag/chunking/fixed.py:24-48. `seen` are the windows looked at. */
  method CutWindows(doc: Document, text: string, indexVersion: string, size: nat, step: nat, hash: IdHash)
    returns (chunks: seq<Chunk>, ghost seen: seq<Span>)
    requires step >= 1 && Inside(Windows(|text|, size, step, 0), |text|)
    ensures Cutting(doc, text, indexVersion, size, step, hash, chunks, seen, |text|)
  {
    chunks, seen := [], [];
    var ordinal, start: nat := 0, 0;
    while start < |text|
      invariant ordinal == |chunks|
      invariant CutTo(doc, text, indexVersion, size, step, hash, chunks, seen, start)
      decreases |text| - start
    {
      var end := WindowEnd(|text|, size, start);
      var piece := text[start..end];
      if Blank(piece) {
        CutBlank(doc, text, indexVersion, size, step, hash, chunks, seen, start);
        seen := seen + [(start, end)];
        if end >= |text| {
          break;
        }
        start := start + step;
        continue;
      }
      var chunk := Recursive.Stamp(doc, indexVersion, VERSION, hash, ordinal, piece, (start, end));
      CutKept(doc, text, indexVersion, size, step, hash, chunks, seen, start, chunk);
      chunks, seen := chunks + [chunk], seen + [(start, end)];
      ordinal := ordinal + 1;
      if end >= |text| {
        break;
      }
      start := start + step;
    }
  }

  // ---- What the windows are worth ----

  lemma {:induction false} WindowsCover(length: nat, size: nat, step: nat, start: nat, q: nat) returns (k: nat)
    requires 1 <= step <= size && start <= q < length
    ensures k < |Windows(length, size, step, start)|
    ensures var w := Windows(length, size, step, start)[k]; w.0 <= q < w.1
    decreases length - start
  {
    var end := WindowEnd(length, size, start);
    k := 0;
    if q >= end {
      var rest := WindowsCover(length, size, step, start + step, q);
      k := rest + 1;
    }
  }

  /** With a nonnegative overlap, every character that is not whitespace lies in a chunk. */
  lemma Coverage(text: string, size: nat, overlap: nat, q: nat)
    requires size >= 1 && q < |text| && !IsSpace(text[q])
    ensures Covered(ChunkWindows(text, size, Max(size - overlap, 1)), q)
  {
    var step := Max(size - overlap, 1);
    var windows := Windows(|text|, size, step, 0);
    var k := WindowsCover(|text|, size, step, 0, q);
    WindowsInside(|text|, size, step, 0);
    var a, b := windows[k].0, windows[k].1;
    assert text[a..b][q - a] == text[q];
    KeptHasIt(text, windows, k);
  }

  /** With a negative overlap the windows leave holes: the character behind the first window is lost. */
  lemma NegativeOverlapLosesText(text: string, size: nat, overlap: int)
    requires overlap < 0 && size < |text|
    ensures !Covered(ChunkWindows(text, size, Max(size - overlap, 1)), size)
  {
    var step := Max(size - overlap, 1);
    var windows := Windows(|text|, size, step, 0);
    WindowsInside(|text|, size, step, 0);
    WindowsInside(|text|, size, step, step);
    KeptFrom(text, windows);
    assert windows == [(0, size)] + Windows(|text|, size, step, step);
    var kept := ChunkWindows(text, size, step);
    forall k | 0 <= k < |kept|
      ensures !(kept[k].0 <= size < kept[k].1)
    {
      assert kept[k] in windows;
    }
  }

  /** For size >= 1, no character is lost for any text exactly when the overlap is not negative. */
  lemma CoverageExactly(size: nat, overlap: int)
    requires size >= 1
    ensures overlap >= 0 <==>
              forall text: string, q: nat :: q < |text| && !IsSpace(text[q]) ==>
                Covered(ChunkWindows(text, size, Max(size - overlap, 1)), q)
  {
    if overlap >= 0 {
      forall text: string, q: nat | q < |text| && !IsSpace(text[q])
        ensures Covered(ChunkWindows(text, size, Max(size - overlap, 1)), q)
      {
        Coverage(text, size, overlap, q);
      }
    } else {
      var text := seq(size + 1, _ => 'a');
      NegativeOverlapLosesText(text, size, overlap);
      assert !IsSpace(text[size]);
    }
  }

  ghost predicate NoBlankWindow(text: string, windows: seq<Span>) {
    Inside(windows, |text|) && forall k :: 0 <= k < |windows| ==> !Blank(text[windows[k].0..windows[k].1])
  }

  lemma {:induction false} NothingDropped(text: string, windows: seq<Span>)
    requires NoBlankWindow(text, windows)
    ensures Kept(text, windows) == windows
  {
    if windows != [] {
      NothingDropped(text, windows[1..]);
    }
  }

  function CeilDiv(a: nat, b: nat): nat
    requires b >= 1
  {
    (a + b - 1) / b
  }

  lemma CeilStep(m: nat, step: nat)
    requires m >= 1 && step >= 1
    ensures CeilDiv(m, step) == if m <= step then 1 else 1 + CeilDiv(m - step, step)
  {
    DivStep(m - 1, step);
  }

  lemma WindowsStep(length: nat, size: nat, step: nat, start: nat)
    requires 1 <= step && start < length
    ensures |Windows(length, size, step, start)| ==
              if length - start <= size then 1 else 1 + |Windows(length, size, step, start + step)|
  {
  }

  lemma {:induction false} WindowCount(length: nat, size: nat, step: nat, start: nat)
    requires 1 <= step <= size && start < length
    ensures |Windows(length, size, step, start)| ==
              if length - start <= size then 1 else 1 + CeilDiv(length - start - size, step)
    decreases length - start
  {
    WindowsStep(length, size, step, start);
    if length - start > size {
      WindowCount(length, size, step, start + step);
      CeilStep(length - start - size, step);
    }
  }

  lemma DivStep(a: nat, b: nat)
    requires b >= 1
    ensures (a + b) / b == a / b + 1
  {
    var q, p := a / b, (a + b) / b;
    var r, t := a - q * b, a + b - p * b;
    assert 0 <= r < b && 0 <= t < b;
    var d := p - q - 1;
    assert d * b == r - t by {
      assert (p - q - 1) * b == p * b - q * b - b;
    }
    if d >= 1 {
      LargeProduct(d, b);
    }
  }

  lemma LargeProduct(d: int, b: int)
    requires d >= 1 && b >= 1
    ensures d * b >= b
  {
  }

  /** The text under the windows, minus the first `overlap` characters of each. */
  ghost function Fresh(text: string, windows: seq<Span>, overlap: nat): string
    requires Inside(windows, |text|)
  {
    if windows == [] then ""
    else
      var a, b := windows[0].0, windows[0].1;
      text[if a + overlap <= b then a + overlap else b..b] + Fresh(text, windows[1..], overlap)
  }

  lemma FreshCons(text: string, w: Span, rest: seq<Span>, overlap: nat)
    requires 0 <= w.0 && w.0 + overlap <= w.1 <= |text| && Inside(rest, |text|)
    ensures Inside([w] + rest, |text|)
    ensures Fresh(text, [w] + rest, overlap) == text[w.0 + overlap..w.1] + Fresh(text, rest, overlap)
  {
    assert ([w] + rest)[1..] == rest;
  }

  lemma TextSplit(text: string, a: nat, b: nat)
    requires a <= b <= |text|
    ensures text[a..] == text[a..b] + text[b..]
  {
  }

  /** The windows start at `start`, each goes `overlap` characters into the one before, and the last reaches the end. */
  ghost predicate Chained(windows: seq<Span>, length: nat, overlap: nat, start: nat)
    decreases |windows|
  {
    && windows != [] && windows[0].0 == start && start + overlap <= windows[0].1 <= length
    && if windows[0].1 == length then windows[1..] == []
       else Chained(windows[1..], length, overlap, windows[0].1 - overlap)
  }

  lemma {:induction false} WindowsChained(length: nat, size: nat, overlap: nat, start: nat)
    requires overlap < size && start < length && start + overlap <= length
    ensures Chained(Windows(length, size, size - overlap, start), length, overlap, start)
    decreases length - start
  {
    var step := size - overlap;
    if start + size < length {
      WindowsChained(length, size, overlap, start + step);
    }
    assert Windows(length, size, step, start)[1..] ==
             if start + size < length then Windows(length, size, step, start + step) else [];
  }

  lemma {:induction false} FreshTail(text: string, windows: seq<Span>, overlap: nat, start: nat)
    requires Chained(windows, |text|, overlap, start)
    ensures Inside(windows, |text|) && Fresh(text, windows, overlap) == text[start + overlap..]
    decreases |windows|
  {
    var end, rest := windows[0].1, windows[1..];
    assert windows == [(start, end)] + rest;
    if end < |text| {
      FreshTail(text, rest, overlap, end - overlap);
    }
    FreshCons(text, (start, end), rest, overlap);
    TextSplit(text, start + overlap, end);
  }

  /**
   * For 0 <= overlap < size and no blank window: the number of chunks, and the text rebuilt from the first
   * chunk and the fresh part of every later one.
   */
  lemma Reconstruction(text: string, size: nat, overlap: nat)
    requires overlap < size && text != "" && NoBlankWindow(text, Windows(|text|, size, size - overlap, 0))
    ensures var windows := ChunkWindows(text, size, size - overlap);
            && Inside(windows, |text|)
            && |windows| == (if |text| <= size then 1 else 1 + CeilDiv(|text| - size, size - overlap))
            && text[windows[0].0..windows[0].1] + Fresh(text, windows[1..], overlap) == text
  {
    var step := size - overlap;
    NothingDropped(text, Windows(|text|, size, step, 0));
    WindowCount(|text|, size, step, 0);
    Rebuilt(text, size, overlap);
  }

  lemma Rebuilt(text: string, size: nat, overlap: nat)
    requires overlap < size && text != ""
    ensures var windows := Windows(|text|, size, size - overlap, 0);
            && Inside(windows, |text|) && windows != []
            && text[windows[0].0..windows[0].1] + Fresh(text, windows[1..], overlap) == text
  {
    var step := size - overlap;
    var windows := Windows(|text|, size, step, 0);
    WindowsInside(|text|, size, step, 0);
    if |text| > size {
      var rest := Windows(|text|, size, step, step);
      assert windows == [(0, size)] + rest && windows[1..] == rest;
      WindowsChained(|text|, size, overlap, step);
      FreshTail(text, rest, overlap, step);
      TextSplit(text, 0, size);
      assert text[0..] == text;
    } else {
      assert windows == [(0, |text|)] && windows[1..] == [];
    }
  }
}
