/** Where two pieces of the recursive chunker touch, and where a separator keeps them apart. */
module Boundaries {
  import opened Text
  import opened Segments
  import opened RecursiveChunker
  import Markdown = MarkdownChunker

  /** The separators that are ever looked for: those in front of the first empty one. */
  function Usable(separators: seq<string>): seq<string> {
    if separators == [] || separators[0] == "" then [] else [separators[0]] + Usable(separators[1..])
  }

  ghost predicate NoneOf(run: string, used: seq<string>) {
    forall s :: s in used ==> Free(run, s)
  }

  /** `[from, to)` lies in a stretch of the text that does not fit and offers no separator to cut at. */
  ghost predicate InLongRun(text: string, from: int, to: int, size: nat, used: seq<string>) {
    exists lo: int, hi: int ::
      0 <= lo <= from <= to <= hi <= |text| && hi - lo > size && NoneOf(text[lo..hi], used)
  }

  ghost predicate Touching(segs: seq<Segment>, i: int) {
    0 <= i && i + 1 < |segs| && segs[i].Piece? && segs[i + 1].Piece?
  }

  ghost predicate TouchInLongRun(segs: seq<Segment>, i: nat, size: nat, used: seq<string>)
    requires i + 1 < |segs|
  {
    InLongRun(Flatten(segs), |Flatten(segs[..i])|, |Flatten(segs[..i + 2])|, size, used)
  }

  ghost predicate TouchInLongRuns(segs: seq<Segment>, size: nat, used: seq<string>) {
    forall i: nat :: Touching(segs, i) ==> TouchInLongRun(segs, i, size, used)
  }

  lemma OccursWithin(text: string, part: string, sep: string, lo: nat, hi: nat, i: nat)
    requires lo <= hi <= |text| && part == text[lo..hi] && OccursAt(part, sep, i)
    ensures OccursAt(text, sep, lo + i)
  {
    assert |text[lo + i..lo + i + |sep|]| == |sep|;
    forall k | 0 <= k < |sep| ensures text[lo + i..lo + i + |sep|][k] == sep[k] {
      assert part[i..i + |sep|][k] == part[i + k] == text[lo + i + k];
    }
  }

  lemma FreeWithin(text: string, sep: string, lo: nat, hi: nat)
    requires lo <= hi <= |text| && Free(text, sep)
    ensures Free(text[lo..hi], sep)
  {
    forall i: nat ensures !OccursAt(text[lo..hi], sep, i) {
      if OccursAt(text[lo..hi], sep, i) {
        OccursWithin(text, text[lo..hi], sep, lo, hi, i);
      }
    }
  }

  /** What does not occur in a text does not occur in its parts. */
  lemma {:induction false} PartsFree(text: string, sep: string, s: string)
    requires sep != "" && Free(text, s)
    ensures forall part :: part in SplitOn(text, sep) ==> Free(part, s)
    decreases |text|
  {
    var i := Find(text, sep, 0);
    if i != -1 {
      FreeWithin(text, s, 0, i);
      assert text[0..i] == text[..i];
      FreeWithin(text, s, i + |sep|, |text|);
      assert text[i + |sep|..|text|] == text[i + |sep|..];
      PartsFree(text[i + |sep|..], sep, s);
    }
  }

  lemma LongRunWithin(before: string, text: string, after: string, from: int, to: int, size: nat, used: seq<string>)
    requires InLongRun(text, from, to, size, used)
    ensures InLongRun(before + text + after, |before| + from, |before| + to, size, used)
  {
    var lo: int, hi: int :|
      0 <= lo <= from <= to <= hi <= |text| && hi - lo > size && NoneOf(text[lo..hi], used);
    assert (before + text + after)[|before| + lo..|before| + hi] == text[lo..hi];
  }

  lemma TouchWithin(before: seq<Segment>, segs: seq<Segment>, after: seq<Segment>, i: nat, size: nat,
                    used: seq<string>)
    requires i + 1 < |segs| && TouchInLongRun(segs, i, size, used)
    ensures TouchInLongRun(before + segs + after, |before| + i, size, used)
  {
    LongRunWithin(Flatten(before), Flatten(segs), Flatten(after), |Flatten(segs[..i])|, |Flatten(segs[..i + 2])|, size,
                  used);
    FlattenConcat(before + segs, after);
    FlattenConcat(before, segs);
    TakeWithin(before, segs, after, i);
    TakeWithin(before, segs, after, i + 2);
  }

  lemma TakeWithin(before: seq<Segment>, segs: seq<Segment>, after: seq<Segment>, i: nat)
    requires i <= |segs|
    ensures |Flatten((before + segs + after)[..|before| + i])| == |Flatten(before)| + |Flatten(segs[..i])|
  {
    assert (before + segs + after)[..|before| + i] == before + segs[..i];
    FlattenConcat(before, segs[..i]);
  }

  lemma TouchInFirst(a: seq<Segment>, b: seq<Segment>, i: nat, size: nat, used: seq<string>)
    requires TouchInLongRuns(a, size, used) && i + 1 < |a| && Touching(a + b, i)
    ensures TouchInLongRun(a + b, i, size, used)
  {
    assert Touching(a, i);
    TouchWithin([], a, b, i, size, used);
    assert [] + a + b == a + b;
  }

  lemma TouchInSecond(a: seq<Segment>, b: seq<Segment>, i: nat, size: nat, used: seq<string>)
    requires TouchInLongRuns(b, size, used) && i + 1 < |b| && Touching(a + b, |a| + i)
    ensures TouchInLongRun(a + b, |a| + i, size, used)
  {
    assert Touching(b, i);
    TouchWithin(a, b, [], i, size, used);
    assert a + b + [] == a + b;
  }

  /** Two lists that do not touch each other. */
  lemma TouchConcat(a: seq<Segment>, b: seq<Segment>, size: nat, used: seq<string>)
    requires TouchInLongRuns(a, size, used) && TouchInLongRuns(b, size, used)
    requires a == [] || b == [] || a[|a| - 1].Gap? || b[0].Gap?
    ensures TouchInLongRuns(a + b, size, used)
  {
    forall i: nat | Touching(a + b, i) ensures TouchInLongRun(a + b, i, size, used) {
      if i + 1 < |a| {
        TouchInFirst(a, b, i, size, used);
      } else if i >= |a| {
        TouchInSecond(a, b, i - |a|, size, used);
      }
    }
  }

  /** Every separator of `used` either does not occur in the text or is still to come. */
  ghost predicate Ready(text: string, later: seq<string>, used: seq<string>) {
    forall s :: s in used ==> s in Usable(later) || Free(text, s)
  }

  ghost predicate AllReady(parts: seq<string>, later: seq<string>, used: seq<string>) {
    forall part :: part in parts ==> Ready(part, later, used)
  }

  lemma {:induction false} SplitTouch(text: string, size: nat, separators: seq<string>, used: seq<string>)
    requires size >= 1 && Ready(text, separators, used)
    ensures TouchInLongRuns(Split(text, size, separators), size, used)
    decreases |separators|, 1, 0, 0
  {
    if |text| > size {
      if separators == [] || separators[0] == "" {
        WindowsTouch(text, size, used);
      } else {
        var parts := SplitOn(text, separators[0]);
        PartsReady(text, separators, used);
        assert forall part :: part in parts[1..] ==> part in parts;
        PlaceTouch(parts[0], parts[1..], size, separators, used);
      }
    }
  }

  lemma PartsReady(text: string, separators: seq<string>, used: seq<string>)
    requires separators != [] && separators[0] != "" && Ready(text, separators, used)
    ensures AllReady(SplitOn(text, separators[0]), separators[1..], used)
  {
    var parts := SplitOn(text, separators[0]);
    SplitThenJoin(text, separators[0]);
    forall part, s | part in parts && s in used ensures s in Usable(separators[1..]) || Free(part, s) {
      if s !in Usable(separators) {
        PartsFree(text, separators[0], s);
      }
    }
  }

  lemma WindowsTouch(text: string, size: nat, used: seq<string>)
    requires size >= 1 && |text| > size && NoneOf(text, used)
    ensures TouchInLongRuns(Windows(text, size), size, used)
  {
    var segs := Windows(text, size);
    WindowsFlatten(text, size);
    assert text[0..|text|] == text;
    forall i: nat | Touching(segs, i) ensures TouchInLongRun(segs, i, size, used) {
      FlattenConcat(segs[..i + 2], segs[i + 2..]);
      assert segs[..i + 2] + segs[i + 2..] == segs;
      FlattenConcat(segs[..i], segs[i..i + 2]);
      assert segs[..i] + segs[i..i + 2] == segs[..i + 2];
    }
  }

  lemma {:induction false} PlaceTouch(part: string, rest: seq<string>, size: nat, separators: seq<string>,
                                      used: seq<string>)
    requires size >= 1 && separators != []
    requires Ready(part, separators[1..], used) && AllReady(rest, separators[1..], used)
    ensures TouchInLongRuns(Place(part, rest, size, separators), size, used)
    decreases |separators|, 0, |rest|, 1
  {
    if |part| > size {
      SplitTouch(part, size, separators[1..], used);
      PackTouch("", rest, size, separators, used);
      TouchConcat(Split(part, size, separators[1..]), Pack("", rest, size, separators), size, used);
    } else {
      PackTouch(part, rest, size, separators, used);
    }
  }

  lemma {:induction false} PackTouch(current: string, rest: seq<string>, size: nat, separators: seq<string>,
                                     used: seq<string>)
    requires size >= 1 && separators != [] && AllReady(rest, separators[1..], used)
    ensures TouchInLongRuns(Pack(current, rest, size, separators), size, used)
    ensures current == "" && rest != [] ==> Pack(current, rest, size, separators)[0].Gap?
    decreases |separators|, 0, |rest|, 0
  {
    if rest != [] {
      var joined := current + separators[0] + rest[0];
      assert rest[0] in rest && forall part :: part in rest[1..] ==> part in rest;
      if current != "" && |joined| <= size {
        PackTouch(joined, rest[1..], size, separators, used);
      } else {
        PlaceTouch(rest[0], rest[1..], size, separators, used);
        TouchConcat(Closed(current) + [Gap(separators[0])], Place(rest[0], rest[1..], size, separators), size, used);
      }
    }
  }

  /** Where the pieces of a decomposition lie in the text it decomposes. */
  function TrueSpans(segs: seq<Segment>, at: nat): seq<Span> {
    if segs == [] then []
    else
      var end := at + |segs[0].text|;
      (if segs[0].Piece? then [(at, end)] else []) + TrueSpans(segs[1..], end)
  }

  ghost predicate NoneEmpty(segs: seq<Segment>) {
    forall s :: s in segs ==> s.text != ""
  }

  lemma OneMoreExact(text: string, at: nat, head: string, spans: seq<Span>, pieces: seq<string>)
    requires head != "" && at + |head| <= |text| && text[at..at + |head|] == head
    requires Exact(text, at + |head|, spans, pieces)
    ensures Exact(text, at, [(at, at + |head|)] + spans, [head] + pieces)
  {
    var all := [(at, at + |head|)] + spans;
    assert all[1..] == spans && ([head] + pieces)[1..] == pieces;
    ExactCons(text, at, all, [head] + pieces);
  }

  lemma ExactFromBefore(text: string, at: nat, from: nat, spans: seq<Span>, pieces: seq<string>)
    requires at <= from && Exact(text, from, spans, pieces)
    ensures Exact(text, at, spans, pieces)
  {
  }

  lemma {:induction false} TrueSpansExact(text: string, segs: seq<Segment>, at: nat)
    requires at <= |text| && text[at..] == Flatten(segs) && NoneEmpty(segs)
    ensures Exact(text, at, TrueSpans(segs, at), Pieces(segs))
    decreases |segs|
  {
    if segs != [] {
      var head, tail := segs[0].text, segs[1..];
      assert text[at..][..|head|] == head && text[at..][|head|..] == Flatten(tail);
      assert text[at..at + |head|] == head && text[at + |head|..] == Flatten(tail);
      TrueSpansExact(text, tail, at + |head|);
      if segs[0].Piece? {
        OneMoreExact(text, at, head, TrueSpans(tail, at + |head|), Pieces(tail));
      } else {
        ExactFromBefore(text, at, at + |head|, TrueSpans(tail, at + |head|), Pieces(tail));
      }
    }
  }

  /** Spans that touch are those of neighbouring segments. */
  lemma {:induction false} TouchingSpans(segs: seq<Segment>, at: nat, k: nat) returns (i: nat)
    requires NoneEmpty(segs) && k + 1 < |TrueSpans(segs, at)|
    requires TrueSpans(segs, at)[k].1 == TrueSpans(segs, at)[k + 1].0
    ensures Touching(segs, i)
    ensures TrueSpans(segs, at)[k].0 == at + |Flatten(segs[..i])|
    ensures TrueSpans(segs, at)[k + 1].1 == at + |Flatten(segs[..i + 2])|
    decreases |segs|
  {
    var end := at + |segs[0].text|;
    var spans, tail := TrueSpans(segs, at), TrueSpans(segs[1..], end);
    if segs[0].Piece? && k == 0 {
      assert spans[1] == tail[0];
      FirstSpan(segs[1..], end);
      i := 0;
      assert segs[..2][1..] == [segs[1]] && [segs[1]][1..] == [];
      assert Flatten([segs[1]]) == segs[1].text + "";
    } else {
      var j := TouchingSpans(segs[1..], end, if segs[0].Piece? then k - 1 else k);
      i := j + 1;
      assert segs[..i][1..] == segs[1..][..j] && segs[..i + 2][1..] == segs[1..][..j + 2];
    }
  }

  /** A first span lies at the front exactly when no gap is in front of it. */
  lemma {:induction false} FirstSpan(segs: seq<Segment>, at: nat)
    requires NoneEmpty(segs) && TrueSpans(segs, at) != []
    ensures TrueSpans(segs, at)[0].0 >= at
    ensures TrueSpans(segs, at)[0].0 == at ==> segs[0].Piece? && TrueSpans(segs, at)[0].1 == at + |segs[0].text|
  {
    if segs[0].Gap? {
      FirstSpan(segs[1..], at + |segs[0].text|);
    }
  }

  /**
   * The pieces lie in the text in order, and two of them touch without a separator between them only inside a
   * stretch longer than a piece that holds no separator at all.
   */
  lemma TouchOnlyInLongRuns(text: string, size: nat, separators: seq<string>) returns (spans: seq<Span>)
    requires size >= 1
    requires |text| > size || !Blank(text)
    ensures Exact(text, 0, spans, Pieces(Split(text, size, separators)))
    ensures forall k :: 0 <= k && k + 1 < |spans| && spans[k].1 == spans[k + 1].0 ==>
              InLongRun(text, spans[k].0, spans[k + 1].1, size, Usable(separators))
  {
    var segs := Split(text, size, separators);
    SplitLossless(text, size, separators);
    assert text[0..] == text;
    spans := TrueSpans(segs, 0);
    TrueSpansExact(text, segs, 0);
    SplitTouch(text, size, separators, Usable(separators));
    forall k | 0 <= k && k + 1 < |spans| && spans[k].1 == spans[k + 1].0
      ensures InLongRun(text, spans[k].0, spans[k + 1].1, size, Usable(separators))
    {
      var i := TouchingSpans(segs, 0, k);
      assert TouchInLongRun(segs, i, size, Usable(separators));
    }
  }

  /** A long markdown section is cut by the same description, and its pieces touch as seldom. */
  lemma LongSections(section: string, size: nat, pieces: seq<string>)
    requires size >= 1 && |section| > size && !Blank(section)
    ensures pieces == Pieces(Markdown.SectionSegments(section, size)) <==> Cut(pieces, section, size, SEPARATORS)
    ensures TouchInLongRuns(Markdown.SectionSegments(section, size), size, ["\n\n", "\n", ". ", " "])
  {
    SplitExactly(pieces, section, size, SEPARATORS);
    DefaultUsable();
    SplitTouch(section, size, SEPARATORS, Usable(SEPARATORS));
  }

  lemma DefaultUsable()
    ensures Usable(SEPARATORS) == ["\n\n", "\n", ". ", " "]
  {
    assert SEPARATORS[1..] == ["\n", ". ", " ", ""];
    assert ["\n", ". ", " ", ""][1..] == [". ", " ", ""];
    assert [". ", " ", ""][1..] == [" ", ""];
    assert [" ", ""][1..] == [""];
    assert Usable([""]) == [];
    assert Usable([" ", ""]) == [" "];
    assert Usable([". ", " ", ""]) == [". ", " "];
    assert Usable(["\n", ". ", " ", ""]) == ["\n", ". ", " "];
  }
}
