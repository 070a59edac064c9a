/** Decompositions of a text into kept pieces and dropped gaps, and what greedy search makes of them. */
module Segments {
  import opened Text

  datatype Segment = Piece(text: string) | Gap(text: string)

  function Flatten(segs: seq<Segment>): string {
    if segs == [] then "" else segs[0].text + Flatten(segs[1..])
  }

  function Pieces(segs: seq<Segment>): seq<string> {
    if segs == [] then []
    else if segs[0].Piece? then [segs[0].text] + Pieces(segs[1..])
    else Pieces(segs[1..])
  }

  lemma {:induction false} FlattenConcat(a: seq<Segment>, b: seq<Segment>)
    ensures Flatten(a + b) == Flatten(a) + Flatten(b)
    ensures Pieces(a + b) == Pieces(a) + Pieces(b)
  {
    if a == [] {
      assert a + b == b;
    } else {
      assert (a + b)[1..] == a[1..] + b;
      FlattenConcat(a[1..], b);
      assert a[0].text + (Flatten(a[1..]) + Flatten(b)) == (a[0].text + Flatten(a[1..])) + Flatten(b);
    }
  }

  /** Non-mark characters survive: the pieces weigh what the text weighs, when the gaps hold marks only. */
  lemma {:induction false} PiecesCarryTheWeight(segs: seq<Segment>, marks: set<char>)
    requires forall s :: s in segs && s.Gap? ==> forall c :: c in s.text ==> c in marks
    ensures Weight(Concat(Pieces(segs)), marks) == Weight(Flatten(segs), marks)
  {
    if segs != [] {
      PiecesCarryTheWeight(segs[1..], marks);
      WeightConcat(segs[0].text, Flatten(segs[1..]), marks);
      if segs[0].Piece? {
        assert Pieces(segs)[1..] == Pieces(segs[1..]);
        WeightConcat(segs[0].text, Concat(Pieces(segs[1..])), marks);
      } else {
        WeightZero(segs[0].text, marks);
      }
    }
  }

  /** Where the next piece of a decomposition of `text[at..]` truly lies. */
  lemma {:induction false} NextPiece(text: string, at: nat, segs: seq<Segment>) returns (truth: nat, rest: seq<Segment>)
    requires at <= |text| && text[at..] == Flatten(segs)
    requires Pieces(segs) != []
    ensures at <= truth && OccursAt(text, Pieces(segs)[0], truth)
    ensures text[truth + |Pieces(segs)[0]|..] == Flatten(rest)
    ensures Pieces(rest) == Pieces(segs)[1..]
    ensures forall s :: s in rest ==> s in segs
    decreases |segs|
  {
    var head := segs[0].text;
    assert text[at..][..|head|] == head;
    assert text[at + |head|..] == text[at..][|head|..] == Flatten(segs[1..]);
    if segs[0].Piece? {
      truth, rest := at, segs[1..];
      assert text[at..at + |head|] == text[at..][..|head|];
    } else {
      truth, rest := NextPiece(text, at + |head|, segs[1..]);
    }
  }

  type Span = (int, int)

  /** Spans that are nonempty, ordered and disjoint, start no earlier than `from`, and end inside the text. */
  ghost predicate Ordered(spans: seq<Span>, from: int, length: nat) {
    && (forall i :: 0 <= i < |spans| ==> from <= spans[i].0 < spans[i].1 <= length)
    && (forall i, j :: 0 <= i < j < |spans| ==> spans[i].1 <= spans[j].0)
  }

  ghost predicate Covered(spans: seq<Span>, q: int) {
    exists i :: 0 <= i < |spans| && spans[i].0 <= q < spans[i].1
  }

  /** Each span starts after the one before it and lies over exactly the piece it was found for. */
  ghost predicate Exact(text: string, from: nat, spans: seq<Span>, pieces: seq<string>) {
    && |spans| == |pieces|
    && Ordered(spans, from, |text|)
    && forall k :: 0 <= k < |spans| ==> text[spans[k].0..spans[k].1] == pieces[k]
  }

  /** One search: on from `cursor`, or stay put if it fails. */
  function Search(text: string, piece: string, cursor: int): Span
    requires 0 <= cursor
  {
    var found := Find(text, piece, cursor);
    var start := if found < 0 then cursor else found;
    (start, start + |piece|)
  }

  /** Where the `k`-th search starts: `skip` characters behind the end of the previous span. */
  ghost function ResumeAt(spans: seq<Span>, cursor: nat, skip: nat, k: nat): int
    requires k <= |spans|
  {
    if k == 0 then cursor else spans[k - 1].1 + skip
  }

  ghost predicate FoundBySearch(text: string, pieces: seq<string>, spans: seq<Span>, cursor: nat, skip: nat, k: nat)
    requires k < |spans| == |pieces|
  {
    0 <= ResumeAt(spans, cursor, skip, k) && spans[k] == Search(text, pieces[k], ResumeAt(spans, cursor, skip, k))
  }

  /** Spans recovered as the chunkers do it: each search resumes `skip` characters behind the last span. */
  ghost predicate Located(text: string, pieces: seq<string>, spans: seq<Span>, cursor: nat, skip: nat) {
    |spans| == |pieces| && forall k :: 0 <= k < |spans| ==> FoundBySearch(text, pieces, spans, cursor, skip, k)
  }

  /** No search of `Located` fails, so that the fallback is never taken. */
  ghost predicate NeverLost(text: string, pieces: seq<string>, spans: seq<Span>, cursor: nat, skip: nat) {
    && Located(text, pieces, spans, cursor, skip)
    && forall k {:trigger ResumeAt(spans, cursor, skip, k)} :: 0 <= k < |spans| ==>
         0 <= ResumeAt(spans, cursor, skip, k) && Find(text, pieces[k], ResumeAt(spans, cursor, skip, k)) == spans[k].0
  }

  lemma LocatedTail(text: string, pieces: seq<string>, spans: seq<Span>, cursor: nat)
    requires Located(text, pieces, spans, cursor, 0) && pieces != []
    ensures spans[0] == Search(text, pieces[0], cursor)
    ensures Located(text, pieces[1..], spans[1..], spans[0].1, 0)
  {
    assert FoundBySearch(text, pieces, spans, cursor, 0, 0);
    var end := spans[0].1;
    forall k | 0 <= k < |spans[1..]|
      ensures FoundBySearch(text, pieces[1..], spans[1..], end, 0, k)
    {
      assert FoundBySearch(text, pieces, spans, cursor, 0, k + 1);
    }
  }

  lemma LocatedSnoc(text: string, pieces: seq<string>, spans: seq<Span>, cursor: nat, skip: nat, piece: string)
    requires Located(text, pieces, spans, cursor, skip) && 0 <= ResumeAt(spans, cursor, skip, |spans|)
    ensures Located(text, pieces + [piece], spans + [Search(text, piece, ResumeAt(spans, cursor, skip, |spans|))],
                    cursor, skip)
  {
    var longer := spans + [Search(text, piece, ResumeAt(spans, cursor, skip, |spans|))];
    forall k | 0 <= k < |longer|
      ensures FoundBySearch(text, pieces + [piece], longer, cursor, skip, k)
    {
      assert k < |spans| ==> FoundBySearch(text, pieces, spans, cursor, skip, k);
    }
  }

  lemma NeverLostCons(text: string, pieces: seq<string>, spans: seq<Span>, cursor: nat)
    requires Located(text, pieces, spans, cursor, 0) && pieces != []
    requires 0 <= spans[0].1 && NeverLost(text, pieces[1..], spans[1..], spans[0].1, 0)
    requires Find(text, pieces[0], cursor) == spans[0].0
    ensures NeverLost(text, pieces, spans, cursor, 0)
  {
    forall k {:trigger ResumeAt(spans, cursor, 0, k)} | 0 <= k < |spans|
      ensures 0 <= ResumeAt(spans, cursor, 0, k)
      ensures Find(text, pieces[k], ResumeAt(spans, cursor, 0, k)) == spans[k].0
    {
      assert FoundBySearch(text, pieces, spans, cursor, 0, k);
      if k > 0 {
        assert ResumeAt(spans[1..], spans[0].1, 0, k - 1) == ResumeAt(spans, cursor, 0, k);
      }
    }
  }

  /**
   * When the pieces decompose the text from `at` on and the search starts no later, it never fails: the
   * earliest match is never behind the true place, so it stays ahead for the pieces to come.
   */
  lemma {:induction false} LocatedExact(text: string, segs: seq<Segment>, pieces: seq<string>, spans: seq<Span>,
                                        at: nat, cursor: nat)
    requires cursor <= at <= |text| && text[at..] == Flatten(segs) && pieces == Pieces(segs)
    requires forall k :: 0 <= k < |pieces| ==> pieces[k] != ""
    requires Located(text, pieces, spans, cursor, 0)
    ensures NeverLost(text, pieces, spans, cursor, 0)
    ensures Exact(text, cursor, spans, pieces)
    decreases |pieces|
  {
    if pieces != [] {
      var truth, rest := NextPiece(text, at, segs);
      var piece, start, end := pieces[0], spans[0].0, spans[0].1;
      LocatedTail(text, pieces, spans, cursor);
      FindIsEarliest(text, piece, cursor);
      assert cursor <= start <= truth;
      LocatedExact(text, rest, pieces[1..], spans[1..], truth + |piece|, end);
      NeverLostCons(text, pieces, spans, cursor);
      ExactCons(text, cursor, spans, pieces);
    }
  }

  lemma ExactCons(text: string, cursor: nat, spans: seq<Span>, pieces: seq<string>)
    requires spans != [] && pieces != [] && pieces[0] != ""
    requires cursor <= spans[0].0 && spans[0].1 == spans[0].0 + |pieces[0]|
    requires OccursAt(text, pieces[0], spans[0].0)
    requires Exact(text, spans[0].1, spans[1..], pieces[1..])
    ensures Exact(text, cursor, spans, pieces)
  {
    assert spans == [spans[0]] + spans[1..] && pieces == [pieces[0]] + pieces[1..];
  }

  /** The concatenation of the text under each span. */
  ghost function Under(text: string, spans: seq<Span>): string
    requires Ordered(spans, 0, |text|)
  {
    if spans == [] then "" else text[spans[0].0..spans[0].1] + Under(text, spans[1..])
  }

  lemma {:induction false} UnderIsConcat(text: string, from: nat, spans: seq<Span>, pieces: seq<string>)
    requires Exact(text, from, spans, pieces)
    ensures Under(text, spans) == Concat(pieces)
    decreases |spans|
  {
    if spans != [] {
      UnderIsConcat(text, from, spans[1..], pieces[1..]);
    }
  }

  lemma WeightAround(text: string, from: nat, a: nat, b: nat, marks: set<char>)
    requires from <= a <= b <= |text|
    ensures Weight(text[from..], marks) ==
              Weight(text[from..a], marks) + Weight(text[a..b], marks) + Weight(text[b..], marks)
  {
    assert text[from..] == text[from..a] + (text[a..b] + text[b..]);
    WeightConcat(text[from..a], text[a..b] + text[b..], marks);
    WeightConcat(text[a..b], text[b..], marks);
  }

  lemma UnderFirst(text: string, spans: seq<Span>, marks: set<char>)
    requires Ordered(spans, 0, |text|) && spans != []
    ensures Weight(Under(text, spans), marks) ==
              Weight(text[spans[0].0..spans[0].1], marks) + Weight(Under(text, spans[1..]), marks)
  {
    WeightConcat(text[spans[0].0..spans[0].1], Under(text, spans[1..]), marks);
  }

  /** Disjoint spans cannot weigh more than the text. */
  lemma {:induction false} UnderWeighsLess(text: string, spans: seq<Span>, from: nat, marks: set<char>)
    requires from <= |text| && Ordered(spans, from, |text|)
    ensures Weight(Under(text, spans), marks) <= Weight(text[from..], marks)
    decreases |spans|
  {
    if spans != [] {
      var (a, b) := spans[0];
      UnderWeighsLess(text, spans[1..], b, marks);
      WeightAround(text, from, a, b, marks);
      UnderFirst(text, spans, marks);
    }
  }

  /** When the spans weigh as much as the text, nothing outside them weighs anything. */
  lemma {:induction false} FullWeightCovers(text: string, spans: seq<Span>, from: nat, marks: set<char>, q: nat)
    requires from <= q < |text| && text[q] !in marks && Ordered(spans, from, |text|)
    requires Weight(Under(text, spans), marks) == Weight(text[from..], marks)
    ensures Covered(spans, q)
    decreases |spans|
  {
    if spans == [] {
      WeightPositive(text[from..], q - from, marks);
    } else {
      var (a, b) := spans[0];
      UnderWeighsLess(text, spans[1..], b, marks);
      WeightAround(text, from, a, b, marks);
      UnderFirst(text, spans, marks);
      if q < a {
        WeightPositive(text[from..a], q - from, marks);
      } else if q < b {
        assert spans[0].0 <= q < spans[0].1;
      } else {
        FullWeightCovers(text, spans[1..], b, marks, q);
        var i :| 0 <= i < |spans[1..]| && spans[1..][i].0 <= q < spans[1..][i].1;
        assert spans[i + 1].0 <= q < spans[i + 1].1;
      }
    }
  }

  /** Exact spans whose pieces carry the whole weight of the text leave no non-mark character out. */
  lemma ExactCovers(text: string, from: nat, spans: seq<Span>, pieces: seq<string>, marks: set<char>)
    requires Exact(text, from, spans, pieces)
    requires Weight(Concat(pieces), marks) == Weight(text, marks)
    ensures forall q :: 0 <= q < |text| && text[q] !in marks ==> Covered(spans, q)
  {
    UnderIsConcat(text, from, spans, pieces);
    assert text[0..] == text;
    forall q | 0 <= q < |text| && text[q] !in marks
      ensures Covered(spans, q)
    {
      FullWeightCovers(text, spans, 0, marks, q);
    }
  }

  /** No character lies under two spans. */
  lemma CoveredOnce(spans: seq<Span>, from: int, length: nat, q: int, i: int, j: int)
    requires Ordered(spans, from, length) && 0 <= i < |spans| && 0 <= j < |spans|
    requires spans[i].0 <= q < spans[i].1 && spans[j].0 <= q < spans[j].1
    ensures i == j
  {
  }
}
