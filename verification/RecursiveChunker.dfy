/** src/rag/chunking/recursive.py: recursive greedy packing, and span recovery by greedy search. */
module RecursiveChunker {
  import opened Schemas
  import opened Text
  import opened Segments
  import opened Collections

  const SEPARATORS: seq<string> := ["\n\n", "\n", ". ", " ", ""]
  const VERSION := "1.0"

  // ---- What the packer computes, with the dropped separators kept visible ----

  /** Consecutive windows of `size` characters. */
  function Windows(text: string, size: nat): seq<Segment>
    requires size >= 1
    decreases |text|
  {
    if text == "" then []
    else if |text| <= size then [Piece(text)]
    else [Piece(text[..size])] + Windows(text[size..], size)
  }

  function Split(text: string, size: nat, separators: seq<string>): seq<Segment>
    requires size >= 1
    decreases |separators|, 1, 0, 0
  {
    if |text| <= size then
      if Blank(text) then [] else [Piece(text)]
    else if separators == [] || separators[0] == "" then
      Windows(text, size)
    else
      var parts := SplitOn(text, separators[0]);
      Place(parts[0], parts[1..], size, separators)
  }

  /** `part` starts afresh: it becomes the open piece, or is split further when it is too long. */
  function Place(part: string, rest: seq<string>, size: nat, separators: seq<string>): seq<Segment>
    requires size >= 1 && separators != []
    decreases |separators|, 0, |rest|, 1
  {
    if |part| > size then Split(part, size, separators[1..]) + Pack("", rest, size, separators)
    else Pack(part, rest, size, separators)
  }

  /** `current` is open and `rest` follows, each part behind one separator. */
  function Pack(current: string, rest: seq<string>, size: nat, separators: seq<string>): seq<Segment>
    requires size >= 1 && separators != []
    decreases |separators|, 0, |rest|, 0
  {
    if rest == [] then Closed(current)
    else
      var joined := current + separators[0] + rest[0];
      if current != "" && |joined| <= size then Pack(joined, rest[1..], size, separators)
      else Closed(current) + [Gap(separators[0])] + Place(rest[0], rest[1..], size, separators)
  }

  // ---- Properties of the packer ----

  /** The decomposition facts: pieces are nonempty and fit; a gap is exactly one separator of the list. */
  ghost predicate Packed(segs: seq<Segment>, size: nat, separators: seq<string>) {
    forall s :: s in segs ==>
      if s.Piece? then 0 < |s.text| <= size else s.text != "" && s.text in separators
  }

  lemma FlattenCons(head: Segment, rest: seq<Segment>)
    ensures Flatten([head] + rest) == head.text + Flatten(rest)
  {
    assert ([head] + rest)[1..] == rest;
  }

  lemma WindowsCons(text: string, size: nat)
    requires size >= 1 && |text| > size
    ensures Windows(text, size) == [Piece(text[..size])] + Windows(text[size..], size)
    ensures text == text[..size] + text[size..]
  {
  }

  lemma {:induction false} WindowsFlatten(text: string, size: nat)
    requires size >= 1
    ensures Flatten(Windows(text, size)) == text
    decreases |text|
  {
    if |text| > size {
      WindowsFlatten(text[size..], size);
      WindowsCons(text, size);
      FlattenCons(Piece(text[..size]), Windows(text[size..], size));
    }
  }

  lemma {:induction false} WindowsPacked(text: string, size: nat, separators: seq<string>)
    requires size >= 1
    ensures Packed(Windows(text, size), size, separators)
    decreases |text|
  {
    if |text| > size {
      WindowsPacked(text[size..], size, separators);
    }
  }

  /** Nothing is lost, unless the text is blank and fits. */
  lemma {:induction false} SplitLossless(text: string, size: nat, separators: seq<string>)
    requires size >= 1
    requires |text| > size || !Blank(text)
    ensures Flatten(Split(text, size, separators)) == text
    ensures Packed(Split(text, size, separators), size, separators)
    decreases |separators|, 1, 0, 0
  {
    if |text| <= size {
    } else if separators == [] || separators[0] == "" {
      WindowsFlatten(text, size);
      WindowsPacked(text, size, separators);
    } else {
      var parts := SplitOn(text, separators[0]);
      SplitThenJoin(text, separators[0]);
      PlaceLossless(parts[0], parts[1..], size, separators);
    }
  }

  lemma {:induction false} PlaceLossless(part: string, rest: seq<string>, size: nat, separators: seq<string>)
    requires size >= 1 && separators != [] && separators[0] != ""
    ensures Flatten(Place(part, rest, size, separators)) == part + JoinTail(separators[0], rest)
    ensures Packed(Place(part, rest, size, separators), size, separators)
    decreases |separators|, 0, |rest|, 1
  {
    if |part| > size {
      SplitLossless(part, size, separators[1..]);
      PackLossless("", rest, size, separators);
      FlattenConcat(Split(part, size, separators[1..]), Pack("", rest, size, separators));
      PackedConcat(Split(part, size, separators[1..]), Pack("", rest, size, separators), size, separators);
      assert "" + JoinTail(separators[0], rest) == JoinTail(separators[0], rest);
    } else {
      PackLossless(part, rest, size, separators);
    }
  }

  lemma PackedConcat(a: seq<Segment>, b: seq<Segment>, size: nat, separators: seq<string>)
    requires separators != [] && Packed(a, size, separators[1..]) && Packed(b, size, separators)
    ensures Packed(a + b, size, separators)
  {
  }

  lemma {:induction false} PackLossless(current: string, rest: seq<string>, size: nat, separators: seq<string>)
    requires size >= 1 && separators != [] && separators[0] != "" && |current| <= size
    ensures Flatten(Pack(current, rest, size, separators)) == current + JoinTail(separators[0], rest)
    ensures Packed(Pack(current, rest, size, separators), size, separators)
    decreases |separators|, 0, |rest|, 0
  {
    var sep := separators[0];
    if rest == [] {
      assert current + "" == current;
    } else {
      var joined := current + sep + rest[0];
      var tail := JoinTail(sep, rest[1..]);
      Regroup(current, sep, rest[0], tail);
      if current != "" && |joined| <= size {
        PackLossless(joined, rest[1..], size, separators);
      } else {
        var segs := Place(rest[0], rest[1..], size, separators);
        PlaceLossless(rest[0], rest[1..], size, separators);
        CloseThen(current, sep, segs);
        ClosedPacked(current, segs, size, separators);
      }
    }
  }

  lemma Regroup(a: string, b: string, c: string, d: string)
    ensures a + ((b + c) + d) == ((a + b) + c) + d
    ensures a + (b + (c + d)) == ((a + b) + c) + d
  {
  }

  lemma ClosedPacked(current: string, segs: seq<Segment>, size: nat, separators: seq<string>)
    requires separators != [] && separators[0] != "" && |current| <= size && Packed(segs, size, separators)
    ensures Packed(Closed(current) + [Gap(separators[0])] + segs, size, separators)
  {
  }

  function Closed(current: string): seq<Segment> {
    if current == "" then [] else [Piece(current)]
  }

  /** Closing the open piece, then one separator, then whatever `tail` decomposes. */
  lemma CloseThen(current: string, sep: string, tail: seq<Segment>)
    ensures var segs := Closed(current) + [Gap(sep)] + tail;
            && Flatten(segs) == current + (sep + Flatten(tail))
            && Pieces(segs) == (if current == "" then [] else [current]) + Pieces(tail)
  {
    FlattenConcat(Closed(current) + [Gap(sep)], tail);
    FlattenConcat(Closed(current), [Gap(sep)]);
    assert Flatten([Gap(sep)]) == sep && Pieces([Gap(sep)]) == [];
    assert Flatten(Closed(current)) == current;
  }

  /** One round of the packing loop, on the pieces alone. */
  lemma PackStep(current: string, rest: seq<string>, size: nat, separators: seq<string>)
    requires size >= 1 && separators != [] && separators[0] != "" && rest != []
    ensures
      var sep, part, tail := separators[0], rest[0], rest[1..];
      var candidate := if current == "" then part else current + sep + part;
      Pieces(Pack(current, rest, size, separators)) ==
        if |candidate| <= size then Pieces(Pack(candidate, tail, size, separators))
        else (if current == "" then [] else [current]) + Pieces(Place(part, tail, size, separators))
  {
    CloseThen(current, separators[0], Place(rest[0], rest[1..], size, separators));
  }

  lemma PlaceStep(part: string, rest: seq<string>, size: nat, separators: seq<string>)
    requires size >= 1 && separators != []
    ensures Pieces(Place(part, rest, size, separators)) ==
              if |part| > size then
                Pieces(Split(part, size, separators[1..])) + Pieces(Pack("", rest, size, separators))
              else Pieces(Pack(part, rest, size, separators))
  {
    if |part| > size {
      FlattenConcat(Split(part, size, separators[1..]), Pack("", rest, size, separators));
    }
  }

  // ---- Where the cuts fall ----

  /** Consecutive parts with the separator put back between them. */
  function Joined(sep: string, parts: seq<string>): string
    requires parts != []
  {
    parts[0] + JoinTail(sep, parts[1..])
  }

  /** The text in equal tiles, the last one possibly shorter. */
  ghost predicate Tiled(pieces: seq<string>, text: string, size: nat) {
    && Concat(pieces) == text
    && forall k :: 0 <= k < |pieces| ==> if k + 1 < |pieces| then |pieces[k]| == size else 0 < |pieces[k]| <= size
  }

  /** `separators[k]` is the first of the list that occurs in the text, and the list does not end before it. */
  ghost predicate FirstIn(text: string, separators: seq<string>, k: nat) {
    && k < |separators| && separators[k] != "" && !Free(text, separators[k])
    && forall j :: 0 <= j < k ==> Absent(text, separators[j])
  }

  ghost predicate Absent(text: string, sep: string) {
    sep != "" && Free(text, sep)
  }

  /** `piece` is the first `n` parts joined, it fits, and joining one more part would not. */
  ghost predicate LongestRun(piece: string, parts: seq<string>, n: nat, sep: string, size: nat) {
    && 1 <= n <= |parts| && piece == Joined(sep, parts[..n]) && |piece| <= size
    && (n < |parts| ==> |piece + sep + parts[n]| > size)
  }

  /**
   * What the pieces of a text are, with no word about how they are computed. A text that fits is its own piece.
   * A longer one is cut at the first separator that occurs in it, and into tiles when there is none.
   */
  ghost predicate Cut(pieces: seq<string>, text: string, size: nat, separators: seq<string>)
    decreases |separators|, 0
  {
    if |text| <= size then pieces == (if Blank(text) then [] else [text])
    else
      && ((forall k: nat :: !FirstIn(text, separators, k)) ==> Tiled(pieces, text, size))
      && forall k: nat :: FirstIn(text, separators, k) ==>
           Runs(pieces, SplitOn(text, separators[k]), separators[k], size, separators[k + 1..])
  }

  /**
   * The pieces of a list of parts. Each starts at a nonempty part and is a longest run of parts; only a part that
   * does not fit by itself is cut further, by the separators that are left.
   */
  ghost predicate Runs(pieces: seq<string>, parts: seq<string>, sep: string, size: nat, separators: seq<string>)
    decreases |separators|, |parts| + 1
  {
    if parts == [] then pieces == []
    else if parts[0] == "" then Runs(pieces, parts[1..], sep, size, separators)
    else if |parts[0]| > size then
      exists m :: 0 <= m <= |pieces| && Cut(pieces[..m], parts[0], size, separators)
                  && Runs(pieces[m..], parts[1..], sep, size, separators)
    else
      && pieces != []
      && exists n: nat :: LongestRun(pieces[0], parts, n, sep, size)
                          && Runs(pieces[1..], parts[n..], sep, size, separators)
  }

  lemma {:induction false} JoinTailConcat(sep: string, a: seq<string>, b: seq<string>)
    ensures JoinTail(sep, a + b) == JoinTail(sep, a) + JoinTail(sep, b)
  {
    if a == [] {
      assert a + b == b;
    } else {
      assert (a + b)[1..] == a[1..] + b;
      JoinTailConcat(sep, a[1..], b);
      assert sep + a[0] + (JoinTail(sep, a[1..]) + JoinTail(sep, b)) ==
             (sep + a[0] + JoinTail(sep, a[1..])) + JoinTail(sep, b);
    }
  }

  lemma JoinedConcat(sep: string, a: seq<string>, b: seq<string>)
    requires a != []
    ensures Joined(sep, a + b) == Joined(sep, a) + JoinTail(sep, b)
  {
    assert (a + b)[1..] == a[1..] + b;
    JoinTailConcat(sep, a[1..], b);
    assert a[0] + (JoinTail(sep, a[1..]) + JoinTail(sep, b)) == (a[0] + JoinTail(sep, a[1..])) + JoinTail(sep, b);
  }

  lemma JoinedSnoc(sep: string, parts: seq<string>, part: string)
    requires parts != []
    ensures Joined(sep, parts + [part]) == Joined(sep, parts) + sep + part
  {
    JoinedConcat(sep, parts, [part]);
    assert [part][1..] == [] && sep + part + "" == sep + part;
    assert Joined(sep, parts) + (sep + part) == Joined(sep, parts) + sep + part;
  }

  lemma {:induction false} WindowsTiled(text: string, size: nat)
    requires size >= 1
    ensures Tiled(Pieces(Windows(text, size)), text, size)
    ensures text != "" ==> Pieces(Windows(text, size)) != []
    decreases |text|
  {
    if text != "" {
      WindowStep(text, size);
      var pieces := Pieces(Windows(text, size));
      if |text| <= size {
        assert pieces[1..] == [];
      } else {
        WindowsTiled(text[size..], size);
        assert pieces[1..] == Pieces(Windows(text[size..], size));
        forall k | 0 <= k < |pieces|
          ensures if k + 1 < |pieces| then |pieces[k]| == size else 0 < |pieces[k]| <= size
        {
          if k > 0 {
            assert pieces[k] == pieces[1..][k - 1];
          }
        }
      }
    }
  }

  /** The packer computes such pieces. */
  lemma {:induction false} SplitCuts(text: string, size: nat, separators: seq<string>)
    requires size >= 1
    ensures Cut(Pieces(Split(text, size, separators)), text, size, separators)
    decreases |separators|, 1, 0, 0
  {
    if |text| > size {
      var pieces := Pieces(Split(text, size, separators));
      if separators == [] || separators[0] == "" {
        WindowsTiled(text, size);
        forall k: nat ensures !FirstIn(text, separators, k) {
          assert k > 0 && k < |separators| ==> !Absent(text, separators[0]);
        }
      } else if Free(text, separators[0]) {
        FirstAbsent(text, size, separators);
        SplitCuts(text, size, separators[1..]);
        CutLater(pieces, text, size, separators);
      } else {
        var parts := SplitOn(text, separators[0]);
        PlaceRuns(parts[0], parts[1..], size, separators);
        assert parts == [parts[0]] + parts[1..];
        assert FirstIn(text, separators, 0);
        forall k: nat | FirstIn(text, separators, k) ensures k == 0 {
          assert k > 0 ==> Absent(text, separators[0]);
        }
      }
    }
  }

  /** A separator that does not occur is passed over. */
  lemma FirstAbsent(text: string, size: nat, separators: seq<string>)
    requires size >= 1 && |text| > size && separators != [] && Absent(text, separators[0])
    ensures Split(text, size, separators) == Split(text, size, separators[1..])
  {
    FindIsEarliest(text, separators[0], 0);
    assert SplitOn(text, separators[0]) == [text] && [text][1..] == [];
    assert Split(text, size, separators[1..]) + Pack("", [], size, separators) == Split(text, size, separators[1..]);
  }

  lemma FirstInLater(text: string, separators: seq<string>, k: nat)
    requires separators != [] && Absent(text, separators[0])
    ensures FirstIn(text, separators, k) <==> k > 0 && FirstIn(text, separators[1..], k - 1)
  {
    var later := separators[1..];
    if k > 0 && FirstIn(text, later, k - 1) {
      forall j | 0 <= j < k ensures Absent(text, separators[j]) {
        assert j > 0 ==> separators[j] == later[j - 1];
      }
    }
    if FirstIn(text, separators, k) {
      assert k > 0;
      forall j | 0 <= j < k - 1 ensures Absent(text, later[j]) {
        assert later[j] == separators[j + 1];
      }
    }
  }

  lemma CutLater(pieces: seq<string>, text: string, size: nat, separators: seq<string>)
    requires |text| > size && separators != [] && Absent(text, separators[0])
    ensures Cut(pieces, text, size, separators) <==> Cut(pieces, text, size, separators[1..])
  {
    var later := separators[1..];
    forall k: nat ensures FirstIn(text, separators, k) <==> k > 0 && FirstIn(text, later, k - 1) {
      FirstInLater(text, separators, k);
    }
    forall k: nat ensures FirstIn(text, later, k) ==>
                            FirstIn(text, separators, k + 1) && separators[k + 1] == later[k]
                            && separators[k + 2..] == later[k + 1..]
    {
      FirstInLater(text, separators, k + 1);
    }
    forall k: nat ensures FirstIn(text, separators, k) ==>
                            k > 0 && FirstIn(text, later, k - 1) && separators[k] == later[k - 1]
                            && separators[k + 1..] == later[k..]
    {
      FirstInLater(text, separators, k);
    }
  }

  lemma {:induction false} PlaceRuns(part: string, rest: seq<string>, size: nat, separators: seq<string>)
    requires size >= 1 && separators != [] && separators[0] != ""
    ensures Runs(Pieces(Place(part, rest, size, separators)), [part] + rest, separators[0], size, separators[1..])
    decreases |separators|, 0, |rest|, 1
  {
    var pieces := Pieces(Place(part, rest, size, separators));
    assert ([part] + rest)[1..] == rest;
    PlaceStep(part, rest, size, separators);
    if part == "" {
      EmptyRuns(rest, size, separators);
    } else if |part| > size {
      var deeper := Pieces(Split(part, size, separators[1..]));
      SplitCuts(part, size, separators[1..]);
      EmptyRuns(rest, size, separators);
      assert pieces[..|deeper|] == deeper && pieces[|deeper|..] == Pieces(Pack("", rest, size, separators));
    } else {
      assert [part][1..] == [] && part + "" == part;
      PackRuns([part], rest, size, separators);
    }
  }

  /** Nothing is open. */
  lemma {:induction false} EmptyRuns(rest: seq<string>, size: nat, separators: seq<string>)
    requires size >= 1 && separators != [] && separators[0] != ""
    ensures Runs(Pieces(Pack("", rest, size, separators)), rest, separators[0], size, separators[1..])
    decreases |separators|, 0, |rest|, 0
  {
    if rest != [] {
      CloseThen("", separators[0], Place(rest[0], rest[1..], size, separators));
      assert [] + Pieces(Place(rest[0], rest[1..], size, separators)) ==
             Pieces(Place(rest[0], rest[1..], size, separators));
      PlaceRuns(rest[0], rest[1..], size, separators);
      assert rest == [rest[0]] + rest[1..];
    }
  }

  lemma ClosedPieces(current: string)
    ensures Pieces(Closed(current)) == if current == "" then [] else [current]
  {
  }

  /** The parts `done` are open. */
  lemma {:induction false} PackRuns(done: seq<string>, rest: seq<string>, size: nat, separators: seq<string>)
    requires size >= 1 && separators != [] && separators[0] != ""
    requires done != [] && done[0] != "" && |Joined(separators[0], done)| <= size
    ensures Runs(Pieces(Pack(Joined(separators[0], done), rest, size, separators)), done + rest, separators[0], size,
                 separators[1..])
    decreases |separators|, 0, |rest|, 0
  {
    var sep, current := separators[0], Joined(separators[0], done);
    var pieces := Pieces(Pack(current, rest, size, separators));
    if rest == [] {
      ClosedPieces(current);
      assert pieces == [current] && pieces[1..] == [];
      RunCloses(pieces, done, rest, sep, size, separators[1..]);
    } else {
      JoinedSnoc(sep, done, rest[0]);
      if |current + sep + rest[0]| <= size {
        PackRuns(done + [rest[0]], rest[1..], size, separators);
        assert (done + [rest[0]]) + rest[1..] == done + rest;
      } else {
        var tail := Place(rest[0], rest[1..], size, separators);
        CloseThen(current, sep, tail);
        PlaceRuns(rest[0], rest[1..], size, separators);
        assert pieces == [current] + Pieces(tail) && pieces[1..] == Pieces(tail);
        assert rest == [rest[0]] + rest[1..];
        RunCloses(pieces, done, rest, sep, size, separators[1..]);
      }
    }
  }

  /** The first piece is all of `done`, and what follows it starts at `rest`. */
  lemma RunCloses(pieces: seq<string>, done: seq<string>, rest: seq<string>, sep: string, size: nat,
                  separators: seq<string>)
    requires done != [] && done[0] != "" && pieces != [] && pieces[0] == Joined(sep, done) && |pieces[0]| <= size
    requires rest != [] ==> |pieces[0] + sep + rest[0]| > size
    requires Runs(pieces[1..], rest, sep, size, separators)
    ensures Runs(pieces, done + rest, sep, size, separators)
  {
    var parts := done + rest;
    assert parts[..|done|] == done && parts[|done|..] == rest;
    assert LongestRun(pieces[0], parts, |done|, sep, size);
  }

  /** No other pieces fit the description. */
  lemma SplitExactly(pieces: seq<string>, text: string, size: nat, separators: seq<string>)
    requires size >= 1
    ensures Cut(pieces, text, size, separators) <==> pieces == Pieces(Split(text, size, separators))
  {
    SplitCuts(text, size, separators);
    if Cut(pieces, text, size, separators) {
      CutOnce(pieces, Pieces(Split(text, size, separators)), text, size, separators);
    }
  }

  lemma {:induction false} CutOnce(a: seq<string>, b: seq<string>, text: string, size: nat, separators: seq<string>)
    requires size >= 1 && Cut(a, text, size, separators) && Cut(b, text, size, separators)
    ensures a == b
    decreases |separators|, 0, 0
  {
    if |text| > size {
      if k: nat :| FirstIn(text, separators, k) {
        RunsOnce(a, b, SplitOn(text, separators[k]), separators[k], size, separators[k + 1..]);
      } else {
        TiledOnce(a, b, text, size);
      }
    }
  }

  lemma {:induction false} TiledOnce(a: seq<string>, b: seq<string>, text: string, size: nat)
    requires size >= 1 && Tiled(a, text, size) && Tiled(b, text, size)
    ensures a == b
    decreases |text|
  {
    if text != "" {
      TiledHead(a, text, size);
      TiledHead(b, text, size);
      TiledOnce(a[1..], b[1..], text[|a[0]|..], size);
      assert a == [a[0]] + a[1..] && b == [b[0]] + b[1..];
    } else {
      assert a != [] ==> |Concat(a)| > 0;
      assert b != [] ==> |Concat(b)| > 0;
    }
  }

  lemma TiledHead(pieces: seq<string>, text: string, size: nat)
    requires size >= 1 && Tiled(pieces, text, size) && text != ""
    ensures pieces != [] && pieces[0] == text[..if |text| <= size then |text| else size]
    ensures Tiled(pieces[1..], text[|pieces[0]|..], size)
  {
    var tail := pieces[1..];
    assert text == pieces[0] + Concat(tail);
    assert text[|pieces[0]|..] == Concat(tail);
    assert forall k :: 0 <= k < |tail| ==> tail[k] == pieces[k + 1];
    if tail == [] {
      assert Concat(tail) == "";
    } else {
      assert |Concat(tail)| >= |tail[0]| > 0;
    }
  }

  lemma {:induction false} RunsOnce(a: seq<string>, b: seq<string>, parts: seq<string>, sep: string, size: nat,
                                    separators: seq<string>)
    requires size >= 1 && Runs(a, parts, sep, size, separators) && Runs(b, parts, sep, size, separators)
    ensures a == b
    decreases |separators|, |parts|, 2
  {
    if parts == [] {
    } else if parts[0] == "" {
      RunsOnce(a, b, parts[1..], sep, size, separators);
    } else if |parts[0]| > size {
      DeeperOnce(a, b, parts, sep, size, separators);
    } else {
      RunOnce(a, b, parts, sep, size, separators);
    }
  }

  lemma {:induction false} DeeperOnce(a: seq<string>, b: seq<string>, parts: seq<string>, sep: string, size: nat,
                                      separators: seq<string>)
    requires size >= 1 && parts != [] && parts[0] != "" && |parts[0]| > size
    requires Runs(a, parts, sep, size, separators) && Runs(b, parts, sep, size, separators)
    ensures a == b
    decreases |separators|, |parts|, 1
  {
    var m := FirstDeeper(a, parts, sep, size, separators);
    var n := FirstDeeper(b, parts, sep, size, separators);
    CutOnce(a[..m], b[..n], parts[0], size, separators);
    RunsOnce(a[m..], b[n..], parts[1..], sep, size, separators);
    assert a == a[..m] + a[m..] && b == b[..n] + b[n..];
  }

  lemma {:induction false} RunOnce(a: seq<string>, b: seq<string>, parts: seq<string>, sep: string, size: nat,
                                   separators: seq<string>)
    requires size >= 1 && parts != [] && parts[0] != "" && |parts[0]| <= size
    requires Runs(a, parts, sep, size, separators) && Runs(b, parts, sep, size, separators)
    ensures a == b
    decreases |separators|, |parts|, 1
  {
    var m := FirstRun(a, parts, sep, size, separators);
    var n := FirstRun(b, parts, sep, size, separators);
    LongestIsLongest(a[0], b[0], parts, m, n, sep, size);
    LongestIsLongest(b[0], a[0], parts, n, m, sep, size);
    RunsOnce(a[1..], b[1..], parts[m..], sep, size, separators);
    assert a == [a[0]] + a[1..] && b == [b[0]] + b[1..];
  }

  lemma FirstDeeper(pieces: seq<string>, parts: seq<string>, sep: string, size: nat, separators: seq<string>)
    returns (m: nat)
    requires Runs(pieces, parts, sep, size, separators) && parts != [] && parts[0] != "" && |parts[0]| > size
    ensures m <= |pieces| && Cut(pieces[..m], parts[0], size, separators)
    ensures Runs(pieces[m..], parts[1..], sep, size, separators)
  {
    m :| 0 <= m <= |pieces| && Cut(pieces[..m], parts[0], size, separators)
         && Runs(pieces[m..], parts[1..], sep, size, separators);
  }

  lemma FirstRun(pieces: seq<string>, parts: seq<string>, sep: string, size: nat, separators: seq<string>)
    returns (n: nat)
    requires Runs(pieces, parts, sep, size, separators) && parts != [] && parts[0] != "" && |parts[0]| <= size
    ensures pieces != [] && LongestRun(pieces[0], parts, n, sep, size)
    ensures Runs(pieces[1..], parts[n..], sep, size, separators)
  {
    n :| LongestRun(pieces[0], parts, n, sep, size) && Runs(pieces[1..], parts[n..], sep, size, separators);
  }

  lemma LongerRun(parts: seq<string>, m: nat, n: nat, sep: string)
    requires 1 <= m < n <= |parts|
    ensures |Joined(sep, parts[..n])| >= |Joined(sep, parts[..m]) + sep + parts[m]|
  {
    JoinedSnoc(sep, parts[..m], parts[m]);
    JoinedConcat(sep, parts[..m] + [parts[m]], parts[m + 1..n]);
    assert (parts[..m] + [parts[m]]) + parts[m + 1..n] == parts[..n];
  }

  lemma LongestIsLongest(a: string, b: string, parts: seq<string>, m: nat, n: nat, sep: string, size: nat)
    requires LongestRun(a, parts, m, sep, size) && LongestRun(b, parts, n, sep, size)
    ensures m >= n
  {
    if m < n {
      LongerRun(parts, m, n, sep);
    }
  }

  /**
   * When every part fits, no separator further down the list is used: each piece is a longest run of consecutive
   * parts joined by the first separator that occurs.
   */
  lemma PiecesAreRuns(text: string, size: nat, separators: seq<string>, k: nat, m: nat)
    returns (i: nat, n: nat)
    requires size >= 1 && |text| > size && FirstIn(text, separators, k)
    requires AllFit(SplitOn(text, separators[k]), size)
    requires m < |Pieces(Split(text, size, separators))|
    ensures RunFrom(Pieces(Split(text, size, separators))[m], SplitOn(text, separators[k]), i, n, separators[k], size)
  {
    SplitCuts(text, size, separators);
    i, n := RunAt(Pieces(Split(text, size, separators)), SplitOn(text, separators[k]), separators[k], size,
                  separators[k + 1..], m);
  }

  ghost predicate AllFit(parts: seq<string>, size: nat) {
    forall part :: part in parts ==> |part| <= size
  }

  /** The parts from `i` on start with a longest run. */
  ghost predicate RunFrom(piece: string, parts: seq<string>, i: nat, n: nat, sep: string, size: nat) {
    i < |parts| && parts[i] != "" && LongestRun(piece, parts[i..], n, sep, size)
  }

  lemma RunFurther(piece: string, parts: seq<string>, skip: nat, i: nat, n: nat, sep: string, size: nat)
    requires skip <= |parts| && RunFrom(piece, parts[skip..], i, n, sep, size)
    ensures RunFrom(piece, parts, skip + i, n, sep, size)
  {
    assert parts[skip..][i..] == parts[skip + i..];
  }

  lemma FitBehind(parts: seq<string>, skip: nat, size: nat)
    requires skip <= |parts| && AllFit(parts, size)
    ensures AllFit(parts[skip..], size) && (skip > 0 ==> |parts[skip..]| < |parts|)
  {
  }

  lemma {:induction false} RunAt(pieces: seq<string>, parts: seq<string>, sep: string, size: nat,
                                 separators: seq<string>, m: nat)
    returns (i: nat, n: nat)
    requires Runs(pieces, parts, sep, size, separators) && m < |pieces| && AllFit(parts, size)
    ensures RunFrom(pieces[m], parts, i, n, sep, size)
    decreases |parts|, 1
  {
    if parts[0] == "" {
      i, n := RunBehind(pieces, parts, 1, sep, size, separators, m);
    } else {
      var first := FirstFits(pieces, parts, sep, size, separators);
      if m == 0 {
        i, n := 0, first;
      } else {
        i, n := RunBehind(pieces[1..], parts, first, sep, size, separators, m - 1);
      }
    }
  }

  lemma {:induction false} RunBehind(pieces: seq<string>, parts: seq<string>, skip: nat, sep: string, size: nat,
                                     separators: seq<string>, m: nat)
    returns (i: nat, n: nat)
    requires 0 < skip <= |parts| && Runs(pieces, parts[skip..], sep, size, separators) && AllFit(parts, size)
    requires m < |pieces|
    ensures RunFrom(pieces[m], parts, i, n, sep, size)
    decreases |parts|, 0
  {
    var j;
    FitBehind(parts, skip, size);
    j, n := RunAt(pieces, parts[skip..], sep, size, separators, m);
    RunFurther(pieces[m], parts, skip, j, n, sep, size);
    i := skip + j;
  }

  lemma FirstFits(pieces: seq<string>, parts: seq<string>, sep: string, size: nat, separators: seq<string>)
    returns (n: nat)
    requires Runs(pieces, parts, sep, size, separators) && parts != [] && parts[0] != "" && AllFit(parts, size)
    ensures pieces != [] && RunFrom(pieces[0], parts, 0, n, sep, size)
    ensures 0 < n <= |parts| && Runs(pieces[1..], parts[n..], sep, size, separators)
  {
    assert parts[0] in parts && parts[0..] == parts;
    n := FirstRun(pieces, parts, sep, size, separators);
  }

  // ---- The methods ----

  /** src/rag/chunking/recursive.py:48-75 */
  method SplitText(text: string, size: nat, separators: seq<string>) returns (chunks: seq<string>)
    requires size >= 1
    ensures chunks == Pieces(Split(text, size, separators))
    ensures Cut(chunks, text, size, separators)
    decreases |separators|, 1
  {
    SplitCuts(text, size, separators);
    if |text| <= size {
      return if Blank(text) then [] else [text];
    }
    var sep := if separators != [] then separators[0] else "";
    if sep == "" {
      chunks := CutWindows(text, size);
      return;
    }
    var parts := SplitOn(text, sep);
    chunks := PackParts(parts, size, separators);
  }

  /** The packing loop, src/rag/chunking/recursive.py:59-75, over the parts of one split. */
  method PackParts(parts: seq<string>, size: nat, separators: seq<string>) returns (chunks: seq<string>)
    requires size >= 1 && parts != [] && separators != [] && separators[0] != ""
    ensures chunks == Pieces(Place(parts[0], parts[1..], size, separators))
    decreases |separators|, 0
  {
    var sep, rest := separators[0], separators[1..];
    chunks := [];
    var current := "";
    var k := 0;
    while k < |parts|
      invariant 0 <= k <= |parts|
      invariant Due(parts, k, chunks, current, size, separators)
    {
      var part := parts[k];
      var candidate := if current == "" then part else current + sep + part;
      DueStep(parts, k, chunks, current, size, separators);
      if |candidate| <= size {
        current := candidate;
      } else {
        if current != "" {
          chunks := chunks + [current];
        }
        if |part| > size {
          var deeper := SplitText(part, size, rest);
          chunks := chunks + deeper;
          current := "";
        } else {
          current := part;
        }
      }
      k := k + 1;
    }
    AllDone(parts, chunks, current, size, separators);
    if current != "" {
      chunks := chunks + [current];
    }
  }

  /**
   * `chunks` are closed and `current` is open after `k` parts; the rest of the parts makes up the rest of the
   * pieces.
   */
  ghost predicate Due(parts: seq<string>, k: nat, chunks: seq<string>, current: string, size: nat,
                      separators: seq<string>)
    requires size >= 1 && parts != [] && separators != [] && k <= |parts|
  {
    if k == 0 then chunks == [] && current == ""
    else chunks + Pieces(Pack(current, parts[k..], size, separators)) ==
           Pieces(Place(parts[0], parts[1..], size, separators))
  }

  function AndClosed(chunks: seq<string>, current: string): seq<string> {
    if current == "" then chunks else chunks + [current]
  }

  /** What each branch of the loop body leaves due. */
  lemma DueStep(parts: seq<string>, k: nat, chunks: seq<string>, current: string, size: nat, separators: seq<string>)
    requires size >= 1 && separators != [] && separators[0] != "" && k < |parts|
             && Due(parts, k, chunks, current, size, separators)
    ensures var part := parts[k];
            var candidate := if current == "" then part else current + separators[0] + part;
            if |candidate| <= size then Due(parts, k + 1, chunks, candidate, size, separators)
            else if |part| > size then
              Due(parts, k + 1, AndClosed(chunks, current) + Pieces(Split(part, size, separators[1..])), "", size,
                  separators)
            else Due(parts, k + 1, AndClosed(chunks, current), part, size, separators)
  {
    var part, tail := parts[k], parts[k + 1..];
    PlaceStep(part, tail, size, separators);
    var deeper := Pieces(Split(part, size, separators[1..]));
    var after := Pieces(Pack("", tail, size, separators));
    if k > 0 {
      DropStep(parts, k);
      PackStep(current, parts[k..], size, separators);
      if current != "" {
        AppendAssoc(chunks, [current], Pieces(Place(part, tail, size, separators)));
      }
    }
    AppendAssoc(AndClosed(chunks, current), deeper, after);
    assert [] + deeper == deeper;
  }

  lemma AllDone(parts: seq<string>, chunks: seq<string>, current: string, size: nat, separators: seq<string>)
    requires size >= 1 && separators != [] && parts != [] && Due(parts, |parts|, chunks, current, size, separators)
    ensures AndClosed(chunks, current) == Pieces(Place(parts[0], parts[1..], size, separators))
  {
    assert parts[|parts|..] == [];
    assert Pieces(Closed(current)) == if current == "" then [] else [current];
    assert chunks + [] == chunks;
  }

  /** `[text[i : i + size] for i in range(0, len(text), size)]` */
  method CutWindows(text: string, size: nat) returns (chunks: seq<string>)
    requires size >= 1
    ensures chunks == Pieces(Windows(text, size))
  {
    chunks := [];
    var i := 0;
    while i < |text|
      invariant WindowsLeft(text, i, size, chunks)
      decreases |text| - i
    {
      var end := if i + size < |text| then i + size else |text|;
      WindowTaken(text, i, size, chunks);
      chunks := chunks + [text[i..end]];
      i := i + size;
    }
    assert chunks + [] == chunks;
  }

  function From(text: string, i: nat): string {
    if i <= |text| then text[i..] else ""
  }

  /** With `chunks` cut, the windows from `i` on make up the rest. */
  ghost predicate WindowsLeft(text: string, i: int, size: nat, chunks: seq<string>)
    requires size >= 1
  {
    0 <= i && chunks + Pieces(Windows(From(text, i), size)) == Pieces(Windows(text, size))
  }

  /** The window at `i`, and what the windows behind it are. */
  lemma WindowSplit(text: string, i: nat, size: nat)
    requires size >= 1 && i < |text|
    ensures var end := if i + size < |text| then i + size else |text|;
            Pieces(Windows(From(text, i), size)) == [text[i..end]] + Pieces(Windows(From(text, i + size), size))
  {
    var left := text[i..];
    WindowStep(left, size);
    if |left| <= size {
      assert text[i..|text|] == left && From(text, i + size) == "";
      assert Pieces(Windows("", size)) == [] && [left] + [] == [left];
    } else {
      assert text[i..i + size] == left[..size] && From(text, i + size) == left[size..];
    }
  }

  lemma WindowTaken(text: string, i: nat, size: nat, chunks: seq<string>)
    requires size >= 1 && i < |text| && WindowsLeft(text, i, size, chunks)
    ensures var end := if i + size < |text| then i + size else |text|;
            WindowsLeft(text, i + size, size, chunks + [text[i..end]])
  {
    var end := if i + size < |text| then i + size else |text|;
    WindowSplit(text, i, size);
    AppendAssoc(chunks, [text[i..end]], Pieces(Windows(From(text, i + size), size)));
  }

  lemma WindowStep(text: string, size: nat)
    requires size >= 1 && text != ""
    ensures Pieces(Windows(text, size)) ==
              if |text| <= size then [text] else [text[..size]] + Pieces(Windows(text[size..], size))
  {
    if |text| > size {
      assert Windows(text, size)[1..] == Windows(text[size..], size);
    }
  }

  // ---- Chunks with spans ----

  /** The separators are made of these characters only; every other character is text. */
  const MARKS: set<char> := {'\n', '.', ' '}

  /** The chunk made of the `k`-th piece of a document. */
  function Stamp(doc: Document, indexVersion: string, version: string, hash: IdHash, k: nat, text: string, span: Span)
    : Chunk
  {
    Chunk(hash(doc.docId, k, version, indexVersion), doc.docId, k, text, span, doc.acl, indexVersion)
  }

  /** The pieces of a text that is not both blank and small, as a decomposition of the text. */
  lemma DefaultSplit(text: string, size: nat)
    requires size >= 1
    ensures var segs := Split(text, size, SEPARATORS);
            && (|text| <= size && Blank(text) ==> segs == [])
            && (|text| > size || !Blank(text) ==>
                  Flatten(segs) == text && Packed(segs, size, SEPARATORS)
                  && Weight(Concat(Pieces(segs)), MARKS) == Weight(text, MARKS))
  {
    if |text| > size || !Blank(text) {
      SplitLossless(text, size, SEPARATORS);
      PiecesCarryTheWeight(Split(text, size, SEPARATORS), MARKS);
    }
  }

  lemma {:induction false} PieceSizes(segs: seq<Segment>, size: nat, separators: seq<string>)
    requires Packed(segs, size, separators)
    ensures forall p :: p in Pieces(segs) ==> 0 < |p| <= size
  {
    if segs != [] {
      PieceSizes(segs[1..], size, separators);
    }
  }

  /** How far behind the last span the next search starts: `max(end - overlap, end)`. */
  function Skip(overlap: int): nat {
    Max(-overlap, 0)
  }

  /** src/rag/chunking/recursive.py:14-46. `spans` collects the spans of the chunks. */
  method ChunkDocument(doc: Document, indexVersion: string, size: nat, overlap: int, hash: IdHash)
    returns (chunks: seq<Chunk>, ghost spans: seq<Span>)
    requires size >= 1
    ensures var pieces := Pieces(Split(doc.text.GetOr(""), size, SEPARATORS));
            && Located(doc.text.GetOr(""), pieces, spans, 0, Skip(overlap))
            && |chunks| == |pieces|
            && forall k :: 0 <= k < |chunks| ==>
                 chunks[k] == Stamp(doc, indexVersion, VERSION, hash, k, pieces[k], spans[k])
  {
    var text := doc.text.GetOr("");
    if text == "" {
      return [], [];
    }
    var pieces := SplitText(text, size, SEPARATORS);
    chunks, spans := RecoverSpans(doc, text, pieces, indexVersion, overlap, hash);
  }

  /** The recovery loop, src/rag/chunking/recursive.py:26-45. */
  method RecoverSpans(doc: Document, text: string, pieces: seq<string>, indexVersion: string, overlap: int,
                      hash: IdHash)
    returns (chunks: seq<Chunk>, ghost spans: seq<Span>)
    ensures Located(text, pieces, spans, 0, Skip(overlap))
    ensures |chunks| == |pieces|
    ensures forall k :: 0 <= k < |chunks| ==>
              chunks[k] == Stamp(doc, indexVersion, VERSION, hash, k, pieces[k], spans[k])
  {
    chunks, spans := [], [];
    ghost var done := [];
    var cursor: nat := 0;
    for ordinal := 0 to |pieces|
      invariant |chunks| == |spans| == |done| == ordinal
      invariant forall k :: 0 <= k < ordinal ==> done[k] == pieces[k]
      invariant forall k :: 0 <= k < ordinal ==>
                  chunks[k] == Stamp(doc, indexVersion, VERSION, hash, k, pieces[k], spans[k])
      invariant cursor == ResumeAt(spans, 0, Skip(overlap), ordinal)
      invariant Located(text, done, spans, 0, Skip(overlap))
    {
      var piece := pieces[ordinal];
      var start := Find(text, piece, cursor);
      if start < 0 {
        start := cursor;
      }
      var end := start + |piece|;
      LocatedSnoc(text, done, spans, 0, Skip(overlap), piece);
      done, spans := done + [piece], spans + [(start, end)];
      chunks := chunks + [Stamp(doc, indexVersion, VERSION, hash, ordinal, piece, (start, end))];
      cursor := Max(end - overlap, end);
    }
    assert done == pieces;
  }

  /**
   * What the spans are worth. No search fails, so each span is exact; spans are ordered and disjoint;
   * pieces fit; and unless the text is blank and fits in one chunk, every character that no separator
   * contains lies under a span.
   */
  lemma SpanFidelity(text: string, size: nat, spans: seq<Span>)
    requires size >= 1
    requires Located(text, Pieces(Split(text, size, SEPARATORS)), spans, 0, 0)
    ensures var pieces := Pieces(Split(text, size, SEPARATORS));
            && NeverLost(text, pieces, spans, 0, 0)
            && Exact(text, 0, spans, pieces)
            && (forall p :: p in pieces ==> 0 < |p| <= size)
            && if |text| <= size && Blank(text) then pieces == []
               else forall q :: 0 <= q < |text| && text[q] !in MARKS ==> Covered(spans, q)
  {
    DefaultSplit(text, size);
    var segs := Split(text, size, SEPARATORS);
    if |text| > size || !Blank(text) {
      PieceSizes(segs, size, SEPARATORS);
      assert text[0..] == text;
      LocatedExact(text, segs, Pieces(segs), spans, 0, 0);
      ExactCovers(text, 0, spans, Pieces(segs), MARKS);
    }
  }

  /** With this overlap the recovery finds every piece of the text, where it lies. */
  ghost predicate Recovers(text: string, size: nat, overlap: int)
    requires size >= 1
  {
    var pieces := Pieces(Split(text, size, SEPARATORS));
    forall spans :: Located(text, pieces, spans, 0, Skip(overlap)) ==>
      NeverLost(text, pieces, spans, 0, Skip(overlap)) && Exact(text, 0, spans, pieces)
  }

  /** No text loses a piece exactly when the overlap is not negative: a positive one is ignored. */
  lemma RecoveryExactly(size: nat, overlap: int)
    requires size >= 1
    ensures (forall text :: Recovers(text, size, overlap)) <==> overlap >= 0
  {
    if overlap >= 0 {
      forall text ensures Recovers(text, size, overlap) {
        AllFound(text, size, overlap);
      }
    } else {
      TabsAreLost(size, overlap);
    }
  }

  lemma AllFound(text: string, size: nat, overlap: int)
    requires size >= 1 && overlap >= 0
    ensures Recovers(text, size, overlap)
  {
    var pieces := Pieces(Split(text, size, SEPARATORS));
    forall spans | Located(text, pieces, spans, 0, Skip(overlap))
      ensures NeverLost(text, pieces, spans, 0, Skip(overlap)) && Exact(text, 0, spans, pieces)
    {
      SpanFidelity(text, size, spans);
    }
  }

  function Tabs(n: nat): string {
    seq(n, i => '\t')
  }

  /** One tab more than fits: the search for the second piece starts behind it. */
  lemma TabsAreLost(size: nat, overlap: int)
    requires size >= 1 && overlap < 0
    ensures Blank(Tabs(size + 1)) && !Recovers(Tabs(size + 1), size, overlap)
  {
    TabsInTwo(size);
    SearchTabs(size, Skip(overlap));
    var spans := SecondLost(Tabs(size + 1), Tabs(size), Tabs(1), Skip(overlap));
  }

  /** Recovery of two pieces when the second search leads out of the text. */
  lemma SecondLost(text: string, first: string, second: string, skip: nat) returns (spans: seq<Span>)
    requires Search(text, first, 0) == (0, |first|)
    requires Search(text, second, |first| + skip).1 > |text|
    ensures Located(text, [first, second], spans, 0, skip) && !Exact(text, 0, spans, [first, second])
  {
    spans := [(0, |first|), Search(text, second, |first| + skip)];
    assert FoundBySearch(text, [first, second], spans, 0, skip, 0);
    assert FoundBySearch(text, [first, second], spans, 0, skip, 1);
    assert spans[1].1 > |text|;
  }

  lemma SearchTabs(size: nat, skip: nat)
    requires size >= 1 && skip > 0
    ensures Search(Tabs(size + 1), Tabs(size), 0) == (0, size)
    ensures Search(Tabs(size + 1), Tabs(1), size + skip).1 > size + 1
  {
    assert Tabs(size + 1)[0..size] == Tabs(size);
  }

  lemma TabsInTwo(size: nat)
    requires size >= 1
    ensures Pieces(Split(Tabs(size + 1), size, SEPARATORS)) == [Tabs(size), Tabs(1)]
  {
    var text := Tabs(size + 1);
    forall s | s in SEPARATORS && s != "" ensures Find(text, s, 0) == -1 {
      NotInTabs(size + 1, s);
    }
    Uncut(text, size, SEPARATORS);
    WindowStep(text, size);
    WindowStep(text[size..], size);
    assert text[..size] == Tabs(size) && text[size..] == Tabs(1);
  }

  lemma CharsOf(text: string, sub: string, i: nat)
    requires OccursAt(text, sub, i) && sub != ""
    ensures sub[0] == text[i]
  {
    assert text[i..i + |sub|][0] == text[i];
  }

  lemma NotInTabs(n: nat, sep: string)
    requires sep in SEPARATORS && sep != ""
    ensures Find(Tabs(n), sep, 0) == -1
  {
    FindIsEarliest(Tabs(n), sep, 0);
    var i := Find(Tabs(n), sep, 0);
    if i != -1 {
      CharsOf(Tabs(n), sep, i);
    }
  }

  /** A long text that holds none of the separators is cut into windows. */
  lemma {:induction false} Uncut(text: string, size: nat, separators: seq<string>)
    requires size >= 1 && |text| > size
    requires forall s :: s in separators && s != "" ==> Find(text, s, 0) == -1
    ensures Split(text, size, separators) == Windows(text, size)
    decreases |separators|
  {
    if separators != [] && separators[0] != "" {
      assert SplitOn(text, separators[0]) == [text] && [text][1..] == [];
      Uncut(text, size, separators[1..]);
      assert Split(text, size, separators[1..]) + Pack("", [], size, separators) == Split(text, size, separators[1..]);
    }
  }
}
