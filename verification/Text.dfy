/** The string primitives the chunkers call: `find`, `split`, `strip`, and concatenation. */
module Text {

  /** Python's `str.isspace`, code point by code point. */
  predicate IsSpace(c: char) {
    || '\t' <= c <= '\r'
    || '\U{1C}' <= c <= ' '
    || c in {'\U{85}', '\U{A0}', '\U{1680}', '\U{2028}', '\U{2029}', '\U{202F}', '\U{205F}', '\U{3000}'}
    || '\U{2000}' <= c <= '\U{200A}'
  }

  /** `not s.strip()` */
  predicate Blank(s: string) {
    forall i :: 0 <= i < |s| ==> IsSpace(s[i])
  }

  function LStrip(s: string): string {
    if s != "" && IsSpace(s[0]) then LStrip(s[1..]) else s
  }

  function RStrip(s: string): string {
    if s != "" && IsSpace(s[|s| - 1]) then RStrip(s[..|s| - 1]) else s
  }

  /** `s.strip()` */
  function Strip(s: string): string {
    RStrip(LStrip(s))
  }

  /** Stripping twice is stripping once, and it leaves nothing exactly when there is nothing but whitespace. */
  lemma StripIdempotent(s: string)
    ensures Strip(Strip(s)) == Strip(s)
    ensures Strip(s) == "" <==> Blank(s)
  {
    LStripEdges(s);
    RStripEdges(LStrip(s));
  }

  lemma {:induction false} LStripEdges(s: string)
    ensures var r := LStrip(s); (r != "" ==> !IsSpace(r[0])) && (r == "" <==> Blank(s))
  {
    if s != "" && IsSpace(s[0]) {
      LStripEdges(s[1..]);
      assert s == [s[0]] + s[1..];
    }
  }

  lemma {:induction false} RStripEdges(s: string)
    requires s != "" ==> !IsSpace(s[0])
    ensures var r := RStrip(s); r != "" ==> !IsSpace(r[0]) && !IsSpace(r[|r| - 1])
    ensures RStrip(s) == "" <==> s == ""
  {
    if s != "" && IsSpace(s[|s| - 1]) {
      assert |s| > 1;
      RStripEdges(s[..|s| - 1]);
    }
  }

  predicate OccursAt(text: string, sub: string, i: nat) {
    i + |sub| <= |text| && text[i..i + |sub|] == sub
  }

  /** `text.find(sub, from)`: the first place at or after `from` where `sub` occurs, or -1. */
  function Find(text: string, sub: string, from: nat): (r: int)
    ensures r == -1 || (from <= r && r + |sub| <= |text|)
    decreases |text| - from
  {
    if from + |sub| > |text| then -1
    else if OccursAt(text, sub, from) then from
    else Find(text, sub, from + 1)
  }

  lemma {:induction false} FindIsEarliest(text: string, sub: string, from: nat)
    ensures var r := Find(text, sub, from);
            if r == -1 then forall i: nat :: from <= i ==> !OccursAt(text, sub, i)
            else OccursAt(text, sub, r) && forall i: nat :: from <= i < r ==> !OccursAt(text, sub, i)
    decreases |text| - from
  {
    if from + |sub| <= |text| && !OccursAt(text, sub, from) {
      FindIsEarliest(text, sub, from + 1);
    }
  }

  /** `text.split(sep)` for a nonempty separator: cut at the leftmost occurrence, repeatedly. */
  function SplitOn(text: string, sep: string): (parts: seq<string>)
    requires sep != ""
    ensures |parts| >= 1
    decreases |text|
  {
    var i := Find(text, sep, 0);
    if i == -1 then [text]
    else [text[..i]] + SplitOn(text[i + |sep|..], sep)
  }

  /** What follows the first part when `sep` is put back between parts. */
  function JoinTail(sep: string, parts: seq<string>): string {
    if parts == [] then "" else sep + parts[0] + JoinTail(sep, parts[1..])
  }

  ghost predicate Free(part: string, sep: string) {
    forall i: nat :: !OccursAt(part, sep, i)
  }

  /** Splitting loses nothing, and no part still contains the separator. */
  lemma {:induction false} SplitThenJoin(text: string, sep: string)
    requires sep != ""
    ensures var parts := SplitOn(text, sep); parts[0] + JoinTail(sep, parts[1..]) == text
    ensures forall k :: 0 <= k < |SplitOn(text, sep)| ==> Free(SplitOn(text, sep)[k], sep)
    decreases |text|
  {
    var parts := SplitOn(text, sep);
    var i := Find(text, sep, 0);
    FindIsEarliest(text, sep, 0);
    if i == -1 {
      assert parts == [text] && parts[1..] == [];
      assert Free(text, sep);
    } else {
      var rest := text[i + |sep|..];
      SplitThenJoin(rest, sep);
      HeadIsFree(text, sep, i);
      var tail := SplitOn(rest, sep);
      assert parts[1..] == tail;
      calc {
        parts[0] + JoinTail(sep, tail);
        text[..i] + (sep + tail[0] + JoinTail(sep, tail[1..]));
        { assert sep + tail[0] + JoinTail(sep, tail[1..]) == sep + (tail[0] + JoinTail(sep, tail[1..])); }
        text[..i] + (sep + rest);
        text;
      }
    }
  }

  lemma HeadIsFree(text: string, sep: string, i: nat)
    requires sep != "" && Find(text, sep, 0) == i
    ensures i + |sep| <= |text| && Free(text[..i], sep)
  {
    FindIsEarliest(text, sep, 0);
    forall k: nat ensures !OccursAt(text[..i], sep, k) {
      if OccursAt(text[..i], sep, k) {
        assert text[..i][k..k + |sep|] == text[k..k + |sep|];
        assert OccursAt(text, sep, k);
      }
    }
  }

  /** `"".join(pieces)` */
  function Concat(pieces: seq<string>): string {
    if pieces == [] then "" else pieces[0] + Concat(pieces[1..])
  }

  /** How many characters of `s` lie outside `marks`. */
  function Weight(s: string, marks: set<char>): nat {
    if s == "" then 0 else (if s[0] in marks then 0 else 1) + Weight(s[1..], marks)
  }

  lemma {:induction false} WeightConcat(a: string, b: string, marks: set<char>)
    ensures Weight(a + b, marks) == Weight(a, marks) + Weight(b, marks)
  {
    if a == "" {
      assert a + b == b;
    } else {
      assert (a + b)[1..] == a[1..] + b;
      WeightConcat(a[1..], b, marks);
    }
  }

  lemma {:induction false} WeightPositive(s: string, q: nat, marks: set<char>)
    requires q < |s| && s[q] !in marks
    ensures Weight(s, marks) > 0
  {
    if q > 0 {
      WeightPositive(s[1..], q - 1, marks);
    }
  }

  lemma {:induction false} WeightZero(s: string, marks: set<char>)
    requires forall c :: c in s ==> c in marks
    ensures Weight(s, marks) == 0
  {
    if s != "" {
      WeightZero(s[1..], marks);
    }
  }

  function Max(a: int, b: int): (r: int)
    ensures r >= a && r >= b && (r == a || r == b)
  {
    if a < b then b else a
  }
}
