/**
 * src/rag/agent/evidence.py: the sources of one agent turn, one per ref, and their rendering into a prompt. How a
 * header line and a number are printed is an arbitrary function.
 */
module Evidence {
  import opened Schemas
  import opened Collections
  import opened Citations
  import Text

  type Ledger = Dict<string, Source>

  // ---- Merging ----

  /** One source merged: a new ref is added, a better score replaces what was there. */
  function Merge(d: Ledger, s: Source): Ledger {
    if s.ref !in d.at || s.score > d.at[s.ref].score then Put(d, s.ref, s) else d
  }

  function MergeAll(d: Ledger, sources: seq<Source>): Ledger {
    if sources == [] then d
    else Merge(MergeAll(d, sources[..|sources| - 1]), sources[|sources| - 1])
  }

  /** The sources whose ref was not known, in order. */
  function News(d: Ledger, sources: seq<Source>): seq<Source> {
    if sources == [] then []
    else
      var last := sources[|sources| - 1];
      News(d, sources[..|sources| - 1]) + if last.ref in MergeAll(d, sources[..|sources| - 1]).at then [] else [last]
  }

  lemma MergeSnoc(d: Ledger, sources: seq<Source>, s: Source)
    ensures MergeAll(d, sources + [s]) == Merge(MergeAll(d, sources), s)
    ensures News(d, sources + [s]) == News(d, sources) + if s.ref in MergeAll(d, sources).at then [] else [s]
  {
    assert (sources + [s])[..|sources|] == sources;
  }

  lemma {:induction false} MergeConcat(d: Ledger, a: seq<Source>, b: seq<Source>)
    ensures MergeAll(d, a + b) == MergeAll(MergeAll(d, a), b)
  {
    if b == [] {
      assert a + b == a;
    } else {
      MergeConcat(d, a, b[..|b| - 1]);
      LastOfConcat(a, b);
    }
  }

  lemma LastOfConcat<T>(a: seq<T>, b: seq<T>)
    requires b != []
    ensures (a + b)[..|a + b| - 1] == a + b[..|b| - 1] && (a + b)[|a + b| - 1] == b[|b| - 1]
  {
  }

  /** Two batches are one: what is new in the second is what the first did not bring. */
  lemma {:induction false} NewsConcat(d: Ledger, a: seq<Source>, b: seq<Source>)
    ensures News(d, a + b) == News(d, a) + News(MergeAll(d, a), b)
  {
    if b == [] {
      assert a + b == a;
    } else {
      var init, last := b[..|b| - 1], b[|b| - 1];
      NewsConcat(d, a, init);
      LastOfConcat(a, b);
      MergeConcat(d, a, init);
      AppendAssoc(News(d, a), News(MergeAll(d, a), init), if last.ref in MergeAll(d, a + init).at then [] else [last]);
    }
  }

  /** `history[i]` is the first of the best observations of its ref. */
  ghost predicate FirstBest(history: seq<Source>, i: nat)
    requires i < |history|
  {
    && (forall j :: 0 <= j < |history| && history[j].ref == history[i].ref ==> history[j].score <= history[i].score)
    && (forall j :: 0 <= j < i && history[j].ref == history[i].ref ==> history[j].score < history[i].score)
  }

  ghost predicate HoldsBest(d: Ledger, history: seq<Source>, ref: string) {
    && ref in d.at
    && exists i :: 0 <= i < |history| && history[i] == d.at[ref] && history[i].ref == ref && FirstBest(history, i)
  }

  /** The invariant of a ledger: each ref seen, and no other, holds the first of its best observations. */
  ghost predicate Holds(d: Ledger, history: seq<Source>) {
    && (forall ref <- d.at :: HoldsBest(d, history, ref))
    && (forall s <- history :: s.ref in d.at)
  }

  lemma BestStays(history: seq<Source>, s: Source, i: nat)
    requires i < |history| && FirstBest(history, i) && (s.ref == history[i].ref ==> s.score <= history[i].score)
    ensures FirstBest(history + [s], i)
  {
  }

  /** An entry that the merge leaves alone still holds the first best. */
  lemma KeptHolds(d: Ledger, history: seq<Source>, s: Source, ref: string)
    requires HoldsBest(d, history, ref) && (ref == s.ref ==> s.score <= d.at[ref].score)
    ensures HoldsBest(Merge(d, s), history + [s], ref)
  {
    var i :| 0 <= i < |history| && history[i] == d.at[ref] && history[i].ref == ref && FirstBest(history, i);
    BestStays(history, s, i);
    assert (history + [s])[i] == Merge(d, s).at[ref];
  }

  lemma BestIs(d: Ledger, history: seq<Source>, ref: string, j: nat)
    requires HoldsBest(d, history, ref) && j < |history| && history[j].ref == ref
    ensures history[j].score <= d.at[ref].score
  {
  }

  /** A source that nothing seen for its ref reaches is the first best. */
  lemma NewHolds(d: Ledger, history: seq<Source>, s: Source)
    requires forall j :: 0 <= j < |history| && history[j].ref == s.ref ==> history[j].score < s.score
    requires s.ref in Merge(d, s).at && Merge(d, s).at[s.ref] == s
    ensures HoldsBest(Merge(d, s), history + [s], s.ref)
  {
    assert (history + [s])[|history|] == s && FirstBest(history + [s], |history|);
  }

  lemma MergedHolds(d: Ledger, history: seq<Source>, s: Source, ref: string)
    requires Holds(d, history) && ref in Merge(d, s).at
    ensures HoldsBest(Merge(d, s), history + [s], ref)
  {
    if ref in d.at && (ref == s.ref ==> s.score <= d.at[ref].score) {
      KeptHolds(d, history, s, ref);
    } else {
      forall j | 0 <= j < |history| && history[j].ref == s.ref
        ensures history[j].score < s.score
      {
        assert history[j] in history;
        BestIs(d, history, s.ref, j);
      }
      NewHolds(d, history, s);
    }
  }

  lemma MergeHolds(d: Ledger, history: seq<Source>, s: Source)
    requires Holds(d, history)
    ensures Holds(Merge(d, s), history + [s])
  {
    forall ref | ref in Merge(d, s).at
      ensures HoldsBest(Merge(d, s), history + [s], ref)
    {
      MergedHolds(d, history, s, ref);
    }
  }

  /** After any sequence of sources, however batched. */
  lemma {:induction false} LedgerHolds(history: seq<Source>)
    ensures Holds(MergeAll(Empty(), history), history)
  {
    if history != [] {
      var init, last := history[..|history| - 1], history[|history| - 1];
      LedgerHolds(init);
      MergeHolds(MergeAll(Empty(), init), init, last);
      SplitLast(history);
    }
  }

  lemma SplitLast<T>(s: seq<T>)
    requires s != []
    ensures s == s[..|s| - 1] + [s[|s| - 1]]
  {
  }

  function Refs(sources: seq<Source>): (r: seq<string>)
    ensures |r| == |sources|
  {
    seq(|sources|, i requires 0 <= i < |sources| => sources[i].ref)
  }

  lemma {:induction false} NewsAreKeys(d: Ledger, history: seq<Source>)
    ensures MergeAll(d, history).keys == d.keys + Refs(News(d, history))
  {
    if history == [] {
      assert d.keys + Refs([]) == d.keys;
    } else {
      var init, last := history[..|history| - 1], history[|history| - 1];
      NewsAreKeys(d, init);
      MergeKeys(MergeAll(d, init), last);
      RefsSnoc(d.keys, News(d, init), last);
      assert News(d, init) + [] == News(d, init);
    }
  }

  lemma MergeKeys(d: Ledger, s: Source)
    ensures Merge(d, s).keys == if s.ref in d.at then d.keys else d.keys + [s.ref]
  {
  }

  lemma RefsSnoc(keys: seq<string>, news: seq<Source>, s: Source)
    ensures keys + Refs(news + [s]) == (keys + Refs(news)) + [s.ref]
  {
  }

  /** Each ref is reported as new exactly once: the reports are the keys, in order, and keys are distinct. */
  lemma NewOnce(d: Ledger, history: seq<Source>)
    ensures MergeAll(d, history).keys == d.keys + Refs(News(d, history))
    ensures Distinct(d.keys + Refs(News(d, history)))
  {
    NewsAreKeys(d, history);
    KeysDistinct(MergeAll(d, history));
  }

  /** Adding again what was already seen, in any order and number, changes nothing and reports nothing. */
  lemma {:induction false} SeenAgain(history: seq<Source>, again: seq<Source>)
    requires forall s <- again :: s in history
    ensures MergeAll(MergeAll(Empty(), history), again) == MergeAll(Empty(), history)
    ensures News(MergeAll(Empty(), history), again) == []
  {
    if again != [] {
      var init, last := again[..|again| - 1], again[|again| - 1];
      SeenAgain(history, init);
      LedgerHolds(history);
      var d := MergeAll(Empty(), history);
      assert last in history;
      assert HoldsBest(d, history, last.ref);
      assert last.score <= d.at[last.ref].score;
    }
  }

  // ---- Listing ----

  function Values(d: Ledger, n: nat): seq<Scored<Source>>
    requires n <= |d.keys|
  {
    if n == 0 then []
    else KeyAt(d, n - 1); var s := d.at[d.keys[n - 1]]; Values(d, n - 1) + [Scored(s.score, s)]
  }

  function Items(sorted: seq<Scored<Source>>): (r: seq<Source>)
    ensures |r| == |sorted|
  {
    seq(|sorted|, i requires 0 <= i < |sorted| => sorted[i].item)
  }

  /** `sorted(values, key=score, reverse=True)` */
  function Sources(d: Ledger): seq<Source> {
    Items(SortDesc(Values(d, |d.keys|)))
  }

  lemma {:induction false} ValuesMembers(d: Ledger, n: nat, x: Scored<Source>)
    requires n <= |d.keys|
    ensures x in Values(d, n) <==>
              exists i :: 0 <= i < n && d.keys[i] in d.at && x == Scored(d.at[d.keys[i]].score, d.at[d.keys[i]])
  {
    if n > 0 {
      KeyAt(d, n - 1);
      ValuesMembers(d, n - 1, x);
    }
  }

  lemma SourcesDescend(d: Ledger, i: nat, j: nat)
    requires i < j < |Sources(d)|
    ensures Sources(d)[i].score >= Sources(d)[j].score
  {
    var values := Values(d, |d.keys|);
    var sorted := SortDesc(values);
    SortOrders(values);
    SortKeeps(values, sorted[i]);
    SortKeeps(values, sorted[j]);
    ValuesMembers(d, |d.keys|, sorted[i]);
    ValuesMembers(d, |d.keys|, sorted[j]);
  }

  /** The listing is the ledger's values, strongest first. */
  lemma SourcesExactly(d: Ledger)
    ensures forall s :: s in Sources(d) <==> exists ref :: ref in d.at && d.at[ref] == s
    ensures forall i, j :: 0 <= i < j < |Sources(d)| ==> Sources(d)[i].score >= Sources(d)[j].score
    ensures |Sources(d)| == |d.keys|
  {
    ValuesSize(d, |d.keys|);
    forall i, j | 0 <= i < j < |Sources(d)|
      ensures Sources(d)[i].score >= Sources(d)[j].score
    {
      SourcesDescend(d, i, j);
    }
    forall s
      ensures s in Sources(d) <==> exists ref :: ref in d.at && d.at[ref] == s
    {
      ListedOrNot(d, s);
    }
  }

  lemma {:induction false} ValuesSize(d: Ledger, n: nat)
    requires n <= |d.keys|
    ensures |Values(d, n)| == n
  {
    if n > 0 {
      ValuesSize(d, n - 1);
    }
  }

  lemma ListedOrNot(d: Ledger, s: Source)
    ensures s in Sources(d) <==> exists ref :: ref in d.at && d.at[ref] == s
  {
    var values := Values(d, |d.keys|);
    var sorted := SortDesc(values);
    if s in Sources(d) {
      var k :| 0 <= k < |sorted| && sorted[k].item == s;
      SortKeeps(values, sorted[k]);
      ValuesMembers(d, |d.keys|, sorted[k]);
      var i :| 0 <= i < |d.keys| && d.keys[i] in d.at && d.at[d.keys[i]] == s;
      assert d.at[d.keys[i]] == s;
    }
    if ref :| ref in d.at && d.at[ref] == s {
      KeyListed(d, ref);
      var i :| 0 <= i < |d.keys| && d.keys[i] == ref;
      var x := Scored(s.score, s);
      ValuesMembers(d, |d.keys|, x);
      SortKeeps(values, x);
      var k :| 0 <= k < |sorted| && sorted[k] == x;
      assert Sources(d)[k] == s;
    }
  }

  class EvidenceLedger {
    var byRef: Ledger

    constructor ()
      ensures byRef == Empty()
    {
      byRef := Empty();
    }

    /** src/rag/agent/evidence.py:37-51 */
    method Add(sources: seq<Source>) returns (added: seq<Source>)
      modifies this
      ensures byRef == MergeAll(old(byRef), sources)
      ensures added == News(old(byRef), sources)
    {
      added := [];
      for i := 0 to |sources|
        invariant byRef == MergeAll(old(byRef), sources[..i])
        invariant added == News(old(byRef), sources[..i])
      {
        var source := sources[i];
        TakeSnoc(sources, i);
        MergeSnoc(old(byRef), sources[..i], source);
        if source.ref !in byRef.at {
          byRef := Put(byRef, source.ref, source);
          added := added + [source];
        } else if source.score > byRef.at[source.ref].score {
          byRef := Put(byRef, source.ref, source);
        }
      }
      TakeAll(sources, |sources|);
    }
  }

  // ---- Rendering ----

  const MIN_QUOTE_CHARS := 120

  datatype Render = Render(header: Source -> string, decimal: nat -> string, maxChars: int, maxQuoteChars: int)

  function Note(r: Render, omitted: nat): string {
    "(" + r.decimal(omitted) + " weaker source(s) omitted to stay within the prompt budget)"
  }

  function Left(r: Render, s: Source, used: int): int {
    r.maxChars - used - |r.header(s)| - 1
  }

  function Entry(r: Render, s: Source, left: int): string {
    r.header(s) + "\n" + PyTake(s.quote, if r.maxQuoteChars < left then r.maxQuoteChars else left)
  }

  predicate Omits(r: Render, s: Source, index: nat, used: int) {
    Left(r, s, used) < MIN_QUOTE_CHARS && index > 0
  }

  /** Characters used once the source is shown; two more for the separator. */
  function Spent(r: Render, s: Source, used: int): int {
    used + |Entry(r, s, Left(r, s, used))| + 2
  }

  /** The parts from source `index` on, `used` characters having gone to those before. */
  function Parts(r: Render, sources: seq<Source>, index: nat, used: int): seq<string>
    requires index <= |sources|
    decreases |sources| - index
  {
    if index == |sources| then []
    else
      var s := sources[index];
      if Omits(r, s, index, used) then [Note(r, |sources| - index)]
      else
        [Entry(r, s, Left(r, s, used))] + Parts(r, sources, index + 1, Spent(r, s, used))
  }

  /** How many sources are shown, from `index` on. */
  function Shown(r: Render, sources: seq<Source>, index: nat, used: int): (n: nat)
    requires index <= |sources|
    ensures index + n <= |sources|
    decreases |sources| - index
  {
    if index == |sources| || Omits(r, sources[index], index, used) then 0
    else 1 + Shown(r, sources, index + 1, Spent(r, sources[index], used))
  }

  /** `"\n\n".join(parts)` */
  function Joined(parts: seq<string>): string {
    if parts == [] then "" else parts[0] + Text.JoinTail("\n\n", parts[1..])
  }

  function Rendered(r: Render, sources: seq<Source>): string {
    if sources == [] then "(none)" else Joined(Parts(r, sources, 0, 0))
  }

  /** src/rag/agent/evidence.py:69-100 */
  method RenderSources(r: Render, sources: seq<Source>) returns (text: string)
    ensures text == Rendered(r, sources)
  {
    if sources == [] {
      return "(none)";
    }
    var parts := CollectParts(r, sources);
    text := Joined(parts);
  }

  /** The loop, src/rag/agent/evidence.py:84-99; it ends early at the first source that does not fit. */
  method CollectParts(r: Render, sources: seq<Source>) returns (parts: seq<string>)
    ensures parts == Parts(r, sources, 0, 0)
  {
    parts := [];
    var used, index := 0, 0;
    ghost var all := Parts(r, sources, index, used);
    assert parts + all == all;
    while index < |sources|
      invariant 0 <= index <= |sources|
      invariant PartsSoFar(r, sources, index, used, parts, all)
    {
      var s := sources[index];
      if Omits(r, s, index, used) {
        PartsEnd(r, sources, index, used, parts, all);
        return parts + [Note(r, |sources| - index)];
      }
      var entry := Entry(r, s, Left(r, s, used));
      PartsMore(r, sources, index, used, parts, all, entry);
      parts := parts + [entry];
      used := used + |entry| + 2;
      index := index + 1;
    }
    AllParts(r, sources, used, parts, all);
  }

  ghost predicate PartsSoFar(r: Render, sources: seq<Source>, index: nat, used: int, parts: seq<string>,
                             all: seq<string>)
    requires index <= |sources|
  {
    parts + Parts(r, sources, index, used) == all
  }

  lemma AllParts(r: Render, sources: seq<Source>, used: int, parts: seq<string>, all: seq<string>)
    requires PartsSoFar(r, sources, |sources|, used, parts, all)
    ensures parts == all
  {
    assert parts + [] == parts;
  }

  lemma PartsEnd(r: Render, sources: seq<Source>, index: nat, used: int, parts: seq<string>, all: seq<string>)
    requires index < |sources| && PartsSoFar(r, sources, index, used, parts, all)
    requires Omits(r, sources[index], index, used)
    ensures parts + [Note(r, |sources| - index)] == all
  {
  }

  lemma PartsMore(r: Render, sources: seq<Source>, index: nat, used: int, parts: seq<string>, all: seq<string>,
                  entry: string)
    requires index < |sources| && PartsSoFar(r, sources, index, used, parts, all)
    requires !Omits(r, sources[index], index, used) && entry == Entry(r, sources[index], Left(r, sources[index], used))
    ensures PartsSoFar(r, sources, index + 1, used + |entry| + 2, parts + [entry], all)
  {
    AppendAssoc(parts, [entry], Parts(r, sources, index + 1, Spent(r, sources[index], used)));
  }

  /** The part shows the source: its header line, and its quote from the start. */
  predicate Shows(r: Render, part: string, s: Source) {
    var line := r.header(s) + "\n";
    line <= part && part[|line|..] <= s.quote
  }

  /** Part `k` shows source `index + k`. */
  ghost predicate ShownAt(r: Render, sources: seq<Source>, index: nat, parts: seq<string>, k: nat) {
    k < |parts| && index + k < |sources| && Shows(r, parts[k], sources[index + k])
  }

  lemma {:induction false} EachShown(r: Render, sources: seq<Source>, index: nat, used: int, k: nat)
    requires index <= |sources| && k < Shown(r, sources, index, used)
    ensures ShownAt(r, sources, index, Parts(r, sources, index, used), k)
    decreases |sources| - index
  {
    var s := sources[index];
    var rest := Parts(r, sources, index + 1, Spent(r, s, used));
    if k == 0 {
      EntryShows(r, s, Left(r, s, used));
    } else {
      EachShown(r, sources, index + 1, Spent(r, s, used), k - 1);
      assert Parts(r, sources, index, used)[k] == rest[k - 1];
    }
  }

  lemma {:induction false} PartsCounted(r: Render, sources: seq<Source>, index: nat, used: int)
    requires index <= |sources|
    ensures var parts, shown := Parts(r, sources, index, used), Shown(r, sources, index, used);
            && |parts| == shown + (if index + shown < |sources| then 1 else 0)
            && (index + shown < |sources| ==> parts[shown] == Note(r, |sources| - (index + shown)))
    decreases |sources| - index
  {
    if index < |sources| && !Omits(r, sources[index], index, used) {
      PartsCounted(r, sources, index + 1, Spent(r, sources[index], used));
    }
  }

  /** What is shown is a prefix, strongest first; the rest is counted, so shown and omitted make up the total. */
  lemma ShowsPrefix(r: Render, sources: seq<Source>)
    ensures var parts, shown := Parts(r, sources, 0, 0), Shown(r, sources, 0, 0);
            && |parts| == shown + (if shown < |sources| then 1 else 0)
            && (forall k :: 0 <= k < shown ==> Shows(r, parts[k], sources[k]))
            && (shown < |sources| ==> parts[shown] == Note(r, |sources| - shown))
            && (sources != [] ==> shown > 0)
  {
    PartsCounted(r, sources, 0, 0);
    forall k | 0 <= k < Shown(r, sources, 0, 0)
      ensures Shows(r, Parts(r, sources, 0, 0)[k], sources[k])
    {
      EachShown(r, sources, 0, 0, k);
    }
  }

  lemma EntryShows(r: Render, s: Source, left: int)
    ensures Shows(r, Entry(r, s, left), s)
  {
    var line, quote := r.header(s) + "\n", PyTake(s.quote, if r.maxQuoteChars < left then r.maxQuoteChars else left);
    assert Entry(r, s, left) == line + quote;
    assert (line + quote)[|line|..] == quote;
  }

  /** Characters of the parts, two more for each. */
  function Size(parts: seq<string>): nat {
    if parts == [] then 0 else |parts[0]| + 2 + Size(parts[1..])
  }

  lemma {:induction false} TailSize(parts: seq<string>)
    ensures |Text.JoinTail("\n\n", parts)| == Size(parts)
  {
    if parts != [] {
      TailSize(parts[1..]);
    }
  }

  lemma JoinedSize(parts: seq<string>)
    requires parts != []
    ensures |Joined(parts)| == Size(parts) - 2
  {
    TailSize(parts[1..]);
  }

  lemma SpentFits(r: Render, s: Source, used: int)
    requires 0 <= r.maxQuoteChars && Left(r, s, used) >= 0
    ensures Spent(r, s, used) <= r.maxChars + 2
  {
  }

  lemma SizeCons(part: string, rest: seq<string>)
    ensures Size([part] + rest) == |part| + 2 + Size(rest)
  {
    assert ([part] + rest)[1..] == rest;
  }

  /** The note that ends the parts, when something is left out. */
  function NoteSize(r: Render, omitted: nat): nat {
    if omitted > 0 then 2 + |Note(r, omitted)| else 0
  }

  lemma PartsOmitted(r: Render, sources: seq<Source>, index: nat, used: int)
    requires index < |sources| && Omits(r, sources[index], index, used)
    ensures Shown(r, sources, index, used) == 0
    ensures Size(Parts(r, sources, index, used)) == NoteSize(r, |sources| - index)
  {
    var note := Note(r, |sources| - index);
    SizeCons(note, []);
    assert [note] + [] == [note];
  }

  lemma PartsEntered(r: Render, sources: seq<Source>, index: nat, used: int)
    requires index < |sources| && !Omits(r, sources[index], index, used)
    ensures var next := Spent(r, sources[index], used);
            && Shown(r, sources, index, used) == 1 + Shown(r, sources, index + 1, next)
            && used + Size(Parts(r, sources, index, used)) == next + Size(Parts(r, sources, index + 1, next))
  {
    var s := sources[index];
    SizeCons(Entry(r, s, Left(r, s, used)), Parts(r, sources, index + 1, Spent(r, s, used)));
  }

  /** Once within the budget, later entries stay within it, and only the note comes on top. */
  lemma {:induction false} PartsFit(r: Render, sources: seq<Source>, index: nat, used: int)
    requires index <= |sources| && 0 <= r.maxQuoteChars && used <= r.maxChars + 2
    requires index == 0 ==> index < |sources| && Left(r, sources[index], used) >= 0
    ensures used + Size(Parts(r, sources, index, used)) <=
              r.maxChars + 2 + NoteSize(r, |sources| - (index + Shown(r, sources, index, used)))
    decreases |sources| - index
  {
    if index == |sources| {
    } else if Omits(r, sources[index], index, used) {
      PartsOmitted(r, sources, index, used);
    } else {
      SpentFits(r, sources[index], used);
      PartsFit(r, sources, index + 1, Spent(r, sources[index], used));
      PartsEntered(r, sources, index, used);
    }
  }

  /** What the text may take: the budget, and the note with its separator when something is left out. */
  function Allowance(r: Render, sources: seq<Source>): int {
    r.maxChars + NoteSize(r, |sources| - Shown(r, sources, 0, 0))
  }

  /** The text keeps to its allowance exactly when the strongest source's header line fits the budget. */
  lemma RenderBound(r: Render, sources: seq<Source>)
    requires sources != [] && 0 <= r.maxQuoteChars
    ensures |Rendered(r, sources)| <= Allowance(r, sources) <==> |r.header(sources[0])| + 1 <= r.maxChars
  {
    var parts := Parts(r, sources, 0, 0);
    JoinedSize(parts);
    if |r.header(sources[0])| + 1 <= r.maxChars {
      PartsFit(r, sources, 0, 0);
    } else {
      var entry := Entry(r, sources[0], Left(r, sources[0], 0));
      var rest := Parts(r, sources, 1, Spent(r, sources[0], 0));
      assert parts[1..] == rest;
      assert |entry| > r.maxChars;
      if |sources| > 1 {
        assert Omits(r, sources[1], 1, Spent(r, sources[0], 0));
        assert rest == [Note(r, |sources| - 1)];
        assert rest[1..] == [];
      }
    }
  }

  // ---- What decides how much is shown ----

  /** The room for a quote once these parts are there and the source's header line. */
  function Room(r: Render, parts: seq<string>, s: Source): int {
    r.maxChars - Size(parts) - |r.header(s)| - 1
  }

  lemma SizeSnoc(parts: seq<string>, part: string)
    ensures Size(parts + [part]) == Size(parts) + |part| + 2
  {
    SizeConcat(parts, [part]);
    assert [part][1..] == [];
  }

  lemma {:induction false} SizeConcat(a: seq<string>, b: seq<string>)
    ensures Size(a + b) == Size(a) + Size(b)
  {
    if a == [] {
      assert a + b == b;
    } else {
      assert (a + b)[1..] == a[1..] + b;
      SizeConcat(a[1..], b);
    }
  }

  /** Part `k` is the header line and as much of the quote as both limits leave. */
  ghost predicate FillsRoom(r: Render, sources: seq<Source>, parts: seq<string>, k: nat)
    requires k < |sources|
  {
    k < |parts| &&
    var room := Room(r, parts[..k], sources[k]);
    && parts[k] == r.header(sources[k]) + "\n"
                   + PyTake(sources[k].quote, if r.maxQuoteChars < room then r.maxQuoteChars else room)
    && (k > 0 ==> room >= MIN_QUOTE_CHARS)
  }

  lemma OneMorePart(r: Render, sources: seq<Source>, index: nat, parts: seq<string>, all: seq<string>)
    returns (entry: string)
    requires index < |sources| && index == |parts| && PartsSoFar(r, sources, index, Size(parts), parts, all)
    requires !Omits(r, sources[index], index, Size(parts))
    ensures entry == Entry(r, sources[index], Room(r, parts, sources[index]))
    ensures PartsSoFar(r, sources, index + 1, Size(parts + [entry]), parts + [entry], all)
    ensures Shown(r, sources, index, Size(parts)) == 1 + Shown(r, sources, index + 1, Size(parts + [entry]))
    ensures index < |all| && all[index] == entry && all[..index] == parts
  {
    entry := Entry(r, sources[index], Left(r, sources[index], Size(parts)));
    PartsMore(r, sources, index, Size(parts), parts, all, entry);
    SizeSnoc(parts, entry);
    OneMoreShown(r, sources, index, Size(parts), Size(parts + [entry]));
    PartThere(parts, entry, Parts(r, sources, index + 1, Size(parts + [entry])), all);
  }

  lemma OneMoreShown(r: Render, sources: seq<Source>, index: nat, used: int, spent: int)
    requires index < |sources| && !Omits(r, sources[index], index, used)
    requires spent == used + |Entry(r, sources[index], Left(r, sources[index], used))| + 2
    ensures Shown(r, sources, index, used) == 1 + Shown(r, sources, index + 1, spent)
  {
  }

  lemma PartThere(parts: seq<string>, entry: string, rest: seq<string>, all: seq<string>)
    requires all == (parts + [entry]) + rest
    ensures |parts| < |all| && all[|parts|] == entry && all[..|parts|] == parts
  {
  }

  /** The parts before `index` are there, and what is left fills the room behind them. */
  lemma {:induction false} PartsFill(r: Render, sources: seq<Source>, index: nat, parts: seq<string>,
                                     all: seq<string>, k: nat)
    requires index <= |sources| && index == |parts| && PartsSoFar(r, sources, index, Size(parts), parts, all)
    requires index <= k < index + Shown(r, sources, index, Size(parts))
    ensures FillsRoom(r, sources, all, k)
    decreases |sources| - index
  {
    var entry := OneMorePart(r, sources, index, parts, all);
    if k > index {
      PartsFill(r, sources, index + 1, parts + [entry], all, k);
    }
  }

  /** The first source that is not shown would have had too little room. */
  lemma {:induction false} RestDoesNotFit(r: Render, sources: seq<Source>, index: nat, parts: seq<string>,
                                          all: seq<string>)
    requires index <= |sources| && index == |parts| && PartsSoFar(r, sources, index, Size(parts), parts, all)
    ensures var n := index + Shown(r, sources, index, Size(parts));
            n < |sources| ==> 0 < n <= |all| && Room(r, all[..n], sources[n]) < MIN_QUOTE_CHARS
    decreases |sources| - index
  {
    if index < |sources| {
      var s := sources[index];
      if Omits(r, s, index, Size(parts)) {
        assert all[..index] == parts;
      } else {
        var entry := OneMorePart(r, sources, index, parts, all);
        RestDoesNotFit(r, sources, index + 1, parts + [entry], all);
      }
    }
  }

  /**
   * Sources are shown as long as there is room for a worthwhile quote of the next, each with as much of its quote as
   * the limits leave; the first that is not shown had too little room.
   */
  lemma ShowsWhatFits(r: Render, sources: seq<Source>)
    ensures var parts, shown := Parts(r, sources, 0, 0), Shown(r, sources, 0, 0);
            && (forall k :: 0 <= k < shown ==> FillsRoom(r, sources, parts, k))
            && (shown < |sources| ==>
                  0 < shown <= |parts| && Room(r, parts[..shown], sources[shown]) < MIN_QUOTE_CHARS)
  {
    var parts := Parts(r, sources, 0, 0);
    FromNothing(r, sources, parts);
    forall k | 0 <= k < Shown(r, sources, 0, 0) ensures FillsRoom(r, sources, parts, k) {
      PartsFill(r, sources, 0, [], parts, k);
    }
    RestDoesNotFit(r, sources, 0, [], parts);
  }

  lemma FromNothing(r: Render, sources: seq<Source>, all: seq<string>)
    requires all == Parts(r, sources, 0, 0)
    ensures PartsSoFar(r, sources, 0, Size([]), [], all) && Size([]) == 0
  {
    assert [] + Parts(r, sources, 0, 0) == Parts(r, sources, 0, 0);
  }
}
