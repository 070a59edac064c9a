/**
 * src/rag/generation/citations.py: markers in a text, resolved against what was retrieved. Which substrings
 * are markers is an arbitrary function of the text.
 */
module Citations {
  import opened Schemas
  import opened Collections

  datatype SourceKind = ChunkSource | WebSource | GraphSource | ToolSource

  datatype Source = Source(
    kind: SourceKind,
    ref: string,
    docId: string,
    title: string,
    quote: string,
    score: real,
    url: Option<string>,
    acl: Option<AclTags>)

  datatype Citation = Citation(
    chunkId: string,
    docId: string,
    quote: string,
    score: real,
    kind: SourceKind,
    ref: string,
    url: Option<string>,
    title: string)

  type Markers = string -> seq<string>

  /** src/rag/generation/citations.py:73-81 */
  function CitationFromScored(s: ScoredChunk): Citation {
    Citation(s.chunk.chunkId, s.chunk.docId, PyTake(s.chunk.text, 200), s.score, ChunkSource, s.chunk.chunkId, None, "")
  }

  /** src/rag/generation/citations.py:84-94 */
  function CitationFromSource(s: Source): Citation {
    var chunkId := if s.kind.ChunkSource? then s.ref else "";
    Citation(chunkId, s.docId, PyTake(s.quote, 200), s.score, s.kind, s.ref, s.url, s.title)
  }

  // ---- Looking a marker up ----

  /** `full.startswith(token) or token.startswith(full[:12])` */
  predicate Abbreviates(token: string, full: string) {
    token <= full || PyTake(full, 12) <= token
  }

  function FirstAbbreviated(keys: seq<string>, token: string): Option<string> {
    if keys == [] then None
    else if Abbreviates(token, keys[0]) then Some(keys[0])
    else FirstAbbreviated(keys[1..], token)
  }

  /** The key a marker stands for: the marker itself, or the first key it abbreviates. */
  function Resolve<V>(d: Dict<string, V>, token: string): Option<string> {
    if token in d.at then Some(token) else FirstAbbreviated(d.keys, token)
  }

  lemma {:induction false} FirstAbbreviatedIs(keys: seq<string>, token: string)
    ensures match FirstAbbreviated(keys, token)
            case Some(k) => k in keys && Abbreviates(token, k)
            case None => forall k <- keys :: !Abbreviates(token, k)
  {
    if keys != [] && !Abbreviates(token, keys[0]) {
      FirstAbbreviatedIs(keys[1..], token);
    }
  }

  /** The `i`-th key is the first that the token abbreviates. */
  predicate FirstAt(keys: seq<string>, token: string, i: nat) {
    i < |keys| && Abbreviates(token, keys[i]) && forall j :: 0 <= j < i ==> !Abbreviates(token, keys[j])
  }

  lemma {:induction false} FirstAbbreviatedAt(keys: seq<string>, token: string, i: nat)
    requires FirstAt(keys, token, i)
    ensures FirstAbbreviated(keys, token) == Some(keys[i])
  {
    if i > 0 {
      assert forall j :: 0 <= j < i - 1 ==> keys[1..][j] == keys[j + 1];
      FirstAbbreviatedAt(keys[1..], token, i - 1);
    }
  }

  /** A marker that is a key stands for itself, whatever else it abbreviates; any other for the first key it does. */
  lemma ResolveExactly<V>(d: Dict<string, V>, token: string)
    ensures token in d.at ==> Resolve(d, token) == Some(token)
    ensures token !in d.at ==> forall i: nat :: FirstAt(d.keys, token, i) ==> Resolve(d, token) == Some(d.keys[i])
    ensures token !in d.at && (forall k <- d.keys :: !Abbreviates(token, k)) ==> Resolve(d, token).None?
  {
    forall i: nat | FirstAt(d.keys, token, i) ensures FirstAbbreviated(d.keys, token) == Some(d.keys[i]) {
      FirstAbbreviatedAt(d.keys, token, i);
    }
    FirstAbbreviatedIs(d.keys, token);
  }

  lemma ResolveIsKey<V>(d: Dict<string, V>, token: string)
    ensures Resolve(d, token).Some? ==> Resolve(d, token).value in d.at
    ensures Resolve(d, token).None? ==> token !in d.at && forall k <- d.keys :: !Abbreviates(token, k)
  {
    FirstAbbreviatedIs(d.keys, token);
    if Resolve(d, token).Some? {
      KeyListed(d, Resolve(d, token).value);
    }
  }

  /** The keys the markers stand for, each at its first mention. */
  function Cited<V>(d: Dict<string, V>, tokens: seq<string>): seq<string> {
    if tokens == [] then []
    else
      var before, key := Cited(d, tokens[..|tokens| - 1]), Resolve(d, tokens[|tokens| - 1]);
      if key.None? || key.value in before then before else before + [key.value]
  }

  lemma {:induction false} CitedExactly<V>(d: Dict<string, V>, tokens: seq<string>)
    ensures Distinct(Cited(d, tokens))
    ensures forall k <- Cited(d, tokens) :: k in d.at && exists t :: t in tokens && Resolve(d, t) == Some(k)
    ensures forall t <- tokens :: Resolve(d, t).Some? ==> Resolve(d, t).value in Cited(d, tokens)
  {
    if tokens != [] {
      var init, last := tokens[..|tokens| - 1], tokens[|tokens| - 1];
      assert tokens == init + [last];
      CitedExactly(d, init);
      ResolveIsKey(d, last);
    }
  }

  function CiteAll<V>(d: Dict<string, V>, keys: seq<string>, cite: V -> Citation): seq<Citation>
    requires forall k <- keys :: k in d.at
  {
    seq(|keys|, i requires 0 <= i < |keys| => assert keys[i] in keys; cite(d.at[keys[i]]))
  }

  /** The citations made so far are of these keys. */
  ghost predicate CitedBy<V>(d: Dict<string, V>, keys: seq<string>, citations: seq<Citation>, cite: V -> Citation) {
    |citations| == |keys| && forall j :: 0 <= j < |keys| ==> keys[j] in d.at && citations[j] == cite(d.at[keys[j]])
  }

  lemma CitedBySnoc<V>(d: Dict<string, V>, keys: seq<string>, citations: seq<Citation>, cite: V -> Citation,
                       key: string)
    requires CitedBy(d, keys, citations, cite) && key in d.at
    ensures CitedBy(d, keys + [key], citations + [cite(d.at[key])], cite)
  {
  }

  /** The loop both resolvers share, src/rag/generation/citations.py:20-31 and 56-67. */
  method ResolveMarkers<V>(d: Dict<string, V>, tokens: seq<string>, cite: V -> Citation)
    returns (citations: seq<Citation>)
    ensures CitedBy(d, Cited(d, tokens), citations, cite)
  {
    citations := [];
    var seen: set<string> := {};
    ghost var keys := [];
    for i := 0 to |tokens|
      invariant keys == Cited(d, tokens[..i]) && forall k :: k in seen <==> k in keys
      invariant CitedBy(d, keys, citations, cite)
    {
      var hit := Resolve(d, tokens[i]);
      ResolveIsKey(d, tokens[i]);
      TakeSnoc(tokens, i);
      CitedSnoc(d, tokens[..i], tokens[i]);
      if hit.None? || hit.value in seen {
        continue;
      }
      CitedBySnoc(d, keys, citations, cite, hit.value);
      seen, keys := seen + {hit.value}, keys + [hit.value];
      citations := citations + [cite(d.at[hit.value])];
    }
    TakeAll(tokens, |tokens|);
  }

  lemma CitedSnoc<V>(d: Dict<string, V>, tokens: seq<string>, t: string)
    ensures Cited(d, tokens + [t]) ==
              var key := Resolve(d, t);
              if key.None? || key.value in Cited(d, tokens) then Cited(d, tokens) else Cited(d, tokens) + [key.value]
  {
    assert (tokens + [t])[..|tokens|] == tokens;
  }

  // ---- Against retrieved chunks ----

  function ById(scored: seq<ScoredChunk>): Dict<string, ScoredChunk> {
    if scored == [] then Empty()
    else var last := scored[|scored| - 1]; Put(ById(scored[..|scored| - 1]), last.chunk.chunkId, last)
  }

  lemma {:induction false} ByIdFrom(scored: seq<ScoredChunk>)
    ensures forall k <- ById(scored).at :: ById(scored).at[k] in scored && ById(scored).at[k].chunk.chunkId == k
    ensures forall s <- scored :: s.chunk.chunkId in ById(scored).at
  {
    if scored != [] {
      ByIdFrom(scored[..|scored| - 1]);
      assert scored == scored[..|scored| - 1] + [scored[|scored| - 1]];
    }
  }

  /** src/rag/generation/citations.py:10-34: with no marker resolved, the top chunk is cited all the same. */
  method ResolveCitations(text: string, scored: seq<ScoredChunk>, markers: Markers) returns (citations: seq<Citation>)
    ensures citations == ScoredCitations(text, scored, markers)
  {
    var byId := ById(scored);
    citations := ResolveMarkers(byId, markers(text), CitationFromScored);
    CitedExactly(byId, markers(text));
    assert citations == CiteAll(byId, Cited(byId, markers(text)), CitationFromScored);
    if citations == [] && scored != [] {
      citations := [CitationFromScored(scored[0])];
    }
  }

  function ScoredCitations(text: string, scored: seq<ScoredChunk>, markers: Markers): seq<Citation> {
    var d := ById(scored);
    CitedExactly(d, markers(text));
    var cited := CiteAll(d, Cited(d, markers(text)), CitationFromScored);
    if cited == [] && scored != [] then [CitationFromScored(scored[0])] else cited
  }

  /** Every citation is of a retrieved chunk, none twice; and there is one whenever anything was retrieved. */
  lemma ScoredCitationsSound(text: string, scored: seq<ScoredChunk>, markers: Markers)
    ensures var cs := ScoredCitations(text, scored, markers);
            && (forall i :: 0 <= i < |cs| ==> exists s :: s in scored && cs[i] == CitationFromScored(s))
            && (forall i, j :: 0 <= i < j < |cs| ==> cs[i].chunkId != cs[j].chunkId)
            && (cs == [] <==> scored == [])
  {
    var d := ById(scored);
    var keys := Cited(d, markers(text));
    CitedExactly(d, markers(text));
    ByIdFrom(scored);
    var cs := ScoredCitations(text, scored, markers);
    forall i | 0 <= i < |cs|
      ensures exists s :: s in scored && cs[i] == CitationFromScored(s)
    {
      if keys != [] {
        assert keys[i] in keys;
        assert d.at[keys[i]] in scored && cs[i] == CitationFromScored(d.at[keys[i]]);
      } else {
        assert scored[0] in scored;
      }
    }
    if keys != [] {
      assert keys[0] in keys;
      forall i, j | 0 <= i < j < |cs|
        ensures cs[i].chunkId != cs[j].chunkId
      {
        assert keys[i] in keys && keys[j] in keys;
      }
    }
  }

  ghost predicate Cites(cs: seq<Citation>, ref: string) {
    exists i :: 0 <= i < |cs| && cs[i].ref == ref
  }

  lemma KeyIsCited<V>(d: Dict<string, V>, keys: seq<string>, cite: V -> Citation, key: string)
    requires (forall k <- keys :: k in d.at) && key in keys && cite(d.at[key]).ref == key
    ensures Cites(CiteAll(d, keys, cite), key)
  {
    var i :| 0 <= i < |keys| && keys[i] == key;
    assert CiteAll(d, keys, cite)[i] == cite(d.at[key]);
  }

  lemma ScoredMarkCited(text: string, scored: seq<ScoredChunk>, markers: Markers, t: string, key: string)
    requires t in markers(text) && Resolve(ById(scored), t) == Some(key)
    ensures Cites(ScoredCitations(text, scored, markers), key)
  {
    var d := ById(scored);
    CitedExactly(d, markers(text));
    ByIdFrom(scored);
    KeyIsCited(d, Cited(d, markers(text)), CitationFromScored, key);
  }

  lemma NoMarkNoKey<V>(d: Dict<string, V>, tokens: seq<string>)
    requires forall t <- tokens :: Resolve(d, t).None?
    ensures Cited(d, tokens) == []
  {
    CitedExactly(d, tokens);
    if Cited(d, tokens) != [] {
      assert Cited(d, tokens)[0] in Cited(d, tokens);
    }
  }

  /** Every chunk that a marker stands for is cited; with no such marker, the top chunk is, alone. */
  lemma ScoredMarksCited(text: string, scored: seq<ScoredChunk>, markers: Markers)
    ensures forall t, k :: t in markers(text) && Resolve(ById(scored), t) == Some(k) ==>
              Cites(ScoredCitations(text, scored, markers), k)
    ensures scored != [] && (forall t <- markers(text) :: Resolve(ById(scored), t).None?) ==>
              ScoredCitations(text, scored, markers) == [CitationFromScored(scored[0])]
  {
    forall t, k | t in markers(text) && Resolve(ById(scored), t) == Some(k)
      ensures Cites(ScoredCitations(text, scored, markers), k)
    {
      ScoredMarkCited(text, scored, markers, t, k);
    }
    if forall t <- markers(text) :: Resolve(ById(scored), t).None? {
      NoMarkNoKey(ById(scored), markers(text));
    }
  }

  // ---- Against the sources of an agent turn ----

  function ByRef(sources: seq<Source>): Dict<string, Source> {
    if sources == [] then Empty()
    else var last := sources[|sources| - 1]; Put(ByRef(sources[..|sources| - 1]), last.ref, last)
  }

  lemma {:induction false} ByRefFrom(sources: seq<Source>)
    ensures forall k <- ByRef(sources).at :: ByRef(sources).at[k] in sources && ByRef(sources).at[k].ref == k
  {
    if sources != [] {
      ByRefFrom(sources[..|sources| - 1]);
      assert sources == sources[..|sources| - 1] + [sources[|sources| - 1]];
    }
  }

  /** src/rag/generation/citations.py:37-70 */
  method ResolveSourceCitations(text: string, sources: seq<Source>, requireExplicit: bool, markers: Markers)
    returns (citations: seq<Citation>)
    ensures requireExplicit ==> citations == SourceCitations(text, sources, markers)
    ensures !requireExplicit ==>
              citations == if SourceCitations(text, sources, markers) == [] && sources != [] then
                             [CitationFromSource(sources[0])]
                           else SourceCitations(text, sources, markers)
  {
    var byRef := ByRef(sources);
    citations := ResolveMarkers(byRef, markers(text), CitationFromSource);
    CitedExactly(byRef, markers(text));
    assert citations == CiteAll(byRef, Cited(byRef, markers(text)), CitationFromSource);
    if citations == [] && !requireExplicit && sources != [] {
      citations := [CitationFromSource(sources[0])];
    }
  }

  /** What the agent cites: only what a marker of the text resolves to. */
  function SourceCitations(text: string, sources: seq<Source>, markers: Markers): seq<Citation> {
    var d := ByRef(sources);
    CitedExactly(d, markers(text));
    CiteAll(d, Cited(d, markers(text)), CitationFromSource)
  }

  /** A marker of the text stands for the source's ref. */
  predicate Marked(text: string, sources: seq<Source>, markers: Markers, s: Source) {
    exists t <- markers(text) :: Resolve(ByRef(sources), t) == Some(s.ref)
  }

  /** Every citation is of a source of the list that some marker stands for; no ref is cited twice. */
  lemma SourceCitationsSound(text: string, sources: seq<Source>, markers: Markers)
    ensures var cs := SourceCitations(text, sources, markers);
            && (forall i :: 0 <= i < |cs| ==> CitesSource(cs[i], text, sources, markers))
            && (forall i, j :: 0 <= i < j < |cs| ==> cs[i].ref != cs[j].ref)
  {
    var d := ByRef(sources);
    var keys := Cited(d, markers(text));
    CitedExactly(d, markers(text));
    ByRefFrom(sources);
    var cs := SourceCitations(text, sources, markers);
    forall i | 0 <= i < |cs|
      ensures cs[i].ref == keys[i] && CitesSource(cs[i], text, sources, markers)
    {
      assert keys[i] in keys;
      var s := d.at[keys[i]];
      assert s in sources && cs[i] == CitationFromSource(s) && TrueTo(cs[i], s) && Marked(text, sources, markers, s);
    }
  }

  lemma SourceMarkCited(text: string, sources: seq<Source>, markers: Markers, t: string, key: string)
    requires t in markers(text) && Resolve(ByRef(sources), t) == Some(key)
    ensures Cites(SourceCitations(text, sources, markers), key)
  {
    var d := ByRef(sources);
    CitedExactly(d, markers(text));
    ByRefFrom(sources);
    KeyIsCited(d, Cited(d, markers(text)), CitationFromSource, key);
  }

  /** Every source that a marker stands for is cited. */
  lemma SourceMarksCited(text: string, sources: seq<Source>, markers: Markers)
    ensures forall t, k :: t in markers(text) && Resolve(ByRef(sources), t) == Some(k) ==>
              Cites(SourceCitations(text, sources, markers), k)
  {
    forall t, k | t in markers(text) && Resolve(ByRef(sources), t) == Some(k)
      ensures Cites(SourceCitations(text, sources, markers), k)
    {
      SourceMarkCited(text, sources, markers, t, k);
    }
  }

  lemma {:induction false} ByRefHas(sources: seq<Source>, s: Source)
    requires s in sources
    ensures s.ref in ByRef(sources).at
  {
    var init, last := sources[..|sources| - 1], sources[|sources| - 1];
    assert sources == init + [last];
    if s != last {
      ByRefHas(init, s);
    }
  }

  /** A listed source whose ref is itself a marker makes for a citation. */
  lemma MarkedIsCited(text: string, sources: seq<Source>, markers: Markers, s: Source)
    requires s in sources && s.ref in markers(text)
    ensures SourceCitations(text, sources, markers) != []
  {
    ByRefHas(sources, s);
    CitedExactly(ByRef(sources), markers(text));
    assert Resolve(ByRef(sources), s.ref) == Some(s.ref);
  }

  /**
   * The citation names the source, as a chunk only if it is one, and quotes it from the start, at most 200
   * characters.
   */
  predicate TrueTo(c: Citation, s: Source) {
    && c.ref == s.ref && c.docId == s.docId && c.url == s.url && c.kind == s.kind
    && (if s.kind.ChunkSource? then c.chunkId == s.ref else c.chunkId == "")
    && c.quote <= s.quote && |c.quote| == if |s.quote| <= 200 then |s.quote| else 200
  }

  ghost predicate CitesSource(c: Citation, text: string, sources: seq<Source>, markers: Markers) {
    exists s :: s in sources && c == CitationFromSource(s) && TrueTo(c, s) && Marked(text, sources, markers, s)
  }
}
