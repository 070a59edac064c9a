/**
 * src/rag/pipelines/offline.py: the offline job as it runs on the stores, and the same job as a history of
 * publication steps. Connectors, parsers and embedders are arbitrary functions.
 */
module OfflinePipeline {
  import opened Schemas
  import opened Collections
  import opened Publication
  import Text
  import VS = VectorStore
  import BM = Bm25
  import Reg = IndexRegistry
  import Fixed = FixedChunker
  import Markdown = MarkdownChunker
  import Recursive = RecursiveChunker

  /** The chunks of all parsed documents, in order. */
  function ChunksOf(docs: seq<Document>, chunker: Document -> seq<Chunk>): seq<Chunk> {
    if docs == [] then [] else chunker(docs[0]) + ChunksOf(docs[1..], chunker)
  }

  function Embedded(chunks: seq<Chunk>, embed: string -> VS.Vector): (vectors: seq<VS.Vector>)
    ensures |vectors| == |chunks|
  {
    seq(|chunks|, i requires 0 <= i < |chunks| => embed(chunks[i].text))
  }

  /** The registry after a build is recorded: first as building, then as built. */
  function AfterRecording(data: Reg.Data, version: string, count: nat): Reg.Data {
    Reg.Recorded(Reg.Recorded(data, version, Reg.Entry(Reg.Building, 0)), version, Reg.Entry(Reg.Built, count))
  }

  /** The registry after a run. */
  function AfterRun(data: Reg.Data, version: string, count: nat, publish: bool): Reg.Data {
    Published(AfterRecording(data, version, count), version, publish)
  }

  /** The registry after the last step of a run. */
  function Published(data: Reg.Data, version: string, publish: bool): Reg.Data {
    if publish then Reg.Activated(data, version) else data
  }

  class OfflinePipeline {
    const store: VS.MemoryVectorStore
    const index: BM.BM25MemoryIndex
    const registry: Reg.IndexRegistry
    const embed: string -> VS.Vector
    const collectionAlias: string

    constructor (store: VS.MemoryVectorStore, index: BM.BM25MemoryIndex, registry: Reg.IndexRegistry,
                 embed: string -> VS.Vector, collectionAlias: string)
      ensures this.store == store && this.index == index && this.registry == registry
      ensures this.embed == embed && this.collectionAlias == collectionAlias
    {
      this.store, this.index, this.registry := store, index, registry;
      this.embed, this.collectionAlias := embed, collectionAlias;
    }

    /** src/rag/pipelines/offline.py:37-104, from the parsed documents on */
    method Run(docs: seq<Document>, chunker: Document -> seq<Chunk>, version: string, activate: bool)
      returns (allChunks: seq<Chunk>)
      requires index.Valid()
      modifies store, index, registry
      ensures index.Valid()
      ensures allChunks == ChunksOf(docs, chunker)
      ensures store.items == VS.PutAll(old(store.items), allChunks, Embedded(allChunks, embed))
      ensures index.chunks == BM.PutAll(old(index.chunks), allChunks)
      ensures registry.data == AfterRun(old(registry.data), version, |allChunks|, activate && allChunks != [])
      ensures store.aliases ==
                if activate && allChunks != [] then old(store.aliases)[collectionAlias := version]
                else old(store.aliases)
    {
      allChunks := Build(docs, chunker, version);
      ghost var recorded := registry.data;
      var publish := activate && allChunks != [];
      Publish(version, publish);
      assert registry.data == Published(recorded, version, publish);
    }

    /** src/rag/pipelines/offline.py:92-93 */
    method Publish(version: string, publish: bool)
      requires index.Valid() && version in registry.data.versions
      modifies store`aliases, registry
      ensures index.Valid()
      ensures registry.data == Published(old(registry.data), version, publish)
      ensures store.aliases == if publish then old(store.aliases)[collectionAlias := version] else old(store.aliases)
    {
      if publish {
        Activate(version);
      }
    }

    /** Everything before publication, src/rag/pipelines/offline.py:54-90. */
    method Build(docs: seq<Document>, chunker: Document -> seq<Chunk>, version: string) returns (allChunks: seq<Chunk>)
      requires index.Valid()
      modifies store`items, index, registry
      ensures index.Valid()
      ensures allChunks == ChunksOf(docs, chunker)
      ensures store.items == VS.PutAll(old(store.items), allChunks, Embedded(allChunks, embed))
      ensures index.chunks == BM.PutAll(old(index.chunks), allChunks)
      ensures registry.data == AfterRecording(old(registry.data), version, |allChunks|)
      ensures version in registry.data.versions
    {
      allChunks := ChunkAll(docs, chunker);
      registry.Record(version, Reg.Entry(Reg.Building, 0));
      if allChunks != [] {
        EmbedAndIndex(allChunks);
      }
      registry.Record(version, Reg.Entry(Reg.Built, |allChunks|));
    }

    /** The chunking loop, src/rag/pipelines/offline.py:71-74. */
    method ChunkAll(docs: seq<Document>, chunker: Document -> seq<Chunk>) returns (allChunks: seq<Chunk>)
      ensures allChunks == ChunksOf(docs, chunker)
    {
      allChunks := [];
      for i := 0 to |docs|
        invariant allChunks + ChunksOf(docs[i..], chunker) == ChunksOf(docs, chunker)
      {
        var chunks := chunker(docs[i]);
        DropStep(docs, i);
        AppendAssoc(allChunks, chunks, ChunksOf(docs[i + 1..], chunker));
        allChunks := allChunks + chunks;
      }
      assert docs[|docs|..] == [] && allChunks + [] == allChunks;
    }

    /** src/rag/pipelines/offline.py:142-152 */
    method EmbedAndIndex(chunks: seq<Chunk>)
      requires index.Valid()
      modifies store`items, index
      ensures index.Valid()
      ensures store.items == VS.PutAll(old(store.items), chunks, Embedded(chunks, embed))
      ensures index.chunks == BM.PutAll(old(index.chunks), chunks)
    {
      var vectors := Embedded(chunks, embed);
      var r := store.Upsert(chunks, vectors);
      index.Upsert(chunks);
    }

    /** src/rag/pipelines/offline.py:106-114; an unknown version still flips the alias */
    method Activate(version: string)
      modifies store`aliases, registry
      ensures store.aliases == old(store.aliases)[collectionAlias := version]
      ensures version in old(registry.data).versions ==>
                registry.data == Reg.Activated(old(registry.data), version) && Reg.OneActive(registry.data)
      ensures version !in old(registry.data).versions ==> registry.data == old(registry.data)
      ensures Reg.OneActive(old(registry.data)) ==>
                (registry.data.active == Some(version) <==> version in old(registry.data).versions)
    {
      store.SetAlias(collectionAlias, version);
      var r := registry.Activate(version);
    }
  }

  // ---- The job as a history of publication steps ----

  /** Every chunk the chunkers make has an id derived from the index version it belongs to. */
  lemma StampedIdsAreDerived(hash: IdHash, doc: Document, indexVersion: string, chunkerVersion: string, k: nat,
                             text: string,
                             span: (int, int))
    ensures Derived(hash, Recursive.Stamp(doc, indexVersion, chunkerVersion, hash, k, text, span))
  {
    var c := Recursive.Stamp(doc, indexVersion, chunkerVersion, hash, k, text, span);
    assert c.chunkId == hash(doc.docId, k, chunkerVersion, c.indexVersion);
  }

  /** Every chunk is of the version, with an id derived from it. */
  ghost predicate Stamped(hash: IdHash, v: string, chunks: seq<Chunk>) {
    forall i :: 0 <= i < |chunks| ==> chunks[i].indexVersion == v && Derived(hash, chunks[i])
  }

  /** What each chunker promises of its chunks makes them so. */
  lemma RecursiveStamps(hash: IdHash, doc: Document, v: string, pieces: seq<string>, spans: seq<(int, int)>,
                        chunks: seq<Chunk>)
    requires |chunks| == |pieces| == |spans|
    requires forall k :: 0 <= k < |chunks| ==>
               chunks[k] == Recursive.Stamp(doc, v, Recursive.VERSION, hash, k, pieces[k], spans[k])
    ensures Stamped(hash, v, chunks)
  {
    forall k | 0 <= k < |chunks|
      ensures chunks[k].indexVersion == v && Derived(hash, chunks[k])
    {
      StampedIdsAreDerived(hash, doc, v, Recursive.VERSION, k, pieces[k], spans[k]);
    }
  }

  lemma MarkdownStamps(hash: IdHash, doc: Document, v: string, pieces: seq<string>, spans: seq<(int, int)>,
                       chunks: seq<Chunk>)
    requires Markdown.Emitted(doc, doc.text.GetOr(""), v, hash, chunks, spans, pieces)
    ensures Stamped(hash, v, chunks)
  {
    forall k | 0 <= k < |chunks|
      ensures chunks[k].indexVersion == v && Derived(hash, chunks[k])
    {
      StampedIdsAreDerived(hash, doc, v, Markdown.VERSION, k, Text.Strip(pieces[k]), spans[k]);
    }
  }

  lemma FixedStamps(hash: IdHash, doc: Document, v: string, windows: seq<(int, int)>, chunks: seq<Chunk>)
    requires Fixed.Chunked(chunks, windows, doc, doc.text.GetOr(""), v, hash)
    ensures Stamped(hash, v, chunks)
  {
    forall k | 0 <= k < |chunks|
      ensures chunks[k].indexVersion == v && Derived(hash, chunks[k])
    {
      assert Fixed.Matches(chunks[k], windows[k], doc, doc.text.GetOr(""), v, hash, k);
      assert chunks[k].chunkId == hash(doc.docId, k, Fixed.VERSION, chunks[k].indexVersion);
    }
  }

  lemma {:induction false} ChunksStamped(hash: IdHash, v: string, docs: seq<Document>, chunker: Document -> seq<Chunk>)
    requires forall d <- docs :: Stamped(hash, v, chunker(d))
    ensures Stamped(hash, v, ChunksOf(docs, chunker))
  {
    if docs != [] {
      ChunksStamped(hash, v, docs[1..], chunker);
      assert docs[0] in docs;
    }
  }

  /** The chunks of all documents, whichever chunker made those of each, are a good build with their embeddings. */
  lemma ChunksMakeABuild(hash: IdHash, v: string, docs: seq<Document>, chunker: Document -> seq<Chunk>,
                         embed: string -> VS.Vector)
    requires forall d <- docs :: Stamped(hash, v, chunker(d))
    ensures GoodBuild(hash, v, Build(ChunksOf(docs, chunker), Embedded(ChunksOf(docs, chunker), embed)))
  {
    ChunksStamped(hash, v, docs, chunker);
  }

  function Repeat(step: Step, n: nat): seq<Step> {
    if n == 0 then [] else [step] + Repeat(step, n - 1)
  }

  /** The steps of an undisturbed job. */
  function JobSteps(version: string, b: Build, activate: bool): seq<Step> {
    [Start(version, b, activate)] + (Repeat(PutVector, |b.chunks|) + SecondHalf(version, b, activate))
  }

  function SecondHalf(version: string, b: Build, activate: bool): seq<Step> {
    [NextPhase] + (Repeat(PutWord, |b.chunks|) + LastSteps(version, b, activate))
  }

  function LastSteps(version: string, b: Build, activate: bool): seq<Step> {
    [RecordBuilt] + if activate && b.chunks != [] then [FlipAlias(version), ActivateRegistry(version)] else [Stop]
  }

  lemma HeadTail<T>(s: seq<T>)
    requires s != []
    ensures [s[0]] + s[1..] == s
  {
  }

  lemma {:induction false} RunsConcat(hash: IdHash, s: State, a: seq<Step>, b: seq<Step>)
    requires Runs(hash, s, a) && Runs(hash, After(s, a), b)
    ensures Runs(hash, s, a + b) && After(s, a + b) == After(After(s, a), b)
    decreases |a|
  {
    if a == [] {
      assert a + b == b;
    } else {
      RunsConcat(hash, Apply(s, a[0]), a[1..], b);
      OneStep(hash, s, a[0], a[1..] + b);
      AppendAssoc([a[0]], a[1..], b);
      HeadTail(a);
    }
  }

  lemma VectorsFrom(items: VS.Items, chunks: seq<Chunk>, vectors: seq<VS.Vector>, n: nat)
    requires n < |chunks| == |vectors|
    ensures VS.PutAll(items, chunks[n..], vectors[n..])
         == VS.PutAll(Put(items, chunks[n].chunkId, VS.Item(chunks[n], vectors[n])), chunks[n + 1..], vectors[n + 1..])
  {
    DropStep(chunks, n);
    DropStep(vectors, n);
  }

  lemma WordsFrom(lex: BM.Chunks, chunks: seq<Chunk>, n: nat)
    requires n < |chunks|
    ensures BM.PutAll(lex, chunks[n..]) == BM.PutAll(Put(lex, chunks[n].chunkId, chunks[n]), chunks[n + 1..])
  {
    DropStep(chunks, n);
  }

  /** The state after the rest of the vectors. */
  ghost function VectorsDone(s: State): State
    requires s.writer.FillingVectors? && |s.writer.build.vectors| == |s.writer.build.chunks| >= s.writer.done
  {
    var w := s.writer;
    s.(vec := VS.PutAll(s.vec, w.build.chunks[w.done..], w.build.vectors[w.done..]),
       writer := FillingVectors(w.version, w.build, w.activate, |w.build.chunks|))
  }

  lemma OneVectorFirst(s: State)
    requires s.writer.FillingVectors? && |s.writer.build.vectors| == |s.writer.build.chunks| > s.writer.done
    ensures VectorsDone(AfterPutVector(s)) == VectorsDone(s)
  {
    VectorsFrom(s.vec, s.writer.build.chunks, s.writer.build.vectors, s.writer.done);
  }

  lemma {:induction false} VectorPhase(hash: IdHash, s: State, n: nat)
    requires s.writer.FillingVectors? && |s.writer.build.vectors| == |s.writer.build.chunks| == s.writer.done + n
    ensures Runs(hash, s, Repeat(PutVector, n)) && After(s, Repeat(PutVector, n)) == VectorsDone(s)
    decreases n
  {
    if n > 0 {
      VectorPhase(hash, AfterPutVector(s), n - 1);
      OneStep(hash, s, PutVector, Repeat(PutVector, n - 1));
      OneVectorFirst(s);
    }
  }

  ghost function WordsDone(s: State): State
    requires s.writer.FillingWords? && |s.writer.build.chunks| >= s.writer.done
  {
    var w := s.writer;
    s.(lex := BM.PutAll(s.lex, w.build.chunks[w.done..]),
       writer := FillingWords(w.version, w.build, w.activate, |w.build.chunks|))
  }

  lemma OneWordFirst(s: State)
    requires s.writer.FillingWords? && |s.writer.build.chunks| > s.writer.done
    ensures WordsDone(AfterPutWord(s)) == WordsDone(s)
  {
    var b, n := s.writer.build, s.writer.done;
    WordsFrom(s.lex, b.chunks, n);
    assert AfterPutWord(s).lex == Put(s.lex, b.chunks[n].chunkId, b.chunks[n]);
    assert AfterPutWord(s).writer.done == n + 1;
  }

  lemma {:induction false} WordPhase(hash: IdHash, s: State, n: nat)
    requires s.writer.FillingWords? && |s.writer.build.chunks| == s.writer.done + n
    ensures Runs(hash, s, Repeat(PutWord, n)) && After(s, Repeat(PutWord, n)) == WordsDone(s)
    decreases n
  {
    if n > 0 {
      WordPhase(hash, AfterPutWord(s), n - 1);
      OneStep(hash, s, PutWord, Repeat(PutWord, n - 1));
      OneWordFirst(s);
    }
  }

  /** The state an undisturbed job leaves: what the method `Run` promises about stores, registry and alias. */
  ghost function JobDone(s: State, v: string, b: Build, activate: bool): State
    requires |b.vectors| == |b.chunks|
  {
    var publish := activate && b.chunks != [];
    s.(vec := VS.PutAll(s.vec, b.chunks, b.vectors),
       lex := BM.PutAll(s.lex, b.chunks),
       registry := AfterRun(s.registry, v, |b.chunks|, publish),
       alias := if publish then Some(v) else s.alias,
       built := s.built[v := b])
  }

  /** The offline job is a history of publication steps, so everything proved of histories holds of it. */
  lemma JobIsAHistory(hash: IdHash, s: State, v: string, b: Build, activate: bool)
    requires s.writer == Idle && Fresh(s, v) && GoodBuild(hash, v, b)
    ensures Runs(hash, s, JobSteps(v, b, activate))
    ensures After(s, JobSteps(v, b, activate)) == JobDone(s, v, b, activate)
  {
    var start, n := Start(v, b, activate), |b.chunks|;
    var s1 := Apply(s, start);
    VectorPhase(hash, s1, n);
    DropNone(b.chunks);
    DropNone(b.vectors);
    var s2 := s1.(vec := VS.PutAll(s.vec, b.chunks, b.vectors), writer := FillingVectors(v, b, activate, n));
    var rest := SecondHalf(v, b, activate);
    WordsAndPublishing(hash, s2, rest);
    RunsConcat(hash, s1, Repeat(PutVector, n), rest);
    OneStep(hash, s, start, Repeat(PutVector, n) + rest);
  }

  /** So the run over these documents, as the method `Run` makes it, is such a history. */
  lemma RunIsAHistory(hash: IdHash, s: State, v: string, docs: seq<Document>, chunker: Document -> seq<Chunk>,
                      embed: string -> VS.Vector, activate: bool)
    requires s.writer == Idle && Fresh(s, v) && forall d <- docs :: Stamped(hash, v, chunker(d))
    ensures var chunks := ChunksOf(docs, chunker);
            var b := Build(chunks, Embedded(chunks, embed));
            && Runs(hash, s, JobSteps(v, b, activate))
            && After(s, JobSteps(v, b, activate)) == JobDone(s, v, b, activate)
  {
    ChunksMakeABuild(hash, v, docs, chunker, embed);
    var chunks := ChunksOf(docs, chunker);
    JobIsAHistory(hash, s, v, Build(chunks, Embedded(chunks, embed)), activate);
  }

  lemma DropNone<T>(s: seq<T>)
    ensures s[0..] == s
  {
  }

  lemma WordsAndPublishing(hash: IdHash, s: State, rest: seq<Step>)
    requires s.writer.FillingVectors? && s.writer.done == |s.writer.build.chunks|
    requires rest == SecondHalf(s.writer.version, s.writer.build, s.writer.activate)
    ensures var w, publish := s.writer, s.writer.activate && s.writer.build.chunks != [];
            var recorded := Reg.Recorded(s.registry, w.version, Reg.Entry(Reg.Built, |w.build.chunks|));
            && Runs(hash, s, rest)
            && After(s, rest) ==
                 s.(lex := BM.PutAll(s.lex, w.build.chunks),
                    registry := if publish then Reg.Activated(recorded, w.version) else recorded,
                    alias := if publish then Some(w.version) else s.alias,
                    built := s.built[w.version := w.build],
                    writer := Idle)
  {
    var w, n := s.writer, |s.writer.build.chunks|;
    var s3 := Apply(s, NextPhase);
    WordPhase(hash, s3, n);
    DropNone(w.build.chunks);
    var s4 := After(s3, Repeat(PutWord, n));
    var last := LastSteps(w.version, w.build, w.activate);
    Publishing(hash, s4, last);
    RunsConcat(hash, s3, Repeat(PutWord, n), last);
    OneStep(hash, s, NextPhase, Repeat(PutWord, n) + last);
  }

  lemma Publishing(hash: IdHash, s: State, last: seq<Step>)
    requires s.writer.FillingWords? && s.writer.done == |s.writer.build.chunks|
    requires last == LastSteps(s.writer.version, s.writer.build, s.writer.activate)
    ensures var w, publish := s.writer, s.writer.activate && s.writer.build.chunks != [];
            var recorded := Reg.Recorded(s.registry, w.version, Reg.Entry(Reg.Built, |w.build.chunks|));
            && Runs(hash, s, last)
            && After(s, last) ==
                 s.(registry := if publish then Reg.Activated(recorded, w.version) else recorded,
                    alias := if publish then Some(w.version) else s.alias,
                    built := s.built[w.version := w.build],
                    writer := Idle)
  {
    var v, publish := s.writer.version, s.writer.activate && s.writer.build.chunks != [];
    var s1 := Apply(s, RecordBuilt);
    if publish {
      var s2 := Apply(s1, FlipAlias(v));
      OneStep(hash, s2, ActivateRegistry(v), []);
      OneStep(hash, s1, FlipAlias(v), [ActivateRegistry(v)]);
      OneStep(hash, s, RecordBuilt, [FlipAlias(v), ActivateRegistry(v)]);
    } else {
      OneStep(hash, s1, Stop, []);
      OneStep(hash, s, RecordBuilt, [Stop]);
    }
  }

  // ---- Overlapping activations, from the start ----

  const NO_CHUNKS := Build([], [])

  /** Two versions are built and not activated, then two operators promote one each, and overlap. */
  ghost function Rivals(): seq<Step> {
    JobSteps("1", NO_CHUNKS, false) + (JobSteps("2", NO_CHUNKS, false) + Overlap(0, "2", 1, "1"))
  }

  lemma FreshlyBuilt(hash: IdHash, s: State, v: string)
    requires s.vec == Empty() && s.lex == Empty() && s.writer == Idle && v !in s.built
    ensures Runs(hash, s, JobSteps(v, NO_CHUNKS, false))
    ensures var end := After(s, JobSteps(v, NO_CHUNKS, false));
            && end.vec == Empty() && end.lex == Empty() && end.writer == Idle && end.operators == s.operators
            && end.built == s.built[v := NO_CHUNKS] && end.registry.versions.Keys == s.registry.versions.Keys + {v}
  {
    assert VecOf(s.vec, v) == Empty() && LexOf(s.lex, v) == Empty() by {
      EmptyOfVersion(v);
    }
    JobIsAHistory(hash, s, v, NO_CHUNKS, false);
  }

  lemma EmptyOfVersion(v: string)
    ensures VecOf(Empty(), v) == Empty() && LexOf(Empty(), v) == Empty()
  {
    assert VecOf(Empty(), v).at == map[] && LexOf(Empty(), v).at == map[];
  }

  /** All activations complete, and yet: the alias is version 1, and the registry's active version is 2. */
  lemma OverlapHappens(hash: IdHash)
    ensures Runs(hash, INIT, Rivals())
    ensures var s := After(INIT, Rivals());
            s.writer == Idle && s.operators == map[] && s.alias == Some("1") && s.registry.active == Some("2")
  {
    var first, second := JobSteps("1", NO_CHUNKS, false), JobSteps("2", NO_CHUNKS, false);
    var overlap := Overlap(0, "2", 1, "1");
    FreshlyBuilt(hash, INIT, "1");
    var s := After(INIT, first);
    FreshlyBuilt(hash, s, "2");
    var t := After(s, second);
    OverlapDisagrees(hash, t, 0, "2", 1, "1");
    RunsConcat(hash, s, second, overlap);
    RunsConcat(hash, INIT, first, second + overlap);
  }
}
