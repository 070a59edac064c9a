/**
 * Blue/green publication: an offline writer (src/rag/pipelines/offline.py:37-114) interleaved, step by step, with
 * operators who promote versions or roll back (src/rag/jobs/reindex.py:34-37), and with online readers that
 * resolve the alias once (src/rag/pipelines/online.py:136-139).
 */
module Publication {
  import opened Schemas
  import opened Collections
  import opened Acl
  import opened Ranking
  import VS = VectorStore
  import BM = Bm25
  import Reg = IndexRegistry

  /** The chunks of one build, each with its vector. */
  datatype Build = Build(chunks: seq<Chunk>, vectors: seq<VS.Vector>)

  /** Where the offline job is: filling the dense store, then the lexical index, then publishing. */
  datatype Writer =
    | Idle
    | FillingVectors(version: string, build: Build, activate: bool, done: nat)
    | FillingWords(version: string, build: Build, activate: bool, done: nat)
    | Indexed(version: string, build: Build, activate: bool)
    | Flipped(version: string)

  /**
   * `operators` have flipped the alias and have yet to tell the registry; `readers` hold the version they resolved;
   * `built` is history: what was completed.
   */
  datatype State = State(
    vec: VS.Items,
    lex: BM.Chunks,
    alias: Option<string>,
    registry: Reg.Data,
    writer: Writer,
    operators: map<nat, string>,
    readers: map<nat, string>,
    built: map<string, Build>)

  const INIT := State(Empty(), Empty(), None, Reg.EMPTY, Idle, map[], map[], map[])

  function OfVersion(v: string): Chunk -> bool {
    (c: Chunk) => c.indexVersion == v
  }

  function ItemOfVersion(v: string): VS.Item -> bool {
    (i: VS.Item) => i.chunk.indexVersion == v
  }

  /** What a version has in each store. */
  function VecOf(vec: VS.Items, v: string): VS.Items {
    Restrict(vec, ItemOfVersion(v))
  }

  function LexOf(lex: BM.Chunks, v: string): BM.Chunks {
    Restrict(lex, OfVersion(v))
  }

  /** The complete content of a build. */
  function AllVectors(b: Build): VS.Items
    requires |b.vectors| == |b.chunks|
  {
    VS.PutAll(Empty(), b.chunks, b.vectors)
  }

  function AllWords(b: Build): BM.Chunks {
    BM.PutAll(Empty(), b.chunks)
  }

  // ---- Steps ----

  /** The id was derived from the version, as every chunker does it. */
  ghost predicate Derived(hash: IdHash, c: Chunk) {
    exists d, o, cv :: c.chunkId == hash(d, o, cv, c.indexVersion)
  }

  ghost predicate GoodBuild(hash: IdHash, v: string, b: Build) {
    && |b.vectors| == |b.chunks|
    && forall i :: 0 <= i < |b.chunks| ==> b.chunks[i].indexVersion == v && Derived(hash, b.chunks[i])
  }

  /** No chunk of the version is stored, and it was never completed. */
  ghost predicate Fresh(s: State, v: string) {
    v !in s.built && VecOf(s.vec, v) == Empty() && LexOf(s.lex, v) == Empty()
  }

  /** `Stop` ends the offline job where it is, finished or failed, and `Abandon` an operator's promotion. */
  datatype Step =
    | Start(version: string, build: Build, activate: bool)
    | PutVector
    | PutWord
    | NextPhase
    | RecordBuilt
    | FlipAlias(version: string)
    | ActivateRegistry(version: string)
    | Stop
    | PromoteFlip(operator: nat, version: string)
    | PromoteRegister(operator: nat, version: string)
    | Abandon(operator: nat)
    | Resolve(reader: nat)
    | Leave(reader: nat)

  ghost predicate Enabled(hash: IdHash, s: State, step: Step) {
    match step
    case Start(v, b, _) => s.writer.Idle? && Fresh(s, v) && GoodBuild(hash, v, b)
    case PutVector => CanPutVector(s.writer)
    case PutWord => CanPutWord(s.writer)
    case NextPhase => s.writer.FillingVectors? && s.writer.done == |s.writer.build.chunks|
    case RecordBuilt => s.writer.FillingWords? && s.writer.done == |s.writer.build.chunks|
    case FlipAlias(v) => s.writer.Indexed? && s.writer.activate && s.writer.build.chunks != [] && s.writer.version == v
    case ActivateRegistry(v) => s.writer == Flipped(v)
    case Stop => !s.writer.Idle?
    case PromoteFlip(o, v) => o !in s.operators
    case PromoteRegister(o, v) => o in s.operators && s.operators[o] == v
    case Abandon(o) => o in s.operators
    case Resolve(_) => s.alias.Some?
    case Leave(r) => r in s.readers
  }

  /** One more chunk stored. */
  function Advance(w: Writer): Writer {
    match w
    case FillingVectors(v, b, activate, n) => FillingVectors(v, b, activate, n + 1)
    case FillingWords(v, b, activate, n) => FillingWords(v, b, activate, n + 1)
    case _ => w
  }

  predicate CanPutVector(w: Writer) {
    w.FillingVectors? && w.done < |w.build.chunks| == |w.build.vectors|
  }

  predicate CanPutWord(w: Writer) {
    w.FillingWords? && w.done < |w.build.chunks|
  }

  function AfterPutVector(s: State): State
    requires CanPutVector(s.writer)
  {
    var c, x := s.writer.build.chunks[s.writer.done], s.writer.build.vectors[s.writer.done];
    s.(vec := Put(s.vec, c.chunkId, VS.Item(c, x)), writer := Advance(s.writer))
  }

  function AfterPutWord(s: State): State
    requires CanPutWord(s.writer)
  {
    var c := s.writer.build.chunks[s.writer.done];
    s.(lex := Put(s.lex, c.chunkId, c), writer := Advance(s.writer))
  }

  /** The registry turns away a version it does not know, and the activation goes on: offline.py:110-113. */
  function Registered(data: Reg.Data, v: string): Reg.Data {
    if v in data.versions then Reg.Activated(data, v) else data
  }

  function Apply(s: State, step: Step): State {
    match step
    case Start(v, b, activate) =>
      s.(registry := Reg.Recorded(s.registry, v, Reg.Entry(Reg.Building, 0)),
         writer := FillingVectors(v, b, activate, 0))
    case PutVector => if CanPutVector(s.writer) then AfterPutVector(s) else s
    case PutWord => if CanPutWord(s.writer) then AfterPutWord(s) else s
    case NextPhase =>
      var w := s.writer;
      if w.FillingVectors? then s.(writer := FillingWords(w.version, w.build, w.activate, 0)) else s
    case RecordBuilt =>
      if s.writer.FillingWords? then
        var w := s.writer;
        s.(registry := Reg.Recorded(s.registry, w.version, Reg.Entry(Reg.Built, |w.build.chunks|)),
           built := s.built[w.version := w.build],
           writer := Indexed(w.version, w.build, w.activate))
      else s
    case FlipAlias(v) => s.(alias := Some(v), writer := Flipped(v))
    case ActivateRegistry(v) => s.(registry := Registered(s.registry, v), writer := Idle)
    case Stop => s.(writer := Idle)
    case PromoteFlip(o, v) => s.(alias := Some(v), operators := s.operators[o := v])
    case PromoteRegister(o, v) => s.(registry := Registered(s.registry, v), operators := s.operators - {o})
    case Abandon(o) => s.(operators := s.operators - {o})
    case Resolve(r) => if s.alias.Some? then s.(readers := s.readers[r := s.alias.value]) else s
    case Leave(r) => s.(readers := s.readers - {r})
  }

  /** The version an activation gives the alias, and the one it gives the registry: two steps, offline.py:106-114. */
  function FlipOf(step: Step): Option<string> {
    if step.FlipAlias? || step.PromoteFlip? then Some(step.version) else None
  }

  function RegisterOf(step: Step): Option<string> {
    if step.ActivateRegistry? || step.PromoteRegister? then Some(step.version) else None
  }

  /** A history: every step enabled when it is taken. */
  ghost predicate Runs(hash: IdHash, s: State, steps: seq<Step>)
    decreases |steps|
  {
    steps == [] || (Enabled(hash, s, steps[0]) && Runs(hash, Apply(s, steps[0]), steps[1..]))
  }

  function After(s: State, steps: seq<Step>): State
    decreases |steps|
  {
    if steps == [] then s else After(Apply(s, steps[0]), steps[1..])
  }

  // ---- The invariant ----

  /** Each store files a chunk under its own id, and ids are derived from versions. */
  ghost predicate FiledVectors(hash: IdHash, items: VS.Items) {
    forall id :: id in items.at ==> FiledAs(hash, items.at[id].chunk, id)
  }

  ghost predicate FiledWords(hash: IdHash, chunks: BM.Chunks) {
    forall id :: id in chunks.at ==> FiledAs(hash, chunks.at[id], id)
  }

  ghost predicate FiledAs(hash: IdHash, c: Chunk, id: string) {
    c.chunkId == id && Derived(hash, c)
  }

  /** The version is complete in both stores. */
  ghost predicate Complete(vec: VS.Items, lex: BM.Chunks, v: string, b: Build) {
    |b.vectors| == |b.chunks| && VecOf(vec, v) == AllVectors(b) && LexOf(lex, v) == AllWords(b)
  }

  /** What the stores hold of the version being built. */
  ghost predicate Progress(hash: IdHash, vec: VS.Items, lex: BM.Chunks, writer: Writer, built: map<string, Build>) {
    match writer
    case FillingVectors(v, b, _, done) =>
      && GoodBuild(hash, v, b) && done <= |b.chunks| && v !in built
      && VecOf(vec, v) == VS.PutAll(Empty(), b.chunks[..done], b.vectors[..done]) && LexOf(lex, v) == Empty()
    case FillingWords(v, b, _, done) =>
      && GoodBuild(hash, v, b) && done <= |b.chunks| && v !in built
      && VecOf(vec, v) == AllVectors(b) && LexOf(lex, v) == BM.PutAll(Empty(), b.chunks[..done])
    case _ => true
  }

  /** Every completed version is complete. */
  ghost predicate AllComplete(vec: VS.Items, lex: BM.Chunks, built: map<string, Build>) {
    forall v :: v in built ==> Complete(vec, lex, v, built[v])
  }

  ghost predicate Contents(hash: IdHash, vec: VS.Items, lex: BM.Chunks, writer: Writer, built: map<string, Build>) {
    && FiledVectors(hash, vec) && FiledWords(hash, lex)
    && Progress(hash, vec, lex, writer, built)
    && AllComplete(vec, lex, built)
  }

  /** What was completed is recorded, as is the active version, and no other version has the active status. */
  ghost predicate Recording(registry: Reg.Data, built: map<string, Build>) {
    && built.Keys <= registry.versions.Keys
    && (registry.active.Some? ==> registry.active.value in registry.versions)
    && forall v :: v in registry.versions && registry.versions[v].status == Reg.Active ==> registry.active == Some(v)
  }

  /** The job works on a recorded version that is not completed before it is indexed, and is from then on. */
  ghost predicate Employed(writer: Writer, registry: Reg.Data, built: map<string, Build>) {
    && (writer.FillingVectors? || writer.FillingWords? ==>
          writer.version in registry.versions && writer.version !in built)
    && (writer.Indexed? || writer.Flipped? ==> writer.version in built)
  }

  ghost predicate Inv(hash: IdHash, s: State) {
    && Contents(hash, s.vec, s.lex, s.writer, s.built)
    && Recording(s.registry, s.built) && Employed(s.writer, s.registry, s.built)
  }

  // ---- Promotions of completed versions ----

  /** What a promotion must respect, and nothing checks: the version was completed (src/rag/jobs/reindex.py:34-37). */
  predicate Sanctioned(s: State, step: Step) {
    step.PromoteFlip? ==> step.version in s.built
  }

  predicate AllSanctioned(s: State, steps: seq<Step>)
    decreases |steps|
  {
    steps == [] || (Sanctioned(s, steps[0]) && AllSanctioned(Apply(s, steps[0]), steps[1..]))
  }

  /** Whatever is published, resolved, activated or being activated was completed. */
  ghost predicate Known(alias: Option<string>, active: Option<string>, operators: map<nat, string>,
                        readers: map<nat, string>, built: map<string, Build>)
  {
    && (alias.Some? ==> alias.value in built)
    && (active.Some? ==> active.value in built)
    && (forall o :: o in operators ==> operators[o] in built)
    && (forall r :: r in readers ==> readers[r] in built)
  }

  ghost predicate Vetted(s: State) {
    Known(s.alias, s.registry.active, s.operators, s.readers, s.built) && Reg.OneActive(s.registry)
  }

  /** Ids of different versions differ. */
  lemma SameIdSameVersion(hash: IdHash, c: Chunk, c': Chunk)
    requires SeparatesVersions(hash) && Derived(hash, c) && Derived(hash, c') && c.chunkId == c'.chunkId
    ensures c.indexVersion == c'.indexVersion
  {
  }

  lemma FiledVersion(hash: IdHash, stored: Chunk, c: Chunk)
    requires SeparatesVersions(hash) && FiledAs(hash, stored, c.chunkId) && Derived(hash, c)
    ensures stored.indexVersion == c.indexVersion
  {
    SameIdSameVersion(hash, stored, c);
  }

  lemma PutFiledVector(hash: IdHash, items: VS.Items, item: VS.Item)
    requires FiledVectors(hash, items) && Derived(hash, item.chunk)
    ensures FiledVectors(hash, Put(items, item.chunk.chunkId, item))
  {
  }

  lemma PutFiledWord(hash: IdHash, chunks: BM.Chunks, c: Chunk)
    requires FiledWords(hash, chunks) && Derived(hash, c)
    ensures FiledWords(hash, Put(chunks, c.chunkId, c))
  {
  }

  /** Storing a chunk of version `v` writes it to the content of `v` and touches no other version. */
  lemma PutVectorContent(hash: IdHash, items: VS.Items, item: VS.Item, w: string)
    requires SeparatesVersions(hash) && FiledVectors(hash, items) && Derived(hash, item.chunk)
    ensures var before := Restrict(items, ItemOfVersion(w));
            Restrict(Put(items, item.chunk.chunkId, item), ItemOfVersion(w)) ==
              if item.chunk.indexVersion == w then Put(before, item.chunk.chunkId, item) else before
  {
    var id := item.chunk.chunkId;
    if id in items.at {
      FiledVersion(hash, items.at[id].chunk, item.chunk);
    }
    if item.chunk.indexVersion == w {
      RestrictPutIn(items, id, item, ItemOfVersion(w));
    } else {
      RestrictPutOut(items, id, item, ItemOfVersion(w));
    }
  }

  lemma PutWordContent(hash: IdHash, chunks: BM.Chunks, c: Chunk, w: string)
    requires SeparatesVersions(hash) && FiledWords(hash, chunks) && Derived(hash, c)
    ensures var before := Restrict(chunks, OfVersion(w));
            Restrict(Put(chunks, c.chunkId, c), OfVersion(w)) ==
              if c.indexVersion == w then Put(before, c.chunkId, c) else before
  {
    if c.chunkId in chunks.at {
      FiledVersion(hash, chunks.at[c.chunkId], c);
    }
    if c.indexVersion == w {
      RestrictPutIn(chunks, c.chunkId, c, OfVersion(w));
    } else {
      RestrictPutOut(chunks, c.chunkId, c, OfVersion(w));
    }
  }

  lemma {:induction false} PutAllSnocVectors(items: VS.Items, chunks: seq<Chunk>, vectors: seq<VS.Vector>, c: Chunk,
                                             x: VS.Vector)
    requires |chunks| == |vectors|
    ensures VS.PutAll(items, chunks + [c], vectors + [x]) ==
              Put(VS.PutAll(items, chunks, vectors), c.chunkId, VS.Item(c, x))
    decreases |chunks|
  {
    if chunks == [] {
      assert ([] + [c])[0] == c && ([] + [x])[0] == x;
    } else {
      assert (chunks + [c])[1..] == chunks[1..] + [c] && (vectors + [x])[1..] == vectors[1..] + [x];
      PutAllSnocVectors(Put(items, chunks[0].chunkId, VS.Item(chunks[0], vectors[0])), chunks[1..], vectors[1..], c, x);
    }
  }

  lemma {:induction false} PutAllSnocWords(chunks: BM.Chunks, batch: seq<Chunk>, c: Chunk)
    ensures BM.PutAll(chunks, batch + [c]) == Put(BM.PutAll(chunks, batch), c.chunkId, c)
    decreases |batch|
  {
    if batch == [] {
      assert ([] + [c])[0] == c;
    } else {
      assert (batch + [c])[1..] == batch[1..] + [c];
      PutAllSnocWords(Put(chunks, batch[0].chunkId, batch[0]), batch[1..], c);
    }
  }

  // ---- Every step keeps the invariant ----

  lemma InitInv(hash: IdHash)
    ensures Inv(hash, INIT) && Vetted(INIT)
  {
  }

  ghost predicate SameVectors(vec: VS.Items, vec': VS.Items, w: string) {
    VecOf(vec', w) == VecOf(vec, w)
  }

  ghost predicate SameWords(lex: BM.Chunks, lex': BM.Chunks, w: string) {
    LexOf(lex', w) == LexOf(lex, w)
  }

  /** One more vector: what it does to each version. */
  lemma OneMoreVector(hash: IdHash, vec: VS.Items, v: string, b: Build, n: nat) returns (vec': VS.Items)
    requires SeparatesVersions(hash) && FiledVectors(hash, vec) && GoodBuild(hash, v, b) && n < |b.chunks|
    requires VecOf(vec, v) == VS.PutAll(Empty(), b.chunks[..n], b.vectors[..n])
    ensures MoreVectors(hash, vec, vec', v, b, n)
  {
    var item := VS.Item(b.chunks[n], b.vectors[n]);
    vec' := Put(vec, b.chunks[n].chunkId, item);
    PutFiledVector(hash, vec, item);
    PutVectorContent(hash, vec, item, v);
    TakeSnoc(b.chunks, n);
    TakeSnoc(b.vectors, n);
    PutAllSnocVectors(Empty(), b.chunks[..n], b.vectors[..n], b.chunks[n], b.vectors[n]);
    forall w | w != v
      ensures SameVectors(vec, vec', w)
    {
      PutVectorContent(hash, vec, item, w);
    }
  }

  /** The `n`-th vector of the build is stored, and no other version has changed. */
  ghost predicate MoreVectors(hash: IdHash, vec: VS.Items, vec': VS.Items, v: string, b: Build, n: nat)
    requires n < |b.chunks| == |b.vectors|
  {
    && vec' == Put(vec, b.chunks[n].chunkId, VS.Item(b.chunks[n], b.vectors[n])) && FiledVectors(hash, vec')
    && VecOf(vec', v) == VS.PutAll(Empty(), b.chunks[..n + 1], b.vectors[..n + 1])
    && forall w :: w != v ==> SameVectors(vec, vec', w)
  }

  lemma MoreVectorsSame(hash: IdHash, vec: VS.Items, vec': VS.Items, v: string, b: Build, n: nat,
                        built: map<string, Build>)
    requires n < |b.chunks| == |b.vectors| && MoreVectors(hash, vec, vec', v, b, n) && v !in built
    ensures forall w :: w in built ==> SameVectors(vec, vec', w)
  {
  }

  lemma CompleteAlike(vec: VS.Items, vec': VS.Items, lex: BM.Chunks, lex': BM.Chunks, built: map<string, Build>)
    requires AllComplete(vec, lex, built)
    requires forall w :: w in built ==> SameVectors(vec, vec', w) && SameWords(lex, lex', w)
    ensures AllComplete(vec', lex', built)
  {
    forall w | w in built
      ensures Complete(vec', lex', w, built[w])
    {
      assert Complete(vec, lex, w, built[w]);
    }
  }

  lemma VectorProgress(hash: IdHash, vec: VS.Items, vec': VS.Items, lex: BM.Chunks, writer: Writer,
                       built: map<string, Build>)
    requires Progress(hash, vec, lex, writer, built) && writer.FillingVectors?
    requires writer.done < |writer.build.chunks| == |writer.build.vectors|
    requires MoreVectors(hash, vec, vec', writer.version, writer.build, writer.done)
    ensures FiledVectors(hash, vec') && Progress(hash, vec', lex, Advance(writer), built) && writer.version !in built
  {
  }

  lemma VectorKeepsContents(hash: IdHash, vec: VS.Items, vec': VS.Items, lex: BM.Chunks, writer: Writer,
                            built: map<string, Build>)
    requires Contents(hash, vec, lex, writer, built) && writer.FillingVectors?
    requires writer.done < |writer.build.chunks| == |writer.build.vectors|
    requires MoreVectors(hash, vec, vec', writer.version, writer.build, writer.done)
    ensures Contents(hash, vec', lex, Advance(writer), built)
    ensures forall w :: w in built ==> SameVectors(vec, vec', w)
  {
    VectorProgress(hash, vec, vec', lex, writer, built);
    MoreVectorsSame(hash, vec, vec', writer.version, writer.build, writer.done, built);
    CompleteAlike(vec, vec', lex, lex, built);
  }

  lemma OneMoreWord(hash: IdHash, lex: BM.Chunks, v: string, b: Build, n: nat) returns (lex': BM.Chunks)
    requires SeparatesVersions(hash) && FiledWords(hash, lex) && GoodBuild(hash, v, b) && n < |b.chunks|
    requires LexOf(lex, v) == BM.PutAll(Empty(), b.chunks[..n])
    ensures MoreWords(hash, lex, lex', v, b, n)
  {
    var c := b.chunks[n];
    lex' := Put(lex, c.chunkId, c);
    PutFiledWord(hash, lex, c);
    PutWordContent(hash, lex, c, v);
    TakeSnoc(b.chunks, n);
    PutAllSnocWords(Empty(), b.chunks[..n], c);
    forall w | w != v
      ensures SameWords(lex, lex', w)
    {
      PutWordContent(hash, lex, c, w);
    }
  }

  ghost predicate MoreWords(hash: IdHash, lex: BM.Chunks, lex': BM.Chunks, v: string, b: Build, n: nat)
    requires n < |b.chunks|
  {
    && lex' == Put(lex, b.chunks[n].chunkId, b.chunks[n]) && FiledWords(hash, lex')
    && LexOf(lex', v) == BM.PutAll(Empty(), b.chunks[..n + 1])
    && forall w :: w != v ==> SameWords(lex, lex', w)
  }

  lemma MoreWordsSame(hash: IdHash, lex: BM.Chunks, lex': BM.Chunks, v: string, b: Build, n: nat,
                      built: map<string, Build>)
    requires n < |b.chunks| && MoreWords(hash, lex, lex', v, b, n) && v !in built
    ensures forall w :: w in built ==> SameWords(lex, lex', w)
  {
  }

  lemma WordProgress(hash: IdHash, vec: VS.Items, lex: BM.Chunks, lex': BM.Chunks, writer: Writer,
                     built: map<string, Build>)
    requires Progress(hash, vec, lex, writer, built) && writer.FillingWords? && writer.done < |writer.build.chunks|
    requires MoreWords(hash, lex, lex', writer.version, writer.build, writer.done)
    ensures FiledWords(hash, lex') && Progress(hash, vec, lex', Advance(writer), built) && writer.version !in built
  {
  }

  lemma WordKeepsContents(hash: IdHash, vec: VS.Items, lex: BM.Chunks, lex': BM.Chunks, writer: Writer,
                          built: map<string, Build>)
    requires Contents(hash, vec, lex, writer, built) && writer.FillingWords? && writer.done < |writer.build.chunks|
    requires MoreWords(hash, lex, lex', writer.version, writer.build, writer.done)
    ensures Contents(hash, vec, lex', Advance(writer), built)
    ensures forall w :: w in built ==> SameWords(lex, lex', w)
  {
    WordProgress(hash, vec, lex, lex', writer, built);
    MoreWordsSame(hash, lex, lex', writer.version, writer.build, writer.done, built);
    CompleteAlike(vec, vec, lex, lex', built);
  }

  lemma PhaseKeepsContents(hash: IdHash, vec: VS.Items, lex: BM.Chunks, v: string, b: Build, activate: bool,
                           built: map<string, Build>)
    requires Contents(hash, vec, lex, FillingVectors(v, b, activate, |b.chunks|), built)
    ensures Contents(hash, vec, lex, FillingWords(v, b, activate, 0), built)
  {
    TakeAll(b.chunks, |b.chunks|);
    TakeAll(b.vectors, |b.chunks|);
  }

  lemma OneMoreComplete(vec: VS.Items, lex: BM.Chunks, built: map<string, Build>, v: string, b: Build)
    requires AllComplete(vec, lex, built) && Complete(vec, lex, v, b)
    ensures AllComplete(vec, lex, built[v := b])
  {
  }

  lemma NowComplete(vec: VS.Items, lex: BM.Chunks, v: string, b: Build)
    requires |b.vectors| == |b.chunks| && VecOf(vec, v) == AllVectors(b)
    requires LexOf(lex, v) == BM.PutAll(Empty(), b.chunks[..|b.chunks|])
    ensures Complete(vec, lex, v, b)
  {
    TakeAll(b.chunks, |b.chunks|);
  }

  lemma RecordKeepsContents(hash: IdHash, vec: VS.Items, lex: BM.Chunks, v: string, b: Build, activate: bool,
                            built: map<string, Build>)
    requires Contents(hash, vec, lex, FillingWords(v, b, activate, |b.chunks|), built)
    ensures Contents(hash, vec, lex, Indexed(v, b, activate), built[v := b])
  {
    NowComplete(vec, lex, v, b);
    OneMoreComplete(vec, lex, built, v, b);
  }

  lemma StartKeepsContents(hash: IdHash, vec: VS.Items, lex: BM.Chunks, v: string, b: Build, activate: bool,
                           built: map<string, Build>)
    requires Contents(hash, vec, lex, Idle, built) && GoodBuild(hash, v, b) && v !in built
    requires VecOf(vec, v) == Empty() && LexOf(lex, v) == Empty()
    ensures Contents(hash, vec, lex, FillingVectors(v, b, activate, 0), built)
  {
    assert b.chunks[..0] == [] && b.vectors[..0] == [];
  }

  /** A writer that fills nothing asks nothing of the stores. */
  lemma QuietKeepsContents(hash: IdHash, vec: VS.Items, lex: BM.Chunks, writer: Writer, writer': Writer,
                           built: map<string, Build>)
    requires Contents(hash, vec, lex, writer, built) && !writer'.FillingVectors? && !writer'.FillingWords?
    ensures Contents(hash, vec, lex, writer', built)
  {
  }

  /** A step leaves what a version holds in both stores as it was. */
  ghost predicate Untouched(s: State, s': State, v: string) {
    SameVectors(s.vec, s'.vec, v) && SameWords(s.lex, s'.lex, v)
  }

  lemma InVectors(hash: IdHash, vec: VS.Items, lex: BM.Chunks, writer: Writer, built: map<string, Build>)
    requires Contents(hash, vec, lex, writer, built) && CanPutVector(writer)
    ensures FiledVectors(hash, vec) && GoodBuild(hash, writer.version, writer.build)
            && writer.done < |writer.build.chunks|
    ensures VecOf(vec, writer.version) ==
              VS.PutAll(Empty(), writer.build.chunks[..writer.done], writer.build.vectors[..writer.done])
    ensures writer.version !in built
  {
  }

  lemma ContentsAfterVector(hash: IdHash, vec: VS.Items, lex: BM.Chunks, writer: Writer, built: map<string, Build>)
    returns (vec': VS.Items)
    requires SeparatesVersions(hash) && Contents(hash, vec, lex, writer, built) && CanPutVector(writer)
    ensures var c, x := writer.build.chunks[writer.done], writer.build.vectors[writer.done];
            vec' == Put(vec, c.chunkId, VS.Item(c, x))
    ensures Contents(hash, vec', lex, Advance(writer), built)
    ensures forall v :: v in built ==> SameVectors(vec, vec', v)
  {
    InVectors(hash, vec, lex, writer, built);
    vec' := OneMoreVector(hash, vec, writer.version, writer.build, writer.done);
    VectorKeepsContents(hash, vec, vec', lex, writer, built);
  }

  lemma InWords(hash: IdHash, vec: VS.Items, lex: BM.Chunks, writer: Writer, built: map<string, Build>)
    requires Contents(hash, vec, lex, writer, built) && CanPutWord(writer)
    ensures FiledWords(hash, lex) && GoodBuild(hash, writer.version, writer.build)
            && writer.done < |writer.build.chunks|
    ensures LexOf(lex, writer.version) == BM.PutAll(Empty(), writer.build.chunks[..writer.done])
            && writer.version !in built
  {
  }

  lemma ContentsAfterWord(hash: IdHash, vec: VS.Items, lex: BM.Chunks, writer: Writer, built: map<string, Build>)
    returns (lex': BM.Chunks)
    requires SeparatesVersions(hash) && Contents(hash, vec, lex, writer, built) && CanPutWord(writer)
    ensures lex' == Put(lex, writer.build.chunks[writer.done].chunkId, writer.build.chunks[writer.done])
    ensures Contents(hash, vec, lex', Advance(writer), built)
    ensures forall v :: v in built ==> SameWords(lex, lex', v)
  {
    InWords(hash, vec, lex, writer, built);
    lex' := OneMoreWord(hash, lex, writer.version, writer.build, writer.done);
    WordKeepsContents(hash, vec, lex, lex', writer, built);
  }

  /** Between the two states the stores stay in order, and what completed versions hold stays as it is. */
  ghost predicate KeepsContents(hash: IdHash, s: State, s': State) {
    Contents(hash, s'.vec, s'.lex, s'.writer, s'.built) && forall v :: v in s.built ==> Untouched(s, s', v)
  }

  lemma StoresAlike(hash: IdHash, s: State, s': State)
    requires s'.vec == s.vec && s'.lex == s.lex && Contents(hash, s.vec, s.lex, s'.writer, s'.built)
    ensures KeepsContents(hash, s, s')
  {
  }

  lemma PutVectorKeepsContents(hash: IdHash, s: State)
    requires SeparatesVersions(hash) && Contents(hash, s.vec, s.lex, s.writer, s.built) && CanPutVector(s.writer)
    ensures KeepsContents(hash, s, AfterPutVector(s))
  {
    var vec' := ContentsAfterVector(hash, s.vec, s.lex, s.writer, s.built);
  }

  lemma PutWordKeepsContents(hash: IdHash, s: State)
    requires SeparatesVersions(hash) && Contents(hash, s.vec, s.lex, s.writer, s.built) && CanPutWord(s.writer)
    ensures KeepsContents(hash, s, AfterPutWord(s))
  {
    var lex' := ContentsAfterWord(hash, s.vec, s.lex, s.writer, s.built);
  }

  predicate ChangesPhase(step: Step) {
    step.Start? || step.NextPhase? || step.RecordBuilt?
  }

  lemma PhasesKeepContents(hash: IdHash, s: State, step: Step)
    requires Contents(hash, s.vec, s.lex, s.writer, s.built) && Enabled(hash, s, step) && ChangesPhase(step)
    ensures var s' := Apply(s, step);
            s'.vec == s.vec && s'.lex == s.lex && Contents(hash, s.vec, s.lex, s'.writer, s'.built)
  {
    var w := s.writer;
    match step
    case Start(v, b, activate) => StartKeepsContents(hash, s.vec, s.lex, v, b, activate, s.built);
    case NextPhase => PhaseKeepsContents(hash, s.vec, s.lex, w.version, w.build, w.activate, s.built);
    case RecordBuilt => RecordKeepsContents(hash, s.vec, s.lex, w.version, w.build, w.activate, s.built);
  }

  /** The other steps touch neither store, and leave no writer filling one that was not. */
  lemma QuietStep(hash: IdHash, s: State, step: Step)
    requires Enabled(hash, s, step) && !step.PutVector? && !step.PutWord? && !ChangesPhase(step)
    ensures var s' := Apply(s, step);
            && s'.vec == s.vec && s'.lex == s.lex && s'.built == s.built
            && (s'.writer == s.writer || (!s'.writer.FillingVectors? && !s'.writer.FillingWords?))
  {
  }

  /** No step changes what a completed version holds, and every step keeps the stores in order. */
  lemma StepKeepsContents(hash: IdHash, s: State, step: Step, s': State)
    requires SeparatesVersions(hash) && Contents(hash, s.vec, s.lex, s.writer, s.built)
    requires Enabled(hash, s, step) && s' == Apply(s, step)
    ensures KeepsContents(hash, s, s')
  {
    if step.PutVector? {
      PutVectorKeepsContents(hash, s);
    } else if step.PutWord? {
      PutWordKeepsContents(hash, s);
    } else if ChangesPhase(step) {
      PhasesKeepContents(hash, s, step);
      StoresAlike(hash, s, s');
    } else {
      QuietStep(hash, s, step);
      if s'.writer != s.writer {
        QuietKeepsContents(hash, s.vec, s.lex, s.writer, s'.writer, s.built);
      }
      StoresAlike(hash, s, s');
    }
  }

  lemma RecordingKeepsOneActive(data: Reg.Data, v: string, entry: Reg.Entry)
    requires Reg.OneActive(data) && data.active != Some(v) && entry.status != Reg.Active
    ensures Reg.OneActive(Reg.Recorded(data, v, entry))
  {
  }

  lemma ActivatingKeepsOneActive(data: Reg.Data, v: string)
    requires v in data.versions
    ensures Reg.OneActive(Reg.Activated(data, v)) && Reg.Activated(data, v).versions.Keys == data.versions.Keys
  {
  }

  lemma StepKeepsBooks(hash: IdHash, s: State, step: Step, s': State)
    requires Recording(s.registry, s.built) && Employed(s.writer, s.registry, s.built)
    requires Enabled(hash, s, step) && s' == Apply(s, step)
    ensures Recording(s'.registry, s'.built) && Employed(s'.writer, s'.registry, s'.built)
  {
    if step.ActivateRegistry? || step.PromoteRegister? {
      RegisteringKeepsBooks(s.registry, step.version, s.built);
    }
  }

  lemma RegisteringKeepsBooks(data: Reg.Data, v: string, built: map<string, Build>)
    requires Recording(data, built)
    ensures Recording(Registered(data, v), built) && Registered(data, v).versions.Keys == data.versions.Keys
  {
    if v in data.versions {
      ActivatingKeepsOneActive(data, v);
    }
  }

  lemma StartVetted(hash: IdHash, s: State, step: Step)
    requires Vetted(s) && Enabled(hash, s, step) && step.Start?
    ensures Vetted(Apply(s, step))
  {
    RecordingKeepsOneActive(s.registry, step.version, Reg.Entry(Reg.Building, 0));
  }

  lemma RecordVetted(hash: IdHash, s: State)
    requires Vetted(s) && Employed(s.writer, s.registry, s.built) && Enabled(hash, s, RecordBuilt)
    ensures Vetted(Apply(s, RecordBuilt))
  {
    RecordingKeepsOneActive(s.registry, s.writer.version, Reg.Entry(Reg.Built, |s.writer.build.chunks|));
  }

  lemma RegisterVetted(hash: IdHash, s: State, step: Step)
    requires Vetted(s) && Employed(s.writer, s.registry, s.built) && Enabled(hash, s, step)
    requires step.ActivateRegistry? || step.PromoteRegister?
    ensures Vetted(Apply(s, step))
  {
    if step.version in s.registry.versions {
      ActivatingKeepsOneActive(s.registry, step.version);
    }
  }

  lemma FlipVetted(hash: IdHash, s: State, step: Step)
    requires Vetted(s) && Employed(s.writer, s.registry, s.built) && Enabled(hash, s, step) && Sanctioned(s, step)
    requires step.FlipAlias? || step.PromoteFlip?
    ensures Vetted(Apply(s, step))
  {
  }

  lemma OthersVetted(hash: IdHash, s: State, step: Step)
    requires Vetted(s) && Enabled(hash, s, step)
    requires !step.Start? && !step.RecordBuilt? && FlipOf(step).None? && RegisterOf(step).None?
    ensures Vetted(Apply(s, step))
  {
  }

  /** As long as only completed versions are promoted, only completed versions are published or held. */
  lemma StepKeepsVetted(hash: IdHash, s: State, step: Step)
    requires Inv(hash, s) && Vetted(s) && Enabled(hash, s, step) && Sanctioned(s, step)
    ensures Vetted(Apply(s, step))
  {
    if step.Start? {
      StartVetted(hash, s, step);
    } else if step.RecordBuilt? {
      RecordVetted(hash, s);
    } else if step.ActivateRegistry? || step.PromoteRegister? {
      RegisterVetted(hash, s, step);
    } else if step.FlipAlias? || step.PromoteFlip? {
      FlipVetted(hash, s, step);
    } else {
      OthersVetted(hash, s, step);
    }
  }

  lemma StepKeepsBuilt(hash: IdHash, s: State, step: Step)
    requires Employed(s.writer, s.registry, s.built) && Enabled(hash, s, step)
    ensures forall v :: v in s.built ==> v in Apply(s, step).built && Apply(s, step).built[v] == s.built[v]
  {
  }

  /** A version keeps its completed build, and what both stores hold of it. */
  ghost predicate KeptFrom(s: State, s': State, v: string)
    requires v in s.built
  {
    v in s'.built && s'.built[v] == s.built[v] && Untouched(s, s', v)
  }

  lemma KeptTransitive(a: State, b: State, c: State, v: string)
    requires v in a.built && KeptFrom(a, b, v) && KeptFrom(b, c, v)
    ensures KeptFrom(a, c, v)
  {
  }

  lemma StepKeepsInv(hash: IdHash, s: State, step: Step)
    requires SeparatesVersions(hash) && Inv(hash, s) && Enabled(hash, s, step)
    ensures Inv(hash, Apply(s, step))
    ensures forall v :: v in s.built ==> KeptFrom(s, Apply(s, step), v)
  {
    StepKeepsContents(hash, s, step, Apply(s, step));
    StepKeepsBooks(hash, s, step, Apply(s, step));
    StepKeepsBuilt(hash, s, step);
    forall v | v in s.built
      ensures KeptFrom(s, Apply(s, step), v)
    {
      assert Untouched(s, Apply(s, step), v);
    }
  }

  // ---- Whole histories ----

  /** Over any history from the start, whatever is promoted, what was completed stays as it is. */
  lemma {:induction false} RunKeepsInv(hash: IdHash, s: State, steps: seq<Step>)
    requires SeparatesVersions(hash) && Inv(hash, s) && Runs(hash, s, steps)
    ensures Inv(hash, After(s, steps))
    ensures forall v :: v in s.built ==> KeptFrom(s, After(s, steps), v)
    decreases |steps|
  {
    var end := After(s, steps);
    if steps != [] {
      var next := Apply(s, steps[0]);
      StepKeepsInv(hash, s, steps[0]);
      assert end == After(next, steps[1..]);
      RunKeepsInv(hash, next, steps[1..]);
      forall v | v in s.built
        ensures KeptFrom(s, end, v)
      {
        assert KeptFrom(s, next, v);
        KeptTransitive(s, next, end, v);
      }
    } else {
      assert end == s;
      forall v | v in s.built
        ensures KeptFrom(s, s, v)
      {
      }
    }
  }

  lemma {:induction false} RunKeepsVetted(hash: IdHash, s: State, steps: seq<Step>)
    requires SeparatesVersions(hash) && Inv(hash, s) && Vetted(s) && Runs(hash, s, steps) && AllSanctioned(s, steps)
    ensures Vetted(After(s, steps))
    decreases |steps|
  {
    if steps != [] {
      StepKeepsInv(hash, s, steps[0]);
      StepKeepsVetted(hash, s, steps[0]);
      RunKeepsVetted(hash, Apply(s, steps[0]), steps[1..]);
    }
  }

  /**
   * Blue/green safety. Promotions were of completed versions so far: then a reader that resolved the alias holds a
   * version whose complete chunk set is in both stores, and that is what both stores hold of it ever after, whatever
   * the writer and the operators do next.
   */
  lemma ReaderSeesCompleteVersion(hash: IdHash, before: seq<Step>, r: nat, after: seq<Step>)
    requires SeparatesVersions(hash) && Runs(hash, INIT, before) && AllSanctioned(INIT, before)
    requires r in After(INIT, before).readers && Runs(hash, After(INIT, before), after)
    ensures var s, s' := After(INIT, before), After(After(INIT, before), after);
            var v := s.readers[r];
            && v in s.built
            && Complete(s.vec, s.lex, v, s.built[v]) && Complete(s'.vec, s'.lex, v, s.built[v])
            && VecOf(s'.vec, v) == VecOf(s.vec, v) && LexOf(s'.lex, v) == LexOf(s.lex, v)
  {
    InitInv(hash);
    RunKeepsInv(hash, INIT, before);
    RunKeepsVetted(hash, INIT, before);
    var s := After(INIT, before);
    RunKeepsInv(hash, s, after);
    assert KeptFrom(s, After(s, after), s.readers[r]);
  }

  /** Every reader holds a version that was completed and is complete. */
  ghost predicate ReadersSafe(s: State) {
    forall r :: r in s.readers ==>
      s.readers[r] in s.built && Complete(s.vec, s.lex, s.readers[r], s.built[s.readers[r]])
  }

  /** However the history goes on, as long as only completed versions are promoted. */
  ghost predicate StaysSafe(hash: IdHash, s: State) {
    forall rest :: Runs(hash, s, rest) && AllSanctioned(s, rest) ==> ReadersSafe(After(s, rest))
  }

  lemma VettedStaysSafe(hash: IdHash, s: State)
    requires SeparatesVersions(hash) && Inv(hash, s) && Vetted(s)
    ensures StaysSafe(hash, s)
  {
    forall rest | Runs(hash, s, rest) && AllSanctioned(s, rest)
      ensures ReadersSafe(After(s, rest))
    {
      RunKeepsInv(hash, s, rest);
      RunKeepsVetted(hash, s, rest);
    }
  }

  /** The next reader holds what the alias names. */
  lemma UnbuiltIsSeen(hash: IdHash, s: State)
    requires s.alias.Some? && s.alias.value !in s.built
    ensures !StaysSafe(hash, s)
  {
    var seen := Apply(s, Resolve(0));
    assert [Resolve(0)][1..] == [] && Runs(hash, seen, []) && AllSanctioned(seen, []) && After(seen, []) == seen;
    assert Runs(hash, s, [Resolve(0)]) && AllSanctioned(s, [Resolve(0)]) && After(s, [Resolve(0)]) == seen;
    assert 0 in seen.readers && seen.readers[0] !in seen.built;
  }

  /**
   * The exact condition, step by step. From a state that is in order readers stay safe after a step, as long as only
   * completed versions are promoted from then on, exactly when the step promotes no other.
   */
  lemma PromotionExactly(hash: IdHash, s: State, step: Step)
    requires SeparatesVersions(hash) && Inv(hash, s) && Vetted(s) && Enabled(hash, s, step)
    ensures StaysSafe(hash, Apply(s, step)) <==> Sanctioned(s, step)
  {
    if Sanctioned(s, step) {
      StepKeepsInv(hash, s, step);
      StepKeepsVetted(hash, s, step);
      VettedStaysSafe(hash, Apply(s, step));
    } else {
      UnbuiltIsSeen(hash, Apply(s, step));
    }
  }

  /**
   * Complete means: the chunk last written under each id of the build is there, in both stores, and nothing else
   * is.
   */
  lemma CompleteMeansEveryChunk(vec: VS.Items, lex: BM.Chunks, v: string, b: Build, c: Chunk, i: nat)
    requires Complete(vec, lex, v, b) && i < |b.chunks| && b.chunks[i] == c
    requires forall j :: i < j < |b.chunks| ==> b.chunks[j].chunkId != c.chunkId
    ensures c.chunkId in VecOf(vec, v).at && VecOf(vec, v).at[c.chunkId] == VS.Item(c, b.vectors[i])
    ensures c.chunkId in LexOf(lex, v).at && LexOf(lex, v).at[c.chunkId] == c
    ensures VecOf(vec, v).at.Keys == LexOf(lex, v).at.Keys
    ensures forall id :: id in LexOf(lex, v).at <==> Names(b.chunks, id)
  {
    LastPutStays(Empty(), Empty(), b, i);
    SameKeys(Empty(), Empty(), b.chunks, b.vectors);
    forall id
      ensures id in LexOf(lex, v).at <==> Names(b.chunks, id)
    {
      PutIds(Empty(), b.chunks, id);
    }
  }

  /** Some chunk of the list has the id. */
  predicate Names(chunks: seq<Chunk>, id: string) {
    exists c <- chunks :: c.chunkId == id
  }

  lemma {:induction false} PutIds(lex: BM.Chunks, chunks: seq<Chunk>, id: string)
    ensures id in BM.PutAll(lex, chunks).at <==> id in lex.at || Names(chunks, id)
    decreases |chunks|
  {
    if chunks != [] {
      PutIds(Put(lex, chunks[0].chunkId, chunks[0]), chunks[1..], id);
      assert chunks == [chunks[0]] + chunks[1..];
    }
  }

  lemma {:induction false} SameKeys(vec: VS.Items, lex: BM.Chunks, chunks: seq<Chunk>, vectors: seq<VS.Vector>)
    requires |chunks| == |vectors| && vec.at.Keys == lex.at.Keys
    ensures VS.PutAll(vec, chunks, vectors).at.Keys == BM.PutAll(lex, chunks).at.Keys
    decreases |chunks|
  {
    if chunks != [] {
      SameKeys(Put(vec, chunks[0].chunkId, VS.Item(chunks[0], vectors[0])), Put(lex, chunks[0].chunkId, chunks[0]),
               chunks[1..], vectors[1..]);
    }
  }

  lemma {:induction false} LastPutStays(vec: VS.Items, lex: BM.Chunks, b: Build, i: nat)
    requires |b.vectors| == |b.chunks| && i < |b.chunks|
    requires forall j :: i < j < |b.chunks| ==> b.chunks[j].chunkId != b.chunks[i].chunkId
    ensures var c := b.chunks[i];
            var v, l := VS.PutAll(vec, b.chunks, b.vectors), BM.PutAll(lex, b.chunks);
            && c.chunkId in v.at && v.at[c.chunkId] == VS.Item(c, b.vectors[i])
            && c.chunkId in l.at && l.at[c.chunkId] == c
    decreases |b.chunks|
  {
    var c, x := b.chunks[0], b.vectors[0];
    var rest := Build(b.chunks[1..], b.vectors[1..]);
    var vec', lex' := Put(vec, c.chunkId, VS.Item(c, x)), Put(lex, c.chunkId, c);
    if i == 0 {
      NotOverwritten(vec', lex', rest, c.chunkId);
    } else {
      assert rest.chunks[i - 1] == b.chunks[i] && rest.vectors[i - 1] == b.vectors[i];
      LastPutStays(vec', lex', rest, i - 1);
    }
  }

  lemma {:induction false} NotOverwritten(vec: VS.Items, lex: BM.Chunks, b: Build, id: string)
    requires |b.vectors| == |b.chunks| && id in vec.at && id in lex.at
    requires forall j :: 0 <= j < |b.chunks| ==> b.chunks[j].chunkId != id
    ensures var v, l := VS.PutAll(vec, b.chunks, b.vectors), BM.PutAll(lex, b.chunks);
            id in v.at && v.at[id] == vec.at[id] && id in l.at && l.at[id] == lex.at[id]
    decreases |b.chunks|
  {
    if b.chunks != [] {
      var c, x := b.chunks[0], b.vectors[0];
      NotOverwritten(Put(vec, c.chunkId, VS.Item(c, x)), Put(lex, c.chunkId, c), Build(b.chunks[1..], b.vectors[1..]),
                     id);
    }
  }

  // ---- Dense search depends on the version alone ----

  /** The listing of the restriction is the listing, filtered. */
  function OnlyVersion(items: seq<VS.Item>, v: string): seq<VS.Item> {
    if items == [] then []
    else (if items[0].chunk.indexVersion == v then [items[0]] else []) + OnlyVersion(items[1..], v)
  }

  lemma {:induction false} HitsOfVersion(cosine: VS.Similarity, items: seq<VS.Item>, query: VS.Vector, p: Principal,
                                         v: string)
    requires v != ""
    ensures VS.DenseHits(cosine, items, query, p, Some(v)) ==
              VS.DenseHits(cosine, OnlyVersion(items, v), query, p, Some(v))
  {
    if items != [] {
      HitsOfVersion(cosine, items[1..], query, p, v);
      if items[0].chunk.indexVersion == v {
        assert ([items[0]] + OnlyVersion(items[1..], v))[1..] == OnlyVersion(items[1..], v);
      } else {
        assert OnlyVersion(items, v) == OnlyVersion(items[1..], v);
      }
    }
  }

  function ListKeys(keys: seq<string>, at: map<string, VS.Item>): seq<VS.Item>
    requires forall k <- keys :: k in at
  {
    if keys == [] then [] else [at[keys[0]]] + ListKeys(keys[1..], at)
  }

  lemma {:induction false} ListKeysKept(keys: seq<string>, at: map<string, VS.Item>, at': map<string, VS.Item>,
                                        v: string)
    requires forall k <- keys :: k in at
    requires forall k <- keys :: at[k].chunk.indexVersion == v ==> k in at' && at'[k] == at[k]
    ensures forall k <- KeepKeys(keys, at, ItemOfVersion(v)) :: k in at'
    ensures ListKeys(KeepKeys(keys, at, ItemOfVersion(v)), at') == OnlyVersion(ListKeys(keys, at), v)
  {
    if keys != [] {
      ListKeysKept(keys[1..], at, at', v);
      var rest := KeepKeys(keys[1..], at, ItemOfVersion(v));
      if at[keys[0]].chunk.indexVersion == v {
        assert ([keys[0]] + rest)[1..] == rest;
      } else {
        assert KeepKeys(keys, at, ItemOfVersion(v)) == rest;
      }
    }
  }

  lemma {:induction false} ListFromKeys(items: VS.Items, i: nat)
    requires i <= |items.keys|
    ensures forall k <- items.keys[i..] :: k in items.at
    ensures VS.ListFrom(items, i) == ListKeys(items.keys[i..], items.at)
    decreases |items.keys| - i
  {
    if i < |items.keys| {
      KeyAt(items, i);
      ListFromKeys(items, i + 1);
      assert items.keys[i..] == [items.keys[i]] + items.keys[i + 1..];
    }
  }

  lemma ListingOfVersion(items: VS.Items, v: string)
    ensures VS.ListFrom(VecOf(items, v), 0) == OnlyVersion(VS.ListFrom(items, 0), v)
  {
    var kept := VecOf(items, v);
    KeysDistinct(items);
    ListFromKeys(items, 0);
    ListFromKeys(kept, 0);
    assert items.keys[0..] == items.keys && kept.keys[0..] == kept.keys;
    ListKeysKept(items.keys, items.at, kept.at, v);
  }

  /** What the dense store answers for one version. */
  function DenseSearch(cosine: VS.Similarity, vec: VS.Items, query: VS.Vector, topK: int, p: Principal, v: string)
    : seq<ScoredChunk>
  {
    Ranked(VS.DenseHits(cosine, VS.ListFrom(vec, 0), query, p, Some(v)), topK, Dense)
  }

  /** Two stores with the same content of a version answer every dense search of that version alike, ties included. */
  lemma SameContentSameSearch(cosine: VS.Similarity, vec: VS.Items, vec': VS.Items, v: string, query: VS.Vector,
                              topK: int, p: Principal)
    requires v != "" && VecOf(vec, v) == VecOf(vec', v)
    ensures DenseSearch(cosine, vec, query, topK, p, v) == DenseSearch(cosine, vec', query, topK, p, v)
  {
    HitsOfVersion(cosine, VS.ListFrom(vec, 0), query, p, v);
    HitsOfVersion(cosine, VS.ListFrom(vec', 0), query, p, v);
    ListingOfVersion(vec, v);
    ListingOfVersion(vec', v);
  }

  /** The dense output for a completed version is the same before, during and after whatever the writer does. */
  lemma DenseSearchStable(hash: IdHash, before: seq<Step>, after: seq<Step>, v: string, cosine: VS.Similarity,
                          query: VS.Vector, topK: int, p: Principal)
    requires SeparatesVersions(hash) && Runs(hash, INIT, before) && Runs(hash, After(INIT, before), after)
    requires v in After(INIT, before).built && v != ""
    ensures var s, s' := After(INIT, before), After(After(INIT, before), after);
            DenseSearch(cosine, s.vec, query, topK, p, v) == DenseSearch(cosine, s'.vec, query, topK, p, v)
  {
    InitInv(hash);
    RunKeepsInv(hash, INIT, before);
    var s := After(INIT, before);
    RunKeepsInv(hash, s, after);
    assert KeptFrom(s, After(s, after), v);
    SameContentSameSearch(cosine, s.vec, After(s, after).vec, v, query, topK, p);
  }

  lemma OneStep(hash: IdHash, s: State, step: Step, rest: seq<Step>)
    requires Enabled(hash, s, step) && Runs(hash, Apply(s, step), rest)
    ensures Runs(hash, s, [step] + rest) && After(s, [step] + rest) == After(Apply(s, step), rest)
  {
    assert ([step] + rest)[1..] == rest;
  }

  // ---- Alias and registry ----

  /** What the registry takes: it turns away a version it does not know. */
  function RegisteredBy(s: State, step: Step): Option<string> {
    if RegisterOf(step).Some? && RegisterOf(step).value in s.registry.versions then RegisterOf(step) else None
  }

  /** The last version flipped to in a log of steps, and the last that the registry took. */
  function LastFlip(steps: seq<Step>, before: Option<string>): Option<string> {
    if steps == [] then before else LastFlip(steps[1..], if FlipOf(steps[0]).Some? then FlipOf(steps[0]) else before)
  }

  function LastRegistered(s: State, steps: seq<Step>, before: Option<string>): Option<string>
    decreases |steps|
  {
    if steps == [] then before
    else
      var taken := RegisteredBy(s, steps[0]);
      LastRegistered(Apply(s, steps[0]), steps[1..], if taken.Some? then taken else before)
  }

  /** The step moves the alias as it says, and the registry as far as the registry knows the version. */
  ghost predicate Logged(s: State, step: Step, s': State) {
    && s'.alias == (if FlipOf(step).Some? then FlipOf(step) else s.alias)
    && s'.registry.active == if RegisteredBy(s, step).Some? then RegisteredBy(s, step) else s.registry.active
  }

  lemma FlipLogged(s: State, step: Step, s': State)
    requires FlipOf(step).Some? && s' == Apply(s, step)
    ensures Logged(s, step, s')
  {
  }

  lemma RegisterLogged(s: State, step: Step, s': State)
    requires RegisterOf(step).Some? && s' == Apply(s, step)
    ensures Logged(s, step, s')
  {
  }

  lemma OtherLogged(s: State, step: Step, s': State)
    requires FlipOf(step).None? && RegisterOf(step).None? && s' == Apply(s, step)
    ensures Logged(s, step, s')
  {
  }

  lemma OneStepLogged(s: State, step: Step, s': State)
    requires s' == Apply(s, step)
    ensures Logged(s, step, s')
  {
    if FlipOf(step).Some? {
      FlipLogged(s, step, s');
    } else if RegisterOf(step).Some? {
      RegisterLogged(s, step, s');
    } else {
      OtherLogged(s, step, s');
    }
  }

  lemma {:induction false} LogDecides(hash: IdHash, s: State, steps: seq<Step>)
    requires Runs(hash, s, steps)
    ensures After(s, steps).alias == LastFlip(steps, s.alias)
    ensures After(s, steps).registry.active == LastRegistered(s, steps, s.registry.active)
    decreases |steps|
  {
    if steps != [] {
      OneStepLogged(s, steps[0], Apply(s, steps[0]));
      LogDecides(hash, Apply(s, steps[0]), steps[1..]);
    }
  }

  /**
   * After any history, with overlapping activations, abandoned ones, and activations of versions unknown or unbuilt:
   * the alias is the registry's active version exactly when the log's last flip and the last registration that the
   * registry took are of the same version. The active version is recorded and no other is marked active; and it is
   * marked so itself, as long as only completed versions are promoted.
   */
  lemma AliasAgreesExactly(hash: IdHash, steps: seq<Step>)
    requires SeparatesVersions(hash) && Runs(hash, INIT, steps)
    ensures var s := After(INIT, steps);
            && (s.alias == s.registry.active <==> LastFlip(steps, None) == LastRegistered(INIT, steps, None))
            && Recording(s.registry, s.built)
            && (AllSanctioned(INIT, steps) ==> Reg.OneActive(s.registry))
  {
    InitInv(hash);
    RunKeepsInv(hash, INIT, steps);
    LogDecides(hash, INIT, steps);
    if AllSanctioned(INIT, steps) {
      RunKeepsVetted(hash, INIT, steps);
    }
  }

  lemma {:induction false} AfterThen(hash: IdHash, s: State, a: seq<Step>, last: Step)
    requires Runs(hash, s, a + [last])
    ensures Runs(hash, s, a) && Enabled(hash, After(s, a), last)
    ensures After(s, a + [last]) == Apply(After(s, a), last)
    decreases |a|
  {
    if a == [] {
      assert a + [last] == [last] && [last][1..] == [];
    } else {
      assert (a + [last])[1..] == a[1..] + [last];
      AfterThen(hash, Apply(s, a[0]), a[1..], last);
    }
  }

  /**
   * One activation, from its flip to its registration. If the registry knows the version by then, it ends in agreement
   * exactly when the last flip in between, if any, was of its version; if not, when the alias has meanwhile been moved
   * to the version that is active already.
   */
  lemma ActivationAgreesExactly(hash: IdHash, s: State, flip: Step, between: seq<Step>, register: Step, v: string)
    requires FlipOf(flip) == Some(v) == RegisterOf(register) && Runs(hash, s, ([flip] + between) + [register])
    ensures var end, mid := After(s, ([flip] + between) + [register]), After(s, [flip] + between);
            end.alias == end.registry.active <==>
              LastFlip(between, Some(v)) == if v in mid.registry.versions then Some(v) else mid.registry.active
  {
    AfterThen(hash, s, [flip] + between, register);
    var mid := After(s, [flip] + between);
    LogDecides(hash, s, [flip] + between);
    OneStepLogged(mid, register, Apply(mid, register));
    assert ([flip] + between)[1..] == between;
  }

  /** No activation flips the alias while another has yet to register, none is left half done, and none turned away. */
  predicate Orderly(s: State, steps: seq<Step>, pending: Option<string>)
    decreases |steps|
  {
    if steps == [] then pending == None
    else
      var next := Apply(s, steps[0]);
      if FlipOf(steps[0]).Some? then pending == None && Orderly(next, steps[1..], FlipOf(steps[0]))
      else if RegisterOf(steps[0]).Some? then
        pending == RegisteredBy(s, steps[0]) && pending.Some? && Orderly(next, steps[1..], None)
      else Orderly(next, steps[1..], pending)
  }

  lemma {:induction false} OrderlyAgrees(s: State, steps: seq<Step>, pending: Option<string>, flipped: Option<string>,
                                         registered: Option<string>)
    requires Orderly(s, steps, pending) && if pending == None then flipped == registered else flipped == pending
    ensures LastFlip(steps, flipped) == LastRegistered(s, steps, registered)
    decreases |steps|
  {
    if steps != [] {
      var flip, taken := FlipOf(steps[0]), RegisteredBy(s, steps[0]);
      OrderlyAgrees(Apply(s, steps[0]), steps[1..],
                    if flip.Some? then flip else if RegisterOf(steps[0]).Some? then None else pending,
                    if flip.Some? then flip else flipped,
                    if taken.Some? then taken else registered);
    }
  }

  /**
   * When activations do not overlap, none is cut short and none turned away, the alias is the active version; and when
   * they are of completed versions, it alone is marked so.
   */
  lemma AliasAgreesWithRegistry(hash: IdHash, steps: seq<Step>)
    requires SeparatesVersions(hash) && Runs(hash, INIT, steps) && Orderly(INIT, steps, None)
    ensures var s := After(INIT, steps);
            && s.alias == s.registry.active
            && (AllSanctioned(INIT, steps) ==> forall v :: v in s.registry.versions ==>
                  (s.registry.versions[v].status == Reg.Active <==> s.alias == Some(v)))
  {
    OrderlyAgrees(INIT, steps, None, None, None);
    AliasAgreesExactly(hash, steps);
  }

  /** Two operators whose activations overlap. */
  function Overlap(a: nat, v: string, b: nat, w: string): seq<Step> {
    [PromoteFlip(a, v), PromoteFlip(b, w), PromoteRegister(b, w), PromoteRegister(a, v)]
  }

  lemma FlipFirst(hash: IdHash, s: State, o: nat, v: string, s': State, rest: seq<Step>)
    requires o !in s.operators && Runs(hash, s', rest)
    requires s' == s.(alias := Some(v), operators := s.operators[o := v])
    ensures Runs(hash, s, [PromoteFlip(o, v)] + rest) && After(s, [PromoteFlip(o, v)] + rest) == After(s', rest)
  {
    OneStep(hash, s, PromoteFlip(o, v), rest);
  }

  lemma RegisterFirst(hash: IdHash, s: State, o: nat, s': State, rest: seq<Step>)
    requires o in s.operators && s.operators[o] in s.registry.versions && Runs(hash, s', rest)
    requires s' == s.(registry := Reg.Activated(s.registry, s.operators[o]), operators := s.operators - {o})
    ensures var step := PromoteRegister(o, s.operators[o]);
            Runs(hash, s, [step] + rest) && After(s, [step] + rest) == After(s', rest)
  {
    OneStep(hash, s, PromoteRegister(o, s.operators[o]), rest);
  }

  lemma Fourth<T>(a: T, b: T, c: T, d: T)
    ensures [d] == [d] + [] && [c, d] == [c] + [d] && [b, c, d] == [b] + [c, d] && [a, b, c, d] == [a] + [b, c, d]
  {
  }

  /** Both complete, no one is left half way, and alias and registry disagree. */
  lemma OverlapDisagrees(hash: IdHash, s: State, a: nat, v: string, b: nat, w: string)
    requires v in s.registry.versions && w in s.registry.versions && v != w
    requires a !in s.operators && b !in s.operators && a != b
    ensures Runs(hash, s, Overlap(a, v, b, w))
    ensures var end := After(s, Overlap(a, v, b, w));
            end.alias == Some(w) && end.registry.active == Some(v) && end.operators == s.operators
            && end.writer == s.writer
  {
    var s1 := s.(alias := Some(v), operators := s.operators[a := v]);
    var s2 := s1.(alias := Some(w), operators := s1.operators[b := w]);
    var s3 := s2.(registry := Reg.Activated(s2.registry, w), operators := s2.operators - {b});
    var end := s3.(registry := Reg.Activated(s3.registry, v), operators := s3.operators - {a});
    Fourth(PromoteFlip(a, v), PromoteFlip(b, w), PromoteRegister(b, w), PromoteRegister(a, v));
    RegisterFirst(hash, s3, a, end, []);
    RegisterFirst(hash, s2, b, s3, [PromoteRegister(a, v)]);
    FlipFirst(hash, s1, b, w, s2, [PromoteRegister(b, w), PromoteRegister(a, v)]);
    FlipFirst(hash, s, a, v, s1, [PromoteFlip(b, w), PromoteRegister(b, w), PromoteRegister(a, v)]);
    assert end.operators == s.operators;
  }

  predicate AlreadyStored(vec: VS.Items, item: VS.Item) {
    item.chunk.chunkId in vec.at && vec.at[item.chunk.chunkId] == item
  }

  predicate AlreadyIndexed(lex: BM.Chunks, c: Chunk) {
    c.chunkId in lex.at && lex.at[c.chunkId] == c
  }

  lemma SafeVectorExactly(hash: IdHash, vec: VS.Items, item: VS.Item, v: string)
    requires SeparatesVersions(hash) && FiledVectors(hash, vec) && Derived(hash, item.chunk)
    ensures SameVectors(vec, Put(vec, item.chunk.chunkId, item), v) <==>
              item.chunk.indexVersion != v || AlreadyStored(vec, item)
  {
    var id := item.chunk.chunkId;
    PutVectorContent(hash, vec, item, v);
    if id in vec.at {
      assert FiledAs(hash, vec.at[id].chunk, id);
      SameIdSameVersion(hash, vec.at[id].chunk, item.chunk);
      if item.chunk.indexVersion == v && vec.at[id] == item {
        SameDict(Put(VecOf(vec, v), id, item), VecOf(vec, v));
      }
    }
    if item.chunk.indexVersion == v && SameVectors(vec, Put(vec, id, item), v) {
      assert Put(VecOf(vec, v), id, item).at[id] == item;
      assert id in VecOf(vec, v).at && VecOf(vec, v).at[id] == item;
    }
  }

  lemma SafeWordExactly(hash: IdHash, lex: BM.Chunks, c: Chunk, v: string)
    requires SeparatesVersions(hash) && FiledWords(hash, lex) && Derived(hash, c)
    ensures SameWords(lex, Put(lex, c.chunkId, c), v) <==> c.indexVersion != v || AlreadyIndexed(lex, c)
  {
    var id := c.chunkId;
    PutWordContent(hash, lex, c, v);
    if id in lex.at {
      assert FiledAs(hash, lex.at[id], id);
      SameIdSameVersion(hash, lex.at[id], c);
      if c.indexVersion == v && lex.at[id] == c {
        SameDict(Put(LexOf(lex, v), id, c), LexOf(lex, v));
      }
    }
    if c.indexVersion == v && SameWords(lex, Put(lex, id, c), v) {
      assert Put(LexOf(lex, v), id, c).at[id] == c;
      assert id in LexOf(lex, v).at && LexOf(lex, v).at[id] == c;
    }
  }

  /**
   * When storing one chunk in both stores is safe for the readers of a version: exactly when the chunk is of
   * another version, or both stores hold it already, with the same vector. Rebuilding a live version in place is
   * neither.
   */
  lemma SafeWriteExactly(hash: IdHash, vec: VS.Items, lex: BM.Chunks, c: Chunk, x: VS.Vector, v: string)
    requires SeparatesVersions(hash) && FiledVectors(hash, vec) && FiledWords(hash, lex) && Derived(hash, c)
    ensures var item := VS.Item(c, x);
            SameVectors(vec, Put(vec, c.chunkId, item), v) && SameWords(lex, Put(lex, c.chunkId, c), v)
            <==> c.indexVersion != v || (AlreadyStored(vec, item) && AlreadyIndexed(lex, c))
  {
    SafeVectorExactly(hash, vec, VS.Item(c, x), v);
    SafeWordExactly(hash, lex, c, v);
  }

  // ---- Building a version again ----

  /** A build decides what is under the ids it names, whatever was there before; other ids stay as they were. */
  lemma {:induction false} VectorsDecide(vec: VS.Items, vec': VS.Items, chunks: seq<Chunk>, vectors: seq<VS.Vector>,
                                         id: string)
    requires |vectors| == |chunks|
    ensures var a, a' := VS.PutAll(vec, chunks, vectors).at, VS.PutAll(vec', chunks, vectors).at;
            && (id in a <==> id in vec.at || Names(chunks, id))
            && (id in a' <==> id in vec'.at || Names(chunks, id))
            && ((id in vec.at && id in vec'.at && vec.at[id] == vec'.at[id]) || Names(chunks, id) ==>
                  id in a && id in a' && a[id] == a'[id])
    decreases |chunks|
  {
    if chunks != [] {
      var c, x := chunks[0], VS.Item(chunks[0], vectors[0]);
      VectorsDecide(Put(vec, c.chunkId, x), Put(vec', c.chunkId, x), chunks[1..], vectors[1..], id);
      NamesCons(chunks, id);
    }
  }

  lemma RestartVectors(left: VS.Items, b: Build)
    requires |b.vectors| == |b.chunks|
    ensures VS.PutAll(left, b.chunks, b.vectors).at == AllVectors(b).at <==> forall id <- left.at :: Names(b.chunks, id)
  {
    var after, scratch := VS.PutAll(left, b.chunks, b.vectors), AllVectors(b);
    forall id
      ensures id in after.at <==> id in left.at || Names(b.chunks, id)
      ensures id in scratch.at <==> Names(b.chunks, id)
      ensures Names(b.chunks, id) ==> id in after.at && id in scratch.at && after.at[id] == scratch.at[id]
    {
      VectorsDecide(left, Empty(), b.chunks, b.vectors, id);
    }
    SameMaps(after.at, scratch.at, left.at, b.chunks);
  }

  /** Two maps that agree on the named ids, the second holding those only, and the first those left over too. */
  lemma SameMaps<V>(after: map<string, V>, scratch: map<string, V>, left: map<string, V>, chunks: seq<Chunk>)
    requires forall id :: id in after <==> id in left || Names(chunks, id)
    requires forall id :: id in scratch <==> Names(chunks, id)
    requires forall id :: Names(chunks, id) ==> id in after && id in scratch && after[id] == scratch[id]
    ensures after == scratch <==> forall id <- left :: Names(chunks, id)
  {
    if after == scratch {
      forall id | id in left
        ensures Names(chunks, id)
      {
        assert id in after;
      }
    }
  }

  lemma {:induction false} WordsDecide(lex: BM.Chunks, lex': BM.Chunks, chunks: seq<Chunk>, id: string)
    ensures var a, a' := BM.PutAll(lex, chunks).at, BM.PutAll(lex', chunks).at;
            && (id in a <==> id in lex.at || Names(chunks, id))
            && (id in a' <==> id in lex'.at || Names(chunks, id))
            && ((id in lex.at && id in lex'.at && lex.at[id] == lex'.at[id]) || Names(chunks, id) ==>
                  id in a && id in a' && a[id] == a'[id])
    decreases |chunks|
  {
    if chunks != [] {
      var c := chunks[0];
      WordsDecide(Put(lex, c.chunkId, c), Put(lex', c.chunkId, c), chunks[1..], id);
      NamesCons(chunks, id);
    }
  }

  lemma NamesCons(chunks: seq<Chunk>, id: string)
    requires chunks != []
    ensures Names(chunks, id) <==> chunks[0].chunkId == id || Names(chunks[1..], id)
  {
    assert chunks == [chunks[0]] + chunks[1..];
  }

  lemma RestartWords(left: BM.Chunks, chunks: seq<Chunk>)
    ensures BM.PutAll(left, chunks).at == BM.PutAll(Empty(), chunks).at <==> forall id <- left.at :: Names(chunks, id)
  {
    var after, scratch := BM.PutAll(left, chunks), BM.PutAll(Empty(), chunks);
    forall id
      ensures id in after.at <==> id in left.at || Names(chunks, id)
      ensures id in scratch.at <==> Names(chunks, id)
      ensures Names(chunks, id) ==> id in after.at && id in scratch.at && after.at[id] == scratch.at[id]
    {
      WordsDecide(left, Empty(), chunks, id);
    }
    SameMaps(after.at, scratch.at, left.at, chunks);
  }

  /**
   * A version built over what an interrupted build of it left: both stores then hold, under every id, what a build
   * from scratch would, exactly when the new build names every id that was left over in either.
   */
  lemma RestartExactly(left: VS.Items, leftWords: BM.Chunks, b: Build)
    requires |b.vectors| == |b.chunks|
    ensures && VS.PutAll(left, b.chunks, b.vectors).at == AllVectors(b).at
            && BM.PutAll(leftWords, b.chunks).at == BM.PutAll(Empty(), b.chunks).at
            <==> (forall id <- left.at :: Names(b.chunks, id)) && (forall id <- leftWords.at :: Names(b.chunks, id))
  {
    RestartVectors(left, b);
    RestartWords(leftWords, b.chunks);
  }
}
