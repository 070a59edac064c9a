/** The records that travel between the components: callers, access tags, documents, chunks. */
module Schemas {

  datatype Option<+T> = None | Some(value: T) {
    function GetOr(default: T): T {
      if Some? then value else default
    }
  }

  datatype Result<+T, +E> = Ok(value: T) | Err(error: E)

  datatype Principal = Principal(subject: string, groups: set<string>, tenant: string)

  datatype AclTags = AclTags(tenant: string, allowGroups: set<string>)

  datatype Document = Document(docId: string, text: Option<string>, acl: AclTags)

  datatype Chunk = Chunk(
    chunkId: string,
    docId: string,
    ordinal: nat,
    text: string,
    span: (int, int),
    acl: AclTags,
    indexVersion: string)

  datatype Retriever = Dense | Lexical | Fused | Reranked

  datatype ScoredChunk = ScoredChunk(chunk: Chunk, score: real, rank: int, retriever: Retriever)

  /** The id hash, (document, ordinal, chunker version, index version) to id; its digest is not modelled. */
  type IdHash = (string, nat, string, string) -> string

  /** The two hash inputs that matter for publication: ids of two index versions never coincide. */
  ghost predicate SeparatesVersions(hash: IdHash) {
    forall d, o, c, v, d', o', c', v' ::
      hash(d, o, c, v) == hash(d', o', c', v') ==> v == v'
  }

  /** Python's `s[:k]`: a negative bound counts from the end. */
  function PyTake<T>(s: seq<T>, k: int): (r: seq<T>)
    ensures r <= s
    ensures 0 <= k ==> |r| == if k < |s| then k else |s|
  {
    if 0 <= k then
      if k < |s| then s[..k] else s
    else if |s| + k > 0 then s[..|s| + k]
    else []
  }
}
