/**
 * src/rag/generation/grounded.py and refusal.py: answer from retrieved chunks, or refuse. The model's completion is
 * an input, and redaction an arbitrary function of the text.
 */
module Grounded {
  import opened Schemas
  import opened Citations

  datatype Answer = Answer(
    text: string,
    citations: seq<Citation>,
    refused: bool,
    refusalReason: Option<string>,
    indexVersion: string,
    cached: bool)

  const REFUSAL_TEXT := "I don't know based on the available documents."

  /** src/rag/generation/refusal.py:22-36 */
  function RefusedAnswer(reason: string): Answer {
    Answer(REFUSAL_TEXT, [], true, Some(reason), "", false)
  }

  /** src/rag/generation/refusal.py:6-19; `None` means do not refuse */
  function ShouldRefuse(scored: seq<ScoredChunk>, citations: seq<Citation>, threshold: real): Option<string> {
    if scored == [] then Some("no_retrieved_context")
    else if scored[0].score < threshold then Some("low_confidence_score")
    else if citations == [] then Some("zero_resolvable_citations")
    else None
  }

  /** How text is read: where its markers are, and what redaction makes of it. */
  datatype Reading = Reading(markers: Markers, redact: string -> string, threshold: real)

  /** A refusal says why and cites nothing; an answer gives no reason to refuse. */
  predicate WellFormed(a: Answer) {
    (a.refused <==> a.refusalReason.Some?) && (a.refused ==> a.citations == [])
  }

  /** src/rag/generation/grounded.py:25-89; an unavailable model raises */
  function Generate(scored: seq<ScoredChunk>, completion: Result<string, string>, reading: Reading)
    : Result<Answer, string>
  {
    var early := ShouldRefuse(scored, [], reading.threshold);
    if early.Some? && early.value in {"no_retrieved_context", "low_confidence_score"} then
      Ok(RefusedAnswer(early.value))
    else if completion.Err? then Err(completion.error)
    else
      var text := reading.redact(completion.value);
      var citations := ScoredCitations(text, scored, reading.markers);
      var late := ShouldRefuse(scored, citations, reading.threshold);
      if late.Some? then Ok(RefusedAnswer(late.value))
      else Ok(Answer(text, citations, false, None, "", false))
  }

  /** The chunks are worth showing to a model. */
  predicate Usable(scored: seq<ScoredChunk>, threshold: real) {
    scored != [] && scored[0].score >= threshold
  }

  /**
   * Weak context is refused whether or not the model is up, and only weak context is: what the model returns is
   * always answered, with citations, each of a retrieved chunk. The third reason to refuse never comes about.
   */
  lemma GenerateExactly(scored: seq<ScoredChunk>, completion: Result<string, string>, reading: Reading)
    ensures var r := Generate(scored, completion, reading);
            && (r.Err? <==> Usable(scored, reading.threshold) && completion.Err?)
            && (r.Ok? ==>
                  && WellFormed(r.value)
                  && (r.value.refused <==> !Usable(scored, reading.threshold))
                  && (r.value.refused ==>
                        r.value.refusalReason ==
                        Some(if scored == [] then "no_retrieved_context" else "low_confidence_score"))
                  && (!r.value.refused ==> r.value.citations != [] && r.value.text == reading.redact(completion.value))
                  && forall c <- r.value.citations :: exists s :: s in scored && c == CitationFromScored(s))
  {
    if Usable(scored, reading.threshold) && completion.Ok? {
      var text := reading.redact(completion.value);
      ScoredCitationsSound(text, scored, reading.markers);
      var citations := ScoredCitations(text, scored, reading.markers);
      forall c | c in citations
        ensures exists s :: s in scored && c == CitationFromScored(s)
      {
        var i :| 0 <= i < |citations| && citations[i] == c;
      }
    }
  }
}
