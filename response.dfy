/** The value the story engine hands back for every line it answers with (pkg/story/story.go). */
module Responses {
  import Steps

  /**
   * `original` is the untranslated line, `text` its translation into `lang`;
   * `shouldAdvance` tells the caller to move to the next step; `additional`
   * is the metadata attached to the response's index.
   */
  datatype Response = Response(
    original: string,
    text: string,
    lang: string,
    shouldAdvance: bool,
    additional: Steps.Metadata)

  /** The untranslated lines of a batch, in order. */
  function Originals(rs: seq<Response>): (os: seq<string>)
    ensures |os| == |rs|
    ensures forall i :: 0 <= i < |rs| ==> os[i] == rs[i].original
  {
    if rs == [] then [] else [rs[0].original] + Originals(rs[1..])
  }
}
