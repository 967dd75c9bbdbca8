/**
 * ClassifyPost: one chat-completion round trip that turns a post's text
 * into a PostInfo. The completion service and json.Unmarshal are
 * parameters: `complete` answers a request, `decode` parses a JSON text.
 */
module Classifier {
  import opened Wrappers
  import opened Records
  import opened Text

  datatype ClassifyError =
    | NoApiKey                      // ErrNoAPIKey: OPENAI_API_KEY is empty
    | ServiceError(message: string) // the completion call returned an error
    | NoChoices                     // `resp.Choices[0]` on an empty list: a panic
    | ParseError                    // the reply text is not a PostInfo in JSON
  {
    /** A runtime panic rather than a returned error: gin's recovery answers
        500 for the whole request, whatever the handler would have done. */
    predicate IsPanic() {
      NoChoices?
    }
  }

  /** The completion request: the key it is sent with and the post text the
      user message carries (the fixed prompt wording, model name and
      sampling temperature are constants and are not represented). */
  datatype CompletionRequest = CompletionRequest(apiKey: string, content: string)

  datatype CompletionReply = CallFailed(message: string) | Completed(choices: seq<string>)

  /** The requests a call sent and what it returned. */
  datatype Classification = Classification(requests: seq<CompletionRequest>, outcome: Result<PostInfo, ClassifyError>)

  /** Reads the first choice: white space around the text is trimmed
      before it is parsed. */
  function ParseReply(reply: CompletionReply, decode: string -> Option<PostInfo>): (r: Result<PostInfo, ClassifyError>)
    ensures reply.CallFailed? ==> r == Failure(ServiceError(reply.message))
    ensures reply.Completed? && |reply.choices| == 0 ==> r == Failure(NoChoices)
    ensures r.Success? ==> reply.Completed? && |reply.choices| > 0
                           && decode(TrimSpace(reply.choices[0])) == Some(r.value)
    ensures r == Failure(ParseError) <==>
              reply.Completed? && |reply.choices| > 0 && decode(TrimSpace(reply.choices[0])).None?
    ensures reply.Completed? && |reply.choices| > 0 && decode(TrimSpace(reply.choices[0])).Some? ==>
              r == Success(decode(TrimSpace(reply.choices[0])).value)
  {
    match reply
    case CallFailed(m) => Failure(ServiceError(m))
    case Completed(choices) =>
      if |choices| == 0 then Failure(NoChoices)
      else
        match decode(TrimSpace(choices[0]))
        case None => Failure(ParseError)
        case Some(info) => Success(info)
  }

  /** ClassifyPost. Without a key it fails before any request is made;
      otherwise it makes exactly one request carrying the post text. */
  function ClassifyPost(
    apiKey: string, content: string,
    complete: CompletionRequest -> CompletionReply,
    decode: string -> Option<PostInfo>): (c: Classification)
    ensures apiKey == "" <==> |c.requests| == 0
    ensures apiKey == "" ==> c.outcome == Failure(NoApiKey)
    ensures apiKey != "" ==> c.requests == [CompletionRequest(apiKey, content)]
    ensures apiKey != "" ==> c.outcome == ParseReply(complete(c.requests[0]), decode)
    ensures c.outcome != Failure(NoApiKey) ==> apiKey != ""
  {
    if apiKey == "" then Classification([], Failure(NoApiKey))
    else
      var request := CompletionRequest(apiKey, content);
      Classification([request], ParseReply(complete(request), decode))
  }

  /** White space around the reply's JSON never changes the outcome. */
  lemma ParseReplyIgnoresPadding(
    pre: string, json: string, post: string, others: seq<string>,
    decode: string -> Option<PostInfo>)
    requires AllSpace(pre) && AllSpace(post) && Trimmed(json)
    ensures ParseReply(Completed([pre + json + post] + others), decode)
         == ParseReply(Completed([json] + others), decode)
  {
    var padded := [pre + json + post] + others;
    var bare := [json] + others;
    assert padded[0] == pre + json + post && bare[0] == json;
    TrimSpacePadded(pre, json, post);
    TrimSpaceFixes(json);
    assert TrimSpace(padded[0]) == TrimSpace(bare[0]);
  }
}
