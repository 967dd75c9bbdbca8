/**
 * The three search-and-match handlers of main.go: GET /search/chat,
 * POST /chat/classify and POST /matching/find. Each reports the request it
 * sent to the search index, if any, beside its HTTP outcome.
 */
module Handlers {
  import opened Wrappers
  import opened Strconv
  import opened Records
  import opened IndexDocs
  import opened Pagination
  import opened SearchIndex
  import opened Classifier
  import opened Http

  /** What a handler sent to the search index and what it answered. */
  datatype Handled<T> = Handled(sent: Option<EsRequest>, result: Result<T, HttpError>)

  /** The body of a successful chat search. */
  datatype ChatSearchResponse = ChatSearchResponse(
    messages: seq<ChatMessageIndex>, total: int, page: int, pageSize: int)

  /** handleSearchChat. The window is read from the query string as the
      posts listing reads it (page size at most 100), and the search starts
      at the offset computed in Go's 64-bit `int`, which wraps around for
      very large pages. */
  function SearchChat(ready: bool, q: Query, send: EsRequest -> EsReply): (h: Handled<ChatSearchResponse>)
    ensures !ready ==> h == Handled(None, Failure(HttpError(ServiceUnavailable, "Search service not available")))
    ensures ready && QueryParam(q, "q") == "" ==>
              h == Handled(None, Failure(HttpError(BadRequest, "Query parameter 'q' is required")))
    ensures h.sent.Some? <==> ready && QueryParam(q, "q") != ""
    ensures h.sent.Some? ==>
      var w := QueryWindow(q, ListingPageSizeCap);
      && h.sent == Some(Search(IndexName, BuildSearchQuery(QueryParam(q, "q"), WrappedOffset(w), w.pageSize), true))
      && (h.result.Failure? <==> SearchOutcome(send(h.sent.value)).Failure?)
      && (h.result.Failure? ==> h.result.error == HttpError(InternalServerError, "Search failed"))
      && (h.result.Success? ==>
            && h.result.value.messages == SearchOutcome(send(h.sent.value)).value.messages
            && h.result.value.total == SearchOutcome(send(h.sent.value)).value.total
            && h.result.value.page == w.page && h.result.value.pageSize == w.pageSize)
  {
    if !ready then Handled(None, Failure(HttpError(ServiceUnavailable, "Search service not available")))
    else
      var text := QueryParam(q, "q");
      if text == "" then Handled(None, Failure(HttpError(BadRequest, "Query parameter 'q' is required")))
      else
        var w := QueryWindow(q, ListingPageSizeCap);
        var call := SearchChatMessages(ready, text, WrappedOffset(w), w.pageSize, send);
        match call.result
        case Failure(_) => Handled(call.sent, Failure(HttpError(InternalServerError, "Search failed")))
        case Success(found) =>
          Handled(call.sent, Success(ChatSearchResponse(found.messages, found.total, w.page, w.pageSize)))
  }

  /** While the offset fits in 64 bits, a chat search asks for a window
      that starts at a non-negative multiple of its size, at most 100
      results long, and the next page's window starts where this one ends. */
  lemma SearchChatWindowIsAPage(ready: bool, q: Query, send: EsRequest -> EsReply)
    requires var w := QueryWindow(q, ListingPageSizeCap); (w.page - 1) * w.pageSize <= MaxInt64
    ensures var h := SearchChat(ready, q, send);
      h.sent.Some? ==>
        var query := h.sent.value.query;
        var w := QueryWindow(q, ListingPageSizeCap);
        && 1 <= query.size <= ListingPageSizeCap
        && query.from >= 0 && query.from % query.size == 0
        && query.from / query.size == w.page - 1
        && Offset(Window(w.page + 1, w.pageSize)) == query.from + query.size
  {
    var h := SearchChat(ready, q, send);
    if h.sent.Some? {
      WrappedOffsetAgrees(QueryWindow(q, ListingPageSizeCap));
      PagesTile(QueryWindow(q, ListingPageSizeCap));
    }
  }

  /** As written, `?q=x&page=4611686018427387905&pageSize=4` searches from
      0: page 2^62 + 1 is answered with the first four hits. */
  lemma SearchChatHugePageSearchesFromStart(send: EsRequest -> EsReply)
    ensures var q: Query := map["q" := "x", "page" := Itoa(0x4000_0000_0000_0001), "pageSize" := Itoa(4)];
      var h := SearchChat(true, q, send);
      && QueryWindow(q, ListingPageSizeCap).page == 0x4000_0000_0000_0001
      && h.sent.Some? && h.sent.value.query.from == 0 && h.sent.value.query.size == 4
  {
    var q: Query := map["q" := "x", "page" := Itoa(0x4000_0000_0000_0001), "pageSize" := Itoa(4)];
    QueryWindowParsed(q, 0x4000_0000_0000_0001, 4, ListingPageSizeCap);
    HugePageWrapsToFirstPage();
  }

  /** The message types POST /chat/classify accepts. */
  const MessageTypes: set<string> := {"question", "negotiation", "agreement", "inquiry", "other"}

  datatype ClassifyMessageRequest = ClassifyMessageRequest(messageId: string, messageType: string)

  /** A request the handler forwards: both fields given and a known type. */
  predicate ClassifyRequestValid(req: ClassifyMessageRequest) {
    req.messageId != "" && req.messageType != "" && req.messageType in MessageTypes
  }

  /** handleClassifyMessage. `body` is None when the JSON body cannot be
      bound. */
  function ClassifyMessage(ready: bool, body: Option<ClassifyMessageRequest>,
                           send: EsRequest -> EsReply): (h: Handled<()>)
    ensures !ready ==> h == Handled(None, Failure(HttpError(ServiceUnavailable, "Classification service not available")))
    ensures ready && body.None? ==> h == Handled(None, Failure(HttpError(BadRequest, "Invalid request")))
    ensures ready && body.Some? && (body.value.messageId == "" || body.value.messageType == "") ==>
              h == Handled(None, Failure(HttpError(BadRequest, "Message ID and type are required")))
    ensures ready && body.Some? && body.value.messageId != "" && body.value.messageType != ""
            && body.value.messageType !in MessageTypes ==>
              h == Handled(None, Failure(HttpError(BadRequest, "Invalid message type")))
    ensures h.sent.Some? ==> ready && body.Some?
                             && h.sent == Some(ClassifyRequest(body.value.messageId, body.value.messageType))
                             && (h.result.Success? <==> AckOutcome(send(h.sent.value)).Success?)
                             && (h.result.Failure? ==> h.result.error == HttpError(InternalServerError, "Classification failed"))
    ensures h.result.Success? ==> h.sent.Some?
  {
    if !ready then Handled(None, Failure(HttpError(ServiceUnavailable, "Classification service not available")))
    else match body
      case None => Handled(None, Failure(HttpError(BadRequest, "Invalid request")))
      case Some(req) =>
        if req.messageId == "" || req.messageType == "" then
          Handled(None, Failure(HttpError(BadRequest, "Message ID and type are required")))
        else if req.messageType !in MessageTypes then
          Handled(None, Failure(HttpError(BadRequest, "Invalid message type")))
        else
          var call := ClassifyChatMessage(ready, req.messageId, req.messageType, send);
          match call.result
          case Failure(_) => Handled(call.sent, Failure(HttpError(InternalServerError, "Classification failed")))
          case Success(_) => Handled(call.sent, Success(()))
  }

  /** An update reaches the index exactly when the service is up and the
      request is valid; applied to the stored document it sets the two
      classification fields and nothing else. */
  lemma ClassifyMessageSendsIffValid(ready: bool, body: Option<ClassifyMessageRequest>,
                                     send: EsRequest -> EsReply, stored: ChatMessageIndex)
    ensures var h := ClassifyMessage(ready, body, send);
      && (h.sent.Some? <==> ready && body.Some? && ClassifyRequestValid(body.value))
      && (h.sent.Some? ==>
            && h.sent.value.docId == body.value.messageId
            && ApplyPatch(ToJson(stored), h.sent.value.patch)
               == ToJson(stored.(classified := true, messageType := body.value.messageType)))
  {
    var h := ClassifyMessage(ready, body, send);
    if h.sent.Some? {
      ClassifyPatchSetsTwoFields(stored, body.value.messageType);
    }
  }

  /** The body of POST /matching/find once bound. `page` and `pageSize` are
      Go ints: a JSON number outside the 64-bit range fails binding. */
  datatype FindMatchesRequest = FindMatchesRequest(content: string, page: int, pageSize: int)

  predicate MatchBindingValid(req: FindMatchesRequest) {
    req.content != "" && IsInt64(req.page) && IsInt64(req.pageSize)
  }

  /** The body of a successful match: the matcher's results with the
      classification echoed beside them. */
  datatype MatchesResponse<M> = MatchesResponse(
    matches: seq<M>, total: int, page: int, pageSize: int, postInfo: PostInfo)

  /** handleFindMatches. The classifier's oracles are as for ClassifyPost;
      `matcher` stands for GetMatchingPosts and is given the raw content
      and the window (the classification it follows is not passed on). */
  function FindMatches<M>(
    body: Option<FindMatchesRequest>,
    apiKey: string, complete: CompletionRequest -> CompletionReply, decode: string -> Option<PostInfo>,
    matcher: (string, Window) -> Result<(seq<M>, int), string>): (r: Result<MatchesResponse<M>, HttpError>)
    ensures body.None? || !MatchBindingValid(body.value) ==>
              r == Failure(HttpError(BadRequest, "Invalid request"))
    ensures r.Success? ==>
      var req := body.value;
      var w := Normalize(req.page, req.pageSize, MatchPageSizeCap);
      && MatchBindingValid(req)
      && ValidWindow(Window(r.value.page, r.value.pageSize), MatchPageSizeCap)
      && Window(r.value.page, r.value.pageSize) == w
      && ClassifyPost(apiKey, req.content, complete, decode).outcome == Success(r.value.postInfo)
      && matcher(req.content, w) == Success((r.value.matches, r.value.total))
    ensures r.Failure? && r.error.status != BadRequest ==> r.error.status == InternalServerError
    ensures body.Some? && MatchBindingValid(body.value) ==>
      var req := body.value;
      var w := Normalize(req.page, req.pageSize, MatchPageSizeCap);
      match ClassifyPost(apiKey, req.content, complete, decode).outcome
      case Failure(e) =>
        if e.IsPanic() then r.Failure? && r.error.status == InternalServerError
        else r == Failure(HttpError(InternalServerError, "Failed to classify post content"))
      case Success(info) =>
        match matcher(req.content, w)
        case Failure(_) => r == Failure(HttpError(InternalServerError, "Failed to find matches"))
        case Success((matches, total)) => r == Success(MatchesResponse(matches, total, w.page, w.pageSize, info))
  {
    match body
    case None => Failure(HttpError(BadRequest, "Invalid request"))
    case Some(req) =>
      if !MatchBindingValid(req) then Failure(HttpError(BadRequest, "Invalid request"))
      else
        var w := Normalize(req.page, req.pageSize, MatchPageSizeCap);
        match ClassifyPost(apiKey, req.content, complete, decode).outcome
        case Failure(e) =>
          if e.IsPanic() then Failure(HttpError(InternalServerError, "panic recovered"))
          else Failure(HttpError(InternalServerError, "Failed to classify post content"))
        case Success(info) =>
          match matcher(req.content, w)
          case Failure(_) => Failure(HttpError(InternalServerError, "Failed to find matches"))
          case Success((matches, total)) => Success(MatchesResponse(matches, total, w.page, w.pageSize, info))
  }

  /** Matching requires the classifier: without an API key every valid
      request fails with 500, even though the matcher never uses the
      classification. */
  lemma FindMatchesNeedsClassifier<M>(
    body: Option<FindMatchesRequest>,
    complete: CompletionRequest -> CompletionReply, decode: string -> Option<PostInfo>,
    matcher: (string, Window) -> Result<(seq<M>, int), string>)
    requires body.Some? && MatchBindingValid(body.value)
    ensures FindMatches(body, "", complete, decode, matcher)
         == Failure(HttpError(InternalServerError, "Failed to classify post content"))
  {
  }

  /** A successful match echoes the requested page and page size when they
      are already within 1.. and 1..50, and otherwise the normalised ones. */
  lemma FindMatchesKeepsValidWindow<M>(
    req: FindMatchesRequest,
    apiKey: string, complete: CompletionRequest -> CompletionReply, decode: string -> Option<PostInfo>,
    matcher: (string, Window) -> Result<(seq<M>, int), string>)
    ensures var r := FindMatches(Some(req), apiKey, complete, decode, matcher);
      r.Success? ==>
        && (ValidWindow(Window(req.page, req.pageSize), MatchPageSizeCap) <==>
              r.value.page == req.page && r.value.pageSize == req.pageSize)
        && r.value.page >= 1 && 1 <= r.value.pageSize <= MatchPageSizeCap
  {
  }
}
