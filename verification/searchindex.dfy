/**
 * The Elasticsearch side of models.go: creating the `chat_messages` index,
 * indexing a message, searching messages, and marking a message classified.
 *
 * The client is a flag (`ready`: ElasticClient is non-nil) and the cluster
 * is a parameter `send` that answers each request. Every operation reports
 * the request it sent, if any, so that "fails and does nothing else" can be
 * stated.
 */
module SearchIndex {
  import opened Wrappers
  import opened ObjectIds
  import opened Records
  import opened IndexDocs
  import opened Strconv
  import opened JsonNumbers

  const IndexName := "chat_messages"
  const AlreadyExistsType := "resource_already_exists_exception"

  /** One field of a multi_match query with its boost. */
  datatype BoostedField = BoostedField(field: FieldName, boost: int)

  /** The body SearchChatMessages sends: a multi_match over the text fields,
      newest first, with the caller's window. */
  datatype SearchQuery = SearchQuery(
    text: string, fields: seq<BoostedField>,
    sortField: FieldName, descending: bool,
    from: int, size: int)

  datatype EsRequest =
    | CreateIndex(index: string)
    | IndexDocument(index: string, docId: string, doc: JsonObject, refresh: bool)
    | Search(index: string, query: SearchQuery, trackTotalHits: bool)
    | UpdateDocument(index: string, docId: string, patch: JsonObject, refresh: bool)

  /** What a response body decodes to. */
  datatype Payload =
    | NoBody                                         // empty: decoding fails
    | Unreadable                                     // not JSON
    | ErrorBody(errorType: Option<string>)           // {"error": {"type": …}}, or an error without a string type
    | HitsBody(total: int, sources: seq<JsonObject>) // hits.total.value and each hit's _source

  datatype EsReply = TransportFailure(message: string) | Reply(status: int, payload: Payload)

  /** esapi.Response.IsError. */
  predicate IsErrorStatus(status: int) {
    status > 299
  }

  datatype EsError =
    | NotInitialised              // "Elasticsearch client not initialized"
    | Transport(message: string)  // the request could not be made
    | ErrorStatus(status: int)    // the cluster answered with an error status
    | BadResponse                 // the response body is not JSON
    | HitUndecodable(index: nat)  // a hit's _source does not fit ChatMessageIndex
    | ShapePanic                  // a type assertion on the response fails: a panic

  /** The request an operation sent (at most one) and its result. */
  datatype EsCall<T> = EsCall(sent: Option<EsRequest>, result: Result<T, EsError>)

  /** createChatMessagesIndex's reading of the cluster's answer: a 400 whose
      error type says the index already exists is success. */
  function CreateIndexOutcome(reply: EsReply): (r: Result<(), EsError>)
    ensures r.Success? <==>
              && reply.Reply?
              && ((reply.status == 400 && reply.payload == ErrorBody(Some(AlreadyExistsType)))
                  || !IsErrorStatus(reply.status))
  {
    match reply
    case TransportFailure(m) => Failure(Transport(m))
    case Reply(status, payload) =>
      if status == 400 then
        match payload
        case NoBody => Failure(BadResponse)
        case Unreadable => Failure(BadResponse)
        case ErrorBody(Some(t)) => if t == AlreadyExistsType then Success(()) else Failure(ErrorStatus(400))
        case _ => Failure(ShapePanic)
      else if IsErrorStatus(status) then Failure(ErrorStatus(status))
      else Success(())
  }

  /** createChatMessagesIndex. */
  function CreateChatMessagesIndex(send: EsRequest -> EsReply): (c: EsCall<()>)
    ensures c.sent == Some(CreateIndex(IndexName))
    ensures c.result == CreateIndexOutcome(send(CreateIndex(IndexName)))
  {
    EsCall(Some(CreateIndex(IndexName)), CreateIndexOutcome(send(CreateIndex(IndexName))))
  }

  /** How InitElasticsearch ends: with the client left set or not and its
      error, or with the process stopped by a panic. */
  datatype EsInit = Started(clientSet: bool, error: Option<EsError>) | Crashed

  /** InitElasticsearch. The global client is assigned as soon as it is
      constructed, so a failing info call or index creation still leaves
      it set: later handlers see a client and go on to use it. It runs in
      `main` before the router exists, so a panic while reading the index
      creation's answer is not recovered and ends the process. */
  function InitElasticsearch(clientCreated: bool, info: EsReply, send: EsRequest -> EsReply): (r: EsInit)
    ensures r.Crashed? <==> clientCreated && info.Reply? && CreateChatMessagesIndex(send).result == Failure(ShapePanic)
    ensures r.Started? ==> (r.clientSet <==> clientCreated)
    ensures r.Started? ==> (r.error.None? <==> clientCreated && info.Reply? && CreateChatMessagesIndex(send).result.Success?)
  {
    if !clientCreated then Started(false, Some(Transport("error creating Elasticsearch client")))
    else if info.TransportFailure? then Started(true, Some(Transport(info.message)))
    else
      match CreateChatMessagesIndex(send).result
      case Failure(ShapePanic) => Crashed
      case Failure(e) => Started(true, Some(e))
      case Success(_) => Started(true, None)
  }

  /** A 400 answer to index creation whose body is JSON but not an error
      with a string type ends the process at start-up. */
  lemma MalformedAlreadyExistsAnswerCrashes(send: EsRequest -> EsReply, info: EsReply)
    requires info.Reply?
    requires send(CreateIndex(IndexName)) == Reply(400, ErrorBody(None))
    ensures InitElasticsearch(true, info, send) == Crashed
  {
  }

  /** The outcome of a request whose success body is not read. */
  function AckOutcome(reply: EsReply): (r: Result<(), EsError>)
    ensures r.Success? <==> reply.Reply? && !IsErrorStatus(reply.status)
  {
    match reply
    case TransportFailure(m) => Failure(Transport(m))
    case Reply(status, _) => if IsErrorStatus(status) then Failure(ErrorStatus(status)) else Success(())
  }

  /** The index request IndexChatMessage sends for a message. */
  function IndexRequestFor(msg: Message, room: Option<ChatRoom>, post: Option<Post>): EsRequest {
    var doc := BuildIndexDocument(msg, room, post);
    IndexDocument(IndexName, doc.id, ToJson(doc), true)
  }

  /** IndexChatMessage: without a client it fails and sends nothing;
      otherwise it upserts the projected document under the message's id
      and refreshes so that the next search sees it. */
  function IndexChatMessage(ready: bool, msg: Message, room: Option<ChatRoom>, post: Option<Post>,
                            send: EsRequest -> EsReply): (c: EsCall<()>)
    ensures !ready ==> c == EsCall(None, Failure(NotInitialised))
    ensures ready ==> c.sent.Some? && c.sent.value.IndexDocument?
    ensures ready ==> var req := c.sent.value;
      && req.index == IndexName && req.refresh
      && req.docId == Hex(msg.id)
      && req.doc == ToJson(BuildIndexDocument(msg, room, post))
      && FromJson(req.doc) == Some(BuildIndexDocument(msg, room, post))
      && c.result == AckOutcome(send(req))
  {
    if !ready then EsCall(None, Failure(NotInitialised))
    else
      var req := IndexRequestFor(msg, room, post);
      FromJsonToJson(BuildIndexDocument(msg, room, post));
      EsCall(Some(req), AckOutcome(send(req)))
  }

  /** The fields searched: content, category and location at weight 1,
      keywords at weight 2. */
  const SearchFields: seq<BoostedField> := [
    BoostedField(ContentField, 1), BoostedField(CategoryField, 1),
    BoostedField(LocationField, 1), BoostedField(KeywordsField, 2)]

  /** The search body for a text and a window. */
  function BuildSearchQuery(text: string, from: int, size: int): (q: SearchQuery)
    ensures q.text == text && q.from == from && q.size == size
    ensures q.sortField == CreatedAtField && q.descending
    ensures forall i :: 0 <= i < |q.fields| ==>
              q.fields[i].boost == (if q.fields[i].field == KeywordsField then 2 else 1)
    ensures (set i | 0 <= i < |q.fields| :: q.fields[i].field)
         == {ContentField, CategoryField, LocationField, KeywordsField}
  {
    var q := SearchQuery(text, SearchFields, CreatedAtField, true, from, size);
    assert q.fields[0].field == ContentField;
    assert q.fields[1].field == CategoryField;
    assert q.fields[2].field == LocationField;
    assert q.fields[3].field == KeywordsField;
    q
  }

  /** A hit's `_source` after the response is decoded into generic JSON and
      marshalled again: its price was decoded as a float64 and re-encoded
      from that float64 as the shortest decimal text reading back as it,
      and a decimal beyond Go's `int` makes decoding into ChatMessageIndex
      fail. */
  function ThroughFloat64(source: JsonObject): Option<JsonObject> {
    if PriceField in source && source[PriceField].JInt? then
      match ReadBackInt(source[PriceField].n)
      case Some(p) => Some(source[PriceField := JInt(p)])
      case None => None
    else Some(source)
  }

  /** One hit as SearchChatMessages decodes it. */
  function DecodeHit(source: JsonObject): Option<ChatMessageIndex> {
    match ThroughFloat64(source)
    case None => None
    case Some(j) => FromJson(j)
  }

  /** An indexed document comes back from a hit with its price read back
      through float64 and its decimal text, and not at all when that
      decimal leaves Go's `int` range. */
  lemma DecodeIndexedHit(d: ChatMessageIndex)
    ensures DecodeHit(ToJson(d)) == match ReadBackInt(d.price)
                                    case Some(p) => Some(d.(price := p))
                                    case None => None
  {
    var j := ToJson(d);
    PriceWritten(d);
    if d.price == 0 {
      assert ThroughFloat64(j) == Some(j);
      FromJsonToJson(d);
    } else {
      match ReadBackInt(d.price)
      case None =>
        assert ThroughFloat64(j) == None;
      case Some(p) =>
        RepriceJson(d, p);
        assert ThroughFloat64(j) == Some(ToJson(d.(price := p)));
        FromJsonToJson(d.(price := p));
    }
  }

  /** The price is written exactly when it is not zero. */
  lemma PriceWritten(d: ChatMessageIndex)
    ensures PriceField in ToJson(d) <==> d.price != 0
    ensures PriceField in ToJson(d) ==> ToJson(d)[PriceField] == JInt(d.price)
  {
  }

  /** Replacing a written price in the JSON is writing the repriced
      document. */
  lemma RepriceJson(d: ChatMessageIndex, p: int)
    requires d.price != 0 && p != 0
    ensures ToJson(d)[PriceField := JInt(p)] == ToJson(d.(price := p))
  {
    var d' := d.(price := p);
    assert forall f :: f in ToJson(d)[PriceField := JInt(p)] <==> f in ToJson(d');
  }

  /** Decodes the hits in order; the first source that does not decode
      fails the whole search, reporting its position. */
  function DecodeHits(sources: seq<JsonObject>): (r: Result<seq<ChatMessageIndex>, nat>)
    ensures r.Success? ==> |r.value| == |sources|
    ensures r.Success? ==> forall i :: 0 <= i < |sources| ==> DecodeHit(sources[i]) == Some(r.value[i])
    ensures r.Success? <==> forall i :: 0 <= i < |sources| ==> DecodeHit(sources[i]).Some?
    ensures r.Failure? ==> r.error < |sources| && DecodeHit(sources[r.error]).None?
                           && forall i :: 0 <= i < r.error ==> DecodeHit(sources[i]).Some?
  {
    if |sources| == 0 then Success([])
    else
      match DecodeHit(sources[0])
      case None => Failure(0)
      case Some(m) =>
        match DecodeHits(sources[1..])
        case Failure(k) => Failure(k + 1)
        case Success(rest) => Success([m] + rest)
  }

  /** One page of search results and the total number of hits. */
  datatype SearchPage = SearchPage(messages: seq<ChatMessageIndex>, total: int)

  /** Reads a search response. */
  function SearchOutcome(reply: EsReply): (r: Result<SearchPage, EsError>)
    ensures r.Success? ==> reply.Reply? && !IsErrorStatus(reply.status) && reply.payload.HitsBody?
    ensures r.Success? ==> r.value.total == RoundToFloat64(reply.payload.total)
                           && |r.value.messages| == |reply.payload.sources|
                           && forall i :: 0 <= i < |reply.payload.sources| ==>
                                DecodeHit(reply.payload.sources[i]) == Some(r.value.messages[i])
  {
    match reply
    case TransportFailure(m) => Failure(Transport(m))
    case Reply(status, payload) =>
      if IsErrorStatus(status) then Failure(ErrorStatus(status))
      else
        match payload
        case NoBody => Failure(BadResponse)
        case Unreadable => Failure(BadResponse)
        case ErrorBody(_) => Failure(ShapePanic)
        case HitsBody(total, sources) =>
          match DecodeHits(sources)
          case Failure(k) => Failure(HitUndecodable(k))
          case Success(messages) => Success(SearchPage(messages, RoundToFloat64(total)))
  }

  /** SearchChatMessages: without a client it fails and sends nothing;
      otherwise it sends one search that asks for the exact total. */
  function SearchChatMessages(ready: bool, text: string, from: int, size: int,
                              send: EsRequest -> EsReply): (c: EsCall<SearchPage>)
    ensures !ready ==> c == EsCall(None, Failure(NotInitialised))
    ensures ready ==> c.sent == Some(Search(IndexName, BuildSearchQuery(text, from, size), true))
    ensures ready ==> c.result == SearchOutcome(send(c.sent.value))
  {
    if !ready then EsCall(None, Failure(NotInitialised))
    else
      var req := Search(IndexName, BuildSearchQuery(text, from, size), true);
      EsCall(Some(req), SearchOutcome(send(req)))
  }

  /** A document with its price as a search reads it back, when it does. */
  function ReadBack(d: ChatMessageIndex): ChatMessageIndex {
    match ReadBackInt(d.price)
    case Some(p) => d.(price := p)
    case None => d
  }

  /** A search reads back, one for one and in hit order, the documents that
      were indexed, each price read back through float64 and its decimal
      text; it fails exactly when such a price leaves Go's `int` range. The
      total is the cluster's count, rounded to float64, not the page's
      length. */
  lemma SearchReadsBackIndexed(docs: seq<ChatMessageIndex>, total: int, status: int)
    requires !IsErrorStatus(status)
    ensures var sources := seq(|docs|, i requires 0 <= i < |docs| => ToJson(docs[i]));
      var r := SearchOutcome(Reply(status, HitsBody(total, sources)));
      && (r.Success? <==> forall i :: 0 <= i < |docs| ==> ReadBackInt(docs[i].price).Some?)
      && (r.Success? ==> r.value == SearchPage(seq(|docs|, i requires 0 <= i < |docs| => ReadBack(docs[i])),
                                               RoundToFloat64(total)))
  {
    var sources := seq(|docs|, i requires 0 <= i < |docs| => ToJson(docs[i]));
    forall i | 0 <= i < |docs|
      ensures DecodeHit(sources[i]) == if ReadBackInt(docs[i].price).Some? then Some(ReadBack(docs[i])) else None
    {
      DecodeIndexedHit(docs[i]);
    }
    var r := SearchOutcome(Reply(status, HitsBody(total, sources)));
    if r.Success? {
      assert r.value.messages == seq(|docs|, i requires 0 <= i < |docs| => ReadBack(docs[i]));
    }
  }

  /** Prices and totals within 2^53 in magnitude, which includes every
      value of the mapping's 32-bit `integer` price, read back exactly. */
  lemma SearchReadsBackSmallPricesExactly(docs: seq<ChatMessageIndex>, total: int, status: int)
    requires !IsErrorStatus(status)
    requires forall i :: 0 <= i < |docs| ==> Abs(docs[i].price) <= Float64Exact
    requires Abs(total) <= Float64Exact
    ensures var sources := seq(|docs|, i requires 0 <= i < |docs| => ToJson(docs[i]));
      SearchOutcome(Reply(status, HitsBody(total, sources))) == Success(SearchPage(docs, total))
  {
    SearchReadsBackIndexed(docs, total, status);
    assert seq(|docs|, i requires 0 <= i < |docs| => ReadBack(docs[i])) == docs;
  }

  /** A document priced 2^53 + 1 is read back priced 2^53. */
  lemma PriceBeyondFloat64ReadsBackRounded(d: ChatMessageIndex)
    requires d.price == Float64Exact + 1
    ensures DecodeHit(ToJson(d)) == Some(d.(price := Float64Exact))
  {
    FirstInexactIntegerReadsBackRounded();
    DecodeIndexedHit(d);
  }

  /** A document priced 2^60, though a float64 exactly, is read back priced
      1152921504606847000, the decimal json.Marshal writes for it. */
  lemma PricePowerOfTwoReadsBackPadded(d: ChatMessageIndex)
    requires d.price == 1_152_921_504_606_846_976
    ensures DecodeHit(ToJson(d)) == Some(d.(price := 1_152_921_504_606_847_000))
  {
    PowerOfTwoReadsBackPadded();
    DecodeIndexedHit(d);
  }

  /** A document priced MaxInt64 or MinInt64 cannot be read back: either
      price is written 9223372036854776000 in magnitude, and the search
      fails on that hit. */
  lemma ExtremePriceHitUndecodable(d: ChatMessageIndex, total: int, status: int)
    requires (d.price == MaxInt64 || d.price == MinInt64) && !IsErrorStatus(status)
    ensures SearchOutcome(Reply(status, HitsBody(total, [ToJson(d)]))) == Failure(HitUndecodable(0))
  {
    ExtremeIntsDoNotReadBack();
    DecodeIndexedHit(d);
  }

  /** The update request ClassifyChatMessage sends. */
  function ClassifyRequest(msgId: string, messageType: string): EsRequest {
    UpdateDocument(IndexName, msgId, ClassifyPatch(messageType), true)
  }

  /** ClassifyChatMessage: without a client it fails and sends nothing;
      otherwise one partial update of exactly `classified` and
      `message_type`. */
  function ClassifyChatMessage(ready: bool, msgId: string, messageType: string,
                               send: EsRequest -> EsReply): (c: EsCall<()>)
    ensures !ready ==> c == EsCall(None, Failure(NotInitialised))
    ensures ready ==> c.sent.Some? && c.sent.value.UpdateDocument?
    ensures ready ==> var req := c.sent.value;
      && req.index == IndexName && req.docId == msgId && req.refresh
      && req.patch.Keys == {ClassifiedField, MessageTypeField}
      && req.patch[ClassifiedField] == JBool(true)
      && req.patch[MessageTypeField] == JString(messageType)
      && c.result == AckOutcome(send(req))
  {
    if !ready then EsCall(None, Failure(NotInitialised))
    else
      var req := ClassifyRequest(msgId, messageType);
      EsCall(Some(req), AckOutcome(send(req)))
  }
}
