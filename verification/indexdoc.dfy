/**
 * The search-index document of a chat message (ChatMessageIndex), its JSON
 * form in the `chat_messages` index, and the projection IndexChatMessage
 * builds from a message and its optional room and post.
 */
module IndexDocs {
  import opened Wrappers
  import opened ObjectIds
  import opened Records

  /** A denormalised chat message as stored in the search index. */
  datatype ChatMessageIndex = ChatMessageIndex(
    id: string,
    roomId: string,
    senderId: string,
    content: string,
    createdAt: Time,
    postType: string,
    category: string,
    location: string,
    price: int,
    condition: string,
    keywords: seq<string>,
    buyerId: string,
    sellerId: string,
    postId: string,
    classified: bool,
    messageType: string)

  /** The JSON values a document field can hold. */
  datatype Json = JString(s: string) | JInt(n: int) | JBool(b: bool) | JStrings(ss: seq<string>) | JTime(t: Time)

  /** The fields of the index mapping for `chat_messages`. */
  datatype FieldName =
    | IdField | RoomIdField | SenderIdField | ContentField | CreatedAtField
    | PostTypeField | CategoryField | LocationField | PriceField | ConditionField
    | KeywordsField | BuyerIdField | SellerIdField | PostIdField
    | ClassifiedField | MessageTypeField

  /** The name each field has on the wire. */
  function WireName(f: FieldName): string {
    match f
    case IdField => "id"
    case RoomIdField => "room_id"
    case SenderIdField => "sender_id"
    case ContentField => "content"
    case CreatedAtField => "created_at"
    case PostTypeField => "post_type"
    case CategoryField => "category"
    case LocationField => "location"
    case PriceField => "price"
    case ConditionField => "condition"
    case KeywordsField => "keywords"
    case BuyerIdField => "buyer_id"
    case SellerIdField => "seller_id"
    case PostIdField => "post_id"
    case ClassifiedField => "classified"
    case MessageTypeField => "message_type"
  }

  /** A JSON object over the mapping's fields, as the index stores a
      document (fields outside the mapping are ignored when decoding and are
      not represented). */
  type JsonObject = map<FieldName, Json>

  /** A string field tagged `omitempty`. */
  function OmitEmpty(v: string): Option<Json> {
    if v == "" then None else Some(JString(v))
  }

  /** One field of the document as json.Marshal writes it, or None when the
      field is tagged `omitempty` and holds its zero value. */
  function Marshalled(d: ChatMessageIndex, f: FieldName): Option<Json> {
    match f
    case IdField => Some(JString(d.id))
    case RoomIdField => Some(JString(d.roomId))
    case SenderIdField => Some(JString(d.senderId))
    case ContentField => Some(JString(d.content))
    case CreatedAtField => Some(JTime(d.createdAt))
    case PostTypeField => OmitEmpty(d.postType)
    case CategoryField => OmitEmpty(d.category)
    case LocationField => OmitEmpty(d.location)
    case PriceField => if d.price == 0 then None else Some(JInt(d.price))
    case ConditionField => OmitEmpty(d.condition)
    case KeywordsField => if |d.keywords| == 0 then None else Some(JStrings(d.keywords))
    case BuyerIdField => OmitEmpty(d.buyerId)
    case SellerIdField => OmitEmpty(d.sellerId)
    case PostIdField => OmitEmpty(d.postId)
    case ClassifiedField => Some(JBool(d.classified))
    case MessageTypeField => Some(JString(d.messageType))
  }

  /** The document as stored: the fields tagged `omitempty` (post
      attributes and room ids) are absent when empty or zero. */
  function ToJson(d: ChatMessageIndex): (j: JsonObject)
    ensures forall f :: f in j <==> Marshalled(d, f).Some?
    ensures forall f :: f in j ==> j[f] == Marshalled(d, f).value
  {
    map f: FieldName | Marshalled(d, f).Some? :: Marshalled(d, f).value
  }

  /** The fields not tagged `omitempty` are always written, with the
      document's values. */
  lemma ToJsonAlwaysWritten(d: ChatMessageIndex)
    ensures var j := ToJson(d);
      && IdField in j && j[IdField] == JString(d.id)
      && RoomIdField in j && j[RoomIdField] == JString(d.roomId)
      && SenderIdField in j && j[SenderIdField] == JString(d.senderId)
      && ContentField in j && j[ContentField] == JString(d.content)
      && CreatedAtField in j && j[CreatedAtField] == JTime(d.createdAt)
      && ClassifiedField in j && j[ClassifiedField] == JBool(d.classified)
      && MessageTypeField in j && j[MessageTypeField] == JString(d.messageType)
  {
  }

  /** The fields tagged `omitempty` are written exactly when they are not
      empty (strings, keywords) or zero (price), and then with the
      document's values. */
  lemma ToJsonOmitsEmpty(d: ChatMessageIndex)
    ensures var j := ToJson(d);
      && (PostTypeField in j <==> d.postType != "")
      && (CategoryField in j <==> d.category != "")
      && (LocationField in j <==> d.location != "")
      && (PriceField in j <==> d.price != 0)
      && (ConditionField in j <==> d.condition != "")
      && (KeywordsField in j <==> |d.keywords| > 0)
      && (BuyerIdField in j <==> d.buyerId != "")
      && (SellerIdField in j <==> d.sellerId != "")
      && (PostIdField in j <==> d.postId != "")
    ensures var j := ToJson(d);
      && (PostTypeField in j ==> j[PostTypeField] == JString(d.postType))
      && (CategoryField in j ==> j[CategoryField] == JString(d.category))
      && (LocationField in j ==> j[LocationField] == JString(d.location))
      && (PriceField in j ==> j[PriceField] == JInt(d.price))
      && (ConditionField in j ==> j[ConditionField] == JString(d.condition))
      && (KeywordsField in j ==> j[KeywordsField] == JStrings(d.keywords))
      && (BuyerIdField in j ==> j[BuyerIdField] == JString(d.buyerId))
      && (SellerIdField in j ==> j[SellerIdField] == JString(d.sellerId))
      && (PostIdField in j ==> j[PostIdField] == JString(d.postId))
  {
  }

  /** The JSON kind each field of the mapping decodes from. */
  predicate FitsField(f: FieldName, v: Json) {
    match f
    case CreatedAtField => v.JTime?
    case PriceField => v.JInt?
    case KeywordsField => v.JStrings?
    case ClassifiedField => v.JBool?
    case _ => v.JString?
  }

  /** True when every present field has the kind its Go field expects. */
  predicate WellTyped(j: JsonObject) {
    forall f :: f in j ==> FitsField(f, j[f])
  }

  /** json.Unmarshal of one string field: absent reads as "". */
  function Str(j: JsonObject, f: FieldName): string {
    if f in j && j[f].JString? then j[f].s else ""
  }

  /** json.Unmarshal of a hit's `_source` into a ChatMessageIndex: missing
      fields take their zero value and a field of the wrong kind fails the
      whole decode. */
  function FromJson(j: JsonObject): (r: Option<ChatMessageIndex>)
    ensures r.Some? <==> WellTyped(j)
    ensures r.Some? ==> (r.value.classified <==> ClassifiedField in j && j[ClassifiedField] == JBool(true))
  {
    if !WellTyped(j) then None
    else Some(ChatMessageIndex(
      Str(j, IdField), Str(j, RoomIdField), Str(j, SenderIdField), Str(j, ContentField),
      if CreatedAtField in j then j[CreatedAtField].t else ZeroTime,
      Str(j, PostTypeField), Str(j, CategoryField), Str(j, LocationField),
      if PriceField in j then j[PriceField].n else 0,
      Str(j, ConditionField),
      if KeywordsField in j then j[KeywordsField].ss else [],
      Str(j, BuyerIdField), Str(j, SellerIdField), Str(j, PostIdField),
      ClassifiedField in j && j[ClassifiedField].b,
      Str(j, MessageTypeField)))
  }

  lemma ToJsonWellTyped(d: ChatMessageIndex)
    ensures WellTyped(ToJson(d))
  {
    var j := ToJson(d);
    forall f | f in j
      ensures FitsField(f, j[f])
    {
    }
  }

  lemma ToJsonStrings(d: ChatMessageIndex)
    ensures var j := ToJson(d);
      && Str(j, IdField) == d.id && Str(j, RoomIdField) == d.roomId
      && Str(j, SenderIdField) == d.senderId && Str(j, ContentField) == d.content
      && Str(j, PostTypeField) == d.postType && Str(j, CategoryField) == d.category
      && Str(j, LocationField) == d.location && Str(j, ConditionField) == d.condition
      && Str(j, BuyerIdField) == d.buyerId && Str(j, SellerIdField) == d.sellerId
      && Str(j, PostIdField) == d.postId && Str(j, MessageTypeField) == d.messageType
  {
  }

  /** What is written to the index is what a search reads back, although
      empty and zero fields are not stored. */
  lemma FromJsonToJson(d: ChatMessageIndex)
    ensures FromJson(ToJson(d)) == Some(d)
  {
    ToJsonWellTyped(d);
    ToJsonStrings(d);
  }

  /** IndexChatMessage's document: message fields always, room ids only
      with a room, post attributes only with a post, never classified. */
  function BuildIndexDocument(msg: Message, room: Option<ChatRoom>, post: Option<Post>): (d: ChatMessageIndex)
    ensures d.id == Hex(msg.id) && d.roomId == Hex(msg.roomId) && d.senderId == Hex(msg.senderId)
    ensures d.content == msg.content && d.createdAt == msg.createdAt
    ensures !d.classified && d.messageType == ""
    ensures room.Some? ==> d.buyerId == Hex(room.value.buyerId)
                           && d.sellerId == Hex(room.value.sellerId)
                           && d.postId == Hex(room.value.postId)
    ensures room.None? ==> d.buyerId == "" && d.sellerId == "" && d.postId == ""
    ensures post.Some? ==> d.postType == post.value.postType && d.category == post.value.category
                           && d.location == post.value.location && d.price == post.value.price
                           && d.condition == post.value.condition && d.keywords == post.value.keywords
    ensures post.None? ==> d.postType == "" && d.category == "" && d.location == ""
                           && d.price == 0 && d.condition == "" && d.keywords == []
  {
    var base := ChatMessageIndex(Hex(msg.id), Hex(msg.roomId), Hex(msg.senderId), msg.content,
      msg.createdAt, "", "", "", 0, "", [], "", "", "", false, "");
    var withRoom :=
      match room
      case None => base
      case Some(r) => base.(buyerId := Hex(r.buyerId), sellerId := Hex(r.sellerId), postId := Hex(r.postId));
    match post
    case None => withRoom
    case Some(p) =>
      withRoom.(postType := p.postType, category := p.category, location := p.location,
                price := p.price, condition := p.condition, keywords := p.keywords)
  }

  /** Because an id's hex form is never empty, the stored document carries
      the buyer, seller and post ids exactly when a room was supplied. */
  lemma RoomIdsStoredIffRoom(msg: Message, room: Option<ChatRoom>, post: Option<Post>)
    ensures var j := ToJson(BuildIndexDocument(msg, room, post));
      (BuyerIdField in j <==> room.Some?) && (SellerIdField in j <==> room.Some?)
      && (PostIdField in j <==> room.Some?)
  {
  }

  /** The partial update ClassifyChatMessage sends: exactly two fields. */
  function ClassifyPatch(messageType: string): (p: JsonObject)
    ensures p.Keys == {ClassifiedField, MessageTypeField}
    ensures p[ClassifiedField] == JBool(true) && p[MessageTypeField] == JString(messageType)
  {
    map[ClassifiedField := JBool(true), MessageTypeField := JString(messageType)]
  }

  /** The index's partial-document update: patch fields replace stored
      fields of the same name, every other stored field is kept. */
  function ApplyPatch(stored: JsonObject, patch: JsonObject): (r: JsonObject)
    ensures r.Keys == stored.Keys + patch.Keys
    ensures forall f :: f in patch ==> r[f] == patch[f]
    ensures forall f :: f in stored && f !in patch ==> r[f] == stored[f]
  {
    stored + patch
  }

  /** Classifying an indexed message changes exactly its `classified` flag
      and its `message_type`: the patched document is the document with
      those two fields set. */
  lemma ClassifyPatchSetsTwoFields(d: ChatMessageIndex, messageType: string)
    ensures ApplyPatch(ToJson(d), ClassifyPatch(messageType))
         == ToJson(d.(classified := true, messageType := messageType))
  {
    var after := ToJson(d.(classified := true, messageType := messageType));
    var r := ApplyPatch(ToJson(d), ClassifyPatch(messageType));
    assert forall f :: f in r <==> f in after;
    assert r.Keys == after.Keys;
  }

  /** Classifying twice with the same type is classifying once. */
  lemma ClassifyPatchIdempotent(stored: JsonObject, messageType: string)
    ensures var p := ClassifyPatch(messageType);
      ApplyPatch(ApplyPatch(stored, p), p) == ApplyPatch(stored, p)
  {
  }
}
