/**
 * POST /post/create (handleCreatePost): validates the request, checks the
 * user exists, classifies the text, stores the post with the caller's type
 * overriding the classifier's, and indexes it for search.
 */
module CreatePost {
  import opened Wrappers
  import opened ObjectIds
  import opened Records
  import opened IndexDocs
  import opened Classifier
  import opened Http

  datatype CreatePostRequest = CreatePostRequest(userId: string, content: string, postType: string)

  /** The result of reading a user by id. */
  datatype UserLookup = FoundUser(user: User) | NoSuchUser | LookupFailed

  /** The post attributes to store: the classifier's, with the caller's type
      always taking precedence; when classification fails, only the type. */
  function MergeClassification(requestType: string, classified: Result<PostInfo, ClassifyError>): (info: PostInfo)
    ensures info.postType == requestType
    ensures classified.Failure? ==> info == PostInfo(requestType, "", "", 0, "", [])
    ensures classified.Success? ==>
              && info.category == classified.value.category
              && info.location == classified.value.location
              && info.price == classified.value.price
              && info.condition == classified.value.condition
              && info.keywords == classified.value.keywords
  {
    match classified
    case Failure(_) => PostInfo(requestType, "", "", 0, "", [])
    case Success(i) => i.(postType := requestType)
  }

  /** The type the classifier guessed never reaches the stored attributes:
      two classifications that differ only in type merge to the same info. */
  lemma ClassifierTypeNeverWins(requestType: string, a: PostInfo, b: PostInfo)
    requires a.(postType := b.postType) == b
    ensures MergeClassification(requestType, Success(a)) == MergeClassification(requestType, Success(b))
  {
  }

  /** The post handleCreatePost stores. */
  function NewPost(id: ObjectId, owner: ObjectId, content: string, info: PostInfo, now: Time): (p: Post)
    ensures p.id == id && p.userId == owner && p.content == content && p.createdAt == now
    ensures p.postType == info.postType && p.category == info.category && p.location == info.location
    ensures p.price == info.price && p.condition == info.condition && p.keywords == info.keywords
  {
    Post(id, info.postType, content, now, owner, info.category, info.location,
         info.price, info.condition, info.keywords)
  }

  /** The stand-in message a new post is indexed under: a fresh id, the
      post's text and time, and nil room and sender ids. */
  function PostMessage(messageId: ObjectId, content: string, now: Time): Message {
    Message(messageId, NilObjectId, NilObjectId, content, now)
  }

  datatype Created = Created(
    post: Post,
    insertedId: ObjectId,
    postInfo: PostInfo,
    /** the document sent to the search index, when it is enabled; a failure
        to index is only logged */
    indexed: Option<ChatMessageIndex>)

  /** gin's binding rules for the request: every field required (non-empty),
      and the type one of "mua" and "ban". */
  predicate BindingValid(req: CreatePostRequest) {
    req.userId != "" && req.content != "" && IsPostType(req.postType)
  }

  /** handleCreatePost. `body` is the JSON body once bound (None when it
      is not JSON of this shape); `findUser` reads the users collection,
      `insert` writes the posts collection; `postId` and `messageId` are the
      fresh ids, and `postTime` and `messageTime` are the two clock readings,
      for the post and for the stand-in message it is indexed under. */
  function HandleCreatePost(
    body: Option<CreatePostRequest>,
    findUser: ObjectId -> UserLookup,
    apiKey: string,
    complete: CompletionRequest -> CompletionReply,
    decode: string -> Option<PostInfo>,
    insert: Post -> Result<ObjectId, string>,
    searchEnabled: bool,
    postId: ObjectId, messageId: ObjectId, postTime: Time, messageTime: Time): (r: Result<Created, HttpError>)
    ensures body.None? || !BindingValid(body.value) ==> r == Failure(HttpError(BadRequest, "Invalid request"))
    ensures body.Some? && BindingValid(body.value) && FromHex(body.value.userId).None? ==>
              r == Failure(HttpError(BadRequest, "Invalid user ID"))
    ensures body.Some? && BindingValid(body.value) && FromHex(body.value.userId).Some? ==>
              match findUser(FromHex(body.value.userId).value)
              case NoSuchUser => r == Failure(HttpError(NotFound, "User not found"))
              case LookupFailed => r == Failure(HttpError(InternalServerError, "Database error"))
              case FoundUser(_) => r.Success? || r.error.status == InternalServerError
    ensures r.Success? ==> body.Some?
    ensures r.Success? && body.Some? ==>
              var req := body.value;
              && BindingValid(req)
              && FromHex(req.userId).Some?
              && findUser(FromHex(req.userId).value).FoundUser?
              && r.value.post.postType == req.postType
              && r.value.post.userId == FromHex(req.userId).value
              && r.value.post.content == req.content
              && r.value.postInfo == MergeClassification(req.postType, ClassifyPost(apiKey, req.content, complete, decode).outcome)
              && r.value.post == NewPost(postId, FromHex(req.userId).value, req.content, r.value.postInfo, postTime)
              && insert(r.value.post) == Success(r.value.insertedId)
              && r.value.indexed == (if searchEnabled
                                     then Some(BuildIndexDocument(PostMessage(messageId, req.content, messageTime), None, Some(r.value.post)))
                                     else None)
  {
    if body.None? || !BindingValid(body.value) then Failure(HttpError(BadRequest, "Invalid request"))
    else
      var req := body.value;
      match FromHex(req.userId)
      case None => Failure(HttpError(BadRequest, "Invalid user ID"))
      case Some(owner) =>
        match findUser(owner)
        case NoSuchUser => Failure(HttpError(NotFound, "User not found"))
        case LookupFailed => Failure(HttpError(InternalServerError, "Database error"))
        case FoundUser(_) =>
          var classified := ClassifyPost(apiKey, req.content, complete, decode).outcome;
          if classified.Failure? && classified.error.IsPanic() then
            Failure(HttpError(InternalServerError, "panic recovered"))
          else
            var info := MergeClassification(req.postType, classified);
            var post := NewPost(postId, owner, req.content, info, postTime);
            match insert(post)
            case Failure(_) => Failure(HttpError(InternalServerError, "Failed to create post"))
            case Success(inserted) =>
              var indexed :=
                if searchEnabled
                then Some(BuildIndexDocument(PostMessage(messageId, req.content, messageTime), None, Some(post)))
                else None;
              Success(Created(post, inserted, info, indexed))
  }

  /** Once the request is valid and its user exists, the post is created
      exactly when the classifier does not panic and the insert succeeds;
      a failed insert is a 500. */
  lemma CreatePostSucceedsIffStored(
    req: CreatePostRequest, findUser: ObjectId -> UserLookup, apiKey: string,
    complete: CompletionRequest -> CompletionReply, decode: string -> Option<PostInfo>,
    insert: Post -> Result<ObjectId, string>, searchEnabled: bool,
    postId: ObjectId, messageId: ObjectId, postTime: Time, messageTime: Time)
    requires BindingValid(req) && FromHex(req.userId).Some?
    requires findUser(FromHex(req.userId).value).FoundUser?
    ensures var c := ClassifyPost(apiKey, req.content, complete, decode).outcome;
      var post := NewPost(postId, FromHex(req.userId).value, req.content, MergeClassification(req.postType, c), postTime);
      var r := HandleCreatePost(Some(req), findUser, apiKey, complete, decode, insert, searchEnabled, postId, messageId, postTime, messageTime);
      && (r.Success? <==> !(c.Failure? && c.error.IsPanic()) && insert(post).Success?)
      && (!(c.Failure? && c.error.IsPanic()) && insert(post).Failure? ==>
            r == Failure(HttpError(InternalServerError, "Failed to create post")))
      && (r.Success? ==> r.value.post == post && r.value.insertedId == insert(post).value)
  {
  }

  /** Without a classifier key no completion request is made and the post
      is stored with its type alone. */
  lemma CreateWithoutKeyStoresTypeOnly(
    req: CreatePostRequest, findUser: ObjectId -> UserLookup,
    complete: CompletionRequest -> CompletionReply, decode: string -> Option<PostInfo>,
    insert: Post -> Result<ObjectId, string>, searchEnabled: bool,
    postId: ObjectId, messageId: ObjectId, postTime: Time, messageTime: Time)
    requires BindingValid(req) && FromHex(req.userId).Some?
    requires findUser(FromHex(req.userId).value).FoundUser?
    requires insert(NewPost(postId, FromHex(req.userId).value, req.content,
                            PostInfo(req.postType, "", "", 0, "", []), postTime)).Success?
    ensures ClassifyPost("", req.content, complete, decode).requests == []
    ensures var r := HandleCreatePost(Some(req), findUser, "", complete, decode, insert, searchEnabled, postId, messageId, postTime, messageTime);
      && r.Success?
      && r.value.post == NewPost(postId, FromHex(req.userId).value, req.content,
                                 PostInfo(req.postType, "", "", 0, "", []), postTime)
  {
  }

  /** The document a new post is indexed under carries the post's
      attributes but no room ids and, in particular, no post id: its id is
      the stand-in message's, not the post's. */
  lemma IndexedPostHasNoPostId(
    req: CreatePostRequest, findUser: ObjectId -> UserLookup, apiKey: string,
    complete: CompletionRequest -> CompletionReply, decode: string -> Option<PostInfo>,
    insert: Post -> Result<ObjectId, string>,
    postId: ObjectId, messageId: ObjectId, postTime: Time, messageTime: Time)
    ensures var r := HandleCreatePost(Some(req), findUser, apiKey, complete, decode, insert, true, postId, messageId, postTime, messageTime);
      r.Success? ==>
        var d := r.value.indexed.value;
        && d.id == Hex(messageId) && d.postId == "" && d.buyerId == "" && d.sellerId == ""
        && d.roomId == Hex(NilObjectId)
        && d.postType == req.postType && d.content == req.content
        && d.category == r.value.post.category && d.keywords == r.value.post.keywords
        && d.createdAt == messageTime && r.value.post.createdAt == postTime
        && !d.classified
  {
  }
}
