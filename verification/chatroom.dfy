/**
 * createChatRoom in frontend/components/SearchResults.js: from a search hit,
 * decide who is the buyer and who the seller and ask the API for a room.
 * Ids are the strings the browser holds.
 */
module ChatRoomRoles {
  import opened Wrappers
  import opened Records

  /** The signed-in user as the browser knows it. */
  datatype SessionUser = SessionUser(id: string, userType: string)

  /** A search hit: the post and its owner. */
  datatype SearchHit = SearchHit(postId: string, postType: string, ownerId: string)

  /** The body posted to /api/chat/room/create. */
  datatype RoomRequest = RoomRequest(buyerId: string, sellerId: string, postId: string)

  datatype ChatAction = RedirectHome | RequestRoom(request: RoomRequest)

  /** The current user takes the buyer's side when their account is a buyer
      account or the post offers something for sale. */
  predicate UserIsBuyer(user: SessionUser, hit: SearchHit) {
    user.userType == "buyer" || hit.postType == SellType
  }

  /** createChatRoom. Without a signed-in user it goes home and requests
      nothing. */
  function CreateChatRoom(user: Option<SessionUser>, hit: SearchHit): (a: ChatAction)
    ensures a.RedirectHome? <==> user.None?
    ensures a.RequestRoom? ==> a.request.postId == hit.postId
    ensures a.RequestRoom? ==>
      multiset{a.request.buyerId, a.request.sellerId} == multiset{user.value.id, hit.ownerId}
    ensures a.RequestRoom? && user.value.id != hit.ownerId ==>
      (a.request.buyerId == user.value.id <==> UserIsBuyer(user.value, hit))
  {
    match user
    case None => RedirectHome
    case Some(u) =>
      var isBuyer := UserIsBuyer(u, hit);
      RequestRoom(RoomRequest(
        if isBuyer then u.id else hit.ownerId,
        if isBuyer then hit.ownerId else u.id,
        hit.postId))
  }

  /** Answering a post that sells something always makes the user the
      buyer and the post's owner the seller, whatever the user's account. */
  lemma AnsweringSaleMakesUserBuyer(u: SessionUser, hit: SearchHit)
    requires hit.postType == SellType
    ensures CreateChatRoom(Some(u), hit) == RequestRoom(RoomRequest(u.id, hit.ownerId, hit.postId))
  {
  }

  /** A buyer account is always the buyer, whatever the post offers. */
  lemma BuyerAccountIsBuyer(u: SessionUser, hit: SearchHit)
    requires u.userType == "buyer"
    ensures CreateChatRoom(Some(u), hit) == RequestRoom(RoomRequest(u.id, hit.ownerId, hit.postId))
  {
  }

  /** Otherwise (not a buyer account, and the post is not for sale) the
      user is the seller and the post's owner the buyer. */
  lemma OtherwiseUserIsSeller(u: SessionUser, hit: SearchHit)
    requires u.userType != "buyer" && hit.postType != SellType
    ensures CreateChatRoom(Some(u), hit) == RequestRoom(RoomRequest(hit.ownerId, u.id, hit.postId))
  {
  }

  /** A consequence: a buyer account answering another buyer's request to
      buy is recorded as the buyer, so the post's owner, who wants to buy,
      is recorded as the seller. */
  lemma BuyerAnsweringPurchaseMakesOwnerSeller(u: SessionUser, hit: SearchHit)
    requires hit.postType == BuyType && u.userType == "buyer"
    ensures CreateChatRoom(Some(u), hit).request.sellerId == hit.ownerId
  {
  }
}
