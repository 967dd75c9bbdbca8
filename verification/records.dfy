/**
 * The stored records of models.go: users, posts, the classifier's PostInfo,
 * chat messages and chat rooms. Every Go zero value used by the handlers is
 * named here.
 */
module Records {
  import opened ObjectIds

  /** A `time.Time`, kept abstract; the handlers only copy timestamps. */
  type Time = int

  /** The zero `time.Time`. */
  const ZeroTime: Time := 0

  /** A user; `userType` is "buyer" or "seller" by convention. */
  datatype User = User(
    id: ObjectId,
    uid: string,
    username: string,
    avatar: string,
    userType: string,
    email: string,
    accessToken: string,
    createdAt: Time)

  /** The zero `User` a failed lookup leaves behind. */
  const ZeroUser: User := User(NilObjectId, "", "", "", "", "", "", ZeroTime)

  /** A post; `postType` is "mua" (wants to buy) or "ban" (wants to sell). */
  datatype Post = Post(
    id: ObjectId,
    postType: string,
    content: string,
    createdAt: Time,
    userId: ObjectId,
    category: string,
    location: string,
    price: int,
    condition: string,
    keywords: seq<string>)

  /** The structured attributes the classifier extracts from a post's text. */
  datatype PostInfo = PostInfo(
    postType: string,
    category: string,
    location: string,
    price: int,
    condition: string,
    keywords: seq<string>)

  datatype Message = Message(
    id: ObjectId,
    roomId: ObjectId,
    senderId: ObjectId,
    content: string,
    createdAt: Time)

  datatype ChatRoom = ChatRoom(
    id: ObjectId,
    buyerId: ObjectId,
    sellerId: ObjectId,
    postId: ObjectId,
    messages: seq<ObjectId>,
    createdAt: Time)

  /** The two post types a request may name. */
  const BuyType := "mua"
  const SellType := "ban"

  predicate IsPostType(t: string) {
    t == BuyType || t == SellType
  }
}
