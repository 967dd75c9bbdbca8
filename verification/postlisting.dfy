/**
 * GET /post/type/:type (handleGetPostsByType): validates the post type,
 * normalises the page, builds a conjunctive MongoDB filter from the
 * optional query parameters, and joins every post found to its owner.
 */
module PostListing {
  import opened Wrappers
  import opened ObjectIds
  import opened Records
  import opened Strconv
  import opened Pagination
  import opened Http

  /** The post fields the filter can constrain (`type`, `category`,
      `location`, `price`). */
  datatype FilterKey = TypeKey | CategoryKey | LocationKey | PriceKey

  /** The operators of the price sub-filter (`$gte`, `$lte`). */
  datatype PriceOp = Gte | Lte

  datatype Condition = Equals(s: string) | PriceRange(bounds: map<PriceOp, int>)

  /** A bson.M filter: every entry must hold of a document. */
  type Filter = map<FilterKey, Condition>

  /** The query parameters the filter is built from, already parsed. */
  datatype ListingParams = ListingParams(
    postType: string, category: string, location: string, minPrice: int, maxPrice: int)

  /** Reads the filter parameters as the handler does: `category` and
      `location` default to "", prices go through Atoi with default "0" and
      a malformed price reads as 0. */
  function ParamsOf(postType: string, q: Query): (p: ListingParams)
    ensures p.postType == postType
    ensures IsInt64(p.minPrice) && IsInt64(p.maxPrice)
    ensures "category" in q ==> p.category == q["category"]
    ensures "category" !in q ==> p.category == ""
    ensures "location" in q ==> p.location == q["location"]
    ensures "location" !in q ==> p.location == ""
    ensures "minPrice" in q ==> p.minPrice == AtoiIgnoringError(q["minPrice"])
    ensures "minPrice" !in q ==> p.minPrice == 0
    ensures "maxPrice" in q ==> p.maxPrice == AtoiIgnoringError(q["maxPrice"])
    ensures "maxPrice" !in q ==> p.maxPrice == 0
  {
    AtoiItoa(0);
    assert Itoa(0) == "0";
    ListingParams(postType, QueryParam(q, "category"), QueryParam(q, "location"),
      AtoiIgnoringError(DefaultQuery(q, "minPrice", "0")),
      AtoiIgnoringError(DefaultQuery(q, "maxPrice", "0")))
  }

  /** Price parameters that are numerals are read as their values, and
      such a bound reaches the filter exactly when it is positive. */
  lemma ParamsOfReadsPrices(postType: string, q: Query, lo: int, hi: int)
    requires IsInt64(lo) && IsInt64(hi)
    requires "minPrice" in q && q["minPrice"] == Itoa(lo)
    requires "maxPrice" in q && q["maxPrice"] == Itoa(hi)
    ensures ParamsOf(postType, q).minPrice == lo && ParamsOf(postType, q).maxPrice == hi
    ensures var f := BuildFilter(ParamsOf(postType, q));
      (PriceKey in f <==> lo > 0 || hi > 0)
      && (PriceKey in f ==> (Gte in f[PriceKey].bounds <==> lo > 0) && (Lte in f[PriceKey].bounds <==> hi > 0))
  {
    AtoiItoa(lo);
    AtoiItoa(hi);
  }

  /** The filter handleGetPostsByType hands to MongoDB. */
  function BuildFilter(p: ListingParams): (f: Filter)
    ensures TypeKey in f && f[TypeKey] == Equals(p.postType)
    ensures CategoryKey in f <==> p.category != ""
    ensures CategoryKey in f ==> f[CategoryKey] == Equals(p.category)
    ensures LocationKey in f <==> p.location != ""
    ensures LocationKey in f ==> f[LocationKey] == Equals(p.location)
    ensures PriceKey in f <==> p.minPrice > 0 || p.maxPrice > 0
    ensures PriceKey in f ==>
              && f[PriceKey].PriceRange?
              && (Gte in f[PriceKey].bounds <==> p.minPrice > 0)
              && (Lte in f[PriceKey].bounds <==> p.maxPrice > 0)
              && (Gte in f[PriceKey].bounds ==> f[PriceKey].bounds[Gte] == p.minPrice)
              && (Lte in f[PriceKey].bounds ==> f[PriceKey].bounds[Lte] == p.maxPrice)
  {
    var f0: Filter := map[TypeKey := Equals(p.postType)];
    var f1 := if p.category != "" then f0[CategoryKey := Equals(p.category)] else f0;
    var f2 := if p.location != "" then f1[LocationKey := Equals(p.location)] else f1;
    if p.minPrice > 0 || p.maxPrice > 0 then
      var b0: map<PriceOp, int> := map[];
      var b1 := if p.minPrice > 0 then b0[Gte := p.minPrice] else b0;
      var b2 := if p.maxPrice > 0 then b1[Lte := p.maxPrice] else b1;
      f2[PriceKey := PriceRange(b2)]
    else f2
  }

  /** MongoDB's reading of one filter entry against a post. */
  predicate Satisfies(post: Post, key: FilterKey, c: Condition) {
    match (key, c)
    case (TypeKey, Equals(s)) => post.postType == s
    case (CategoryKey, Equals(s)) => post.category == s
    case (LocationKey, Equals(s)) => post.location == s
    case (PriceKey, PriceRange(b)) =>
      (Gte in b ==> post.price >= b[Gte]) && (Lte in b ==> post.price <= b[Lte])
    case _ => false
  }

  /** A post matches a filter when it satisfies every entry. */
  predicate Admits(f: Filter, post: Post) {
    forall k :: k in f ==> Satisfies(post, k, f[k])
  }

  /** The posts the listing is meant to return: the requested type, the
      category and location when given, and the price bounds when positive. */
  predicate Wanted(p: ListingParams, post: Post) {
    && post.postType == p.postType
    && (p.category == "" || post.category == p.category)
    && (p.location == "" || post.location == p.location)
    && (p.minPrice <= 0 || post.price >= p.minPrice)
    && (p.maxPrice <= 0 || post.price <= p.maxPrice)
  }

  /** The filter selects exactly the wanted posts. */
  lemma FilterSelectsWanted(p: ListingParams, post: Post)
    ensures Admits(BuildFilter(p), post) <==> Wanted(p, post)
  {
    var f := BuildFilter(p);
    if Wanted(p, post) {
      forall k | k in f
        ensures Satisfies(post, k, f[k])
      {
      }
    } else {
      if post.postType != p.postType {
        assert !Satisfies(post, TypeKey, f[TypeKey]);
      } else if p.category != "" && post.category != p.category {
        assert !Satisfies(post, CategoryKey, f[CategoryKey]);
      } else if p.location != "" && post.location != p.location {
        assert !Satisfies(post, LocationKey, f[LocationKey]);
      } else {
        assert !Satisfies(post, PriceKey, f[PriceKey]);
      }
    }
  }

  /** A post joined to its owner. */
  datatype PostWithUser = PostWithUser(post: Post, user: User)

  /** The owner lookup: a user that cannot be read leaves the zero User. */
  function Owner(users: map<ObjectId, User>, post: Post): User {
    if post.userId in users then users[post.userId] else ZeroUser
  }

  /** Joins each post to its owner, one item per post, in order. */
  function Hydrate(posts: seq<Post>, users: map<ObjectId, User>): (items: seq<PostWithUser>)
    ensures |items| == |posts|
    ensures forall i :: 0 <= i < |posts| ==> items[i].post == posts[i]
    ensures forall i :: 0 <= i < |posts| ==> items[i].user == Owner(users, posts[i])
  {
    if |posts| == 0 then []
    else [PostWithUser(posts[0], Owner(users, posts[0]))] + Hydrate(posts[1..], users)
  }

  /** Hydration never drops or reorders: projecting the items back to their
      posts gives the input, and a post whose owner is missing is kept with
      the zero User. */
  lemma HydrateKeepsEveryPost(posts: seq<Post>, users: map<ObjectId, User>)
    ensures var items := Hydrate(posts, users);
      (seq(|items|, i requires 0 <= i < |items| => items[i].post)) == posts
    ensures forall i :: 0 <= i < |posts| && posts[i].userId !in users ==>
      Hydrate(posts, users)[i] == PostWithUser(posts[i], ZeroUser)
  {
  }

  /** Hydrating a concatenation hydrates each part. */
  lemma {:induction false} HydrateAppend(a: seq<Post>, b: seq<Post>, users: map<ObjectId, User>)
    ensures Hydrate(a + b, users) == Hydrate(a, users) + Hydrate(b, users)
    decreases |a|
  {
    if |a| > 0 {
      assert (a + b)[1..] == a[1..] + b;
      HydrateAppend(a[1..], b, users);
    } else {
      assert a + b == b;
    }
  }

  /** The field the listing is sorted on. */
  const CreatedAtKey := "createdAt"

  /** The find request: the filter, the sort (`descending` for -1), the
      number of documents skipped and the page length. `skip` is the Go
      `int` the handler computes, so it may be negative. */
  datatype PostsQuery = PostsQuery(filter: Filter, sortField: string, descending: bool, skip: int, limit: int)

  datatype PostsPage = PostsPage(posts: seq<PostWithUser>, total: int, page: int, pageSize: int)

  /** Everything handleGetPostsByType decides before touching the store. */
  function PlanPostsByType(pathType: string, q: Query): (r: Result<(Window, PostsQuery), HttpError>)
    ensures r.Failure? <==> !IsPostType(pathType)
    ensures r.Failure? ==> r.error.status == BadRequest
    ensures r.Success? ==>
      var (w, pq) := r.value;
      && ValidWindow(w, ListingPageSizeCap)
      && w == QueryWindow(q, ListingPageSizeCap)
      && pq.filter == BuildFilter(ParamsOf(pathType, q))
      && pq.sortField == CreatedAtKey && pq.descending
      && IsInt64(pq.skip) && pq.skip == WrappedOffset(w) && pq.limit == w.pageSize
  {
    if pathType != BuyType && pathType != SellType then
      Failure(HttpError(BadRequest, "Invalid post type. Must be 'mua' or 'ban'"))
    else
      var w := QueryWindow(q, ListingPageSizeCap);
      Success((w, PostsQuery(BuildFilter(ParamsOf(pathType, q)), CreatedAtKey, true, WrappedOffset(w), w.pageSize)))
  }

  /** While the product fits in 64 bits, the listing skips exactly the
      earlier pages: a non-negative multiple of the page size, and the next
      page starts where this one ends. */
  lemma ListingSkipsEarlierPages(pathType: string, q: Query)
    requires IsPostType(pathType)
    requires var w := QueryWindow(q, ListingPageSizeCap); (w.page - 1) * w.pageSize <= MaxInt64
    ensures var (w, pq) := PlanPostsByType(pathType, q).value;
      && pq.skip == Offset(w) && pq.skip >= 0
      && pq.skip % pq.limit == 0 && pq.skip / pq.limit == w.page - 1
      && Offset(Window(w.page + 1, w.pageSize)) == pq.skip + pq.limit
  {
    var w := QueryWindow(q, ListingPageSizeCap);
    WrappedOffsetAgrees(w);
    PagesTile(w);
  }

  /** As written, page 2^62 + 1 of four posts skips nothing: the listing
      answers with the first page. */
  lemma ListingHugePageSkipsNothing(pathType: string)
    requires IsPostType(pathType)
    ensures var q: Query := map["page" := Itoa(0x4000_0000_0000_0001), "pageSize" := Itoa(4)];
      var (w, pq) := PlanPostsByType(pathType, q).value;
      w.page == 0x4000_0000_0000_0001 && pq.skip == 0 && pq.limit == 4
  {
    HugePageWrapsToFirstPage();
  }

  /** Why reading a page of posts failed: the find itself, or decoding
      the cursor's documents. */
  datatype FindError = QueryFailed | CursorFailed

  /** handleGetPostsByType. `find` and `count` stand for the posts
      collection; `users` holds the users a lookup by id can read. A failed
      count is logged and reported as a total of 0. */
  function GetPostsByType(
    pathType: string, q: Query,
    find: PostsQuery -> Result<seq<Post>, FindError>,
    count: Filter -> Result<int, string>,
    users: map<ObjectId, User>): (r: Result<PostsPage, HttpError>)
    ensures !IsPostType(pathType) ==> r == Failure(HttpError(BadRequest, "Invalid post type. Must be 'mua' or 'ban'"))
    ensures IsPostType(pathType) ==>
      var (w, pq) := PlanPostsByType(pathType, q).value;
      match find(pq)
      case Failure(QueryFailed) => r == Failure(HttpError(InternalServerError, "Database error"))
      case Failure(CursorFailed) => r == Failure(HttpError(InternalServerError, "Error parsing results"))
      case Success(found) =>
        && r.Success?
        && r.value.posts == Hydrate(found, users)
        && r.value.total == (if count(pq.filter).Success? then count(pq.filter).value else 0)
        && r.value.page == w.page && r.value.pageSize == w.pageSize
  {
    match PlanPostsByType(pathType, q)
    case Failure(e) => Failure(e)
    case Success((w, pq)) =>
      match find(pq)
      case Failure(QueryFailed) => Failure(HttpError(InternalServerError, "Database error"))
      case Failure(CursorFailed) => Failure(HttpError(InternalServerError, "Error parsing results"))
      case Success(found) =>
        var total := match count(pq.filter) case Success(n) => n case Failure(_) => 0;
        Success(PostsPage(Hydrate(found, users), total, w.page, w.pageSize))
  }

  /** When the store honours the filter, every listed post is one the
      parameters ask for, and it comes with its owner. */
  lemma ListedPostsAreWanted(
    pathType: string, q: Query,
    find: PostsQuery -> Result<seq<Post>, FindError>,
    count: Filter -> Result<int, string>,
    users: map<ObjectId, User>)
    requires IsPostType(pathType)
    requires var pq := PlanPostsByType(pathType, q).value.1;
      find(pq).Success? ==> forall p :: p in find(pq).value ==> Admits(pq.filter, p)
    ensures var r := GetPostsByType(pathType, q, find, count, users);
      r.Success? ==> forall i :: 0 <= i < |r.value.posts| ==>
        && Wanted(ParamsOf(pathType, q), r.value.posts[i].post)
        && r.value.posts[i].post.postType == pathType
        && r.value.posts[i].user == Owner(users, r.value.posts[i].post)
  {
    var pq := PlanPostsByType(pathType, q).value.1;
    var r := GetPostsByType(pathType, q, find, count, users);
    if r.Success? {
      var found := find(pq).value;
      forall i | 0 <= i < |r.value.posts|
        ensures Wanted(ParamsOf(pathType, q), r.value.posts[i].post)
      {
        assert r.value.posts[i].post == found[i];
        assert found[i] in found;
        FilterSelectsWanted(ParamsOf(pathType, q), found[i]);
      }
    }
  }
}
