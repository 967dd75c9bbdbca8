# chat-buysell: a Dafny model of the request rules and search-index helpers

chat-buysell is a second-hand marketplace. Users publish posts that buy
("mua") or sell ("ban"), find each other's posts, and chat. The Go backend
(`main.go`, `models.go`) does several things:

- stores users and posts in MongoDB;
- classifies post text with a chat-completion service;
- mirrors chat messages and posts into an Elasticsearch index `chat_messages` for full-text search.

The Next.js component `SearchResults.js` opens a chat room from a search hit.

This project models the decision rules inside those handlers and helpers as
pure Dafny functions over immutable records, and proves what they promise.
The rules are:

- how paging parameters are read and clamped, and where a page starts;
- how the posts listing builds its MongoDB filter and joins posts to owners;
- how a new post merges the caller's type with the classifier's answer;
- how ClassifyPost guards on the API key and trims the reply before parsing;
- how a message becomes an index document, and how that document round-trips through JSON;
- how the search query is built and its hits are read back;
- how the classify update touches exactly two fields;
- how the index creation tolerates an index that already exists;
- how the browser decides who is buyer and who is seller in a new room.

MongoDB, Elasticsearch, the completion service, JSON decoding of request
bodies and the clock are parameters: maps for the user store, functions
(oracles) for every call whose answer the model does not compute, an
`Option` for a body that fails to bind, and clock readings and fresh ids
passed in. Each
Elasticsearch operation returns the request it sent (if any) beside its
result, so "fails and sends nothing" is stated, not assumed.

Modules (one file each):

- `Wrappers`: `Option` and `Result`.
- `Strconv`: Go's `strconv.Atoi`/`Itoa` and 64-bit wrap-around.
- `Text`: `strings.TrimSpace` over Unicode white space.
- `ObjectIds`: 12-byte object ids and their 24-character hex form.
- `Records`: the stored records.
- `IndexDocs`: `ChatMessageIndex` and its JSON form, the document projection, the partial update.
- `Pagination`: page windows, offsets, and the overflow finding below.
- `Http`: status codes and error replies.
- `PostListing`: GET /post/type/:type.
- `Classifier`: ClassifyPost.
- `CreatePost`: POST /post/create.
- `SearchIndex`: index creation, indexing, search, classify update.
- `Handlers`: GET /search/chat, POST /chat/classify, POST /matching/find.
- `ChatRoomRoles`: createChatRoom in the browser.
- `JsonNumbers`: integers passing through float64 when JSON is decoded into `interface{}`, and the shortest decimal `json.Marshal` writes for such a float64.

The posts listing keeps every post it found. A post whose owner cannot be
read is returned with an empty user, not dropped. GetMatchingPosts, called
at main.go:444, is not defined in the modelled files; FindMatches takes it
as an oracle.

The listing handlers compute the page offset in Go's 64-bit arithmetic, and
the model does the same (see "## Findings"). The intended offset is proved
for every window whose offset fits in 64 bits.

Go's `int` is taken to be 64 bits wide.

A search reads each hit's `_source` into generic JSON, where every number
becomes a float64, then marshals it and decodes it into the struct. A price
within 2^53 in magnitude comes back unchanged. A larger one comes back as
the shortest decimal that reads back as its float64, zero-padded: 2^60
comes back as 1152921504606847000. MaxInt64 and MinInt64 are written as
9223372036854776000 in magnitude, which no Go `int` holds, so the search
fails on that hit.

## Model

| member | source | states |
|---|---|---|
| Strconv.Wrap64 | main.go:350 | a Go `int` product lands in the 64-bit range, agrees with the mathematical value when that fits, and differs from it by a multiple of 2^64 |
| Strconv.ScanDigits | main.go:559-567 | an unsigned scan that succeeds saw only digits and stays within 2^64-1 |
| Strconv.Atoi | main.go:559-567 | a parsed value fits in 64 bits, a range error carries one of the two clamps, the empty string is a syntax error |
| Strconv.AtoiIgnoringError | main.go:572-573 | `n, _ := strconv.Atoi(s)` always yields a 64-bit value and yields 0 for a malformed string |
| Strconv.AtoiItoa | main.go:559-567 | every 64-bit integer written in decimal reads back as itself |
| Strconv.AtoiClampsOutOfRange | main.go:559-567 | a numeral beyond the signed range but within the unsigned one reads as MaxInt64 or MinInt64, by its sign |
| Strconv.AtoiParsedOnlyDigits | main.go:559-567 | only an optionally signed non-empty run of decimal digits parses |
| Strconv.ScanDigitsOfDigits | main.go:559-567 | scanning the decimal digits of any value up to 2^64-1 gives that value back |
| Text.TrimLeft | main.go:688 | the leading white space removed is exactly a prefix of white space, and the rest starts with a non-space |
| Text.TrimRight | main.go:688 | the trailing white space removed is exactly a suffix of white space, and the rest ends with a non-space |
| Text.TrimSpace | main.go:688 | the trimmed text starts and ends with non-space characters and is no longer than the input |
| Text.TrimSpacePadded | main.go:688 | any white-space padding around a trimmed text is removed exactly, and nothing else is |
| Text.TrimLeftPadded | main.go:688 | a white-space prefix before a text starting with a non-space is removed exactly |
| Text.TrimRightPadded | main.go:688 | a white-space suffix after a text ending with a non-space is removed exactly |
| Text.TrimSpaceFixes | main.go:688 | an already trimmed text is left unchanged |
| ObjectIds.HexEncode | models.go:209-211 | an id's hex form has two hex digits per byte |
| ObjectIds.HexDecode | main.go:474-479 | decoding succeeds exactly on all-hex text, giving one byte per two digits |
| ObjectIds.Hex | models.go:209-211 | an id's hex form has 24 characters |
| ObjectIds.FromHex | main.go:474-479 | a user id is accepted exactly when it is 24 hex digits (either case) |
| ObjectIds.HexDecodeEncode | main.go:474-479 | decoding the hex form of any byte string gives the bytes back |
| ObjectIds.FromHexOfHex | main.go:474-479 | parsing an id's hex form gives the id back |
| ObjectIds.HexInjective | models.go:209-211 | two ids with the same hex form are the same id, so the document id identifies the message |
| IndexDocs.ToJsonAlwaysWritten | models.go:77-94 | `id`, `room_id`, `sender_id`, `content`, `created_at`, `classified` and `message_type` are always written, with the document's values |
| IndexDocs.ToJsonOmitsEmpty | models.go:82-90 | each `omitempty` field (post type, category, location, condition, buyer, seller and post ids, price, keywords) is written exactly when it is not empty or zero, and then with the document's value |
| IndexDocs.FromJson | models.go:327-333 | a hit source decodes exactly when every present field has the right JSON type; `classified` is true only when stored true |
| IndexDocs.ToJsonWellTyped | models.go:77-94 | every field written by marshalling has the type decoding expects |
| IndexDocs.ToJsonStrings | models.go:77-94 | reading any string field back from the JSON form gives the document's value, present or omitted |
| IndexDocs.FromJsonToJson | models.go:235-245 | an indexed document decodes back to itself |
| IndexDocs.BuildIndexDocument | models.go:208-232 | the id, room id and sender id are the message's hex ids, content and time are copied, the document is unclassified; room ids come from the room if given and are empty otherwise; post attributes come from the post if given and are empty/zero otherwise |
| IndexDocs.RoomIdsStoredIffRoom | models.go:218-222 | the stored document has buyer, seller and post ids exactly when a room was supplied |
| IndexDocs.ClassifyPatch | models.go:348-353 | the update document has exactly the fields `classified` = true and `message_type` = the given type |
| IndexDocs.ApplyPatch | models.go:348-353 | a partial update replaces the patched fields and keeps every other stored field |
| IndexDocs.ClassifyPatchSetsTwoFields | models.go:348-353 | classifying an indexed message yields the document with `classified` and `message_type` set and nothing else changed |
| IndexDocs.ClassifyPatchIdempotent | models.go:348-353 | classifying twice with the same type equals classifying once |
| Pagination.ClampPage | main.go:340-343 | a page below 1 becomes 1, any other page is kept |
| Pagination.ClampPageSize | main.go:345-348 | a page size outside 1..cap becomes exactly 10, one inside is kept |
| Pagination.Normalize | main.go:426-432 | the window is always valid for the cap, and equals the input exactly when the input was already valid |
| Pagination.NormalizeIdempotent | main.go:426-432 | normalising a normalised window changes nothing |
| Pagination.QueryWindow | main.go:559-567 | the window read from the query string has page at least 1 and page size in 1..cap |
| Pagination.QueryWindowParsed | main.go:559-567 | numeral parameters are read as their values and then clamped; an in-range page and page size are kept as given |
| Pagination.QueryWindowDefaults | main.go:559-567 | with no page parameters the window is page 1 of 10 |
| Pagination.QueryWindowMalformed | main.go:559-567 | malformed page parameters give page 1 of 10 |
| Pagination.Offset | main.go:350 | a page's first index is a non-negative multiple of the page size, and dividing it by the page size gives page-1 |
| Pagination.PagesTile | main.go:600-601 | the first page starts at 0 and each next page starts where the previous ends |
| Pagination.WrappedOffset | main.go:350 | the offset as the handlers compute it lies in the 64-bit range |
| Pagination.WrappedOffsetAgrees | main.go:350 | when the product fits in 64 bits, the handlers' offset is the intended one |
| Pagination.HugePageWrapsToFirstPage | main.go:340-350 | `page=4611686018427387905&pageSize=4` is accepted and the handlers' offset wraps to 0 though the intended one is positive |
| Pagination.HugePageWrapsNegative | main.go:600 | the same page with page size 2 gives the offset -2^63 |
| PostListing.ParamsOf | main.go:569-573 | category and location are the given parameters or empty when absent; the prices are the given parameters read through Atoi (0 when malformed) or 0 when absent, always in 64 bits |
| PostListing.ParamsOfReadsPrices | main.go:571-595 | numeral price bounds are read as their values, and a bound reaches the filter's price range exactly when it is positive |
| PostListing.BuildFilter | main.go:575-595 | the filter always holds the type; category and location exactly when non-empty; the price range exactly when a bound is positive, with `$gte`/`$lte` exactly for the positive bounds |
| PostListing.FilterSelectsWanted | main.go:575-595 | a post matches the filter exactly when it has the type and satisfies every given category, location and positive price bound |
| PostListing.Hydrate | main.go:632-646 | one item per post, in order, each with its owner or the empty user |
| PostListing.HydrateKeepsEveryPost | main.go:632-646 | projecting the items back gives the posts found; a post whose owner is missing is kept with the empty user |
| PostListing.HydrateAppend | main.go:633-646 | hydrating a concatenation is hydrating each part |
| PostListing.PlanPostsByType | main.go:551-601 | an invalid type is rejected with 400 before any filter is built; otherwise the window is the one read from the query, the filter is the built one, the sort is `createdAt` descending, the limit is the page size and the skip is the offset as computed in 64 bits |
| PostListing.ListingSkipsEarlierPages | main.go:597-601 | when the offset fits in 64 bits, the listing skips exactly the earlier pages: the skip is a non-negative multiple of the page size, page-1 pages long, and the next page starts where this one ends |
| PostListing.ListingHugePageSkipsNothing | main.go:559-601 | `page=4611686018427387905&pageSize=4` is accepted and the listing skips nothing, serving the first four posts |
| PostListing.GetPostsByType | main.go:551-654 | the store is asked for the planned query (filter, `createdAt` descending, the 64-bit skip, the page size); a failed find is 500 "Database error", a failed cursor read is 500 "Error parsing results", a failed count reports total 0, otherwise the hydrated posts with the page and page size |
| PostListing.ListedPostsAreWanted | main.go:575-646 | when the store honours the filter, every listed post has the requested type and meets every given criterion, and carries its owner |
| Classifier.ParseReply | main.go:682-694 | a call failure is passed on; an empty choice list is the panic case; otherwise the first choice, trimmed, is parsed: a parse failure is reported, and a parsed PostInfo is the result |
| Classifier.ClassifyPost | main.go:657-694 | without a key no request is made and the result is ErrNoAPIKey; with one, exactly one request carrying the post text is made |
| Classifier.ParseReplyIgnoresPadding | main.go:686-690 | white space around the reply's JSON never changes the outcome |
| CreatePost.MergeClassification | main.go:493-505 | the stored type is always the caller's; on classifier failure every other attribute is empty/zero, otherwise copied from the classifier |
| CreatePost.ClassifierTypeNeverWins | main.go:503-504 | the type the classifier guessed has no effect on the merged attributes |
| CreatePost.NewPost | main.go:507-519 | the stored post carries the caller's content and owner and the merged attributes |
| CreatePost.HandleCreatePost | main.go:460-548 | a body that is not JSON of the request's shape, or fails the binding rules, is 400 "Invalid request"; a non-hex user id is 400 "Invalid user ID"; a missing user is 404 "User not found" and a failed lookup 500 "Database error"; a created post is the new post built from the caller's type, content and owner and the reported attributes, it is the one inserted under the reported id and carries the first clock reading, and it is indexed exactly when search is enabled, under a stand-in message carrying the second reading |
| CreatePost.CreatePostSucceedsIffStored | main.go:481-525 | for an existing user the request succeeds exactly when the classifier does not panic and the insert succeeds; a failed insert is 500 "Failed to create post" |
| CreatePost.CreateWithoutKeyStoresTypeOnly | main.go:493-519 | without a classifier key no completion is requested and the post is stored with its type alone |
| CreatePost.IndexedPostHasNoPostId | main.go:527-541 | a post is indexed under a fresh message id, with the nil room id, no buyer, seller or post id, the post's attributes, and the message's own clock reading rather than the post's |
| SearchIndex.CreateIndexOutcome | models.go:176-198 | index creation succeeds exactly on a non-error status or on a 400 whose error type is `resource_already_exists_exception` |
| SearchIndex.CreateChatMessagesIndex | models.go:127-199 | index creation sends one create request for `chat_messages` and reads its answer as above |
| SearchIndex.InitElasticsearch | models.go:100-124 | start-up crashes exactly when the index creation answer has the wrong shape; otherwise the client stays set whenever it was constructed, even when the info call or index creation fails, and initialisation reports no error exactly when both succeed |
| SearchIndex.MalformedAlreadyExistsAnswerCrashes | models.go:179-190 | a 400 answer to index creation whose body has no error type crashes start-up instead of reporting an error |
| SearchIndex.AckOutcome | models.go:248-256 | a request succeeds exactly when it was delivered and answered with a status of at most 299 |
| SearchIndex.IndexChatMessage | models.go:202-259 | without a client it fails and sends nothing; otherwise one refreshing index request for `chat_messages` under the message's hex id whose body is the `json.Marshal` form of the projected document, which decodes back to it |
| SearchIndex.BuildSearchQuery | models.go:268-284 | the query passes the text, from and size through, sorts by `created_at` descending, and searches content, category and location at weight 1 and keywords at weight 2 |
| SearchIndex.DecodeIndexedHit | models.go:309-333 | an indexed document comes back from a hit with its price replaced by the decimal `json.Marshal` writes for the price's float64, read as a Go `int`; the hit fails to decode when that decimal leaves the `int` range |
| SearchIndex.DecodeHits | models.go:321-336 | hits decode one for one and in order, each through float64, its decimal text and then into the struct; the first undecodable hit fails the search and every earlier hit decoded |
| SearchIndex.SearchOutcome | models.go:300-338 | a successful search reports the backend's total through float64 and one message per hit, in hit order |
| SearchIndex.SearchChatMessages | models.go:262-299 | without a client it fails and sends nothing; otherwise one search of `chat_messages` asking for the exact total |
| SearchIndex.SearchReadsBackIndexed | models.go:309-338 | searching returns the indexed documents in hit order with each price read back through float64 and its decimal text, failing exactly when such a price leaves Go's `int` range; the total is the backend's, rounded to float64, whatever the page length |
| SearchIndex.SearchReadsBackSmallPricesExactly | models.go:156 | prices and totals within 2^53 in magnitude, every 32-bit `integer` price of the mapping among them, read back exactly |
| SearchIndex.PriceBeyondFloat64ReadsBackRounded | models.go:326-331 | a document priced 2^53+1 is read back priced 2^53 |
| SearchIndex.PricePowerOfTwoReadsBackPadded | models.go:326-331 | a document priced 2^60, which float64 holds exactly, is read back priced 1152921504606847000 |
| SearchIndex.ExtremePriceHitUndecodable | models.go:326-333 | a hit priced MaxInt64 or MinInt64 is written 9223372036854776000 in magnitude and fails the search at that hit |
| JsonNumbers.RoundToFloat64 | models.go:310 | a number decoded into `interface{}` is exact up to 2^53 in magnitude, keeps its sign, and is off by at most 2^-53 of its magnitude |
| JsonNumbers.FirstInexactInteger | models.go:310 | 2^53+1 rounds to 2^53, ties going to the even value |
| JsonNumbers.MaxInt64RoundsPastRange | models.go:310 | MaxInt64 rounds up to 2^63, outside Go's `int` |
| JsonNumbers.ShortestDecimal | models.go:326 | the decimal written for a float64 integer beyond 2^53 is positive and reads back, nearest with ties to even, as that float64 |
| JsonNumbers.ShortestIsCoarsest | models.go:326 | the search for the decimal stops at the largest power of ten with a multiple reading back as the float64 |
| JsonNumbers.ShortestDecimalIsShortest | models.go:326 | the decimal written is a multiple of every power of ten up to 10^20 that has a multiple reading back as the float64, so no decimal with more trailing zeros reads back |
| JsonNumbers.DecimalOf | models.go:326 | a float64 integer is written as itself up to 2^53 in magnitude, keeps its sign, and beyond 2^53 is written as a decimal reading back as it |
| JsonNumbers.ReadBackInt | models.go:310-331 | an integer decoded into `interface{}`, marshalled and decoded into `int` is unchanged up to 2^53 in magnitude, keeps its sign, is always an int64, and is present exactly when the decimal written for its float64 is an int64 |
| JsonNumbers.ShortestDecimalOf2To60 | models.go:326 | the float64 2^60 is written 1152921504606847000 |
| JsonNumbers.ShortestDecimalOf2To63 | models.go:326 | the float64 2^63 is written 9223372036854776000 |
| JsonNumbers.PowerOfTwoReadsBackPadded | models.go:310-331 | 2^60 reads back as 1152921504606847000 |
| JsonNumbers.ExtremeIntsDoNotReadBack | models.go:310-331 | neither MaxInt64 nor MinInt64 reads back as a Go `int` |
| JsonNumbers.FirstInexactIntegerReadsBackRounded | models.go:310-331 | 2^53+1 reads back as 2^53 |
| SearchIndex.ClassifyChatMessage | models.go:342-378 | without a client it fails and sends nothing; otherwise one refreshing partial update of the given id setting exactly `classified` and `message_type` |
| Handlers.SearchChat | main.go:327-365 | no client is 503 and an empty `q` is 400, both without a request; otherwise one search from the offset as computed in 64 bits with the page size, a failed search is 500 "Search failed", a successful one returns the messages, total, page and page size |
| Handlers.SearchChatWindowIsAPage | main.go:339-350 | when the offset fits in 64 bits, every search asks for 1..100 results starting at a non-negative multiple of the size, where the previous page ended |
| Handlers.SearchChatHugePageSearchesFromStart | main.go:339-353 | `q=x&page=4611686018427387905&pageSize=4` searches from 0 with size 4 |
| Handlers.ClassifyMessage | main.go:368-410 | no client is 503; an unbindable body, a missing id or type, or an unknown type is 400, each without a request; a failed update is 500 |
| Handlers.ClassifyMessageSendsIffValid | main.go:384-405 | an update is sent exactly when the service is up and id and type are given with a whitelisted type, and it sets only the two classification fields of the stored document |
| Handlers.FindMatches | main.go:413-457 | an unbindable body or empty content is 400; for valid content a classifier failure is 500 "Failed to classify post content", a matcher failure is 500 "Failed to find matches", and otherwise the answer is the matcher's matches and total with the normalised window and the classification |
| Handlers.FindMatchesKeepsValidWindow | main.go:426-456 | a successful answer echoes the requested page and page size exactly when they were already valid, and always a page of at least 1 and size in 1..50 |
| Handlers.FindMatchesNeedsClassifier | main.go:435-440 | without a classifier key every valid match request fails with 500 |
| ChatRoomRoles.CreateChatRoom | frontend/components/SearchResults.js:13-30 | no user means a redirect and no request; otherwise the post id is the hit's, the two ids are the user and the owner one in each role, and for distinct people the user is buyer exactly when a buyer account or the post sells |
| ChatRoomRoles.AnsweringSaleMakesUserBuyer | frontend/components/SearchResults.js:24-29 | answering a post that sells makes the user the buyer and the owner the seller |
| ChatRoomRoles.BuyerAccountIsBuyer | frontend/components/SearchResults.js:24-29 | a buyer account is the buyer whatever the post type |
| ChatRoomRoles.OtherwiseUserIsSeller | frontend/components/SearchResults.js:24-29 | otherwise the owner is the buyer and the user the seller |
| ChatRoomRoles.BuyerAnsweringPurchaseMakesOwnerSeller | frontend/components/SearchResults.js:24-28 | a buyer account answering a request to buy records the post's owner, who wants to buy, as the seller |

## Left out

- GetMatchingPosts, called at main.go:444, is not defined in the modelled files; FindMatches takes it as an oracle.
- OAuth login and callback (main.go:99-156) and the route wiring in `main` are left out. They are network and framework plumbing.
- handleNLPClassify, handleCreateMessage and handleGetChatRoom are left out. They are thin store round trips outside the rules modelled here.
- The `Insert*` helpers and every `time.Now()`: the clock and fresh ids are parameters.
- The prompt text, model name and temperature of the completion request are configuration, not logic. CompletionRequest carries only the key and the post text.
- The index mapping and analyzer settings sent at index creation are left out. Only the request's target and the reading of its answer are modelled.
- JSON encoding as bytes is left out. Request bodies that fail to bind are `None`, and JSON objects are maps from field names to typed values; unknown fields, which decoding ignores, are not represented.
- Type assertions that panic on an unexpected response shape are one error value (`ShapePanic`). Inside a request handler gin's recovery turns the panic into a 500, and the handlers here answer 500 with their own error message rather than gin's body. At start-up (InitElasticsearch, called from main.go:67) nothing recovers and the process ends; the model reports that as `Crashed`.
- The response header and body bytes, the `detail` texts carrying Go error strings, and logging are left out.
- The frontend pages, AuthContext and the API proxy routes are left out. The room-creation proxy forwards to a backend route that the modelled main.go does not register, and nothing here depends on it.
- Handlers.FindMatches: an empty choice list from the classifier, a panic in the source, is reported as a 500 with a message of its own rather than as gin's recovery output; CreatePost.HandleCreatePost does the same.
- SearchIndex.SearchOutcome: `hits.total.value` goes through float64 as modelled, but Go's `int(...)` of a float64 beyond the 64-bit range is implementation-specific and is taken here as the rounded value.
- JsonNumbers.RoundToFloat64: a JSON number beyond the largest finite float64 (about 1.8e308), which makes decoding the whole response fail, is not represented; no Go `int` document produces one.
- JsonNumbers.ShortestDecimal: among the decimals with the fewest significant digits, the one chosen (the nearest, ties going to the even last digit) is fixed by the definition and pinned for 2^60 and 2^63, but not stated for every input.
- JsonNumbers.ReadBackInt: a float64 beyond 2^64 in magnitude is not given a decimal (`json.Marshal` switches to an exponent from 1e21 on). Any such value is outside Go's `int` whatever its text, so the result is None either way.

## Findings

| source | as written | input that shows it | evidently intended | confidence | as-written member | corrected member |
|---|---|---|---|---|---|---|
| main.go:350, main.go:600 | the page offset `(page - 1) * pageSize` is computed in 64-bit `int` after a page of any size up to MaxInt64 is accepted, so the product wraps around | `?page=4611686018427387905&pageSize=4` gives offset 0: page 2^62+1 is served the first page. With `pageSize=2` the offset is -2^63, a negative `from`/skip | the offset of page `page` is `(page-1)*pageSize`, never negative and never back at the start for a page past the first | not executed | Pagination.WrappedOffset, Pagination.HugePageWrapsToFirstPage, Pagination.HugePageWrapsNegative, Handlers.SearchChat, Handlers.SearchChatHugePageSearchesFromStart, PostListing.PlanPostsByType, PostListing.ListingHugePageSkipsNothing | Pagination.Offset, with Pagination.PagesTile and Pagination.WrappedOffsetAgrees; Handlers.SearchChatWindowIsAPage and PostListing.ListingSkipsEarlierPages prove the intended page for every offset that fits in 64 bits |
