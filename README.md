# StayCraft listing marketplace — a Dafny model

StayCraft is an Express/MongoDB marketplace of holiday listings. This project
models its decision logic in Dafny and proves what that logic promises:

- the listing search pipeline: untrusted query strings become a filter, an
  ordering and a page;
- the JSON API: regex escaping, price parsing, the top-category and
  top-location aggregations and their one-slot discovery cache, listing
  suggestions, and the geocoding endpoints with their time-limited cache;
- the geocoding adapter;
- login throttling per (username, ip);
- the password-reset and e-mail-verification tokens;
- the flash-message store, the CSRF token and its write-method gate;
- the route guards and form validators;
- the rating statistics kept on each listing as reviews come and go;
- three browser scripts:
  - the search box, with its discovery cache, fallback chips and keyboard
    navigation;
  - the location picker's field merge;
  - the price-filter label and the tax toggles.

The database, the clock, the random generator, the hash, the mailer, the
geocoding provider and the browser's `fetch` all become parameters. A store
query is a function of a `seq<Listing>`. A request's answer is a value, or
`None` when the request throws. Anything that changes state in place is a
class whose methods say exactly what they change:

- a login-attempt record;
- a user document;
- a session;
- a cache;
- the listings and reviews collections;
- a form field or a checkbox.

Layout, one module per source file plus shared helpers:

| file | module | models |
|---|---|---|
| wrappers.dfy, text.dfy, seqs.dfy, ordering.dfy, js_values.dfy | Wrappers, Text, Seqs, Ordering, JsValues | `Option`; `trim`/`toLowerCase`/`includes`/`join`; filter and slice; a stable key sort; JS numbers and `Math.max(lo, Math.min(hi, n \|\| d))` |
| listing_model.dfy, user_model.dfy | ListingModel, UserModel | the listing and user documents |
| query_parsing.dfy, filtering.dfy, listings.dfy | QueryParsing, Filtering, Listings | controllers/listings.js and the helpers it shares with routes/api.js |
| discovery.dfy, suggest.dfy, geo_api.dfy | Discovery, Suggest, GeoApi | routes/api.js |
| geocode.dfy | Geocoding | utils/geocode.js |
| users.dfy | Users | controllers/users.js |
| reviews.dfy | Reviews | controllers/reviews.js and the cascade delete of models/listing.js |
| flash.dfy, csrf.dfy | Flash, Csrf | utils/flash.js, utils/csrf.js and the CSRF gate of app.js |
| middleware.dfy, schema.dfy | Middleware, Schema | middelware.js, schema.js |
| static_routes.dfy | StaticRoutes | routes/static.js |
| search_client.dfy, map_picker.dfy, price_label.dfy | SearchClient, MapPicker, PriceLabel | public/js/search.js, public/js/mapPicker.js, public/js/script.js |

## Model

| member | source | states |
|---|---|---|
| Listings.ParseSortKey | controllers/listings.js:31-33 | An absent or unknown sort selector becomes `newest`; any of the four known names, after trimming, is kept as given. |
| Listings.RequestedPage | controllers/listings.js:25 | The page is at least 1: a parsed page of 1 or more is kept, while `NaN` or anything below 1 gives 1. |
| Listings.ResolveCategory | controllers/listings.js:51-62 | Only an exact, case-sensitive enum member is kept as the category. Without one, a `q` equal to a category ignoring case selects that category in its canonical spelling and clears the search text. Otherwise the category is empty and the text stays. |
| Listings.TextPredicateFor | controllers/listings.js:74-84 | Empty text gives no predicate. One or two characters give the escaped substring pattern. Three or more give `$text` with that text. |
| Listings.BuildFilter | controllers/listings.js:64-84 | The filter has a category iff one was resolved. It has a price condition iff either bound is present, with `$gte`/`$lte` exactly the present bounds. It carries the text predicate of the search text and the saved-id restriction. |
| Listings.OrderFor | controllers/listings.js:123-131 | Every ordering ends in `_id` descending. Relevance ordering is used iff relevance is asked for. Each sort key maps to its documented fields and directions. |
| Listings.RunQuery | controllers/listings.js:134-158 | The count is that of all matching listings, the page is clamped by `Paginate`, and the listings are the window of the sorted matches at the clamped skip, at most 50. |
| Listings.RelevanceOverride | controllers/listings.js:129-131 | The ordering starts with the text score iff the filter has `$text` and the sort is `newest`; any other sort key is never overridden. |
| Listings.OrderIsStrict | controllers/listings.js:124-131 | Two different listings never compare equal under any ordering: the `_id` tiebreak decides. |
| Listings.Paginate | controllers/listings.js:133-138 | `totalPages = max(1, ceil(count/50))`. The page is the requested one capped at `totalPages`, and `skip = (page-1)*50`. A non-empty result never starts beyond its last row. |
| Listings.DisplayRange | controllers/listings.js:160-161 | The range is 0–0 when nothing matches, and `skip+1` to `skip+returned` otherwise. |
| Listings.DisplayRangeWithinCount | controllers/listings.js:134-161 | The displayed range never ends beyond the count. When something matches, the range is non-empty and as long as the page returned. |
| Listings.Resolve | controllers/listings.js:20-62 | The normalised request has page ≥ 1 and keeps the saved-only flag of `saved=1`. |
| Listings.ResolvedRequestNormalised | controllers/listings.js:20-62 | The normalised request has non-negative prices with min ≤ max when both are present, and an empty or valid category. |
| Listings.IndexListing | controllers/listings.js:19-179 | With `saved=1`, an anonymous viewer is sent to log in. With `saved=1` and nothing saved, the page is empty (page 1 of 1, count 0) without a store query. Otherwise the store is asked with exactly the built filter, ordering, skip and limit 50. The count, page, listings and range shown are those of that query. |
| Listings.Render | controllers/listings.js:86-178 | For a resolved request: an anonymous saved-only request is sent to log in; a saved-only request with nothing saved renders the empty page without querying; otherwise the store query is built from the resolved fields and the saved ids, and its page is rendered. |
| Listings.QueryPage | controllers/listings.js:123-178 | The store query carries the filter, the sort key's ordering (relevance when asked for), the paginator's skip and the page size; the page, count and display range are those of that query. |
| Listings.SortOrder | controllers/listings.js:123-131 | The ordering chosen for each sort key, replaced by text relevance when asked for, is the one the ordering definition gives. |
| Listings.FilterMeaning | controllers/listings.js:64-84 | A listing the filter matches has the category, lies within the price bounds and is among the saved ids. For 1–2 characters it contains the text in one of its four fields, ignoring case; for 3 or more it is a full-text hit. |
| Listings.PageSatisfiesRequest | controllers/listings.js:134-158 | Every listing on a page comes from the collection and satisfies the category, price and saved-id restrictions of the request. |
| Listings.TextStrategyExclusive | controllers/listings.js:75-84 | `$text` and the substring `$or` never occur together. `$text` carries at least three characters; the substring pattern stands for one or two. |
| Listings.CategoryTextNeverSearched | controllers/listings.js:54-62 | A query naming a category, with no valid category given, becomes a category filter with no text predicate. |
| Listings.ToggleMembership | controllers/listings.js:376-385 | A saved id is removed, every occurrence of it, while every other id keeps its number of occurrences; an unsaved one is appended at the end. No other id changes membership. |
| Listings.ToggleTwice | controllers/listings.js:376-385 | Toggling the same id twice restores the set of saved ids. |
| Listings.ToggleSave | controllers/listings.js:362-397 | A missing listing changes nothing. Otherwise the saved list is toggled, and the returned `saved` is the new membership of the id. |
| Listings.CloudinaryImageIffHostInside | controllers/listings.js:6-8 | An image counts as hosted exactly when it is present, has a file name, and its URL is some prefix, then `res.cloudinary.com`, then some suffix. |
| QueryParsing.EscapeRegex | routes/api.js:8-10 | The escaped text is a pattern of literal characters only: every special character is preceded by a backslash. It is at most twice as long as the input. |
| QueryParsing.UnescapeEscape | routes/api.js:8-10 | The escaped pattern matches exactly the original text (round trip). |
| QueryParsing.EscapeUnescape | routes/api.js:8-10 | Every fully escaped pattern is the escape of the text it matches (the other round trip). |
| QueryParsing.EscapePlain | routes/api.js:8-10 | Text without special characters is left unchanged. |
| QueryParsing.ParsePrice | routes/api.js:12-20 | A missing or blank value gives `null`, and so does a non-finite or negative number. Otherwise the result is the number of the trimmed text. |
| QueryParsing.OrderBounds | controllers/listings.js:45-49 | Presence of each bound is kept. When both are present, they are the same two values in non-decreasing order. |
| JsValues.ClampOr | routes/api.js:71-72 | The result lies within the bounds. A falsy number (0, NaN) gives the default, an in-range number is kept, a finite number above the range gives the upper bound and one below it the lower bound, and ±Infinity gives the upper or lower bound. |
| Filtering.SubstringMatchesLiteral | controllers/listings.js:80-82 | The case-insensitive regex built from the escaped text matches a field iff the field contains the text, ignoring case. |
| Filtering.KeyOf | controllers/listings.js:123-131 | A listing's sort key has one component per ordering term: the field value, negated for a descending term. |
| Filtering.Matching | controllers/listings.js:134 | The matching listings are exactly the collection's listings the filter accepts. |
| Filtering.FindPage | controllers/listings.js:140-158 | A page has exactly the size the count, skip and limit allow. It holds matching listings only, sorted by the ordering. |
| Filtering.SortedMatching | controllers/listings.js:141-143 | The sorted result holds every matching listing once (its length is the count), only matching listings from the collection, in ascending key order. |
| Seqs.Window | controllers/listings.js:144-145 | Skip-then-limit gives a run of exactly min(limit, max(0, length − skip)) elements, the contiguous slice starting at the skip. |
| Discovery.TopKeys | routes/api.js:27-35 | At most `limit` distinct keys, each occurring in the input, by non-increasing count. |
| Discovery.TopKeysAreTop | routes/api.js:30-32 | A key left out of a top list means the list is full and every key in it occurs at least as often. |
| Discovery.TopKeysComplete | routes/api.js:30-32 | When there are no more distinct keys than the limit, the top list holds every key. |
| Discovery.CategoryValues | routes/api.js:29-31 | The grouped values are exactly the non-empty categories of the listings, each occurring once per listing that has it. |
| Discovery.PlaceValues | routes/api.js:39-50 | The grouped values are exactly the (location, country) pairs of listings with both parts non-empty, each occurring once per listing at that place. |
| Discovery.TopCategories | routes/api.js:27-35 | At most `limit` distinct, non-empty categories, each used by some listing, ordered by the number of listings in them, most first. |
| Discovery.TopCategoriesAreTop | routes/api.js:27-35 | A category some listing has but the list leaves out means the list is full and every listed category has at least as many listings. |
| Discovery.TopLocations | routes/api.js:37-60 | At most `limit` distinct (location, country) groups, both parts non-empty. Each carries the number of listings at that place, and the counts do not increase along the list. |
| Discovery.TopLocationsAreTop | routes/api.js:37-60 | If a listing's place (both parts non-empty) is left out, the list is full and every listed place has at least as many listings. |
| Discovery.RequestedLimit | routes/api.js:71-72 | The limit is the clamped value (default 8, range 1 to 20) when that is an integer, and none (the aggregation fails) exactly when it has a fractional part. It lies in [1, 20], is 8 for a falsy value, and an integral in-range request is kept. |
| Discovery.Recompute | routes/api.js:71-77 | Recomputing succeeds iff both limits are usable; the lists are then the top categories and top locations for the two clamped limits, at most 20 each. |
| Discovery.DiscoveryCache.Top | routes/api.js:62-86 | While `expiresAt > now`, the stored lists are served unchanged whatever limits are asked. Otherwise the recomputed lists are served and stored with `expiresAt = now + 300000`. A failed recomputation changes nothing. |
| Discovery.CategoriesTop | routes/api.js:88-92 | `/categories/top` answers the top categories for the clamped limit, at most 20. |
| Suggest.SuggestCategory | routes/api.js:110-120 | The suggestion category is a valid category or none, the remaining text is the whole query or empty, and text is searched beside a category only when that category is the requested one. |
| Suggest.SuggestCategoryMeaning | routes/api.js:110-120 | A query naming a category, ignoring case, selects it in canonical spelling and clears the text, whatever category was requested. Otherwise only an exactly valid requested category is kept. |
| Suggest.SuggestFilter | routes/api.js:98-131 | The category is the one `SuggestCategory` resolves (none when empty), the text predicate is the escaped substring of the remaining text exactly when text remains, and the price range holds exactly the ordered bounds that are present. Never `$text`, never an id restriction. |
| Suggest.FilterForMeaning | routes/api.js:110-131 | A listing passes a suggestion filter iff it has the category (if any), one of its four fields contains the text ignoring case (if any), and its price lies within the present bounds. |
| Suggest.SuggestFilterMeaning | routes/api.js:95-131 | For a request, a listing is suggested-eligible iff it has the resolved category, contains the remaining query text in title, location, country or category ignoring case, and lies within the ordered price bounds. |
| Suggest.SuggestListings | routes/api.js:94-139 | A trimmed query shorter than 2 gives no results. Otherwise the results are the first 8 matches of the suggest filter. |
| Suggest.SuggestionsMatch | routes/api.js:133-138 | At most 8 suggestions, every one a matching listing; fewer than 8 means all matches. |
| Suggest.QueryCategoryOverrides | routes/api.js:112-120 | Even with a valid requested category, a query naming a category wins and clears the text. |
| GeoApi.CacheGet | routes/api.js:154-162 | A missing key gives `null`. An expired entry (`now > exp`) is deleted and gives `null`. A live entry gives its value and leaves the map as it was. |
| GeoApi.CacheSet | routes/api.js:163-165 | The key maps to the value with `exp = now + 600000`; no other key changes. |
| GeoApi.GetAfterSet | routes/api.js:154-165 | A stored value is read back until its expiry, and afterwards it reads as `null` and is gone. |
| GeoApi.SetOtherKey | routes/api.js:154-165 | Storing one key never changes what another key reads. |
| GeoApi.ForwardPayloadOf | routes/api.js:187-194 | The payload carries all results and repeats the first one's coordinates and label at top level. |
| GeoApi.ForwardKeyOf | routes/api.js:181 | The forward cache key is the lower-cased text with the clamped size. |
| GeoApi.GeoCache.Get | routes/api.js:154-162 | Reading the cache returns `CacheGet` of the old map and leaves the map `CacheGet` leaves. |
| GeoApi.GeoCache.Set | routes/api.js:163-165 | Writing the cache leaves the map `CacheSet` produces. |
| GeoApi.GeoCache.Forward | routes/api.js:173-201 | Text shorter than 3 gives 400 with no lookup. A cached payload is served as is. Otherwise a non-empty provider answer is served and cached under the lower-cased text and clamped size (default 6, within [1, 8]). An empty answer or an error gives 404 and caches nothing. |
| GeoApi.GeoCache.ForwardLookup | routes/api.js:181-200 | For a text of three or more characters and a clamped size: a live cached payload is served and the cache is left alone; otherwise a non-empty provider answer is served and cached under the text's key, and an empty answer or a provider error gives 404 and caches nothing. |
| GeoApi.GeoCache.Reverse | routes/api.js:204-227 | Non-finite coordinates give 400. A cached payload is served as is. A thrown provider call gives 500 and a missing feature 404, neither cached. A result is served and cached under the rounded-coordinate key. |
| Geocoding.ProviderSize | utils/geocode.js:14 | The size sent to the provider is clamped to [1, 8]; a size in range is kept. |
| Geocoding.ToResult | utils/geocode.js:23-27 | A feature maps to its coordinates, with its label or else the query. |
| Geocoding.ToResults | utils/geocode.js:20-27 | Each feature maps to its result, in order, one for one. |
| Geocoding.GeocodeMany | utils/geocode.js:8-28 | A missing token throws before any request. A non-OK reply throws. Otherwise the features are mapped, and missing features give `[]`. |
| Geocoding.Geocode | utils/geocode.js:30-34 | Succeeds iff the size-1 search succeeds with a result, and returns its first result. |
| Geocoding.FirstNonEmpty | utils/geocode.js:56-67 | The result is the entry at some position all of whose predecessors are empty, that is the first non-empty string of the chain, or "" exactly when all are empty. |
| Geocoding.ReverseGeocode | utils/geocode.js:36-70 | A missing token or a non-OK reply throws. No feature gives `null`. Otherwise the result is the label (or "") with location and country from their fallback chains. |
| Geocoding.LocationFallback | utils/geocode.js:56-67 | The location is the locality, else the county, else the region, else the neighbourhood, else the label ("" when that is missing too). The country is the name, else the abbreviation. |
| ListingModel.NewListing | models/listing.js:6-69 | A document is created iff it has a title, a category that is absent or one of the 13, and a geometry that is absent or a Point. The category defaults to "Trending" and the coordinates to the `[0, 0]` sentinel. Ratings start at 0 with no reviews. |
| ListingModel.CategoryNonEmpty | models/listing.js:26-40 | No allowed category is the empty string. |
| ListingModel.CategoriesWellFormed | models/listing.js:24-42 | There are exactly 13 distinct categories, and the default is one of them. |
| Schema.AllowedCategoriesAgree | schema.js:3-17 | The validator's category list and the model's enum hold the same values. |
| Schema.CheckString | schema.js:21-25 | A string rule passes iff the value is optional and absent, or present and (after trimming where asked) empty where allowed or within its length bounds. |
| Schema.CheckNumber | schema.js:23 | A number rule passes iff the value is present, parses as a number, and lies within its bounds. |
| Schema.Then | schema.js:19-30 | Validation stops at the first violation; no violation means every rule passed. |
| Schema.ListingViolation | schema.js:19-30 | A listing form is rejected iff it breaks one of the listing rules. |
| Schema.ReviewViolation | schema.js:32-37 | A review passes iff the rating is a number in [1, 5] and the trimmed comment has 1–1000 characters. |
| Schema.CheckEmail | schema.js:41 | An e-mail rule passes iff the trimmed value is present, non-empty and an address. |
| Schema.SignupViolation | schema.js:39-43 | A signup passes iff it has a trimmed username of 3–30 characters, a valid trimmed e-mail, and a password of 8–128 characters. |
| Schema.LoginViolation | schema.js:45-48 | A login passes iff the trimmed username and the password are both present and non-empty. |
| Users.UsernameLower | controllers/users.js:12-14 | The key is the trimmed username, lower-cased character by character; a missing username gives "". |
| Users.UsernameLowerIdempotent | controllers/users.js:12-14 | Normalising an already normalised username changes nothing. |
| Users.WaitMinutes | controllers/users.js:16-17 | The minute count is the ceiling of `ms/60000`. |
| Users.FormatWait | controllers/users.js:16-19 | The text is "1 minute" for one minute and "N minutes" otherwise. |
| Users.AfterFailure | controllers/users.js:28-52 | A first failure creates count 1 with no lock. A failure after a gap of more than 15 minutes restarts the count at 1 without a lock. Otherwise the count grows by exactly 1, and a count of 5 or more locks until `now + 15 min`. The last attempt is always `now`. |
| Users.CountGrows | controllers/users.js:39-52 | Failures less than 15 minutes apart each add exactly one to the count. |
| Users.CountFromNone | controllers/users.js:28-52 | Closely spaced failures from no record count exactly how many there were, and the last attempt is the last failure. |
| Users.LockFromFifthFailure | controllers/users.js:46-52 | From the fifth closely spaced failure on, the record is locked for 15 minutes from the latest failure. |
| Users.FirstFailureNoLock | controllers/users.js:28-44 | A first failure, or one after the window, never locks. |
| Users.LastAttemptIsLastTime | controllers/users.js:46-47 | After any non-empty run of failures, the last attempt is the time of the last one. |
| Users.LoginThrottle.RecordFailedLogin | controllers/users.js:21-56 | An empty username or ip changes nothing. Otherwise only that (username, ip) record is replaced, by the failure rule. |
| Users.LoginThrottle.ClearLoginAttempts | controllers/users.js:58-61 | An empty username or ip changes nothing. Otherwise exactly that record is deleted. |
| Users.LoginThrottle.Login | controllers/users.js:140-185 | While the record's lock lies in the future, the login is refused with the wait message and nothing changes. A rejected login records a failure and shows the provider's message or the default. A successful one clears the record and goes to the saved address or `/listings`. |
| Users.LoginThrottle.LoginAs | controllers/users.js:146-185 | The same three outcomes for a key already trimmed and lower-cased: refusal with nothing changed while locked, a recorded failure, or a cleared record and the redirect. |
| Users.LockHolds | controllers/users.js:146-155 | For a non-empty user name whose pair was locked at a failure, every login in the next 15 minutes, whatever the password, answers with the wait message for the time left and leaves the attempt records unchanged. |
| Users.IssuedTokenWindow | controllers/users.js:281-300 | An issued token is accepted iff the presented token hashes to the stored digest and the expiry is strictly after now; a token refused for lateness is refused at every later time; a spent token (both fields cleared) is never accepted. |
| Users.ForgotPassword | controllers/users.js:198-252 | An unknown address gets the generic message. Otherwise a 30-minute token hash is stored, or cleared again with an error when the mail fails. Nothing else on the user changes. |
| Users.ResetPassword | controllers/users.js:271-309 | A password shorter than 8 is refused before the token is checked. An unknown or expired token is refused. Otherwise the password is set, and the token hash and expiry are cleared; the e-mail, the verified flag, the saved listings and the verification token are left as they were. |
| Users.SendVerificationEmail | controllers/users.js:64-85 | Stores the token's hash with a 24-hour expiry and changes nothing else. |
| Users.VerifyEmail | controllers/users.js:310-331 | An invalid or expired token changes nothing. A valid one marks the address verified and clears the token. |
| Users.ResendVerify | controllers/users.js:337-363 | An unknown address gets the generic message. A verified one is sent to log in unchanged. Otherwise a new 24-hour token is issued, the account stays unverified with its password, e-mail, saved listings and reset token unchanged, and the answer reflects whether the mail went out. |
| Users.SignupGate | controllers/users.js:90-104 | A taken e-mail is refused first. Registration happens iff the e-mail is free and the password has at least 8 characters. |
| Users.ClearSaved | controllers/users.js:369-379 | The saved list becomes empty. |
| Reviews.RatedIds | controllers/reviews.js:13-14 | The ids the aggregation groups are the listing's references that name an existing review, each once. |
| Reviews.Ratings | controllers/reviews.js:13-15 | The ratings of the given reviews, one for one. |
| Reviews.RatingOf | controllers/reviews.js:4-24 | The count is the number of referenced reviews. The average is 0 without any, and their mean rating otherwise. |
| Reviews.MeanWithinRatings | controllers/reviews.js:13-24 | With ratings in [1, 5], a listing's average lies in [1, 5] whenever it has rated reviews. |
| Reviews.RatingCountIsReferencedReviews | controllers/reviews.js:13-19 | The count equals the number of distinct stored reviews the listing references. |
| Reviews.CreatedCountsDestroyedDoesNot | controllers/reviews.js:27-53 | A created review is counted in its listing's statistics; a destroyed one is not. |
| Reviews.CreateAddsOne | controllers/reviews.js:29-38 | Creating a fresh review raises the listing's count by exactly one. |
| Reviews.Catalog.RecalcListingRating | controllers/reviews.js:4-25 | A missing listing changes nothing. Otherwise only its average and count change, to the statistics of its reviews. |
| Reviews.Catalog.CreateReview | controllers/reviews.js:27-41 | The review is stored with the current user as author and appended to the listing's references. The listing's statistics are then recomputed; a missing listing changes nothing. |
| Reviews.Catalog.DestroyReview | controllers/reviews.js:43-53 | The id is pulled from the listing's references, the review is deleted, and the statistics are recomputed. |
| Reviews.Catalog.DeleteListing | models/listing.js:82-86 | Deleting a listing deletes every review it references and no other. |
| Flash.Drain | utils/flash.js:7-13 | A get returns that kind's messages (or `[]`) and removes the kind. The whole store goes once it is empty. |
| Flash.Append | utils/flash.js:17-20 | A set appends the message to that kind's list, creating the store and list as needed; other kinds are untouched. |
| Flash.AppendWellFormed | utils/flash.js:17-20 | A set keeps the store free of empty leftovers. |
| Flash.DrainWellFormed | utils/flash.js:9-12 | A get keeps the store free of empty leftovers. |
| Flash.AppendThenDrain | utils/flash.js:7-20 | A get after a set returns the earlier messages plus the new one, in order. A second get returns `[]`. |
| Flash.DrainKeepsOthers | utils/flash.js:9 | Getting one kind leaves every other kind's messages as they were. |
| Flash.FlashSession.Set | utils/flash.js:16-20 | The session's store becomes `Append` of the old one, and the returned list is that kind's new list. |
| Flash.FlashSession.Get | utils/flash.js:6-13 | The returned messages and the new store are `Drain` of the old store. |
| Flash.InstallFlash | utils/flash.js:3 | Without a session an error is passed on and no flash function is installed. |
| Csrf.VerifyCsrf | utils/csrf.js:16-26 | Passes iff both tokens are non-empty and equal; otherwise it fails with `EBADCSRFTOKEN` and the fixed message. |
| Csrf.WriteGate | app.js:164-172 | Non-write methods and multipart bodies pass. Every other request is checked by `verifyCsrf`. |
| Csrf.GateAcceptsOnlyTheToken | app.js:164-172 | A non-multipart write passes iff the session holds a non-empty token and exactly that token is sent. |
| Csrf.IssueToken | utils/csrf.js:3-14 | Without a session nothing happens. Otherwise the session is touched, a token is generated only when none exists, and the page gets the session's token. |
| Csrf.FreshTokenAccepted | utils/csrf.js:8-24 | A freshly issued token is accepted when sent back, and nothing else is. |
| Middleware.IsLoggedIn | middelware.js:6-13 | An anonymous request stores its URL and is sent to `/login` with the message. An authenticated one passes with the session unchanged. |
| Middleware.SafeRedirect | middelware.js:15-19 | A stored address is exposed iff it is a string starting with "/". |
| Middleware.SavedRedirectUrl | middelware.js:15-22 | Exposes the safe address and always removes it from the session. |
| Middleware.ReturnAddressIsLocal | middelware.js:6-22 | A remembered URL comes back after login iff it starts with '/', which includes scheme-relative `//host` addresses; a non-string never does. |
| Middleware.SafeRedirectAdmitsSchemeRelative | middelware.js:15-20 | `//evil.example/x` comes back after login unchanged, while `https://evil.example/x` does not: the '/' test admits addresses on another host. |
| Middleware.IsOwner | middelware.js:24-36 | Passes iff the listing exists and is owned by the user. A missing listing goes to `/listings`; a foreign or unowned one to its page with the denial. |
| Middleware.IsReviewAuthor | middelware.js:38-50 | Passes iff the review exists and the user wrote it. A missing review or another author is redirected with its message. A review without an author makes the check fail. |
| Middleware.IsVerified | middelware.js:97-103 | Passes iff a user is logged in and verified; otherwise the request goes to the resend page. |
| Middleware.ValidateObjectId | middelware.js:52-59 | Passes iff the id is well formed; otherwise the request goes to `/listings` with "Invalid link.". |
| Middleware.DetailsMessage | middelware.js:65 | For the one detail reported, the message is that detail's text. |
| Middleware.ValidateListing | middelware.js:62-69 | Passes iff the listing form is acceptable; otherwise it goes back with the violation's message. |
| Middleware.ValidateReview | middelware.js:71-78 | Passes iff the review form is valid; otherwise it goes back with the violation's message. |
| Middleware.ValidateSignup | middelware.js:80-87 | Passes iff the signup form is valid; otherwise it goes to `/signup` with the violation's message. |
| Middleware.ValidateLogin | middelware.js:89-96 | Passes iff the login form is valid; any violation gives the one fixed message. |
| Middleware.ValidatedSignupPasswordLongEnough | middelware.js:80-87 | A signup the validator passes always meets the controller's 8-character password check. |
| StaticRoutes.MatchesEmailPattern | routes/static.js:15 | An accepted address contains an '@'. |
| StaticRoutes.MatchesEmailPatternIffShape | routes/static.js:15 | The computed test accepts exactly the strings `A@B.C`, with A, B and C non-empty and free of whitespace and '@'. |
| StaticRoutes.MatchHasShape | routes/static.js:15 | Every string the computed test accepts splits into the pattern's three parts around an '@' and a '.'. |
| StaticRoutes.ShapeMatches | routes/static.js:15 | Every string of the pattern's shape passes the computed test. |
| StaticRoutes.AcceptedHasOneAt | routes/static.js:15 | An accepted address has exactly one '@', at neither end. |
| StaticRoutes.Newsletter | routes/static.js:11-24 | The visitor goes back to the Referrer, else `/listings`. The success message is shown iff the lower-cased, trimmed address has the pattern's shape; the error message otherwise. |
| StaticRoutes.MissingEmailRejected | routes/static.js:12-19 | A missing address is rejected. |
| StaticRoutes.NewsletterIgnoresCase | routes/static.js:12 | The answer does not depend on the case of the address. |
| SearchClient.DiscoveryStore.Load | public/js/search.js:11-30 | A cached value is returned without a request while `expiresAt > now`. A success is stored for 5 minutes, with non-arrays read as `[]`. A failure stores empty lists for 60 seconds. Either way, the next 60 seconds are served from the cache. |
| SearchClient.RelatedIn | public/js/search.js:36-38 | The related entries are exactly the list's entries whose lower-cased text contains the needle, in list order. |
| SearchClient.PickRelated | public/js/search.js:32-42 | At most 3 entries, all from the list. With a non-empty query and a match: the first related entries, in order. With an empty query or no match: the head of the whole list. |
| SearchClient.FallbackChips | public/js/search.js:150-187 | The category chips and the location chips are `pickRelated` of the discovery lists with the last query, so at most 3 of each, each taken from its list. |
| SearchClient.WrapIndex | public/js/search.js:80-91 | No items gives -1. Below 0 wraps to the last item, and at or past the end wraps to 0. An index in range is kept. |
| SearchClient.UpDownInverse | public/js/search.js:344-351 | ArrowUp undoes ArrowDown and vice versa on a highlighted entry. From no highlight, ArrowDown reaches the first entry and ArrowUp the last. |
| SearchClient.DownWalks | public/js/search.js:344 | Starting from the first entry, k presses of ArrowDown highlight entry k, for k below the count. |
| SearchClient.DownCycles | public/js/search.js:88-89 | Pressing ArrowDown as many times as there are entries comes back to the same highlight. |
| SearchClient.SuggestBox.Close | public/js/search.js:71-78 | The box is hidden, with no results, no highlight and no last query. |
| SearchClient.SuggestBox.RenderResults | public/js/search.js:218-227 | The results shown are the fetched ones (or none), with no highlight, and the box is open. |
| SearchClient.SuggestBox.Hover | public/js/search.js:282 | Pointing at a shown suggestion highlights exactly that one, so Enter then opens it; nothing else changes. |
| SearchClient.SuggestBox.Input | public/js/search.js:311-330 | A trimmed query shorter than 2, or a failed fetch, closes the box. Otherwise the fetched results are shown for that query. |
| SearchClient.SuggestBox.RunSuggestNow | public/js/search.js:297-309 | A short query closes the box. A failed fetch throws after remembering the query. Otherwise the results are shown. |
| SearchClient.SuggestBox.KeyDown | public/js/search.js:332-361 | Escape closes. ArrowDown and ArrowUp step the highlight with wrap-around on an open, non-empty box; a closed box first runs the suggestion, so a query shorter than 2 characters leaves it closed and empty, and a failed fetch changes only the last query. Enter navigates to the highlighted result's page iff the box is open and that result has an id. |
| MapPicker.FillBlank | public/js/mapPicker.js:96-97 | A field is filled only when blank after trimming, and only with a non-empty value. |
| MapPicker.Overwrite | public/js/mapPicker.js:92-93 | A non-empty value replaces the field. |
| MapPicker.FillBlankIdempotent | public/js/mapPicker.js:95-98 | Filling again from the same answer changes nothing more. A change only ever happens to a blank field. |
| MapPicker.SearchText | public/js/mapPicker.js:155-157 | The search text is the non-blank trimmed location and country joined with ", ". |
| MapPicker.LocateDecision | public/js/mapPicker.js:158-179 | Fewer than 3 characters does nothing. A failed or not-ok answer is ignored. With at most one result, the view flies to the top-level point iff both coordinates are finite. More results are listed. |
| MapPicker.StartView | public/js/mapPicker.js:50-52 | The centre defaults to 0 for a missing coordinate. The zoom is 15 iff both coordinates are numbers, else 2. |
| MapPicker.Picker.constructor | public/js/mapPicker.js:106-109 | The hidden coordinates are prefilled iff both configured coordinates are numbers. |
| MapPicker.Picker.UserInput | public/js/mapPicker.js:23-26 | Typing in a field marks the form as typed by the user. |
| MapPicker.Picker.FillFromReverse | public/js/mapPicker.js:73-104 | Nothing changes and false is returned when a field is missing, when the user has typed (unless forced), or when the answer failed or is not ok. A forced fill overwrites with non-empty values and forgets the typing. An automatic fill writes only blank fields. The result is true iff something was written. |
| MapPicker.Picker.OverwriteFields | public/js/mapPicker.js:91-94 | Non-empty values overwrite, and the user's typing is forgotten. |
| MapPicker.Picker.FillBlankFields | public/js/mapPicker.js:95-98 | Only blank fields are filled; the result says whether one was. |
| MapPicker.Picker.PinMoved | public/js/mapPicker.js:141-152 | The hidden inputs take the point, and blank fields are filled from its address. |
| MapPicker.Picker.ResultClicked | public/js/mapPicker.js:127-133 | A clicked geocode result moves the pin and the hidden inputs to its point, fills blank fields from its address as `PinMoved` does, and empties the result list. |
| MapPicker.Picker.UsePin | public/js/mapPicker.js:193-201 | When the reverse answer merges, location and country become the answer's non-empty parts over the old values, and the typed-by-user mark is cleared. Otherwise all three are unchanged. The status reads "Pin address applied" iff something was written. |
| MapPicker.Picker.LocateFromText | public/js/mapPicker.js:154-183 | Follows `LocateDecision` on the typed location. A single point moves the pin, fills blank fields when the reverse answer merges (otherwise leaves them), keeps the typing flag and hides the list. Several results are listed. Otherwise nothing changes. |
| PriceLabel.FormatLabel | public/js/script.js:55-65 | `has` iff either trimmed input is non-empty. Without it the label is "Price"; otherwise `₹min - ₹max`, with "0" and "∞" for a missing end. |
| PriceLabel.MissingMinShowsZero | public/js/script.js:62-64 | When a maximum is set, a missing minimum reads as if "0" had been typed. |
| PriceLabel.MissingMaxShowsInfinity | public/js/script.js:62-64 | When a minimum is set, a missing maximum reads as if "∞" had been typed. |
| PriceLabel.BlankInputsUnset | public/js/script.js:56-60 | Blank inputs, however padded, leave the button unset. |
| PriceLabel.Stored | public/js/script.js:106 | A choice is stored as "1" or "0". |
| PriceLabel.Initial | public/js/script.js:98-99 | The display starts on iff "1" is stored. |
| PriceLabel.StoredChoiceRestored | public/js/script.js:98-106 | A stored choice comes back as it was made. |
| PriceLabel.TaxToggles.constructor | public/js/script.js:81-101 | With at least one switch, every switch and note starts in the stored state. |
| PriceLabel.TaxToggles.Apply | public/js/script.js:87-95 | Every note is shown iff `on`, and every switch is set to `on`. |
| PriceLabel.TaxToggles.Change | public/js/script.js:103-109 | Flipping one switch stores the choice, and every switch and note follows it. |
| Text.FindIgnoringCase | controllers/listings.js:57 | The first entry equal to the text ignoring case (no earlier entry is), or none when no entry is. |

## Left out

- Database execution is not modelled. `find`, `countDocuments` and `aggregate` are functions over a `seq<Listing>`. Full-text matching and the relevance score are the parameters `textHit` and `score`. The projection and `lean()` are left out.
- The store's sort by count in the top-N aggregations is not stable. The model uses a stable insertion sort, so ties come out in a fixed order.
- JS `Number()` and `parseInt` on strings are the parameter `toNumber`. Prices and coordinates are reals, not IEEE doubles, and `toFixed(5)` is the parameter `fixed5`.
- `Number(req.query.limit)` reaches the clamp as a `JsNumber`, not parsed from the query text.
- Dates are integer milliseconds passed as `now`. The token hash (SHA-256) and `randomBytes` are parameters.
- Mail sending is a boolean parameter saying whether it succeeded. Passport authentication is a boolean parameter, with the strategy's message as a string.
- Session regeneration and `req.login` errors are not modelled. The mailer and passport are not part of this model.
- `Listings.IndexListing` does not model the "Please log in to view saved listings." flash write or the view's `categories`, `minPrice ?? ""` formatting or rendering.
- Users.ForgotPassword, Users.ResendVerify and Users.ResetPassword do not model the catch-all error branches for database failures (`next(err)` and "Could not reset password").
- Users.LoginThrottle.Login does not model passport's `err` path or the `next(err)` of session regeneration. The user's password is checked only through the `authenticated` parameter.
- The signup controller's flow beyond its two checks is not modelled: duplicate-key errors, registration and the mail. `Users.SignupGate` covers the e-mail and password checks.
- The review document file (models/review.js) is not part of this model. A review is a rating (a real number, so fractional ratings are kept), a comment and an optional author.
- Reviews.Catalog.CreateReview requires a review id not yet stored, standing for the fresh ObjectId the database assigns. A missing listing is modelled as changing nothing; in the source, the handler throws before saving anything.
- Asynchrony is not modelled: the 250 ms debounce, concurrent cache recomputation, the count-vs-page race and the status timers. Each handler runs to completion, and a `fetch` answer is a parameter.
- The geocode rate limiter and the routes' rate limits are configuration and are not modelled.
- DOM work is not modelled: rendering, focus and `aria` attributes, scrolling, the `.show` class beyond the `open` flag, the empty-panel markup, and the click-outside handler.
- Chip clicks and result clicks in search.js are not modelled.
- PriceLabel.TaxToggles.constructor leaves the notes as the page rendered them when there are no switches, because the script returns before touching them.
- The whitespace `trim()` and `\s` remove is approximated by a fixed set (space, tab, line feed, carriage return, vertical tab, form feed, no-break space, byte-order mark). Other Unicode spaces are not covered.
- `toLowerCase()` is modelled on ASCII letters only.
- Schema.CheckEmail takes Joi's e-mail test as the parameter `isEmail`. Middleware.ValidateObjectId takes the ObjectId format test as a parameter. Middleware.DetailsMessage takes Joi's wording of a violation as the parameter `describe`.
- Joi stops at the first violation and reports one detail, which the model follows. The order of the checks within a schema is the declaration order.
- Cloudinary image upload and deletion, and the listing create, edit, show and delete handlers, are not part of this model; only `isCloudinaryImage` is.
- The logout, render and saved-page handlers only render or redirect and are not modelled.
- String lengths are counted in Unicode scalar values, while JavaScript's `.length` counts UTF-16 code units, so a character outside the Basic Multilingual Plane counts once here and twice in the source. Every length threshold shifts for such text: the 3-character full-text switch (controllers/listings.js:75), the 2-character suggestion minimum (routes/api.js:95), the 3-character geocode minimum (routes/api.js:177), the 8-character password checks (controllers/users.js:101 and :278), the Joi `min`/`max` bounds (schema.js) and the 3-character locate minimum (public/js/mapPicker.js:158).
- Query parameters are modelled as one optional string each. A repeated parameter reaches the source as an array, and `(req.query.q || "").trim()` then throws (controllers/listings.js:20-31, routes/api.js:94-97 and 174). That path is not modelled.
- Listings.ToggleMembership states, for a removal, which ids remain and how often each occurs, but not that they keep their relative order, which `filter` also preserves.
