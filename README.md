# SnapWork gig marketplace — a Dafny model of its discovery pipeline and list updates

SnapWork is a small gig marketplace. It has an Express server (`server.js`) that keeps users, gigs and reviews in JSON files, and a browser script (`snapwork.js`) that shows the gigs nine at a time. This project models four parts of it:

- **The gig query**, `GET /api/gigs`:
  - It filters by category and by a case-insensitive text search.
  - When the visitor's position is known, it measures each gig's distance and drops gigs outside a radius (25 km by default).
  - It sorts by price, by distance or by age.
- **The worker query**, `GET /api/workers`. It works the same way over the users whose type is "worker", and returns them without their passwords.
- **The list updates**: registering a user, posting a gig, adding a review (the branch that stores reviews in a file) and the completed-gigs listing.
- **The browser state**: the filters, the page counter, the visible window of gigs, the load-more control, the count labels, and the query strings sent to the server.

Modules:

| module | file | what it holds |
|---|---|---|
| `Common` | common.dfy | `Option`, `Result`, `OrEmpty` |
| `Lists` | lists.dfy | `Array.prototype.filter`/`map` as `Filter`/`Map`, with membership, multiplicity, append and permutation lemmas |
| `Ordering` | ordering.dfy | JavaScript comparator semantics for `(a, b) => key(a) - key(b)` and the in-place sort |
| `Text` | text.dfy | ASCII `toLowerCase`, `includes`, the `/[^\d]/g` digit strip, decimal digits and their value |
| `Records` | records.dfy | the gig, user and review records |
| `Geo` | geo.dfy | parsed query coordinates and radius, the radius test, the nearest-first order; the distance and its label are parameters |
| `GigQuery` | gig_query.dfy | the gig query |
| `WorkerQuery` | worker_query.dfy | the worker query |
| `Marketplace` | store.dfy | the `Store` class with the three lists and the register, post-gig and review updates; completed gigs |
| `Client` | client.dfy | the `AppState` class, paging, count labels, query strings |

Conventions:

- A missing or empty string parameter is `""`; both are falsy in JavaScript.
- A missing id or rating in a request body is `0`.
- A coordinate is `Some` exactly when the stored value is a JSON number.
- `parseFloat` of a query parameter is `Num(x)` or `NaN`; so is a computed distance.
- `createdAt` is an integer timestamp.

Each handler is written as the server writes it: the list is filtered step by step, then sorted in place, as an array. Each is proved against a reference definition that decides every stored record once, by itself (`GigQuery.Selected`, `WorkerQuery.Selected`). The properties are then proved about that reference.

The comparators are modelled exactly:

- `Array.prototype.sort` places `a` after `b` only when the comparator returns a positive number.
- NaN counts as a tie. So does `Infinity - Infinity`.
- The sort is a stable insertion sort. It leaves every element in order with its right-hand neighbour.
- When no key is NaN this order is transitive. A stable sort with such a comparator gives the same result as any other stable sort.

## Model

| member | source | states |
|---|---|---|
| `GigQuery.PaymentKey` | server.js:325 | the digits-only payment value is absent (NaN) exactly when the payment string contains no digit |
| `GigQuery.PaymentKeyOfAmount` | server.js:325-327 | a currency sign before and a unit after an amount do not change its sort key |
| `GigQuery.PaymentKeyOfDecimal` | server.js:325-327 | an amount written `whole.fraction` between non-digit text sorts as `whole * 10^|fraction| + fraction`, and as NaN when both parts are empty |
| `GigQuery.PaymentKeyPerUnit` | server.js:325 | "₹600/person" sorts as 600 |
| `GigQuery.PaymentKeyDecimalPoint` | server.js:325 | "₹12.50" sorts as 1250, an instance of `PaymentKeyOfDecimal` |
| `GigQuery.PaymentKeyNoDigits` | server.js:325 | "Negotiable" has no numeric value |
| `GigQuery.Measured` | server.js:315-318 | definition: `distanceKm` is null without numeric coordinates, else the computed distance; the label is `formatDistance` of it, or without coordinates the stored label, an empty one read as null; properties in `ShownKeepsRecord`, `UnlocatedGigsKept`, `NaNDistanceDropped` |
| `GigQuery.ModeOf` | server.js:324-331 | definition: "price-low", "price-high", "distance" only together with `lat && lng`, anything else newest first; properties in `ListGigs` |
| `GigQuery.Mentions` | server.js:303-307 | definition: the lower-cased title, description or category includes the term; properties in `SelectedSound`, `SelectedExactly` |
| `GigQuery.PriceKey` | server.js:325 | definition: the price-low comparator `price(a) - price(b)` as the key `price`, NaN for a payment without digits; properties in `CheapestFirstFromOrder` |
| `GigQuery.NegatedPriceKey` | server.js:327 | definition: the price-high comparator `price(b) - price(a)` as the key `-price`, NaN for a payment without digits; properties in `DearestFirstFromOrder` |
| `GigQuery.AgeKey` | server.js:331 | definition: the newest-first comparator `date(b) - date(a)` as the key `-createdAt`; properties in `NewestFirstFromOrder` |
| `GigQuery.StagesComputeSelected` | server.js:293-321 | the category, search and geo steps chained as in the handler keep exactly the gigs the reference admits, in stored order, shown as the reference shows them |
| `GigQuery.ShownKeepsRecord` | server.js:314-319 | a measured gig equals the stored gig except for `distanceKm` and `distance`, and the query admits both or neither |
| `GigQuery.SelectedExactly` | server.js:296-320 | a stored gig is in the result iff it passes the category filter, the search and the radius (completeness and soundness) |
| `GigQuery.SelectedSound` | server.js:296-320 | each result gig comes from an admitted stored gig; it has the requested category, mentions the lower-cased search in title, description or category, and with an origin has `distanceKm` null or a number within the radius, null exactly when it lacks coordinates |
| `GigQuery.UnlocatedGigsKept` | server.js:316-320 | with an origin, a gig without numeric coordinates is never dropped by the radius and keeps its static distance label |
| `GigQuery.NaNRadiusKeepsOnlyUnlocated` | server.js:313-320 | a `radiusKm` that parses to NaN drops every gig that has coordinates |
| `GigQuery.NaNDistanceDropped` | server.js:316-320 | a gig whose computed distance is NaN gets a null label and is dropped whatever the radius, since NaN is neither null nor `<=` anything |
| `GigQuery.SelectedMeasurable` | server.js:320 | with an origin, no gig of the result has a NaN distance, so the distance sort never meets a NaN key |
| `GigQuery.NewestFirstFromOrder` | server.js:331 | the newest-first comparator orders `createdAt` non-increasingly over the whole list |
| `GigQuery.CheapestFirstFromOrder` | server.js:325 | when every payment has a digit, price-low orders the payment values non-decreasingly |
| `GigQuery.DearestFirstFromOrder` | server.js:327 | when every payment has a digit, price-high orders the payment values non-increasingly |
| `GigQuery.ListGigs` | server.js:288-338 | the response is a permutation of the admitted gigs. It is sorted by the selected comparator: newest first by default or for "distance" without an origin, nearest first for "distance" with one, by price when every payment has a digit |
| `Ordering.SortInPlace` | server.js:324-331 | the in-place sort keeps the same elements with the same multiplicities and leaves no element after a neighbour the comparator says it must follow |
| `Ordering.Exceeds` | server.js:324-331 | definition: a comparator result above zero places `a` after `b`; a NaN key and `Infinity - Infinity` are ties; properties in `ExceedsAsymmetric`, `InOrderTransitive`, `SortInPlace` |
| `Ordering.InOrderTransitive` | server.js:324-331 | the comparator's order is transitive through any key that is not NaN |
| `Ordering.OrderedFromAdjacent` | server.js:324-331 | with no NaN key, neighbour order is order of every pair |
| `Geo.Here` | server.js:27-30 | definition: the or-zero guard of `haversineKm` turns a NaN `lat` or `lng` of the origin into 0 |
| `Geo.MaxRadius` | server.js:313 | definition: the parsed `radiusKm`, or 25 when the parameter is missing or empty; properties in `GigQuery.NaNRadiusKeepsOnlyUnlocated` |
| `Geo.InRadius` | server.js:320 | definition: null passes, a number passes when at most a numeric radius, NaN never; properties in `GigQuery.SelectedSound`, `GigQuery.NaNDistanceDropped` |
| `Geo.DistanceFrom` | server.js:316-317 | the distance is present exactly when both coordinates are numbers (`hasCoords`), as in server.js:546-547 for workers |
| `Geo.DistanceKey` | server.js:329 | definition: `distanceKm ?? Infinity`, with a NaN distance a NaN key (also server.js:551); properties in `NearestFirstFromOrder` |
| `Text.DigitsOnly` | server.js:325 | the stripped payment consists of digits, and a character occurs in it iff it is a digit of the original |
| `Text.DigitsOnlyCounts` | server.js:325 | every digit of the payment is kept as many times as it occurs, and no other character is kept |
| `Text.DigitsOnlyAppend` | server.js:325 | stripping a concatenation concatenates the stripped parts, so the digits keep their order |
| `Text.ValueOfAppend` | server.js:325 | the value of two digit strings written one after the other is the first shifted by the length of the second plus the second |
| `Text.DigitsAroundPoint` | server.js:325 | a decimal point is stripped like any other non-digit, joining the digits on its two sides |
| `Text.Decimal` | snapwork.js:386 | a count is written as canonical decimal digits whose value is the count |
| `Text.DecimalOfValue` | snapwork.js:386 | canonical decimal digits are the writing of their own value (decimal writing is a bijection) |
| `Text.DigitsAroundNumeral` | server.js:325 | stripping non-digits from a numeral with non-digit text around it leaves the numeral |
| `Text.LowerIdempotent` | server.js:302 | lower-casing a search the browser already lower-cased changes nothing |
| `Text.Lower` | server.js:302 | definition: `toLowerCase` on ASCII letters, also at server.js:304-306 and 533-537; properties in `LowerIdempotent` |
| `Text.Contains` | server.js:304-306 | definition: `includes`, some position where the term occurs; used by `GigQuery.Mentions` and `WorkerQuery.Mentions` |
| `Records.WithoutPassword` | server.js:554 | a returned user has no password and is otherwise the stored user |
| `Lists.MapPermutation` | server.js:554 | removing passwords after the sort keeps the response a permutation of the admitted workers |
| `Geo.Label` | server.js:35-38 | `formatDistance` gives null exactly for a NaN distance |
| `WorkerQuery.StagesComputeSelected` | server.js:531-550 | the worker type filter, search and geo step chained as in the handler keep exactly the users the reference admits, in stored order |
| `WorkerQuery.Measured` | server.js:544-548 | definition: like the gig version, but a worker without coordinates gets a null label; properties in `PublicKeepsRecord`, `PublicSound` |
| `WorkerQuery.Mentions` | server.js:535-538 | definition: the lower-cased name or location, a missing one read as "", includes the term; properties in `PublicSound`, `PublicExactly` |
| `WorkerQuery.PublicKeepsRecord` | server.js:541-554 | a returned worker equals the stored user except for `distanceKm`, `distance` and the removed password |
| `WorkerQuery.PublicExactly` | server.js:531-554 | a stored user is returned iff it is a worker whose name or location (missing read as "") mentions the search and, with an origin, is within the radius or has no coordinates |
| `WorkerQuery.PublicSource` | server.js:531-554 | every returned record comes from an admitted stored worker, shown without its password |
| `WorkerQuery.PublicSound` | server.js:531-554 | every returned record is a worker without password, matches the search, lies within the radius, has no NaN distance, and has no distance label when it has no distance |
| `WorkerQuery.SelectedMeasurable` | server.js:550 | with an origin, no kept worker has a NaN distance |
| `Geo.NearestFirstFromOrder` | server.js:329 | with no NaN distance, the comparator `(a.distanceKm ?? Infinity) - (b.distanceKm ?? Infinity)` puts records with a distance in non-decreasing order, followed by all records without one (gigs at server.js:329, workers at server.js:551) |
| `WorkerQuery.NearestFirstWithoutPasswords` | server.js:551-554 | removing passwords keeps the distance order |
| `WorkerQuery.ListWorkers` | server.js:527-559 | the response is a permutation of the admitted workers without passwords; in stored order without an origin; nearest first with one |
| `Marketplace.MaxOf` | server.js:449 | `Math.max(...ids, 0)` is at least 0, at least every id, and is 0 or one of the ids |
| `Marketplace.NextGigId` | server.js:449 | a new gig's id is positive and larger than every stored gig id |
| `Marketplace.NextReviewId` | server.js:634 | a new review's id is positive and larger than every stored review id |
| `Marketplace.FindUser` | server.js:628-629 | the lookup finds nothing iff no user has that id, else a stored user with that id |
| `Marketplace.FindFirst` | server.js:440 | the lookup returns the first user with the id |
| `Marketplace.NumberedIdsDistinct` | server.js:376 | numbering users by registration order keeps ids distinct, and id `i + 1` finds the `i`-th user |
| `Marketplace.NewUser` | server.js:375-386 | definition of the stored record; properties in `Store.Register` |
| `Marketplace.FindPoster` | server.js:440 | a poster named by a string is never found, since every user id is a number |
| `Marketplace.NewGig` | server.js:448-466 | a new gig is open and unassigned and carries the poster's name; each of `lat` and `lng` is the request's number or else the poster's; the location is the request's, else the poster's, else "Bangalore, Karnataka"; the phone and payment type fall back to the poster's phone and "fixed"; the other request fields are copied |
| `Marketplace.NewReview` | server.js:633-643 | definition of the stored record; properties in `Store.AddReview` |
| `Marketplace.Store.constructor` | server.js:51-62 | a fresh data directory has no users and no reviews, and satisfies every list invariant |
| `Marketplace.Store.Register` | server.js:357-400 | a missing name, email, password or user type is refused; so is an email already in use. Otherwise exactly one user is appended, with id = old length + 1, coordinates only if numbers were sent, and returned without password. Emails stay distinct |
| `Marketplace.Store.PostGig` | server.js:430-478 | an incomplete request or unknown poster is refused. Otherwise the new gig is placed first, with an id above every stored id, and the other gigs are unchanged. Gig ids stay distinct |
| `Marketplace.Store.AddReview` | server.js:592-647 | requests are refused for missing fields, a rating outside 1..5, an already reviewed (gig, reviewer, reviewee) triple, or an unknown user, checked in that order; the review is stored iff none applies, appended with an id above every stored id; ids and triples stay distinct |
| `Marketplace.Annotate` | server.js:682-689 | definition: `hasReviewed` and `canReview = !hasReviewed` for one gig; properties in `CompletedGigsExactly` |
| `Marketplace.CompletedGigs` | server.js:675-691 | definition: the completed gigs the user posted or was assigned to, annotated; properties in `CompletedGigsExactly`, `ReviewClosesGig` |
| `Marketplace.CompletedGigsExactly` | server.js:675-691 | the listing holds exactly the completed gigs the user posted or was assigned to, and a gig is reviewable iff the user has not reviewed anyone for it |
| `Marketplace.ReviewClosesGig` | server.js:682-689 | a review by the user for a gig makes it no longer reviewable for that user |
| `Marketplace.AddedReviewClosesGig` | server.js:633-644 | a review stored by the review route closes its gig for its reviewer in the completed-gigs listing |
| `Client.Lookup` | snapwork.js:168-182 | definition: `URLSearchParams.get`, the first value of a key or null; properties in `LookupNone`, `LookupAppend` |
| `Client.LookupNone` | snapwork.js:168-182 | a key has no value iff no entry carries it |
| `Client.LookupAppend` | snapwork.js:168-182 | appending an entry keeps the earlier value of every key and adds the new key if absent |
| `Client.AppendFresh` | snapwork.js:168-182 | appending a new key gives it its value, leaves other keys alone and keeps keys distinct |
| `Client.AppendFilters` | snapwork.js:169-177 | `category` is sent iff it is not "all", `search` and `sort` iff not empty, each with the filter's value, each at most once |
| `Client.AppendPosition` | snapwork.js:178-182 | `lat`, `lng` and `radiusKm=25` are sent iff the position is known, and no other key changes |
| `Client.GigParams` | snapwork.js:168-182 | the gig query string holds exactly the conditional keys above, no key twice and no other key |
| `Client.WorkerParams` | snapwork.js:212-217 | the workers query string holds the position and radius iff the position is known, and never a search |
| `Client.Window` | snapwork.js:230-232 | the visible gigs are the first `min(page * 9, n)` gigs of the list |
| `Client.RenderGigs` | snapwork.js:228-280 | definition: the "no results" notice for an empty window, else the grid of the window with load-more shown when gigs are hidden; properties in `LoadMoreIffHidden`, `NoResultsIffEmpty`, `NextPageExtends` |
| `Client.LoadMoreIffHidden` | snapwork.js:275-279 | the load-more control is shown iff some gig of the list is not visible |
| `Client.NoResultsIffEmpty` | snapwork.js:234-238 | from page 1 on, the "no results" notice (with load-more hidden) appears iff the list is empty |
| `Client.NextPageExtends` | snapwork.js:377-380 | one more page shows the same gigs followed by the next `min(9, remaining)` gigs |
| `Client.CountLabel` | snapwork.js:291 | definition: the count, the noun, "s" unless the count is 1, then " available" (also snapwork.js:386); properties in `CountLabelSingularIffOne`, `CountLabelInjective` |
| `Client.CountLabelSingularIffOne` | snapwork.js:384-386 | the count label uses the singular noun iff the count is 1 |
| `Client.CountLabelInjective` | snapwork.js:384-386 | different counts give different labels |
| `Client.RenderWorkers` | snapwork.js:290-291 | the workers panel shows exactly the users of type "worker", each as many times as it occurs in the list and no other user, and its label counts them |
| `Client.AppState.constructor` | snapwork.js:10-23 | the page starts on page 1 with filters all/""/newest, no position and empty lists |
| `Client.AppState.LoadMoreGigs` | snapwork.js:377-380 | the page counter grows by exactly 1, nothing else changes, and the visible gigs only grow |
| `Client.AppState.ClearFilters` | snapwork.js:390-395 | the filters become all/""/newest whatever they were (so a second call changes nothing), and the page counter is not reset |
| `Client.AppState.HandleSearch` | snapwork.js:350-353 | the search filter becomes the lower-cased input, which is its own lower-case form |
| `Client.AppState.HandleCategoryFilter` | snapwork.js:356-363 | only the category filter changes |
| `Client.AppState.HandleSort` | snapwork.js:366-369 | only the sort filter changes |
| `Client.AppState.GigsRequest` | snapwork.js:166-182 | the request sent after a filter change carries the current filters and position as above |
| `Client.AppState.OnGigsLoaded` | snapwork.js:187-191 | both gig lists become the response, the page counter is kept, and the count label counts the response |
| `Client.AppState.OnUsersLoaded` | snapwork.js:219-221 | the user list becomes the response, or empty when the response has none, and the workers panel is redrawn from it |
| `Client.AppState.OnLocationDetected` | snapwork.js:140-143 | a detected position is kept for later requests and nothing else changes |

## Left out

- `haversineKm`, `toRad` and `formatDistance` (server.js:21-38) are floating-point trigonometry and number formatting. A `Geo.Geometry` value passes them in as functions, and no property is claimed about them. The `|| 0` guard inside `haversineKm`, which turns a NaN `lat` or `lng` into 0, is modelled (`Geo.Here`). The guard does not stop the distance itself from being NaN: a huge finite coordinate (`lat=1e308`) overflows to an infinite angle whose sine is NaN, and rounding near antipodal points can take a root of a negative number. The model lets `Geometry.distanceKm` return NaN; such a record gets a null label from `formatDistance` and fails the radius test, so it is dropped (`GigQuery.NaNDistanceDropped`). Which inputs produce NaN is not modelled.
- Reading and writing the JSON files, `ensureDataDirectory`'s seed gigs, and the whole PostgreSQL branch of the review route (server.js:601-619) are left out. The lists are fields of `Marketplace.Store`. The seed gigs are a constructor argument, required to have distinct ids.
- Clocks: `new Date().toISOString()` is the `now` argument, and `createdAt` is an integer. An unparseable `createdAt` (an invalid Date, whose difference is NaN) is not modelled.
- `toLowerCase` is modelled on ASCII letters only. Unicode case mapping is out of scope.
- `parseFloat` of a query parameter is `Num` or `NaN`. Parameters that parse to ±Infinity are not modelled.
- Payments are read as exact integers. Doubles lose precision above 2^53, and that rounding is not modelled.
- `GigQuery.ListGigs`: for the price sorts, no whole-list order is claimed when some payment has no digit. JavaScript leaves that order to the engine. The model keeps only the neighbour order its insertion sort gives.
- `GigQuery.ListGigs`, `WorkerQuery.ListWorkers`: the result is specified up to permutation plus sortedness, without stating stability. With distinct keys the two determine the order.
- Express routing, HTTP status codes and JSON framing are not modelled; a refusal is an `Err(Failure)`. The `apply` and `hire` routes are stubs that change nothing (server.js:481-505).
- These routes do not belong to the discovery pipeline or the list updates and are left out: login, single gig, user profile, a user's reviews, `GET /api/users`.
- Races between concurrent requests computing `max + 1` ids.
- The completed-gigs route parses `:id` with `parseInt`; a NaN id (matching nothing) is not modelled, the user id is an integer.
- Request values whose JavaScript type differs from the stored one (a string `postedBy` of digits, a string rating) are not modelled beyond `Records.Ref`. A rating is an exact real.
- Everything DOM, `fetch`, geolocation, timers, modals and templates in `snapwork.js`: responses and positions arrive as method arguments and rendered panels are values. A `category` read from a button without a `data-category` attribute (undefined) is not modelled.
