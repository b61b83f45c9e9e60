# BeniceAstro storefront core, modelled in Dafny

This project models the server-side logic of the BeniceAstro pet shop, an
Astro storefront backed by Supabase, Stripe, Resend and the Google Maps
APIs, and proves properties of that model. The model covers:

- order reconciliation after a Stripe Checkout payment, with invoice
  numbering, and the Stripe webhook in front of it;
- the in-memory fixed-window rate limiter, as a class with an explicit clock;
- return, cancellation and order-status lifecycles on the admin side, and
  a customer's own cancellation;
- checkout pricing: the direct order route and the Stripe Checkout session
  route, with promo-code validation, promo administration and newsletter
  campaigns;
- the validators and sanitisers: address validation, the Google place
  details and autocomplete proxies, search, the contact form, HTML escaping
  in the e-mails, product slugs, the profile and settings updates, and the
  visit-tracking middleware;
- the record mapping: Stripe customer linking and sync, the checkout
  prefill merge, product reviews, the sitemap and the product presentation
  tables.

There is one Dafny module per source file, plus three shared modules:

- `Common`: JavaScript string and number semantics, such as `||`, `trim`,
  `parseInt` and `Math.round`;
- `Auth`: the Bearer-token and admin checks that the routes repeat;
- `Catalog`: product and promo-code rows, the sale-price choice and the
  validity rule for promo codes.

The database tables are values that operations take and return. The
exceptions are the rate limiter and the review table: they are updated in
place, so they are classes. The outcome of each external call is a
parameter, either a success flag or the value the service returns. This
covers Stripe, Supabase RPCs, Resend and Google. Time, random bytes and new
ids are parameters too. Money is in integer cents. Each route whose body is
parsed as JSON takes a `bodyOk` flag. It is false when the body is not
JSON, which makes the handler throw into its 500 answer.

Where the documentation and the code differ, the model follows the code.
Order reconciliation drops a line item whose product cannot be resolved.
It refunds only when no item resolves or when the order RPC fails. It does
not abort on the first unresolved item
(`src/lib/process-order.ts:116-141`). The rate limiter works in fixed
windows, although its header comment calls it a sliding window.

## Model

| member | source | states |
|---|---|---|
| `Webhook.Decide` | src/pages/api/stripe/webhook.ts:11-73 | a missing signature is 400, no endpoint secret 500, a failed verification 400; every verified event gets 200; only `checkout.session.completed` is reconciled, on its own session id |
| `Webhook.Retrieve` | src/lib/process-order.ts:36 | the session Stripe returns for an id carries that id, and otherwise what Stripe holds for it |
| `Webhook.Handle` | src/pages/api/stripe/webhook.ts:43-57 | the status is the guard chain's; the store changes only through the one reconciliation call, a redelivered event whose session already has an order changes nothing, nor does a session id Stripe does not know; a failed reconciliation leaves the orders as they were, a new order is appended under the reconciled id, and once stamped the session finds it |
| `ValidatePromo.ValidatePromo` | src/pages/api/validate-promo.ts:13-41 | 400 exactly for a missing, empty or non-string code; valid exactly for an active code (looked up upper-cased) that is neither expired nor at its cap, with its stored discount; the reasons are decided in the order unknown, expired, exhausted |
| `ValidatePromo.Post` | src/pages/api/validate-promo.ts:10-46 | a body that is not JSON is a 500 and never valid; any other body gets the validation's answer |
| `ValidatePromo.CaseInsensitive` | src/pages/api/validate-promo.ts:20 | a code and its upper-cased form get the same answer |
| `ValidatePromo.UseUpToCap` | src/pages/api/validate-promo.ts:34-36 | a valid capped code stops validating once its uses reach the cap |
| `Search.Sanitize` | src/pages/api/search.ts:14-17 | the query sent is at most 100 characters, no longer than the raw text, free of the wildcard and quoting characters, and made only of characters of the raw text |
| `Search.SanitizeClean` | src/pages/api/search.ts:14-17 | a short, clean, trimmed query passes unchanged |
| `Search.SanitizeIdempotent` | src/pages/api/search.ts:14-17 | sanitising twice is sanitising once |
| `Search.WildcardsRemoved` | src/pages/api/search.ts:16 | `%word%` reaches the filter as `word` |
| `Search.LongQueryCut` | src/pages/api/search.ts:15 | a run of n >= 100 letters is cut to 100 |
| `Search.Matching` | src/pages/api/search.ts:30 | the matches are products of the table whose name contains the query case-insensitively, and every such product is among them |
| `Search.SearchProducts` | src/pages/api/search.ts:4-48 | a missing or one-character raw query, or one that sanitises to fewer than 2 characters, is an empty 200 without a query; a failing query is a 500; otherwise at most five matches, the first ones in table order |
| `Settings.Attempt` | src/pages/api/admin/settings.ts:36-37 | an entry is skipped exactly when its key is over 100 characters; otherwise it is upserted with `String(value ?? '')` cut to 1000 |
| `Settings.AsString` | src/pages/api/admin/settings.ts:37 | null becomes '', a string stays itself, any other value its rendered text |
| `Settings.AttemptsBounded` | src/pages/api/admin/settings.ts:35-37 | at most one upsert per entry, each with a key of at most 100 and a value of at most 1000 characters |
| `Settings.AttemptsPrefix` | src/pages/api/admin/settings.ts:35 | the upserts of a prefix of the entries are a prefix of the upserts of all of them |
| `Settings.ApplyAllSpec` | src/pages/api/admin/settings.ts:39-41 | after the upserts the table holds exactly the old keys and the upserted ones; every value is the old one or one upserted under its key; a key no upsert names keeps its value |
| `Settings.FirstFailure` | src/pages/api/admin/settings.ts:43-46 | the first upsert whose key fails, with every earlier one succeeding, or None when none fails |
| `Settings.UpsertAll` | src/pages/api/admin/settings.ts:35-47 | without a failure every upsert is applied in order; otherwise the loop returns the failing key with exactly the upserts before it applied |
| `Settings.Save` | src/pages/api/admin/settings.ts:19-54 | 401 for a non-admin, 500 for a body that is not JSON, 400 for a missing or non-object `settings`, all with the table unchanged; 200 exactly when no upsert fails, with all applied; else 500 naming the failing key, the earlier upserts kept |
| `Settings.SavedWithinBounds` | src/pages/api/admin/settings.ts:36-41 | every key a save changes has at most 100 characters and a value of at most 1000 |
| `PromoCodes.List` | src/pages/api/admin/promo-codes.ts:21-41 | 401 for a non-admin, 500 when the query fails, otherwise 200 with every code of the table |
| `PromoCodes.ParsedDiscount` | src/pages/api/admin/promo-codes.ts:59-62 | a discount is accepted exactly when it parses as an integer from 1 to 100, and then it is that integer |
| `PromoCodes.Create` | src/pages/api/admin/promo-codes.ts:44-86 | the checks run as admin, JSON body, code (non-empty string of at most 50), discount, duplicate; only a 201 changes the table, adding the upper-cased code, active, with the parsed discount |
| `PromoCodes.CreatedCodeValidates` | src/pages/api/admin/promo-codes.ts:64-81 | a created code validates in any letter case with its discount, and creating it again is a duplicate |
| `PromoCodes.WithoutId` | src/pages/api/admin/promo-codes.ts:102-105 | the delete keeps exactly the rows with another id, unchanged |
| `PromoCodes.Delete` | src/pages/api/admin/promo-codes.ts:89-114 | 401 for a non-admin, 400 for a missing or empty id, 500 for a failed delete, all without change; else 200 with the rows of that id removed |
| `PromoCodes.DeletedCodeInvalid` | src/pages/api/admin/promo-codes.ts:102-109 | a deleted code no longer validates, and deleting twice is deleting once |
| `Auth.Authenticate` | src/pages/api/profile.ts:20-35 | no credentials exactly when the header fails its guard (absent, empty, or without the `Bearer ` prefix where that is demanded); authenticated exactly when the token after the first `Bearer ` is a live session, as that session's user |
| `Auth.BearerTokenOfPrefixed` | src/pages/api/admin/process-return.ts:24-28 | for a header starting with `Bearer `, removing the first `Bearer ` and dropping the first seven characters give the same token |
| `Auth.AuthenticateAdmin` | src/pages/api/admin/approve-cancellation.ts:15-42 | admin exactly when the caller authenticates and their `users` row has the role 'admin'; a non-admin is an authenticated caller |
| `Auth.AdminFailureStatus` | src/pages/api/admin/approve-cancellation.ts:16-42 | a failed admin guard is 403 exactly for an authenticated non-admin and 401 otherwise |
| `Auth.VerifyAdmin` | src/pages/api/admin/promo-codes.ts:6-18 | true exactly when a present header's token authenticates an admin |
| `Catalog.UnitPriceCents` | src/pages/api/create-order.ts:70 | the sale price when the product is on sale with a non-zero sale price, the list price otherwise |
| `Catalog.FindActive` | src/pages/api/validate-promo.ts:17-22 | a code is found exactly when it is in the table and active, as its row |
| `Middleware.PagesTracked` | src/middleware.ts:7-20 | a rooted page path whose name does not start with '_' or a skipped folder and has no dot is tracked |
| `Middleware.AssetsUntracked` | src/middleware.ts:7-20 | everything under `/api/` or `/_` and every path with one of the six skipped extensions is passed straight on |
| `Middleware.OutsideFolder` | src/middleware.ts:8-11 | a name outside a folder stays outside it once a slash is put in front |
| `Middleware.NoExtension` | src/middleware.ts:12-17 | a path without a dot ends in no dotted extension |
| `Middleware.ForwardedClient` | src/middleware.ts:37 | the first comma-separated field of `x-forwarded-for`, trimmed, and nothing without the header |
| `Middleware.ClientIp` | src/middleware.ts:34-40 | cf-connecting-ip, else x-real-ip, else the first x-forwarded-for field trimmed, else x-client-ip, else true-client-ip, each only when non-empty, else the socket address; never empty when the socket address is not |
| `Middleware.ClientIpChain` | src/middleware.ts:34-40 | the same choice is the general `a \|\| b \|\| ... \|\| dflt` over the five headers in that order |
| `Middleware.ForwardedForUsed` | src/middleware.ts:34-40 | with only `x-forwarded-for` set, the visitor is its first address, trimmed |
| `Middleware.NoProxyHeaders` | src/middleware.ts:34-40 | with no proxy header the socket address is used |
| `Middleware.OnRequest` | src/middleware.ts:4-61 | every path returns the rest of the chain's response; a visit is attempted exactly for a tracked path with a readable client address, with the page, a non-empty IP, and the user agent and referer or ''; it is stored exactly when the insert succeeds |
| `Sitemap.StripSlash` | src/pages/sitemap.xml.ts:7 | one trailing slash is removed, and nothing else changes |
| `Sitemap.StripSlashOnce` | src/pages/sitemap.xml.ts:7 | only the last of two trailing slashes goes |
| `Sitemap.Site` | src/pages/sitemap.xml.ts:7 | the configured URL, else Astro's origin, else the shop's domain, without its trailing slash |
| `Sitemap.DatePart` | src/pages/sitemap.xml.ts:43 | the date is a prefix of the ISO timestamp and holds no 'T' |
| `Sitemap.ProductPage` | src/pages/sitemap.xml.ts:39-44 | a product page is `/producto/` and the slug, priority 0.8, weekly, dated by `updated_at` when there is one |
| `Sitemap.ProductPages` | src/pages/sitemap.xml.ts:31-48 | no product pages when the query fails or a date cannot be read; otherwise one page per row, in query order |
| `Sitemap.Entries` | src/pages/sitemap.xml.ts:55-60 | one `<url>` element per page, in order |
| `Sitemap.JoinAppend` | src/pages/sitemap.xml.ts:60 | joining two non-empty runs puts exactly one newline between them |
| `Sitemap.EntriesAppend` | src/pages/sitemap.xml.ts:55-60 | the elements of two runs of pages are the elements of each run, in order |
| `Sitemap.RenderAppend` | src/pages/sitemap.xml.ts:53-61 | the document of two non-empty runs of pages is the header, the two runs' elements one newline apart, and the closing tag |
| `Sitemap.StaticThenProducts` | src/pages/sitemap.xml.ts:50-61 | the static pages come first and the product pages after them, in query order |
| `Sitemap.StaticOnlyOnFailure` | src/pages/sitemap.xml.ts:46-48 | without product data, or with an unreadable date, the sitemap holds the static pages only |
| `Sitemap.PagesConform` | src/pages/sitemap.xml.ts:10-44 | every page's change frequency and priority are values the Sitemaps protocol allows |
| `Sitemap.SlugLocSafe` | src/pages/sitemap.xml.ts:40-56 | a product URL built from a slug of the shop's slug shape needs no XML escaping |
| `ProductUtils.ParseAnimal` | src/lib/product-utils.ts:5-27 | an animal name the table knows is the name of its key |
| `ProductUtils.ParseCategory` | src/lib/product-utils.ts:5-27 | a category name the table knows is the name of its key |
| `ProductUtils.ParseNames` | src/lib/product-utils.ts:5-27 | every animal and category key is found under its own name |
| `ProductUtils.Gradient` | src/lib/product-utils.ts:6-26 | every entry of the fifteen-entry table is non-empty and differs from the grey default |
| `ProductUtils.CategoryGradient` | src/lib/product-utils.ts:4-29 | a known animal and category get their table entry; the grey default comes back exactly when either is unknown |
| `ProductUtils.GradientByName` | src/lib/product-utils.ts:28 | looking a known pair up by name gives its own entry |
| `ProductUtils.AnimalEmoji` | src/lib/product-utils.ts:32-38 | dog for 'perro', cat for 'gato', the paw for anything else |
| `ProductUtils.AnimalLabel` | src/lib/product-utils.ts:41-47 | 'Perro', 'Gato', else 'Otros' |
| `ProductUtils.AnimalSvgPath` | src/lib/product-utils.ts:55-63 | the dog icon, the cat icon, else the generic one |
| `ProductUtils.AnimalCasesAgree` | src/lib/product-utils.ts:32-63 | the emoji, the label and the icon split the animals the same way, 'otros' falling in the generic case |
| `ProductUtils.PlaceholderSimplified` | src/lib/product-utils.ts:50-52 | a URL is a placeholder exactly when it is empty or contains 'placehold'; the other two tests add nothing |
| `RateLimiter.Step` | src/lib/rate-limiter.ts:52-84 | a missing or expired entry opens a window of `windowMs` with count 1 and passes; inside the window every call counts and is rejected exactly when the count exceeds the limit, with a 429, the limit, remaining '0' and a Retry-After that is the ceiling of the seconds left |
| `RateLimiter.Run` | src/lib/rate-limiter.ts:48-84 | one verdict per call of a run |
| `RateLimiter.RunInsideWindow` | src/lib/rate-limiter.ts:56-63 | inside one window, with c calls counted, the k-th further call passes exactly when c + k + 1 is within the limit |
| `RateLimiter.PerWindowLimit` | src/lib/rate-limiter.ts:56-63 | in a run inside one window, call k passes exactly when it opens the window or k is below the limit |
| `RateLimiter.FourthCallBlocked` | tests/rate-limiter.test.ts:8-28 | with a limit of 3, four calls at one instant give pass, pass, pass, reject |
| `RateLimiter.Live` | src/lib/rate-limiter.ts:14-21 | the sweep keeps exactly the entries whose reset time has not passed, unchanged |
| `RateLimiter.Limiter.constructor` | src/lib/rate-limiter.ts:11 | the store starts empty |
| `RateLimiter.Limiter.CheckRateLimit` | src/lib/rate-limiter.ts:48-84 | the identifier's entry becomes the step's new entry, every other entry is unchanged, and the verdict is the step's |
| `RateLimiter.Limiter.Sweep` | src/lib/rate-limiter.ts:14-21 | the store becomes its live entries |
| `RateLimiter.TwoClients` | src/lib/rate-limiter.ts:53-57 | a call for one key does not change the verdict for another |
| `RateLimiter.ForwardedFor` | src/lib/rate-limiter.ts:93 | the first comma-separated field of `x-forwarded-for`, trimmed, exactly when the header is there |
| `RateLimiter.ClientIp` | src/lib/rate-limiter.ts:90-95 | the first non-empty of cf-connecting-ip, x-real-ip, the forwarded field and the socket address, else 'unknown'; never empty |
| `RateLimiter.RateLimitKey` | src/lib/rate-limiter.ts:89-97 | the key is the client IP, a colon, and the path |
| `Contact.EmailValid` | src/pages/api/contact.ts:34 | the scan (one '@', not first, no spaces, a dot strictly inside the part after it) accepts exactly the strings of `^[^\s@]+@[^\s@]+\.[^\s@]+$` |
| `Contact.EmailScanSound` | src/pages/api/contact.ts:34 | what the scan accepts matches the pattern |
| `Contact.EmailScanComplete` | src/pages/api/contact.ts:34 | what matches the pattern the scan accepts |
| `Contact.ScanOfMatch` | src/pages/api/contact.ts:34 | a match of the pattern, with its '@' and its dot, is one the scan accepts |
| `Contact.FirstAt` | src/pages/api/contact.ts:34 | an '@' preceded by a plain local part is the first '@' |
| `Contact.PlainAroundDot` | src/pages/api/contact.ts:34 | plain runs either side of a dot make one run free of spaces and '@' |
| `Contact.EmailAccepted` | tests/business-logic.test.ts:13 | 'a@b.cc' is accepted |
| `Contact.EmailWithoutDot` | tests/business-logic.test.ts:23 | 'user@domain' is rejected |
| `Contact.DomainRejected` | src/pages/api/contact.ts:34 | without a dot strictly inside the part after the first '@' an address is rejected |
| `Contact.EmailWithoutLocalPart` | tests/business-logic.test.ts:19 | '@domain.com' is rejected |
| `Contact.EmailDotFirst` | tests/business-logic.test.ts:22 | 'user@.com' is rejected |
| `Contact.EmailWithSpace` | tests/business-logic.test.ts:21 | 'user @example.com' is rejected |
| `Contact.Check` | src/pages/api/contact.ts:10-39 | the checks run in order (required fields, maximum lengths, phone, e-mail pattern), each failure with its own message; a length is a string's or an array's `.length`, and the pattern is tested on the e-mail's string form; passing all means every required field is truthy and within its length, the phone is falsy or a string of at most 20 characters, and the string form of the e-mail matches the pattern |
| `Contact.StoredPhone` | src/pages/api/contact.ts:44 | `phone \|\| null`: a non-empty phone string is stored, anything else as null |
| `Contact.Submit` | src/pages/api/contact.ts:5-71 | a body that is not JSON is a 500; a failed check is a 400 with its message and nothing stored or mailed; once the checks pass the row (phone as `phone \|\| null`) is stored exactly when the insert succeeds; then a 200 with the contact mail when name, e-mail, subject and message are strings, and otherwise a 500 without a mail, because escaping a non-string throws |
| `Profile.Get` | src/pages/api/profile.ts:40 | a key missing from the body reads as undefined |
| `Profile.DbUpdates` | src/pages/api/profile.ts:55-64 | the update holds exactly the nine profile fields the body defines, with their values as sent, and never the role, e-mail or customer id |
| `Profile.DbUpdatesIgnoresExtras` | src/pages/api/profile.ts:55-64 | adding a key outside the profile fields to the body does not change the update |
| `Profile.StripeUpdates` | src/pages/api/profile.ts:77-88 | Stripe gets the name and phone when truthy and an address exactly when line 1, city or postal code is truthy, with Spain as the default country |
| `Profile.StripeAddressSent` | src/pages/api/profile.ts:80-87 | a gated-in address reaches Stripe with its first line or '' and a non-empty country, and no e-mail |
| `Profile.Put` | src/pages/api/profile.ts:17-106 | 401 without a `Bearer ` header, 401 for an invalid session, 500 for a body that is not JSON, 400 for an over-long name then phone; 200 exactly when all pass and the update succeeds, with the update and the Stripe sync; the sync's outcome is only logged, so it cannot change the answer |
| `PlaceDetails.Find` | src/pages/api/google/place-details.ts:124-126 | the index of the first component whose types include the type, or None when no component has it |
| `PlaceDetails.Get` | src/pages/api/google/place-details.ts:123-131 | a missing type gives two empty texts; otherwise the long text falls back from `longText` to `long_name` to '', the short one likewise |
| `PlaceDetails.FindFirstWins` | src/pages/api/google/place-details.ts:124-126 | components after the first match are never looked at |
| `PlaceDetails.Line1` | src/pages/api/google/place-details.ts:144-149 | empty exactly without a route; the route alone without a number; else the route, ', ', and the number |
| `PlaceDetails.City` | src/pages/api/google/place-details.ts:155 | the locality, else the first-level sub-locality |
| `PlaceDetails.State` | src/pages/api/google/place-details.ts:158 | the province (level 2), else the region (level 1) |
| `PlaceDetails.AddressLine1Shape` | src/pages/api/google/place-details.ts:133-163 | the parsed route and number are the components' long texts, and line 1 is built from them as above |
| `PlaceDetails.CityPrefersLocality` | src/pages/api/google/place-details.ts:136-155 | a locality with a non-empty long text is the city whatever else the answer holds |
| `PlaceDetails.CityAndStateFallBack` | src/pages/api/google/place-details.ts:137-158 | without a locality the sub-locality is the city; the state is the province when it has a text, else the region |
| `PlaceDetails.NoComponents` | src/pages/api/google/place-details.ts:122-174 | an answer without components gives empty text fields except the formatted address, and the coordinates pass through or are null |
| `PlaceDetails.ParseIgnoresLaterComponents` | src/pages/api/google/place-details.ts:122-174 | once every looked-up type has been found, further components change nothing |
| `PlaceDetails.SessionToken` | src/pages/api/google/place-details.ts:68-70 | the session token is forwarded exactly when it is a non-empty string |
| `PlaceDetails.PlaceDetails` | src/pages/api/google/place-details.ts:34-107 | 503 without an API key, 500 for a body that is not JSON, 400 for a place id outside `^[A-Za-z0-9_-]{20,300}$`; Google is asked exactly when all pass, with the id and the token; a failed answer is a 502; a 200 carries the parsed address with [] and '' for missing parts |
| `PlacesAutocomplete.SanitizeInput` | src/pages/api/google/places-autocomplete.ts:40 | the text sent is a prefix of the trimmed input of at most 200 characters, all of it when it fits |
| `PlacesAutocomplete.Shape` | src/pages/api/google/places-autocomplete.ts:85-90 | a prediction keeps its place id, and each missing or empty text becomes '' |
| `PlacesAutocomplete.Predictions` | src/pages/api/google/places-autocomplete.ts:83-90 | one prediction per suggestion that carries one |
| `PlacesAutocomplete.PredictionsFromSuggestions` | src/pages/api/google/places-autocomplete.ts:83-90 | every prediction returned is the shape of one of the suggestions' predictions |
| `PlacesAutocomplete.PredictionsAppend` | src/pages/api/google/places-autocomplete.ts:83-90 | filtering and shaping keep Google's order |
| `PlacesAutocomplete.PredictionsAllKept` | src/pages/api/google/places-autocomplete.ts:83-90 | when every suggestion carries a prediction, the i-th prediction is the i-th suggestion's, none dropped |
| `PlacesAutocomplete.Autocomplete` | src/pages/api/google/places-autocomplete.ts:17-104 | 503 without an API key, 500 for a body that is not JSON, 400 for a missing or non-string input, an empty 200 for fewer than 3 characters; Google is asked exactly otherwise, with the sanitised input and a non-empty string token; a failed answer is a 502 with no predictions; else 200 with the shaped predictions |
| `StripeCustomer.NewCustomer` | src/lib/stripe-customer.ts:71-85 | the created customer carries the row's e-mail, its truthy name and phone, an address exactly when the row has a first line (Spain as the default country, no state), and metadata pointing back at the shop user |
| `StripeCustomer.GetOrCreate` | src/lib/stripe-customer.ts:41-94 | a missing user, and only that, fails with UserMissing and nothing changed; a returned id is active and is either the one already linked or the customer just created; a stored id of an active customer is returned with nothing changed; otherwise Stripe's failure is reported, or a customer is created under the new id and, when the write succeeds, linked; only the caller's customer id column ever changes |
| `StripeCustomer.SafeAddress` | src/lib/stripe-customer.ts:118-125 | each address field is handed out, or null when falsy |
| `StripeCustomer.Safe` | src/lib/stripe-customer.ts:114-126 | name, e-mail and phone are handed out or null, the address exactly when the customer has one; no field is the empty string |
| `StripeCustomer.GetCustomerData` | src/lib/stripe-customer.ts:105-127 | an unknown id fails the retrieval and a deleted customer throws; otherwise the customer's safe fields, none empty |
| `StripeCustomer.CreatedCustomerData` | src/lib/stripe-customer.ts:71-127 | reading back a customer just created from a row gives the row's truthy fields and its address exactly when it has a first line |
| `StripeCustomer.UserAddressParams` | src/lib/stripe-customer.ts:167-176 | the first line defaults to '', the country to Spain, and every other sub-field is sent only when truthy |
| `StripeCustomer.UserParams` | src/lib/stripe-customer.ts:162-176 | exactly the defined name, e-mail and phone are sent as given, and the address exactly when it is given |
| `StripeCustomer.SyncUser` | src/lib/stripe-customer.ts:138-179 | nothing is sent for a user without a linked customer; otherwise the update goes to the stored id with the parameters above |
| `StripeCustomer.Sent` | src/lib/stripe-customer.ts:191-205 | a string is sent exactly when it is non-empty, as itself |
| `StripeCustomer.SentOr` | src/lib/stripe-customer.ts:201-205 | `x || dflt` |
| `StripeCustomer.ShippingParams` | src/lib/stripe-customer.ts:199-207 | the shipping address is sent with '' and Spain as defaults, the optional fields only when truthy, and no state |
| `StripeCustomer.CheckoutParams` | src/lib/stripe-customer.ts:189-207 | name, phone and address are sent only when present and never an e-mail; there is nothing to send exactly when the session has nothing to sync |
| `StripeCustomer.CheckoutDbUpdates` | src/lib/stripe-customer.ts:215-224 | the local update writes the truthy name and phone, and all five address columns (null for missing parts, Spain by default) when there is an address |
| `StripeCustomer.ApplyDb` | src/lib/stripe-customer.ts:234 | the listed columns change and the others, e-mail and customer id among them, keep their values |
| `StripeCustomer.Owners` | src/lib/stripe-customer.ts:227-231 | the users whose stored customer id is the given one |
| `StripeCustomer.SyncCheckout` | src/lib/stripe-customer.ts:185-237 | Stripe is called exactly when there is something to send; its failure propagates and writes nothing locally; the local row changes only when exactly one user has the customer id, and no other row ever changes |
| `CustomerData.Pick` | src/pages/api/stripe/customer-data.ts:66-73 | `a || b || … || null`: the result is null exactly when every candidate is falsy, and otherwise the first truthy candidate, never '' |
| `CustomerData.PickStep` | src/pages/api/stripe/customer-data.ts:66-73 | a truthy first candidate wins; a falsy one hands over to the rest |
| `CustomerData.Profile` | src/pages/api/stripe/customer-data.ts:58-73 | `profile?.<column>`: the profile's row, or all columns undefined without one |
| `CustomerData.StripeAddress` | src/pages/api/stripe/customer-data.ts:70-74 | `customerData.address?.<field>`: the Stripe address, or all fields undefined without one |
| `CustomerData.StripeWins` | src/pages/api/stripe/customer-data.ts:64-76 | Stripe's truthy name, phone and e-mail win; otherwise the profile's values, the token's e-mail last; the country is never empty |
| `CustomerData.CountryFallback` | src/pages/api/stripe/customer-data.ts:74 | the country is Stripe's, else the profile's, else 'ES' |
| `CustomerData.Respond` | src/pages/api/stripe/customer-data.ts:21-95 | a missing or non-Bearer header gives 401 'No autorizado', a bad token 401 'Sesión no válida', a failed link 500, a failed retrieval 500; 200 exactly when all succeed, with the merged data of the linked customer and the caller's profile and the no-cache headers |
| `CustomerData.Get` | src/pages/api/stripe/customer-data.ts:21-56 | authentication failure changes nothing; otherwise the link is made for the caller's own id and the response follows from it; a shown customer is the one already linked to the caller or the one just created from its row; an authenticated caller gets 200 exactly when it has a row and an active linked customer or a successful create |
| `ValidateAddress.LabelExamples` | src/pages/api/google/validate-address.ts:109-115 | the example codes the rule labels quote (28001, 1000-001, SW1A 1AA, 1234 AB) match their patterns, a lower-case British code without the space matches too, and codes with a missing digit or a doubled separator do not |
| `ValidateAddress.Line1Errors` | src/pages/api/google/validate-address.ts:91-95 | 'required' exactly when the first line is blank once trimmed, 'too short' exactly when it is not blank but under 5 characters trimmed; nothing else |
| `ValidateAddress.CityErrors` | src/pages/api/google/validate-address.ts:97-99 | 'required' exactly when the city is blank |
| `ValidateAddress.PostalErrors` | src/pages/api/google/validate-address.ts:101-125 | 'required' exactly when the code is blank; otherwise, for a country of the table (the given one, else ES), the trimmed code that fails its pattern gives 'invalid for <label>'; nothing else |
| `ValidateAddress.LengthErrors` | src/pages/api/google/validate-address.ts:136-141 | a first line over 200 or a city over 100 characters, untrimmed, is reported, each exactly then |
| `ValidateAddress.ValidIff` | src/pages/api/google/validate-address.ts:86-148 | the address is valid exactly when the first line has 5 to 200 characters trimmed and untrimmed, the city is present and at most 100, and the postal code is present and fits its country's pattern |
| `ValidateAddress.InAllErrors` | src/pages/api/google/validate-address.ts:86-148 | an error is reported exactly when one of the four checks reports it |
| `ValidateAddress.Line1Reported` | src/pages/api/google/validate-address.ts:91-95 | in the whole report, each first-line error appears exactly when its condition holds |
| `ValidateAddress.RequiredErrors` | src/pages/api/google/validate-address.ts:97-102 | in the whole report, the city and the postal code are reported missing exactly when blank |
| `ValidateAddress.PostalAndLengthErrors` | src/pages/api/google/validate-address.ts:121-141 | a code that fails its country's pattern is reported with that country's label, and only then; the two length errors appear exactly when their limits are passed |
| `ValidateAddress.PushFieldErrors` | src/pages/api/google/validate-address.ts:87-125 | the pushes on the first line, city and postal code give those checks' errors, in that order; a non-blank code whose country key is one that every object inherits from `Object.prototype` (`constructor`, `toString`, `__proto__`, …) makes the pattern lookup throw, and only then |
| `ValidateAddress.PushWarnings` | src/pages/api/google/validate-address.ts:127-133 | a warning for a blank country and one for a blank state, each exactly then, at most two, the country's first |
| `ValidateAddress.PushLengthErrors` | src/pages/api/google/validate-address.ts:135-141 | the length errors are pushed after the earlier ones |
| `ValidateAddress.ValidateAddressLocally` | src/pages/api/google/validate-address.ts:86-148 | the check throws exactly when the postal lookup does; otherwise the errors are exactly those of the four checks in order, `isValid` exactly when there are none, and the warnings as above |
| `ValidateAddress.CompleteSpanishAddress` | src/pages/api/google/validate-address.ts:86-148 | a Madrid address with code 28001 and a trimmed street of 5 to 200 characters has no error |
| `ValidateAddress.ValidateAddressRoute` | src/pages/api/google/validate-address.ts:38-83 | a Bearer token that does not resolve gives 401 and no header at all lets the validation run; a body that is not JSON gives 500, and so does a postal lookup under an inherited key, whose throw reaches the same catch; Google's verdict is used only when the local validation passes, a key is configured and Google answers, always with 200; otherwise the local errors are returned with 200 exactly when there are none, else 422 |
| `Email.ReplaceChar` | src/lib/email.ts:13-17 | a text without the character is returned unchanged |
| `Email.ReplaceCharAppend` | src/lib/email.ts:13-17 | a global replace of one character works piece by piece on a concatenation |
| `Email.Entity` | src/lib/email.ts:13-17 | a special character becomes an entity from `&` to `;`, every other character stays; no entity holds < > " or ' |
| `Email.EscapeEach` | src/lib/email.ts:11-18 | the character-by-character escaping is never shorter than its input and holds none of < > " ' |
| `Email.EscapeHtmlAppend` | src/lib/email.ts:11-18 | `escapeHtml` of a concatenation is the concatenation of the escaped pieces |
| `Email.EscapeHtmlChar` | src/lib/email.ts:11-18 | the five chained replaces turn one character into its own entity, escaped exactly once |
| `Email.EscapeHtmlIsEach` | src/lib/email.ts:11-18 | because `&` is replaced first, the chain equals escaping each character once: no entity is escaped twice |
| `Email.EscapedIsSafe` | src/lib/email.ts:10-18 | no escaped text holds < > " or ', so user text cannot open a tag or close an attribute |
| `Email.UnescapeEntity` | src/lib/email.ts:11-18 | reading back an entity, or a plain character, gives the character |
| `Email.EscapeHtmlRoundTrip` | src/lib/email.ts:11-18 | escaping loses nothing: reading the escaped text back gives the original |
| `Email.EscapeEachRoundTrip` | src/lib/email.ts:11-18 | the same for the reference escaping |
| `Email.OrderNumber` | src/lib/email.ts:135 | `orderId.slice(0, 8).toUpperCase()`: at most 8 characters, each the upper case of the id's character at its place |
| `Email.OrderNumberPrefix` | src/lib/email.ts:135 | ids with the same first eight characters, up to case, show the same order number |
| `Email.ItemRow` | src/lib/email.ts:120-127 | an item row has four cells, the first the escaped name |
| `Email.ItemParts` | src/lib/email.ts:120-127 | four cells per item and only item cells |
| `Email.ItemPartsAppend` | src/lib/email.ts:120-127 | the rows of two runs of items are the rows of each, in order |
| `Email.ItemPartsAt` | src/lib/email.ts:120-127 | the k-th item's row sits after the 4k cells of the items before it |
| `Email.DiscountParts` | src/lib/email.ts:155-160 | the discount row appears exactly when the discount is given and non-zero, showing it |
| `Email.AddressParts` | src/lib/email.ts:172-175 | the address block appears exactly when the address is non-empty, escaped |
| `Email.ConfirmationHead` | src/lib/email.ts:131-135 | the escaped greeting, then the order number |
| `Email.Totals` | src/lib/email.ts:150-168 | only amounts; the discount among them exactly when it is non-zero |
| `Email.OrderConfirmation` | src/lib/email.ts:119-201 | the mail goes to the buyer with no reply-to, the subject 'Pedido confirmado #' and the order number, and the head, item rows, totals and address in document order |
| `Email.OrderConfirmationDiscountRow` | src/lib/email.ts:155-160 | in the whole confirmation, the discount row is there exactly when the discount is non-zero |
| `Email.OrderConfirmationAddressBlock` | src/lib/email.ts:172-175 | in the whole confirmation, some address part is there exactly when an address is given |
| `Email.OrderNumberInSubjectAndBody` | src/lib/email.ts:135 | the order number in the subject is the one in the body |
| `Email.Welcome` | src/lib/email.ts:204-263 | the subject 'Bienvenido a Benice' and the escaped name; every inserted text escaped |
| `Email.ShippingNotification` | src/lib/email.ts:266-306 | the subject carries the order number; the name, tracking number and carrier go in escaped |
| `Email.NewsletterWelcome` | src/lib/email.ts:309-344 | the code goes in as it is, the only inserted text |
| `Email.OrderCancellation` | src/lib/email.ts:347-379 | the subject 'Pedido #<number> cancelado'; the escaped name and the order number |
| `Email.DeliveryConfirmation` | src/lib/email.ts:382-414 | the subject 'Pedido #<number> entregado'; the escaped name and the order number |
| `Email.CancellationRejected` | src/lib/email.ts:417-452 | the subject carries the order number; the reason block is there exactly when notes are given, escaped |
| `Email.CancellationRejectedEscaped` | src/lib/email.ts:417-452 | the name and the notes reach the message escaped |
| `Email.ContactMail` | src/lib/email.ts:455-516 | to the support address, replying to a non-empty sender address; the subject is '[Contacto] ' and the escaped subject; the parts are the contact layout filled with the escaped fields and the URI-encoded subject |
| `Email.ContactParts` | src/lib/email.ts:468-502 | name, address, the phone row exactly when a phone is given, subject, message, then the reply link's address and subject as the last part; only the last part is a reply subject |
| `Email.ContactMailEscaped` | src/lib/email.ts:462-498 | every field of the contact form reaches the message escaped, and the reply link's subject URI-encoded |
| `Email.ContactLayoutEscaped` | src/lib/email.ts:468-502 | whatever escaped texts fill the contact layout, the message is escaped |
| `Email.ContactLayoutEncoded` | src/lib/email.ts:498 | an encoded reply subject makes the layout's only reply part encoded |
| `Email.Utf8` | src/lib/email.ts:498 | the UTF-8 encoding of a character, as `encodeURIComponent` uses: one to four bytes, a single byte exactly for code points below 128, continuation bytes in 0x80-0xBF |
| `Email.EncodeUriComponent` | src/lib/email.ts:498 | `encodeURIComponent`: the output holds only unreserved characters and '%' |
| `Email.EncodedIsSafe` | src/lib/email.ts:498 | an encoded subject holds none of < > " & space ? = #, so it cannot leave the `href` attribute or the mailto query |
| `Email.EncodeUnreserved` | src/lib/email.ts:498 | text of unreserved characters only is left as it is |
| `Email.EncodeAppend` | src/lib/email.ts:498 | encoding distributes over concatenation |
| `Email.PercentsDecode` | src/lib/email.ts:498 | reading back a run of %XY escapes gives the bytes they encode |
| `Email.DecodeEscape` | src/lib/email.ts:498 | one %XY escape reads back as its byte |
| `Email.EncodeDecode` | src/lib/email.ts:498 | decoding the encoded subject gives back its UTF-8 bytes: the encoding loses nothing |
| `Email.Send` | src/lib/email.ts:49-68 | the mail API's error is thrown and caught by the sender: the caller gets `success` exactly when the API accepted the mail, and never an exception |
| `ProcessOrder.Meta` | src/lib/process-order.ts:44-46 | `session.metadata?.<key> \|\| null`: present exactly when the key holds a non-empty text, and then that text |
| `ProcessOrder.DiscountCents` | src/lib/process-order.ts:144-147 | a missing, unparseable or non-positive percentage records 0; exactly 100 divides by zero and yields no finite amount; a percentage p strictly between 0 and 100 records D·p/(100−p) cents rounded to the nearest cent, halves up, which is non-negative for a non-negative subtotal D |
| `ProcessOrder.DiscountRecoversPromotion` | src/lib/process-order.ts:144-147 | when the paid subtotal is the undiscounted one reduced by p percent, the recorded discount is exactly the amount the promotion took off |
| `ProcessOrder.FirstUserByEmail` | src/lib/process-order.ts:51-58 | the first user with the e-mail, or none when no user has it |
| `ProcessOrder.ResolveUser` | src/lib/process-order.ts:44-76 | the metadata's user id wins; without it and without an e-mail nothing resolves; otherwise the first user holding the e-mail (the `.limit(1)` row), else the guest just inserted, else nothing |
| `ProcessOrder.ResolvedId` | src/lib/process-order.ts:78-81 | an unresolved or empty id stops the reconciliation |
| `ProcessOrder.Quantity` | src/lib/process-order.ts:94 | `item.quantity \|\| 1` is never 0 |
| `ProcessOrder.ItemName` | src/lib/process-order.ts:121 | `item.description \|\| 'Producto'` is never empty |
| `ProcessOrder.ProductsNamed` | src/lib/process-order.ts:108-112 | exactly the products with that name |
| `ProcessOrder.ItemProductId` | src/lib/process-order.ts:99-114 | the Stripe product's metadata id wins; otherwise a row exactly when the line has a description, exactly one product bears it and its id is non-empty, and then it is that product's id; never '' |
| `ProcessOrder.ResolvedItems` | src/lib/process-order.ts:91-126 | at most one order item per line, each with a non-zero quantity, a name and a product id |
| `ProcessOrder.ResolvedItemsEmptyIff` | src/lib/process-order.ts:128-141 | nothing reaches the order exactly when every line is the shipping line or has no product |
| `ProcessOrder.ResolvedItemsCount` | src/lib/process-order.ts:116-125 | one order item for every line whose product resolves: none is dropped |
| `ProcessOrder.SubtotalIgnoresShipping` | src/lib/process-order.ts:92-97 | the shipping line adds nothing to the discounted subtotal |
| `ProcessOrder.CollectLineItems` | src/lib/process-order.ts:88-126 | the loop yields the resolved items and the subtotal of every non-shipping line, including the lines later dropped |
| `ProcessOrder.FindOrderBySession` | src/lib/process-order.ts:25-33 | none exactly when no order carries the session; otherwise the id of an order that carries it |
| `ProcessOrder.Stamp` | src/lib/process-order.ts:184-190 | the order with the id gets the session and the payment intent; every other order is unchanged |
| `ProcessOrder.StampedIsFound` | src/lib/process-order.ts:184-190 | after stamping a new order, the idempotency lookup finds it |
| `ProcessOrder.Refund` | src/lib/process-order.ts:131-139 | a refund is recorded only for a non-empty payment intent and a refund call that succeeds; a failing one is swallowed |
| `ProcessOrder.Linked` | src/lib/process-order.ts:155-190 | one order is added; when the stamping update succeeds the lookup finds it, and otherwise the next call will not |
| `ProcessOrder.ShownDiscount` | src/lib/process-order.ts:234 | the e-mail shows the discount only when it is positive |
| `ProcessOrder.RecordOrder` | src/lib/process-order.ts:183-256 | after a successful RPC the order is added and possibly stamped; an invoice is added under a fresh number when its insert succeeds; a promo use, the confirmation e-mail and the customer sync are recorded exactly when they apply and succeed; users, refunds and products are untouched |
| `ProcessOrder.AddInvoice` | src/lib/process-order.ts:192-208 | a failing insert adds nothing; otherwise one invoice for the order, its user and total under a number no invoice has, or the timestamp fallback |
| `ProcessOrder.CreateOrder` | src/lib/process-order.ts:43-259 | for a paid session without an order: the returned id is the outcome function's; the only new user is the guest; a refund exactly when due; a new order carries the resolved user, items, total, promotion, discount and shipping |
| `ProcessOrder.EnsureOrder` | src/lib/process-order.ts:23-260 | idempotent: an order already stamped with the session is returned and nothing changes; an unpaid session changes nothing; a refund exactly when a paid session's items or RPC fail; a failure leaves no order, no e-mail and no customer sync; a new order belongs to the resolved user with the resolved items and gets one invoice; stamping makes the next call find it |
| `ProcessOrder.ReconcileTwice` | src/lib/process-order.ts:4-33 | the webhook and the success page reconciling the same session create one order: the second call returns the first's id |
| `ProcessOrder.InvoiceNumbers` | src/lib/process-order.ts:267-272 | the stored numbers, in order |
| `ProcessOrder.LexLeTotal` | src/lib/process-order.ts:271 | the text order the query sorts by is total |
| `ProcessOrder.MaxLex` | src/lib/process-order.ts:267-276 | the first row of the descending query is a stored number no smaller than any other |
| `ProcessOrder.WithPrefix` | src/lib/process-order.ts:270 | `LIKE 'FAC-<year>-%'` keeps exactly the numbers with that prefix |
| `ProcessOrder.TrailingDigits` | src/lib/process-order.ts:277 | `/(\d+)$/`: the longest run of digits ending the text |
| `ProcessOrder.InvoiceSequence` | src/lib/process-order.ts:274-281 | the sequence starts at 1, or one past the trailing number of the year's greatest invoice number |
| `ProcessOrder.GenerateInvoiceNumber` | src/lib/process-order.ts:262-297 | a number other than the fallback is a candidate of one of the five attempts, not yet stored, and every earlier attempt's candidate was taken; the fallback `FAC-<year>-T<ms>` only when all five are taken |
| `ProcessOrder.TryCandidates` | src/lib/process-order.ts:266-296 | the same for the five attempts from a given sequence number |
| `ProcessOrder.CandidateIsNotFallback` | src/lib/process-order.ts:283-296 | a candidate never equals the fallback: a digit follows the year prefix in one and a 'T' in the other |
| `ProcessOrder.CandidateRoundTrip` | src/lib/process-order.ts:277-283 | the number written into a candidate is the one the trailing-digit parse reads back |
| `ProcessOrder.PaddedValue` | src/lib/process-order.ts:283 | `padStart(6, '0')` keeps the value |
| `ProcessOrder.NextSequenceAfterCandidate` | src/lib/process-order.ts:274-283 | with one invoice of the year on file, the next sequence continues after it |
| `ProcessReturn.AllowedTransitions` | src/pages/api/admin/process-return.ts:59-80 | every allowed next state is a valid status other than the current one; the two final states allow none |
| `ProcessReturn.StateMachine` | src/pages/api/admin/process-return.ts:59-86 | a rejected or completed return cannot change; 'completada' is entered only from 'aprobada'; the four listed transitions pass and skipping a state does not |
| `ProcessReturn.CreditTotal` | src/pages/api/admin/process-return.ts:132 | `-Math.abs(refund)`: never positive, the refund up to sign, and negative exactly when the refund is not zero |
| `ProcessReturn.Credit` | src/pages/api/admin/process-return.ts:131-147 | the credit invoice: the return's order, the order's user else the return's user, type 'abono', the negated refund as total, the total without VAT as subtotal and the difference as tax |
| `ProcessReturn.NetOfTax` | src/pages/api/admin/process-return.ts:133 | `+(total / 1.21).toFixed(2)` in cents: the nearest cent to 100/121 of the total |
| `ProcessReturn.CreditAmounts` | src/pages/api/admin/process-return.ts:131-134 | subtotal and tax add up to the total, neither is positive, and the subtotal is strictly within half a cent of total/1.21 |
| `ProcessReturn.ProcessReturn` | src/pages/api/admin/process-return.ts:18-179 | 401/403 without an admin; a body that is not JSON 500; 400 for missing fields or an unknown status, 404 for an unknown return, and then 400 for a forbidden transition, a bad amount or a completion without a positive refund, each with nothing written (every request that passes the lookup but is not `Accepted` gets 400); a credit invoice (`Credit`: type 'abono', subtotal, tax and the negated refund as total) exactly when a return enters 'completada' (so from 'aprobada') with a positive refund and both writes succeed; the return row changes only on 200, and then as requested |
| `ProcessReturn.RetryAfterFailedUpdate` | src/pages/api/admin/process-return.ts:137-164 | a completion whose status update fails after the invoice insert, retried, leaves two credit invoices for one return |
| `ApproveCancellation.UuidGroups` | src/pages/api/admin/approve-cancellation.ts:55 | the pattern holds for five runs of lengths 8, 4, 4, 4 and 12 joined by hyphens exactly when every run is hexadecimal |
| `ApproveCancellation.UuidIgnoresCase` | src/pages/api/admin/approve-cancellation.ts:55-56 | under the `i` flag an id passes or fails the same in either case |
| `ApproveCancellation.PaymentIntent` | src/pages/api/admin/approve-cancellation.ts:104-124 | the stored intent wins; Stripe's session is consulted only when there is none and a session exists; an empty intent counts as none |
| `ApproveCancellation.Approve` | src/pages/api/admin/approve-cancellation.ts:94-178 | an order no longer 'pagado' or 'enviado' is refused with nothing changed; without an intent 400 and with a failed refund 500, the request left pending and nothing refunded; after a refund 200 whatever the stock restore did, with the refund logged, the order cancelled when the RPC succeeds, the request approved with the refund id when its update succeeds, and the customer told when they have an address |
| `ApproveCancellation.Reject` | src/pages/api/admin/approve-cancellation.ts:179-206 | no order change and no refund; the request becomes 'rechazada' with the notes when its update succeeds; the customer is told when they have an address |
| `ApproveCancellation.ApproveCancellation` | src/pages/api/admin/approve-cancellation.ts:10-215 | the admin check comes before the body, and a body that is not JSON gives 500; bad fields or an id that is not a UUID give 400 and a request not pending, or its order missing, 404, each with nothing changed; a refund happens only on an approval of a cancellable order with a payment intent, and then the answer is 200; the request leaves 'pendiente' only on a 200 |
| `ApproveCancellation.ApproveTwice` | src/pages/api/admin/approve-cancellation.ts:63-75 | approving twice refunds once: the second call finds no pending request and gives 404 |
| `CancelOrder.CancelOrder` | src/pages/api/cancel-order.ts:4-67 | a body that is not JSON gives 500; the order id is checked before the caller (400, then 401); the RPC is called exactly for the caller's own order in 'pagado', and the answer is 200 exactly when it returns no error, else 500 |
| `CancelOrder.Cancelled` | src/pages/api/cancel-order.ts:49-52 | the RPC marks the one order 'cancelado', keeping its owner, and changes no other order |
| `CancelOrder.CancelOnce` | src/pages/api/cancel-order.ts:34-47 | after a successful cancellation the same request is refused with 400 and no second RPC |
| `CancelOrder.OnlyOwner` | src/pages/api/cancel-order.ts:35-47 | nobody cancels another customer's order |
| `UpdateOrderStatus.Updated` | src/pages/api/admin/update-order-status.ts:76-88 | the row gets the new status, and the tracking number only when a truthy one is sent; the other columns keep their values |
| `UpdateOrderStatus.Contact` | src/pages/api/admin/update-order-status.ts:93-105 | the user row's e-mail and name ('Cliente' by default) win; a guest order falls back to the Stripe session's details; a failed retrieval leaves no address |
| `UpdateOrderStatus.StatusMail` | src/pages/api/admin/update-order-status.ts:108-124 | a mail exactly for 'enviado' (the shipping notice, 'Correos Express' by default) and 'entregado' (the delivery notice) |
| `UpdateOrderStatus.UpdateOrderStatus` | src/pages/api/admin/update-order-status.ts:10-141 | a body that is not JSON gives 500; the body is validated before the caller; 'enviado' without a tracking number 400 and an unknown order 404, each with nothing changed; 200 exactly when every guard and the update pass, and then only the one order changes, and at most one mail is logged, to the user row's address or the guest's Stripe address, a failed mail not changing the answer |
| `Reviews.SortOrdering` | src/pages/api/reviews.ts:44-56 | 'helpful' orders by helpful count descending, 'highest' by rating descending, 'lowest' by rating ascending, anything else newest first; only a rating order is ascending |
| `Reviews.RatingFilter` | src/pages/api/reviews.ts:20 | the rating filter is applied exactly when `parseInt(rating \|\| '0')` is a positive integer, and then filters on that value |
| `Reviews.BuildQuery` | src/pages/api/reviews.ts:18-56 | a missing or empty productId is the 400; otherwise the query is on that product, with the rating filter and the ordering of the `sort` parameter defaulted to 'recent' |
| `Reviews.DefaultQuery` | src/pages/api/reviews.ts:19-20 | without `sort` and `rating` parameters the query has no rating filter and is newest first |
| `Reviews.FilterOnRating` | src/pages/api/reviews.ts:40-42 | a positive rating parameter filters on exactly that rating |
| `Reviews.StatsOrDefault` | src/pages/api/reviews.ts:71 | missing statistics are replaced by an average of 0, a total of 0 and five zero buckets; present ones are returned unchanged |
| `Reviews.ParseRating` | src/pages/api/reviews.ts:114-128 | a rating is accepted exactly when it is present, non-empty and parses to an integer from 1 to 5, and the accepted value is in 1..5 |
| `Reviews.RatingRoundTrip` | src/pages/api/reviews.ts:122-128 | each of the star counts 1 to 5 written out is accepted as itself; 0 and anything above 5 are refused |
| `Reviews.DisplayName` | src/pages/api/reviews.ts:144 | the reviewer's name is never empty: the full name when set, else the e-mail's local part when non-empty, else 'Usuario'; a name containing '@' can only be the full name |
| `Reviews.DisplayNameOfEmail` | src/pages/api/reviews.ts:144 | a user without a full name is named by the part of the e-mail before the '@' |
| `Reviews.ValidatePost` | src/pages/api/reviews.ts:114-135 | the body passes exactly when the product id is present, the rating is accepted and a non-empty comment has at most 1000 characters; the result is the parsed rating |
| `Reviews.ReviewTable.constructor` | src/pages/api/reviews.ts:183-193 | an empty review table keeps the one-review-per-(product, user) invariant |
| `Reviews.ReviewTable.FindExisting` | src/pages/api/reviews.ts:147-152 | the lookup returns a row of this user for this product, or None only when there is no such row |
| `Reviews.ReviewTable.Rewrite` | src/pages/api/reviews.ts:156-166 | the update replaces rating, comment and author name of one row, keeps every other row and keeps the invariant |
| `Reviews.ReviewTable.Add` | src/pages/api/reviews.ts:183-193 | the insert puts the review under a fresh id, changes no other row and keeps one review per (product, user) |
| `Reviews.ReviewTable.Post` | src/pages/api/reviews.ts:87-213 | 401 without a valid session, 500 for a body that is not JSON, 400 for an invalid body, 500 for a failed write, all leaving the table unchanged; 200 rewrites the user's existing review of the product in place and 201 adds a new one under a fresh id with helpful count 0 |
| `Reviews.ReviewTable.Delete` | src/pages/api/reviews.ts:216-297 | 401 without a valid session, 400 without an id, 404 for an unknown review, 403 for someone who is neither the author nor an admin, all unchanged; 200 removes exactly that review |
| `Reviews.PostTwice` | src/pages/api/reviews.ts:147-180 | a second successful post by the same user for the same product after a creating one updates that review rather than adding a second one |
| `CreateOrder.Quantity` | src/pages/api/create-order.ts:64 | the quantity is always in 1..99: a parsed value in range is kept, a larger one becomes 99, and a missing, unparseable, zero or negative one becomes 1 |
| `CreateOrder.QuantityOfNat` | src/pages/api/create-order.ts:64 | a written natural number n becomes 1 for 0, 99 above 99, and n otherwise |
| `CreateOrder.VerifiedLine` | src/pages/api/create-order.ts:56-71 | a cart line is accepted exactly when its `product_id \|\| id` names a catalogue product with stock for the clamped quantity, and then it carries the catalogue's id, name and effective price, never the client's |
| `CreateOrder.CollectedAll` | src/pages/api/create-order.ts:56-72 | collecting the checked lines succeeds exactly when every line passes, and then keeps each line's value at its place |
| `CreateOrder.VerifyItems` | src/pages/api/create-order.ts:56-72 | an accepted cart has one verified line per cart line |
| `CreateOrder.VerifyItemsAll` | src/pages/api/create-order.ts:56-72 | the cart is accepted exactly when every line is, and each verified line is that line's check |
| `CreateOrder.CollectItems` | src/pages/api/create-order.ts:55-72 | the loop over the cart returns the verified lines, or stops with None at the first line that fails |
| `CreateOrder.DiscountBounded` | src/pages/api/create-order.ts:92 | for a non-negative subtotal and a percentage in 0..100 the rounded discount lies between nothing and the whole subtotal, and is exactly those at 0 and 100 |
| `CreateOrder.AppliedPromo` | src/pages/api/create-order.ts:80-96 | a promo applies exactly when the code is a non-empty string whose upper-cased, trimmed form names an active code that is neither expired nor used up, and it is that stored code |
| `CreateOrder.NewOrder` | src/pages/api/create-order.ts:75-110 | the order recorded is the token's user's, holds the verified lines, and its total is the catalogue subtotal less the discount, which is the promo's rounded percentage or 0 without a promo |
| `CreateOrder.CountUse` | src/pages/api/create-order.ts:117-119 | counting a use raises that code's uses by one (from 0 when unset) and changes no other code |
| `CreateOrder.ConfirmationFor` | src/pages/api/create-order.ts:121-140 | the confirmation goes to the given address and shows the subtotal, the recorded order's total and its discount only when positive |
| `CreateOrder.Record` | src/pages/api/create-order.ts:98-152 | a failed RPC is the 500 with nothing stored; otherwise the order is appended, the promo use is counted only for an applied code whose increment succeeds, and one confirmation is logged only for a non-empty token address whose send succeeds; the RPC takes each line's quantity off its product's stock, and a failed RPC leaves the catalogue alone |
| `CreateOrder.ReduceStock` | src/pages/api/create-order.ts:101-108 | the stock decrement of `create_order_and_reduce_stock`: no product is added or removed |
| `CreateOrder.ReduceStockSpec` | src/pages/api/create-order.ts:101-108 | after it every product keeps all its fields except its stock, which drops by exactly the total quantity the order's lines ask of it |
| `CreateOrder.CreateOrder` | src/pages/api/create-order.ts:5-160 | a body that is not JSON is the 500, a missing or invalid token the 401, a cart that is not 1..50 lines or has a failing line the 400, all with nothing stored; 200 exactly when all pass and the RPC returns an id, and then the order is the token's user's with catalogue prices and the ordered quantities are taken off the stock; promo uses and mails change only on success |
| `CheckoutSession.ClampAsWritten` | src/pages/api/stripe/create-checkout-session.ts:73 | the clamp as written yields NaN exactly for a quantity that converts to NaN, and otherwise a value in 1..99 |
| `CheckoutSession.NotANumberSkipsStockCheck` | src/pages/api/stripe/create-checkout-session.ts:73-75 | a non-numeric quantity for a product with no stock passes the stock comparison and one unit of it is billed |
| `CheckoutSession.Clamp` | src/pages/api/stripe/create-checkout-session.ts:73 | the corrected quantity is always in 1..99: a floor in range is kept, a larger one becomes 99, and a falsy, non-numeric or sub-1 value becomes 1 |
| `CheckoutSession.ClampAgrees` | src/pages/api/stripe/create-checkout-session.ts:73-75 | away from NaN the corrected clamp equals the written one; it is always the quantity billed, and the stock comparison on it passes exactly when the stock covers it |
| `CheckoutSession.NormalisedIdempotent` | src/pages/api/stripe/create-checkout-session.ts:73-74 | normalising a line twice is normalising it once |
| `CheckoutSession.NormaliseCart` | src/pages/api/stripe/create-checkout-session.ts:64-81 | the loop succeeds exactly when every line names a known product whose stock covers its clamped quantity, and then every line of the array holds its normalised quantity |
| `CheckoutSession.PromoDiscount` | src/pages/api/stripe/create-checkout-session.ts:83-110 | no code gives 0 percent; a truthy non-string code is a 500; an unknown or inactive code gives 0; an expired or used-up active code is a 400; a usable one gives its percentage |
| `CheckoutSession.AgreesWithValidation` | src/pages/api/stripe/create-checkout-session.ts:83-110 | for a string code, checkout gives the percentage the promo validation route reports as valid, refuses with 400 exactly the codes that route calls expired or exhausted, and ignores a code that route calls not valid |
| `CheckoutSession.UnitAmount` | src/pages/api/stripe/create-checkout-session.ts:115-132 | a non-positive percentage leaves the unit price as it is; a positive one gives the discounted price rounded to the nearest cent |
| `CheckoutSession.UnitAmountBounded` | src/pages/api/stripe/create-checkout-session.ts:118-132 | for a non-negative price and a percentage in 0..100 the billed unit amount is between 0 and the catalogue price, and 0 at 100 percent |
| `CheckoutSession.ProductLines` | src/pages/api/stripe/create-checkout-session.ts:113-136 | one line item per cart line, in cart order, each priced from the catalogue product with the clamped quantity |
| `CheckoutSession.AllLines` | src/pages/api/stripe/create-checkout-session.ts:138-157 | the product lines come first, and one 4.99 shipping line follows exactly when the undiscounted subtotal is under the 49 euro threshold |
| `CheckoutSession.ShippingIgnoresDiscount` | src/pages/api/stripe/create-checkout-session.ts:138-146 | whether shipping is charged does not depend on the discount |
| `CheckoutSession.LinesWithinStock` | src/pages/api/stripe/create-checkout-session.ts:64-81 | on a cart that passed the stock checks every billed quantity is between 1 and the product's stock |
| `CheckoutSession.Metadata` | src/pages/api/stripe/create-checkout-session.ts:169-173 | the metadata has exactly the keys user_id, promo_code and discount_percent, the last one the percentage written as a decimal string |
| `CheckoutSession.MetadataReadBack` | src/pages/api/stripe/create-checkout-session.ts:169-173 | order reconciliation reads back the same user, the code as typed, and the same percentage; an absent user or code reads back as absent |
| `CheckoutSession.Customer` | src/pages/api/stripe/create-checkout-session.ts:23-45 | never both a customer and an e-mail; none for an anonymous caller; the linked customer when get-or-create succeeds; else the profile's non-empty e-mail |
| `CheckoutSession.Finish` | src/pages/api/stripe/create-checkout-session.ts:83-204 | 200 exactly when the promo is not refused and Stripe creates the session, and then the session is built from all the lines, the metadata and the customer fields; a refused promo answers with its status |
| `CheckoutSession.CreateCheckoutSession` | src/pages/api/stripe/create-checkout-session.ts:11-213 | a body that is not JSON is a 500; an empty or missing cart a 400; a failed product query a 500 with the cart untouched; a failing line a 400, each line then normalised or as it was; otherwise every line is normalised in place and the answer is that of the rest of the route on the normalised cart |
| `CheckoutSession.SessionLinesSound` | src/pages/api/stripe/create-checkout-session.ts:113-136 | in a created session every product line bills no more than the stock and a unit amount between 0 and the catalogue price |
| `SendCampaign.GenerateCampaignCode` | src/pages/api/admin/send-campaign.ts:8-16 | the code is 'PROMO' followed by six characters, the i-th being the alphabet character at byte i modulo 36, so it is of the campaign shape |
| `SendCampaign.CodesEqualIff` | src/pages/api/admin/send-campaign.ts:8-16 | two generated codes are equal exactly when their random bytes agree modulo 36 |
| `SendCampaign.CampaignCodeUpper` | src/pages/api/admin/send-campaign.ts:9-14 | a campaign code is its own upper-case form |
| `SendCampaign.ParseMode` | src/pages/api/admin/send-campaign.ts:59-64 | the mode is 'new' exactly for the string 'new' and 'existing' exactly for the string 'existing' |
| `SendCampaign.SendCampaign` | src/pages/api/admin/send-campaign.ts:18-148 | a non-admin gets the admin check's status, a non-JSON body 500, no recipients or an unknown mode 400, a new-mode discount outside 1..100 400, all with the promo table unchanged; with no campaign code taken and a successful insert the new mode answers 200; it inserts a fresh campaign code capped at the number of recipients and valid thirty days; the existing mode uses the active code exactly as given; a batch goes out, with the default subject if none, exactly on 200 |
| `SendCampaign.SendCampaignAsWritten` | src/pages/api/admin/send-campaign.ts:3-148 | the route as written never answers 200: the batch call throws into the 500 answer, and a new-mode request with a free code and a successful insert gets that 500 with its campaign code left inserted |
| `SendCampaign.CampaignCodeLifetime` | src/pages/api/admin/send-campaign.ts:81-88 | a freshly inserted campaign code validates in any letter case until thirty days after its creation and not after, and no longer once every recipient has used it |
| `Products.Collapse` | src/pages/api/admin/products.ts:88 | after replacing each run outside [a-z0-9] by '-', only [a-z0-9-] remain, with no two dashes in a row; a leading [a-z0-9] character is kept and only the empty string collapses to empty |
| `Products.TrimDashes` | src/pages/api/admin/products.ts:89 | removing the edge dashes of a collapsed string leaves a well-formed slug |
| `Products.Slug` | src/pages/api/admin/products.ts:83-90 | a derived slug is always well formed: only [a-z0-9-], no '--', no dash at either end |
| `Products.CollapseOfClean` | src/pages/api/admin/products.ts:88 | a string of [a-z0-9-] without '--' collapses to itself |
| `Products.SlugOfSlug` | src/pages/api/admin/products.ts:83-90 | a well-formed slug is its own slug |
| `Products.SlugIdempotent` | src/pages/api/admin/products.ts:83-90 | deriving a slug twice gives the same result as deriving it once |
| `Products.StockOrZero` | src/pages/api/admin/products.ts:98 | the stock is parseInt of the value's string form (a JSON number included) when that parses, else 0 |
| `Products.StockOfNumber` | src/pages/api/admin/products.ts:98 | a stock sent as the JSON number n, or as its decimal text, is stored as n |
| `Products.NewRow` | src/pages/api/admin/products.ts:94-108 | the inserted row has exactly the thirteen product columns, and the settled slug |
| `Products.NewRowRequired` | src/pages/api/admin/products.ts:95-106 | name, animal type and category are copied, the price parsed, the stock parsed from its string form (a JSON number included) with 0 as fallback, and the sale price is set exactly when it is truthy |
| `Products.NewRowDefaults` | src/pages/api/admin/products.ts:96-105 | each defaulted column holds the body's value when it is truthy and its default ('', [], 'mediano', 'adulto', false) otherwise |
| `Products.UpdateData` | src/pages/api/admin/products.ts:147-161 | the update holds exactly the columns the body defines, never the id, each converted as the route does, and a falsy sale price is written as null |
| `Products.UpdateKeepsOthers` | src/pages/api/admin/products.ts:147-168 | a column the body does not define keeps its value after the update |
| `Products.Get` | src/pages/api/admin/products.ts:24-58 | a failed query is a 500; with an id, 200 exactly for a stored id, returning that row; without one, the whole listing |
| `Products.Post` | src/pages/api/admin/products.ts:61-125 | 401 for a non-admin, 500 for a body that is not JSON, 400 without name, price, animal type and category; 201 exactly when these pass, a slug can be settled and the insert succeeds, and then exactly the new row is added; otherwise the table is unchanged |
| `Products.PostSlugShape` | src/pages/api/admin/products.ts:83-90 | a product created without a slug gets a well-formed one |
| `Products.Put` | src/pages/api/admin/products.ts:128-183 | 401 for a non-admin, 500 for a body that is not JSON, 400 without an id; 200 exactly for a stored id whose update succeeds, which then changes only that row, by the update's columns; otherwise the table is unchanged |
| `Products.Delete` | src/pages/api/admin/products.ts:186-223 | 401 for a non-admin, 400 without an id; 200 exactly when the delete succeeds, and then only that id is removed; otherwise the table is unchanged |
| `Common.Or` | src/pages/api/admin/products.ts:96-105 | `a \|\| b` on body values: the first value when it is truthy, else the second |
| `Common.NonEmpty` | src/pages/api/stripe/create-checkout-session.ts:42 | `a \|\| undefined` on an optional string: present exactly when the string is present and not empty, and then unchanged |
| `Common.OrElse` | src/pages/api/reviews.ts:19 | `a \|\| b` on optional strings: the first when it is present and non-empty, else the second |
| `Common.FirstNonEmpty` | src/middleware.ts:34-40 | a chain of `\|\|` ends in the first non-empty candidate, and in the default exactly when no candidate is non-empty |
| `Common.JsString` | src/pages/api/admin/products.ts:98 | `String(v)` of a body value: a string itself, 'undefined' for an absent field, and the rendering of any other JSON value |
| `Common.JsLength` | src/pages/api/contact.ts:19 | `v.length` of a body value: a string's length, an array's length, nothing for an absent field |
| `Common.Trim` | src/pages/api/create-order.ts:84 | `trim()` leaves neither leading nor trailing white space and never lengthens the text |
| `Common.TrimIdempotent` | src/pages/api/create-order.ts:84 | trimming twice is trimming once |
| `Common.ToUpper` | src/pages/api/stripe/create-checkout-session.ts:89 | `toUpperCase()` keeps the length and maps every character by itself |
| `Common.ToUpperIdempotent` | src/pages/api/stripe/create-checkout-session.ts:89 | upper-casing twice is upper-casing once |
| `Common.Take` | src/pages/api/admin/settings.ts:37 | `slice(0, n)` keeps the first n characters, or all of a shorter text |
| `Common.BeforeFirst` | src/pages/api/reviews.ts:144 | `split(c)[0]` is the longest prefix without c, and is followed by c when it is not the whole text |
| `Common.RoundDiv` | src/pages/api/create-order.ts:92 | `Math.round(a / b)` is the integer nearest the quotient, halves rounded upward |
| `Common.ParseIntOfNat` | src/lib/process-order.ts:46 | `parseInt` reads back the decimal text of every natural number |
| `Common.ParseIntOfInt` | src/lib/process-order.ts:46 | `parseInt` reads back what `toString` writes for every integer, negative ones included |

## Left out

- HTTP plumbing is not modelled: status codes are modelled, but response bodies are reduced to the fields the contracts talk about, and error texts are kept only where a route's contract names them.
- Concurrency is left out: the webhook can race the checkout success page for the same session, and exactly-once order creation then rests on a database constraint that is not in this code. Only sequential calls are modelled.
- The internals of Stripe, Supabase, Resend and Google are left out: signature cryptography, the RPCs `create_order_and_reduce_stock`, `cancel_order_and_restore_stock`, `increment_promo_uses` and `generate_invoice_number`, and the HTTP calls themselves. Each is an opaque step that either succeeds or fails with no change.
- `create_order_and_reduce_stock` is modelled in `CreateOrder.Record` after its name and its arguments: the order is recorded and each line's quantity is taken off its product's stock (`CreateOrder.ReduceStock`). Its SQL is not visible, so any guard it has against a stock below zero is not modelled.
- `ProcessOrder.CreateOrder`: the webhook's products carry only an id and a name, so the stock decrement of the same RPC (`src/lib/process-order.ts:155-166`) is not modelled there.
- Floating-point euro arithmetic is replaced by exact integer cents. This covers `toFixed`, the division by 1.21 and by (1 - pct/100), and `Math.round` on euros. Rounding is modelled once, as `Math.round` on cents.
- The invoice's subtotal and tax split (total / 1.21) in `src/lib/process-order.ts:196-205` is left out; the model's invoice keeps the order, user, number and total.
- The Unicode NFD normalisation and diacritic removal of the slug are left out: `Products.Slug` derives the slug from a name whose accents are already stripped.
- Case mapping (`toUpperCase`, `toLowerCase`) is modelled on ASCII letters only.
- `parseInt` is modelled as decimal only; the `0x` prefix that `parseInt` without a radix reads as hexadecimal is not modelled.
- `parseFloat` on prices is not modelled: a product cell says which conversion is applied to the body value, not the number it produces.
- Regular expressions (the e-mail, postal-code, UUID and place-id patterns) are written as explicit character predicates, not a regex engine.
- Database query semantics are not modelled: `ilike` collation, result order and `created_at` ordering. The search results and the listings are taken as given, in the order the query returns them, and the sitemap's in-stock filter is part of that given query.
- `PromoCodes.List` returns the set of stored codes; the order of the listing is not modelled.
- The review statistics RPC is an input of the model.
- The fixed HTML of the e-mail templates (`baseTemplate` and the markup around the dynamic parts) is left out. So are the items table and the shipping-address text of the direct order's confirmation mail; `CreateOrder.ConfirmationFor` keeps the address, the order id and the amounts.
- `SendCampaign.SendCampaign`: `discountPercentage` is taken as an integer (None when falsy). A fractional number such as 12.5, or a numeric string such as "10", which the comparisons at send-campaign.ts:71 coerce and accept and which line 79 then stores as sent, is not representable here.
- `sendCampaignBatch`, used by `src/pages/api/admin/send-campaign.ts:124`, is not defined in `src/lib/email.ts`, so the batch send is not part of this model (see Findings). `SendCampaign.SendCampaign` stops at the batch it hands over, and an exception from the send is not modelled.
- `validateWithGoogle` (`src/pages/api/google/validate-address.ts:151-216`) is an oracle: its request and the parsing of Google's verdict are not modelled.
- A `fetch` that throws in the place-details and autocomplete proxies is not modelled; a failed Google call is modelled by its answer.
- `Date` parsing and `toISOString` are not modelled: times are milliseconds and dates are given in ISO form.
- The settings body's entries are taken as `Object.entries` returns them. The prototype keys of JavaScript objects do not arise.
- The settings route's cookie admin check is a boolean parameter.
- The ids Stripe assigns to new customers and sessions are parameters, taken to be non-empty strings.
- `CreateOrder.CreateOrder`: a failing product query answers 400 in the source, the same as an unknown product. The model has no oracle for that query, so its 400 is reached only through unknown products and short stock.
- `Reviews.ReviewTable.Delete`: review ids are natural numbers. A text id that names no row gets the 404 in the source but cannot be written in the model.
- `Reviews.ReviewTable.Post`: the update and the insert share one success flag, and `updated_at` is not modelled.
- `Products.Put`: a product id that is truthy but not a string (a JSON number) leads to a 500 in the model, while the source would still query by that value.
- `CancelOrder.CancelOrder`: the stock restored by the cancel RPC is not modelled, only the order row.
- `ProcessOrder.ResolvedItems` and `ProcessOrder.CreateOrder`: each item keeps its line total in cents. The unit price sent to the RPC (`src/lib/process-order.ts:95-96`), a floating-point division of the line total by the quantity, is not modelled.
- `ProcessOrder.EnsureOrder`: a throw from the session retrieval (`src/lib/process-order.ts:36`) or from the line-item listing (`src/lib/process-order.ts:84`) is not modelled. The session and its items are inputs. In the source the second throw ends reconciliation without a refund, after a guest user may already have been inserted (`src/lib/process-order.ts:61-70`).
- JavaScript's `.length` and `slice` count UTF-16 code units, while a Dafny `char` is one Unicode scalar value. So a limit or cut is counted in characters here, and a character outside the Basic Multilingual Plane counts once instead of twice. This affects the review comment limit, the contact form's length limits, the profile limits and the search cut. `encodeURIComponent`'s error on a lone surrogate cannot arise either.
- `ProductUtils.CategoryGradient`, `ProductUtils.ParseAnimal` and `ProductUtils.ParseCategory`: the tables are finite maps, so a name such as 'constructor', which a JavaScript object inherits from its prototype, is unknown here.
- `StripeCustomer.SyncCheckout`: the local update's own failure, whose error the source ignores, is not modelled; the update is applied whenever it is made.
- The footer year of the e-mail base template (`src/lib/email.ts:106`) reads the clock and is part of the fixed HTML that is left out.
- The React components, the storage and auth plumbing routes, configuration, and the test-local helpers are outside this model.

## Findings

| source | as written | input that shows it | evidently intended | confidence | as-written member | corrected member |
|---|---|---|---|---|---|---|
| src/pages/api/stripe/create-checkout-session.ts:73-75 | `Math.min(Math.max(Math.floor(item.quantity \|\| 1), 1), 99)` is NaN for a non-numeric quantity; `stock < NaN` is false, so the stock check passes, and the line then bills `NaN \|\| 1` = 1 unit | a cart line `{ id: <a product with stock 0>, quantity: "abc" }` | a non-numeric quantity counts as 1 and is checked against the stock, so the line above gets 400 | not executed | `CheckoutSession.NotANumberSkipsStockCheck` | `CheckoutSession.NormaliseCart` |
| src/pages/api/admin/send-campaign.ts:3 | imports `sendCampaignBatch` from `src/lib/email.ts`, which does not export it; the call at line 124 throws (or the build fails), so the route never answers 200 | an admin request `{ emails: ["a@b.es"], promoCodeMode: "new", discountPercentage: 10 }` with the insert succeeding | the e-mail module exports a batch helper, the campaign is handed to it and the route answers 200 | not executed | `SendCampaign.SendCampaignAsWritten` | `SendCampaign.SendCampaign` |
