# Rental marketplace backend: a Dafny model

This project models the request handlers of a rental marketplace API. Tenants
browse and favourite property listings, complete a three-step onboarding
profile, and then apply for a property. An application opens a mock escrow
hold for one month's rent. The landlord who owns the property approves the
application, which releases the escrow and marks the property rented, or
rejects it, which refunds the escrow. Around this lifecycle sit the role gates
on the bearer-token user, registration and login, messaging between users,
the Pydantic request bounds and enumerations, and the parsing of the
`ALLOWED_ORIGINS` setting.

The database client is replaced by the class `Store.Database`. It holds one
map per table (`users`, `tenants`, `landlords`, `properties`, `applications`,
`transactions`) and one sequence per table read in insertion order
(`favorites`, `messages`), plus the counter `nextId` for generated row ids.
`Database.Valid()` is the invariant every handler keeps:

- every transaction belongs to an existing application of the same tenant and
  property, and its escrow state follows the application's state (submitted
  or under review: held; approved: released; rejected: refunded);
- every application has such a transaction;
- at most one application exists per (tenant, property) pair;
- applications refer to existing tenant and property rows;
- the three property counters are non-negative;
- each tenant's stored `profile_completion` is the score of its own fields;
- no (tenant, property) pair is favourited twice.

Each handler is a method. It takes the already-resolved caller, applies the
role gate first, and then returns a `Result`. The errors carry the HTTP status
and the detail string of the source. The identity provider's answers and the
clock are parameters.

Files, one module each:

| file | module | models |
|---|---|---|
| common.dfy | Common | `Result`, `Option`, HTTP error values, substring test |
| config.dfy | Config | `Settings.cors_origins` |
| models_user.dfy | UserModels | user enums, `UserRegister` bounds, trust-score breakdown |
| models_property.dfy | PropertyModels | property enums, create/update/search bounds |
| tenant_profile.dfy | TenantProfile | `calculate_profile_completion`, the missing-fields checklist, the completion trust score |
| store.dfy | Store | the tables, their invariants, the `Database` class |
| middleware_auth.dfy | AuthGuard | user resolution, role gates, optional user |
| routes_auth.dfy | AuthRoutes | register, login, current profile |
| routes_tenants.dfy | TenantRoutes | tenant profile routes |
| routes_applications.dfy | Applications | application and escrow lifecycle |
| routes_favorites.dfy | FavoriteRoutes | favourites and their counter |
| routes_properties.dfy | PropertyRoutes | search pagination, property CRUD, detail view |
| routes_messages.dfy | MessageRoutes | messages, threads, conversation grouping |

## Model

| member | source | states |
|---|---|---|
| Config.Split | app/config.py:47 | `split(",")` yields one more piece than there are commas, and no piece contains a comma |
| Config.JoinSplit | app/config.py:47 | joining the pieces with commas gives back the input, so splitting loses nothing and keeps the order |
| Config.SplitWithoutComma | app/config.py:47 | a comma-free string splits into itself alone |
| Config.StripBounds | app/config.py:47 | the cut points of `strip()`: everything before and after them is whitespace, and the kept part starts and ends with non-whitespace |
| Config.Strip | app/config.py:47 | `strip()` is no longer than its input, and the result is empty or neither starts nor ends with whitespace |
| Config.StripTrimmed | app/config.py:47 | a string without surrounding whitespace is unchanged by `strip()` |
| Config.CorsOrigins | app/config.py:45-47 | the origin list is non-empty, has one element per comma plus one, element i is the stripped i-th piece, and no element has surrounding whitespace |
| Config.DefaultCorsOrigins | app/config.py:35 | the default `ALLOWED_ORIGINS` yields exactly `["http://localhost:3000"]` |
| Config.SingleOrigin | app/config.py:47 | a comma-free value without surrounding whitespace is the single origin |
| Config.EmptyPiecesKept | app/config.py:47 | two adjacent commas leave an empty origin in place, with the neighbours in input order |
| UserModels.ParseUserType | app/models/user.py:10 | exactly `tenant`, `landlord` and `admin` are accepted, each read as the role of that name |
| UserModels.ParseVerificationStatus | app/models/user.py:11 | exactly `pending`, `approved`, `rejected` and `partial` are accepted, each read as the status of that name |
| UserModels.EnumNamesRoundTrip | app/models/user.py:10-11 | every role and every verification status reads back as itself from its name |
| UserModels.CheckRegistration | app/models/user.py:15-21 | a registration is accepted iff the password has at least 6 characters, the full name at least 2 and the user type is a role name; rejection is a 422 |
| UserModels.DefaultBreakdownIsBase | app/models/user.py:97-106 | the default breakdown totals the base score 50, with every bonus 0 |
| PropertyModels.ParsePropertyType | app/models/property.py:10 | exactly the five property-type names are accepted, each read as that type |
| PropertyModels.ParsePropertyStatus | app/models/property.py:11 | exactly `draft`, `active`, `rented` and `inactive` are accepted, each read as that status |
| PropertyModels.ParseSortOrder | app/models/property.py:65 | exactly `newest`, `price_low` and `price_high` are accepted |
| PropertyModels.DefaultsRespectBounds | app/models/property.py:15-35 | a create request with only the required fields is valid iff those fields are in bounds (title 10..200, rent > 0, location length at least 3, bedrooms 0..20); it defaults to `draft` and one bathroom |
| PropertyModels.ApplyUpdate | app/models/property.py:38-53 | each of the thirteen updatable fields takes the sent value when the body carries it and keeps the stored one when left out; city, state and country are never changed |
| PropertyModels.ValidUpdateKeepsBounds | app/models/property.py:38-53 | a valid update of a valid listing keeps it within the creation bounds, provided it does not send a location, which the update model leaves unchecked |
| PropertyModels.DefaultSearchValid | app/models/property.py:56-67 | a search without parameters is valid: page 1, limit 20, newest first |
| TenantProfile.Completion | app/routes/tenants.py:270-301 | the score is one of 0, 33, 67 and 100: 100 iff onboarding is completed, 67 iff not but both documents are present, 33 iff only the preferences step holds, 0 otherwise |
| TenantProfile.CanApplyIffOnboarded | app/routes/tenants.py:130 | `can_apply` holds iff onboarding is completed, that is iff the score is 100 |
| TenantProfile.CompletionMonotone | app/routes/tenants.py:277-301 | satisfying more of the three steps never lowers the score |
| TenantProfile.CompletionExtremes | app/routes/tenants.py:277-301 | the registration row scores 0; completed onboarding scores 100; documents without preferences score 67 |
| TenantProfile.OutstandingMembers | app/routes/tenants.py:109-122 | a field is reported missing iff it is on the checklist and not filled in |
| TenantProfile.MissingFields | app/routes/tenants.py:109-122 | the appended `missing_fields` list is the checklist's unfilled fields in checklist order |
| TenantProfile.OutstandingChecklist | app/routes/tenants.py:109-122 | the missing list is budget, preferred location, ID document and proof of income, each present iff unfilled, in that order |
| TenantProfile.NothingMissingIff | app/routes/tenants.py:109-122 | nothing is missing iff the preferences and documents steps both hold, and then the score is at least 67 |
| TenantProfile.NonDictDocumentsMissing | app/routes/tenants.py:115-122 | a non-dict `documents` reports both document fields missing and never earns the documents step |
| TenantProfile.CompletionTrustScore | app/routes/tenants.py:244-247 | the new trust score is base 50 plus 20, plus 10 with the rent-credit programme: 70 or 80 |
| AuthGuard.ResolveUser | app/middleware/auth.py:17-51 | resolution succeeds iff the token names a user with a `users` row, and returns that row; every failure is the same 401 |
| AuthGuard.RequireTenant | app/middleware/auth.py:54-61 | the caller is passed through unchanged iff a tenant, otherwise 403 "Only tenants can access this resource" |
| AuthGuard.RequireLandlord | app/middleware/auth.py:64-71 | the caller is passed through unchanged iff a landlord, otherwise the landlords' 403 |
| AuthGuard.RequireAdmin | app/middleware/auth.py:74-81 | the caller is passed through unchanged iff an admin, otherwise the admins' 403 |
| AuthGuard.GatesPartitionRoles | app/middleware/auth.py:54-81 | every caller passes exactly one of the three gates |
| AuthGuard.OptionalUser | app/middleware/auth.py:84-95 | intended helper, with the bearer scheme built as `HTTPBearer(auto_error=False)` so that a request without credentials reaches it: no credentials give no user; otherwise the user is the resolved one, or none when resolution fails |
| AuthGuard.OptionalUserAsWritten | app/middleware/auth.py:14-95 | as written: the scheme is `HTTPBearer()`, which refuses a request without credentials with "Not authenticated" before the helper runs, so its `return None` is unreachable; any credentials give an un-awaited coroutine |
| AuthGuard.OptionalUserAsWrittenNeverResolves | app/middleware/auth.py:14-95 | for a valid token the intended helper yields the user, while the helper as written yields a coroutine; without credentials the intended helper yields no user, while as written the request is refused |
| AuthRoutes.RegistrationDefaults | app/routes/auth.py:41-65 | the new user row has trust score 50 and status `partial`; the tenant row starts at completion 0 without onboarding; the landlord row has no guarantee and contribution 0 |
| AuthRoutes.Register | app/routes/auth.py:13-96 | validation or provider failure writes nothing; a tenant gets a `tenants` row, a landlord a `landlords` row and an admin neither; a taken key is a 400; a missing session is a 400 after the writes; success returns the new user row and the token |
| AuthRoutes.LoginFailure | app/routes/auth.py:154-165 | a provider error is always a 401; it is "Invalid email or password" iff the message mentions invalid credentials or `invalid_grant`, and "Login failed: ..." otherwise |
| AuthRoutes.TenantProfileOf | app/routes/auth.py:137-139 | the tenant profile is attached iff the user is a tenant with a `tenants` row |
| AuthRoutes.LandlordProfileOf | app/routes/auth.py:140-142 | the landlord profile is attached iff the user is a landlord with a `landlords` row |
| AuthRoutes.Login | app/routes/auth.py:99-165 | a provider failure is a 401 and writes nothing; a missing profile row is a 404; otherwise `last_login_at` is stamped, and the response carries the row read before the stamp and the role's profile |
| AuthRoutes.Me | app/routes/auth.py:168-196 | the caller's stored row is returned iff it exists (else 404), with the role's own row attached iff present |
| TenantRoutes.GetTenantProfile | app/routes/tenants.py:45-81 | non-tenants get the 403 and a missing row the 404; otherwise the stored row is returned with its freshly computed score |
| TenantRoutes.ReportedProfileIsStored | app/routes/tenants.py:62-72 | in a consistent database the reported profile is exactly the stored row |
| TenantRoutes.GetProfileStatus | app/routes/tenants.py:84-131 | the report carries the score, the onboarding flag, the missing checklist fields, `can_apply` iff the score is 100, and the user's trust data (50 and `partial` when the `users` row is absent) |
| TenantRoutes.ApplyProfileUpdate | app/routes/tenants.py:154-156 | fields left out of the patch keep their values; documents, onboarding and the stored score are untouched |
| TenantRoutes.ProfileUpdateKeepsGate | app/routes/tenants.py:154-171 | an update neither grants nor withdraws the right to apply, and cannot lift a tenant without documents above 33 |
| TenantRoutes.UpdateTenantProfile | app/routes/tenants.py:142-187 | the sent fields are written and the stored score becomes the score of the updated row, which is returned; failures leave the table unchanged |
| TenantRoutes.ProvidedReferences | app/routes/tenants.py:209-216 | the kept references are exactly the given non-empty e-mails, first reference before second |
| TenantRoutes.CollectReferences | app/routes/tenants.py:209-214 | the appended list is the kept references |
| TenantRoutes.CompletedDocuments | app/routes/tenants.py:203-216 | the documents hold both URLs and have a `references` key iff some reference is kept |
| TenantRoutes.CompletedRowScoresFull | app/routes/tenants.py:226-236 | a completed profile scores 100 and may apply, whatever was uploaded |
| TenantRoutes.CompleteProfile | app/routes/tenants.py:190-267 | the tenant row gets the wizard's fields, score 100 and completed onboarding; the user's trust score becomes 70 or 80 and the status `approved`; a missing tenant row is a 400 that writes nothing |
| Applications.GateMeansOnboarded | app/routes/applications.py:42-50 | with stored scores kept current, the gate on the stored score admits exactly the tenants who completed onboarding |
| Applications.CreateApplication | app/routes/applications.py:30-135 | checks in order: role 403, completion 403, property 404, any earlier application for the pair 400; a failure writes nothing; success inserts a `submitted` application with no documents, a `held` transaction for the property's rent and landlord, and raises `application_count` by 1 |
| Applications.RecordSubmission | app/routes/applications.py:77-111 | the two inserts take fresh ids, leave every other row alone and keep the database consistent |
| Applications.CountApplication | app/routes/applications.py:114-118 | the property's `application_count` rises by exactly one and nothing else changes |
| Applications.SubmissionKeepsConsistent | app/routes/applications.py:77-111 | inserting a new application with its held transaction, for a pair that has none, keeps every table invariant |
| Applications.ListApplications | app/routes/applications.py:139-178 | a tenant gets exactly their own applications, a landlord exactly those on their own properties, an admin the 403 "Invalid user type" |
| Applications.ReleaseEscrow | app/routes/applications.py:228-232 | the application's transactions become `released` and stamped; every other transaction is unchanged |
| Applications.RefundEscrow | app/routes/applications.py:302-306 | the application's transactions become `refunded` and stamped; every other transaction is unchanged |
| Applications.DecisionKeepsLedger | app/routes/applications.py:221-236 | deciding an application while moving its transactions to the matching escrow state keeps the ledger paired |
| Applications.ApprovalKeepsConsistent | app/routes/applications.py:221-236 | approval, release and the property set to `rented` keep every table invariant |
| Applications.RejectionKeepsConsistent | app/routes/applications.py:296-308 | rejection and refund keep every table invariant |
| Applications.ApproveApplication | app/routes/applications.py:182-252 | checks in order: role 403, application 404, ownership 403, already decided 400, each writing nothing; success approves with the reviewer and time, releases the escrow and marks the property `rented` |
| Applications.RecordApproval | app/routes/applications.py:221-236 | the three approval writes, and no others |
| Applications.RejectApplication | app/routes/applications.py:256-323 | the same checks as approval; success rejects with the reason and reason code, refunds the escrow and leaves the property alone |
| Applications.RecordRejection | app/routes/applications.py:296-308 | the two rejection writes, and no others |
| Applications.DecisionsAreFinal | app/routes/applications.py:214-218 | approved and rejected applications are not reviewable, so a second decision is the 400 "Application is already ..." |
| Applications.EscrowFollowsApplication | app/routes/applications.py:97-111 | in a consistent database every transaction belongs to an application and its escrow state is the one that application's state calls for |
| FavoriteRoutes.FlooredDecrement | app/routes/favorites.py:168-170 | the decremented counter is one less, but never below zero |
| FavoriteRoutes.Without | app/routes/favorites.py:158-160 | deleting a pair removes exactly that pair's rows |
| FavoriteRoutes.WithoutDropsOne | app/routes/favorites.py:158-160 | deleting a pair that occurs once removes one row and keeps the rows unique |
| FavoriteRoutes.RemoveUndoesAdd | app/routes/favorites.py:98-118 | removing a just-added favourite restores the rows, and the floored decrement restores the counter |
| FavoriteRoutes.AddKeepsConsistent | app/routes/favorites.py:98-118 | adding a new pair and counting it keeps the table invariants |
| FavoriteRoutes.RemoveKeepsConsistent | app/routes/favorites.py:158-170 | deleting a pair and flooring the counter keeps the table invariants |
| FavoriteRoutes.AddFavorite | app/routes/favorites.py:63-132 | role 403, missing property 404, already favourited 400, each writing nothing; success appends the row and raises `favorite_count` by 1 |
| FavoriteRoutes.RemoveFavorite | app/routes/favorites.py:135-183 | role 403, not favourited 404, writing nothing; success deletes the pair and floors the counter when the property row exists, leaving properties alone when it does not |
| FavoriteRoutes.NewestFirst | app/routes/favorites.py:26-28 | the listing holds exactly the caller's favourite rows |
| FavoriteRoutes.NewestFirstAppend | app/routes/favorites.py:26-28 | a favourite added last heads its tenant's list and leaves other tenants' lists unchanged |
| FavoriteRoutes.NewestFirstConcat | app/routes/favorites.py:26-28 | rows added later come before rows added earlier: the list is the tenant's rows in reverse insertion order |
| FavoriteRoutes.FavoriteViews | app/routes/favorites.py:32-48 | rows without a property are skipped, every property with a row is listed, and every entry is marked favourited |
| FavoriteRoutes.GetFavorites | app/routes/favorites.py:17-60 | role 403; otherwise the formatted list of the caller's favourites, newest first, with `count` equal to its length |
| FavoriteRoutes.FavoritesAgreeWithDetail | app/routes/favorites.py:32-48 | every listed favourite is also shown as favourited by the property detail route |
| FavoriteRoutes.FavoriteViewsFromRows | app/routes/favorites.py:32-48 | every listed entry comes from one of the caller's rows |
| PropertyRoutes.EmbeddedLandlord | app/routes/properties.py:79-92 | the landlord summary exists iff the landlord has a `users` row; `verified` iff the status is `approved`; trust score copied; no guarantee |
| PropertyRoutes.PageRangeSpansLimit | app/routes/properties.py:66-67 | the offset is non-negative, the requested range spans exactly `limit` rows, page 1 starts at 0, and consecutive pages are adjacent |
| PropertyRoutes.TotalPages | app/routes/properties.py:74 | `total_pages` is at least 1 |
| PropertyRoutes.TotalPagesIsCeiling | app/routes/properties.py:74 | `total_pages` is the ceiling of `total / limit` for a positive total: its pages hold every result and one page less does not |
| PropertyRoutes.EveryResultOnSomePage | app/routes/properties.py:66-74 | result i lies on page `i / limit + 1`, which is between 1 and `total_pages`, within that page's range |
| PropertyRoutes.Window | app/routes/properties.py:67 | a page holds at most `limit` rows, in order from its offset, and exactly `limit` when enough rows follow |
| PropertyRoutes.ListingViews | app/routes/properties.py:77-94 | one formatted entry per row, in order |
| PropertyRoutes.SearchResult | app/routes/properties.py:15-111 | intended search: invalid parameters are a 422; otherwise the total, page, limit and `total_pages` of the matching rows |
| PropertyRoutes.SearchPageIsWindow | app/routes/properties.py:66-94 | the returned page is the formatted window of the matching rows at the page's offset |
| PropertyRoutes.FormatListings | app/routes/properties.py:77-94 | the formatting loop yields the formatted entries of the rows |
| PropertyRoutes.SearchProperties | app/routes/properties.py:15-111 | the search method returns the intended search result |
| PropertyRoutes.SearchAsWritten | app/routes/properties.py:42-44 | as written, every search fails: "Not authenticated" without credentials; with them a 422 for invalid parameters, and the undefined-name 500 otherwise |
| PropertyRoutes.SearchAsWrittenAlwaysFails | app/routes/properties.py:42-44 | every valid search, the default one included, succeeds as intended but fails as written, with the undefined-name 500 for any credentials and "Not authenticated" without them |
| PropertyRoutes.NewPropertyDefaults | app/routes/properties.py:126-132 | a new listing belongs to its creator, charges no agency fee, has all three counters at 0, is unverified and not deleted |
| PropertyRoutes.CreateProperty | app/routes/properties.py:114-170 | role 403, invalid body 422; the row is inserted under a fresh id even when the landlord's `users` row is missing, which then fails; success embeds the landlord with a properties count of 1 |
| PropertyRoutes.UpdateProperty | app/routes/properties.py:233-276 | role 403, invalid body 422, a missing or foreign property 403, each writing nothing; success replaces exactly the sent fields of the owned row |
| PropertyRoutes.DeleteProperty | app/routes/properties.py:279-318 | role 403, a missing or foreign property 403, each writing nothing; success keeps the row, sets `inactive` and stamps `deleted_at` |
| PropertyRoutes.PropertyDetail | app/routes/properties.py:173-230 | intended detail: found iff the row exists and is not soft-deleted (else 404); the landlord is embedded; `is_favorited` is true iff a signed-in viewer favourited it, and false for anonymous viewers |
| PropertyRoutes.SoftDeletedIsHidden | app/routes/properties.py:185-191 | after a soft delete the detail view answers 404 |
| PropertyRoutes.CountView | app/routes/properties.py:196-198 | `view_count` rises by exactly one and nothing else changes |
| PropertyRoutes.GetProperty | app/routes/properties.py:173-230 | the intended route returns the intended detail, and counts one view exactly when the property is found |
| PropertyRoutes.PropertyDetailAsWritten | app/routes/properties.py:173-220 | as written the detail never succeeds: without credentials the request is refused with "Not authenticated"; with them a missing or deleted listing is a 404 and an existing one the coroutine 500 |
| PropertyRoutes.GetPropertyAsWritten | app/routes/properties.py:173-230 | as written: a request with credentials counts a view of a found listing even though the response then fails; a refused request or a missing listing changes nothing |
| PropertyRoutes.SignedInFetchFailsAsWritten | app/routes/properties.py:214-220 | a signed-in tenant who favourited a listing gets a 500 as written, while the intended route answers with `is_favorited` true |
| PropertyRoutes.AnonymousFetchRefusedAsWritten | app/middleware/auth.py:14-90 | an anonymous visitor of an existing listing is refused as written, while the intended route shows it, not favourited |
| MessageRoutes.NewMessageDefaults | app/routes/messages.py:141-150 | a new message is an unread text message without attachments, from the caller to the given recipient, with the given content |
| MessageRoutes.SendMessage | app/routes/messages.py:118-174 | a missing recipient is the 404 and writes nothing; otherwise exactly the new message is appended |
| MessageRoutes.Thread | app/routes/messages.py:93-98 | the thread holds exactly the messages between the two users |
| MessageRoutes.SentMessageEndsThread | app/routes/messages.py:93-98 | a message just sent is the newest of its thread |
| MessageRoutes.MarkReadOnlyTouchesIncoming | app/routes/messages.py:100-104 | only unread messages from the other user to the caller change, only in `read` and `read_at`; marking twice is marking once |
| MessageRoutes.GetMessages | app/routes/messages.py:82-115 | the thread is returned as read before marking, and then exactly the incoming unread messages are marked read |
| MessageRoutes.Feed | app/routes/messages.py:30-32 | the feed holds exactly the caller's sent and received messages |
| MessageRoutes.FeedAppend | app/routes/messages.py:30-32 | a message stored last heads the feed of its sender and recipient and leaves everyone else's feed unchanged |
| MessageRoutes.FeedConcat | app/routes/messages.py:30-32 | messages stored later come before messages stored earlier: the feed is the caller's messages in reverse insertion order |
| MessageRoutes.PartnerIsOtherParty | app/routes/messages.py:37-43 | the partner is the recipient of a message the caller sent, otherwise its sender |
| MessageRoutes.FirstWith | app/routes/messages.py:45-46 | the first feed message of a partner, no earlier message being with that partner |
| MessageRoutes.GroupCorrect | app/routes/messages.py:34-61 | the grouping succeeds iff every partner has a `users` row; then there is one conversation per partner, opened by that partner's newest message, in order of first appearance |
| MessageRoutes.NewestMessageLeads | app/routes/messages.py:32-61 | the newest message opens the first conversation |
| MessageRoutes.SentMessageLeadsConversations | app/routes/messages.py:32-61 | a message just sent leads the sender's conversation list |
| MessageRoutes.GetConversations | app/routes/messages.py:21-79 | the loop over the caller's feed produces exactly the grouping of the feed |

## Left out

- The identity provider (token check, `sign_up`, `sign_in_with_password`, `sign_out`) is external; its answer is a parameter (`TokenCheck`, `SignUpOutcome`, `SignInOutcome`).
- `logout` only calls the provider's `sign_out`, so there is nothing to model beyond the gate.
- The supabase client's `.single()`, which raises on zero rows, is not modelled. A missing row is taken as empty data, which is what the handlers' `if not ....data` checks assume. In the client those checks are reached only when a row exists, and a missing row falls into the generic exception handler instead (400, 401 or 500 with the client's text, depending on the handler).
- AuthRoutes.Login: a missing `users` row is modelled as the 404 "User profile not found", and a missing `tenants` or `landlords` row as a response without a profile; in the client both raise inside `.single()` and reach the generic handler, which answers 401 "Login failed: …".
- E-mail syntax (`EmailStr`) is not checked; e-mails are plain strings.
- Money and the search budgets are integers (whole naira), not floats.
- `datetime.now()` is a `now: Timestamp` or `year` parameter.
- The query shapes of PostgREST (joins, `select` column lists, `response_model` filtering) are left out. Each response is the stored row or a record of the fields handlers read.
- Ordering by `created_at` or `timestamp` is insertion order on the sequence tables (newest first is the reverse). Applications are returned as a map, so their listing order is not modelled.
- The search filters and sort order are not modelled: the matching, sorted ids are the parameter `hits`. PostgREST's error for a range beyond the last page is also left out, and such a page is empty.
- `unread_count` in `get_conversations` comes from a separate count query and is left out.
- Concurrency is left out: the handlers run one at a time, so the non-atomic read-modify-write updates of the counters cannot interleave.
- The TODO features (the trust-score bonus on approval, notifications) do not exist in the source and are not modelled.
- The `.get("favorite_count", 0)`, `.get("view_count", 0)`, `or 0` and `.get("trust_score", 50)` defaults for absent columns: stored counters and trust scores are always present.
- The role-gated handlers receive an already-resolved caller, so `HTTPBearer`'s refusal of a request without an `Authorization` header is not composed into them. It is modelled for the optional-user routes, as `AuthGuard.NotAuthenticated`; its status is 403 in the FastAPI releases that answer 403 and 401 in newer ones, and the repository pins no release.
- Tenant preferences are narrowed to the three keys the completion wizard writes.
- An empty update body, which the database rejects, is not modelled; every update is applied.
- AuthRoutes.Register: the step from a session-less sign-up to the error text `'NoneType' object has no attribute 'access_token'` is a fixed constant, not derived from Python's attribute lookup. Likewise `DuplicateKey` is a fixed prefix standing in for PostgREST's full error text, which also names the constraint and the duplicated value.
- `PropertyCreate` and `PropertyUpdate` drop `latitude` and `longitude` (app/models/property.py:26-27) and `availability_start` (app/models/property.py:34, 51): they are optional, unvalidated columns that no modelled rule reads.
- The FastAPI application, CORS middleware, logging, startup hooks (app/main.py), the client setup (app/database.py) and `Settings` environment loading are plumbing.

## Findings

| source | as written | input that shows it | evidently intended | confidence | as-written member | corrected member |
|---|---|---|---|---|---|---|
| app/middleware/auth.py:93 | `get_optional_current_user` returns `get_current_user(credentials)` without `await`, a coroutine object, so `get_property` indexes `current_user["id"]` on a coroutine and answers 500 | `GET /properties/{id}` of an existing listing with any bearer token | the awaited user, or `None` when resolution fails, so signed-in viewers see `is_favorited` | not executed | AuthGuard.OptionalUserAsWritten, PropertyRoutes.GetPropertyAsWritten, PropertyRoutes.SignedInFetchFailsAsWritten | AuthGuard.OptionalUser, PropertyRoutes.GetProperty |
| app/middleware/auth.py:14 | the optional-user dependency shares `HTTPBearer()`, whose default `auto_error=True` refuses a request without an `Authorization` header before `get_optional_current_user` runs, so its `return None` (line 90) is unreachable and anonymous visitors cannot see a listing | `GET /properties/{id}` of an existing listing without an `Authorization` header | a second scheme, `HTTPBearer(auto_error=False)`, so anonymous visitors see the listing, not favourited | not executed | AuthGuard.OptionalUserAsWritten, PropertyRoutes.AnonymousFetchRefusedAsWritten | AuthGuard.OptionalUser, PropertyRoutes.GetProperty |
| app/routes/properties.py:43-44 | a bare `rent_amount` statement raises `NameError` inside the `try`, so every search that passes validation answers 500 "Search failed"; line 43 also filters on the empty column name | `GET /properties/search` with no parameters and any bearer token | `gte("rent_amount", min_budget)` and pagination of the matching rows | not executed | PropertyRoutes.SearchAsWritten, PropertyRoutes.SearchAsWrittenAlwaysFails | PropertyRoutes.SearchResult, PropertyRoutes.SearchProperties |
