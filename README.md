# AgriTunisie Connect — a verified model of the backend's core logic and the web client's router

AgriTunisie Connect is an Express and PostgreSQL backend with a React client
for Tunisian farmers. It offers a crop catalogue, owner-scoped parcels and
livestock, a community forum, market price observations and weather
forecasts. This project models in Dafny the parts of it that carry logic,
and proves what they promise:

- **request validation.** This covers the hand-written GeoJSON polygon check,
  the parcel, price and weather rule sets with their cross-field date checks,
  and the `validate` middleware that answers 422 with one entry per error
  (`ParcelleValidator`, `PrixValidator`, `MeteoValidator`, `Validation`);
- **authentication.** Covers bearer-token extraction, the mapping of JWT
  verification outcomes to 401 and 403, role gating, and register and login
  over the user table (`AuthMiddleware`, `AuthController`);
- **the owner-scoped tables.** Parcels and animals are maps from id to row.
  Each lookup, update and deletion matches only a row with the given id and
  the caller as owner. Each table has its dynamic partial update, whose
  running placeholder counter is proved to line up with the value list
  (`ParcelleService`, `ParcelleController`, `ElevageService`, `SetBuilder`);
- **listings and pagination.** These are `ORDER BY` as a stable sort under a
  proved total preorder, `LIMIT`/`OFFSET` as a slice of the ordered rows, and
  the page metadata (`Pagination`, `Sorting`, `Tables`, `CultureService`);
- **the forum.** Covers categories, posts ordered by their last comment, and
  `addComment`'s two writes (`CommunauteService`, `CommunauteController`);
- **the price search.** There are two builders, the service's and the
  controller's `WHERE 1=1` one. The model proves that the bound conditions
  keep exactly the observations the filters mean. It also covers the insert
  with its defaults and its choice of foreign-key message (`PriceSearch`,
  `PrixService`, `PrixController`);
- **weather.** The three-hour samples are grouped into at most five days in
  first-occurrence order. The model also covers the simulated payload, the
  provider's error mapping and the history (`MeteoService`);
- **the client's navigation guard.** Covers the auth redirect effect and the
  page `switch` (`AppRouter`).

There is one module per source file. A class stands for each table the
source writes to, and its methods state the whole new state. Foreign code is
given to the model as parameters:

- bcrypt and the JWT signer and verifier;
- PostgreSQL's date input and `lower()`;
- the constraints of a table other than the ones modelled (`engine`);
- the weather provider and JavaScript's rendering of numbers and objects
  (`show`, `number`);
- the clock (`now`).

Modules shared by several source files:

- `Common`, `Text` and `Json`: JavaScript's number rendering, `split`, `trim`,
  `parseInt`, property lookup and truthiness;
- `Http`: replies and the global error handler in `backend/server.js`;
- `Postgres`: how an integer column reads what the driver sends.

## Model

| member | source | states |
|---|---|---|
| AppRouter.Render | frontend/src/AppRouter.js:59-108 | the spinner exactly while authentication loads, otherwise the page the `switch` selects inside the layout |
| AppRouter.Redirect | frontend/src/AppRouter.js:44-57 | nothing while loading; `dashboard` exactly for an authenticated visitor on `login` or `register`; `login` exactly for an unauthenticated visitor on one of the thirteen protected pages; no other target |
| AppRouter.RedirectSettles | frontend/src/AppRouter.js:44-57 | the page a redirect leads to asks for no further redirect in the same authentication state |
| AppRouter.UnauthenticatedSeesLogin | frontend/src/AppRouter.js:51-108 | an unauthenticated visitor gets the login page exactly on `login` and on the protected pages: the guarded cases and the protected list are the same set |
| AppRouter.AuthenticatedSeesPage | frontend/src/AppRouter.js:68-108 | an authenticated visitor gets the login page only on `login` |
| AppRouter.PublicIgnoresAuth | frontend/src/AppRouter.js:69-102 | the seven unguarded pages render the same whatever the authentication state |
| AppRouter.UnknownIsNotFound | frontend/src/AppRouter.js:107 | the not-found page is the answer exactly for names with no case; `cultures`, `localiseme` and `communaute`, which the navigation bar emits, are among them |
| AppRouter.SettledNeverShowsProtected | frontend/src/AppRouter.js:44-108 | after the effect an unauthenticated visitor is never on a protected page, and a protected page it left renders as the login page |
| AppRouter.Router.constructor | frontend/src/AppRouter.js:32-33 | the router starts on `home` with a `null` parameter |
| AppRouter.Router.NavigateTo | frontend/src/AppRouter.js:38-42 | both the page and the parameter are set, an absent parameter being `null` |
| AppRouter.Router.Effect | frontend/src/AppRouter.js:44-57 | the state moves to the redirect target with a `null` parameter when there is one, and is unchanged otherwise |
| AppRouter.Router.EffectTwice | frontend/src/AppRouter.js:44-57 | the effect re-run that a page change triggers changes nothing more: the state after it needs no redirect |
| AuthController.PublicHidesSecrets | backend/src/controllers/auth.controller.js:42-47 | the answered user depends only on the id, full name, email and role: a different hash, phone or last login gives the same answer |
| AuthController.UserStore.constructor | backend/src/controllers/auth.controller.js:18 | an empty `utilisateurs` table whose id sequence starts at 1 |
| AuthController.UserStore.FindByEmail | backend/src/controllers/auth.controller.js:18-19 | a found id holds a row with that email; none found means no row has it |
| AuthController.UserStore.Register | backend/src/controllers/auth.controller.js:9-55 | 400 and no change without a name, an email or a password; 409 and no change when the email is taken; a `genSalt(10)` or `hash` failure is the global handler's answer with no change; otherwise the sequence moves, and the row with the bcrypt hash and the role `agriculteur` is stored and answered 201 with its public projection (`Public`), or, when the database refuses it, nothing is stored and the refusal is the global handler's 500; stated for string body fields |
| AuthController.UserStore.Login | backend/src/controllers/auth.controller.js:57-105 | 400 without email or password; 401 for an unknown email and 401 with the other message for a wrong password, both without change; a signing failure goes to the global handler; otherwise only that user's last login changes, and 200 carries the signed `{id, role, nom_complet, email}` and the public projection; the id sequence never moves; stated for string body fields |
| AuthController.UserStore.RegisterThenLogin | backend/src/controllers/auth.controller.js:9-105 | a fresh registration followed by a login with the same credentials gives 201 then 200 with the same public user, when bcrypt hashes without error and accepts a password against its own hash, the database takes the row and signing succeeds |
| AuthMiddleware.ExtractToken | backend/src/middleware/auth.middleware.js:5-6 | no token exactly when the header is absent or is a non-empty text without a space; an empty header yields the empty token; a token never holds a space |
| AuthMiddleware.SchemeNotChecked | backend/src/middleware/auth.middleware.js:6 | whatever the first word of the header is, the token is the word after the first space: the `Bearer` scheme is never checked |
| AuthMiddleware.AuthenticateToken | backend/src/middleware/auth.middleware.js:4-23 | 401 exactly when no token can be read; the request proceeds exactly when verification succeeds, with the decoded claims as the user; 403 "expired" exactly for a `TokenExpiredError`; every refusal is 401 or 403 |
| AuthMiddleware.EmptyHeaderIsVerified | backend/src/middleware/auth.middleware.js:6-18 | an empty `Authorization` header is not a missing token: it is never a 401, and a failed verification of the empty text is the 403 "invalid" |
| AuthMiddleware.BearerHeader | backend/src/middleware/auth.middleware.js:6-21 | a `Bearer <token>` header hands exactly `<token>` to verification and the answer is verification's verdict |
| AuthMiddleware.AllowedRoles | backend/src/middleware/auth.middleware.js:32 | one role becomes the one-element list `[role]`, a list keeps its roles in order, and a role is allowed exactly when it is that role or one of the list's |
| AuthMiddleware.SomeIncluded | backend/src/middleware/auth.middleware.js:34 | true exactly when some role of the user is among the allowed roles |
| AuthMiddleware.MeetIff | backend/src/middleware/auth.middleware.js:34 | the `some`/`includes` test is non-empty intersection of the two role sets |
| AuthMiddleware.AuthorizeRole | backend/src/middleware/auth.middleware.js:25-41 | 403 "role undefined" when there is no user or no truthy role; otherwise access exactly when the role sets meet and the 403 "insufficient" exactly when they do not |
| AuthMiddleware.SingleRoleGate | backend/src/middleware/auth.middleware.js:31-37 | a single-text role passes a one-role gate exactly when the two names are equal |
| CommunauteService.ByNameIsTotalPreorder | backend/src/services/communaute.service.js:8 | `ORDER BY nom_categorie` is a total preorder, so sorting by it is well defined |
| CommunauteService.LatestActivityFirstIsTotalPreorder | backend/src/services/communaute.service.js:24 | `ORDER BY dernier_commentaire_date DESC, date_creation DESC`, with NULLs first as PostgreSQL sorts them under `DESC`, is a total preorder |
| CommunauteService.UncommentedFirst | backend/src/services/communaute.service.js:24 | a post never commented strictly precedes every commented post |
| CommunauteService.Forum.constructor | backend/src/services/communaute.service.js:4 | the forum starts with the given categories and users, no post, no comment and both sequences at 1 |
| CommunauteService.Forum.GetCategories | backend/src/services/communaute.service.js:6-12 | page 1 and limit 20 when not given; a page exactly when pageable (a positive limit and a page ≥ 1, with the limit and the offset (page − 1)·limit within bigint); then the rows at offset (page − 1)·limit up to page·limit of the categories sorted by name, so at most `limit` of them, in name order, all from the table; with the count, the ceiling of count over limit, the page and the limit |
| CommunauteService.Forum.CreatePost | backend/src/services/communaute.service.js:14-19 | a category the integer column cannot read is refused before the sequence moves; otherwise the next id is used up and the post, with the caller as author and no comment date, is stored exactly when the database and both foreign keys accept it; categories, users and comments never change |
| CommunauteService.Forum.PostVerdict | backend/src/services/communaute.service.js:16-17 | a post is accepted exactly when the other constraints pass and its category and author exist; a refusal past the other constraints is a foreign-key violation |
| CommunauteService.Forum.CategoryPosts | backend/src/services/communaute.service.js:22-24 | every row listed is a stored post of that category joined with its existing author |
| CommunauteService.Forum.CountMatchesPosts | backend/src/services/communaute.service.js:22-27 | under the author foreign key the join drops no post: the count query and the listing agree |
| CommunauteService.Forum.GetPostsByCategorie | backend/src/services/communaute.service.js:20-28 | a category parameter that is not an integer is the database's error; otherwise page 1 and limit 10 by default, a page exactly when page and limit are pageable (a positive limit and a page ≥ 1, with the limit and the offset (page − 1)·limit within bigint), and then the slice [(page − 1)·limit, page·limit) of that category's joined posts sorted newest activity first, with the category's count |
| CommunauteService.Forum.GetPostById | backend/src/services/communaute.service.js:29-35 | a parameter that is not an integer is refused; otherwise a post exactly when one with that id and an existing author is stored, shown with that author's name and email |
| CommunauteService.Forum.AddComment | backend/src/services/communaute.service.js:37-43 | the post's last comment date is stamped first and stays even if the insert fails; the next comment id is used up; the comment is stored exactly when the database, the post and the author accept it; a post id that is not an integer changes nothing |
| CommunauteService.Forum.CommentVerdict | backend/src/services/communaute.service.js:40-41 | a comment is accepted exactly when the other constraints pass and its post and author exist; past the other constraints a refusal is a foreign-key violation |
| CommunauteService.Forum.PostComments | backend/src/services/communaute.service.js:46-48 | every row listed is a stored comment of that post joined with its existing author |
| CommunauteService.Forum.CountMatchesComments | backend/src/services/communaute.service.js:46-51 | under the author foreign key the count query and the listing agree |
| CommunauteService.Forum.GetCommentsByPost | backend/src/services/communaute.service.js:44-52 | a post id that is not an integer is refused; otherwise page 1 and limit 10 by default, a page exactly when page and limit are pageable (a positive limit and a page ≥ 1, with the limit and the offset (page − 1)·limit within bigint), and then the slice [(page − 1)·limit, page·limit) of that post's joined comments sorted oldest first, with the post's count |
| CommunauteService.NewPost | backend/src/services/communaute.service.js:15-17 | the inserted post has the given id, the caller as author, the category as the integer column stores it, no comment date and the insertion time |
| CommunauteService.Stamped | backend/src/services/communaute.service.js:39 | the update touches only the post with that id, and only its last comment date; no row is added or removed |
| CommunauteController.Listing | backend/src/controllers/communaute.controller.js:6-7 | a listing is answered 200 as it is; a database error goes to the global handler as a 500 |
| CommunauteController.GetCategories | backend/src/controllers/communaute.controller.js:4-8 | `parseInt(x) \|\| default` with 1 and 20; 200 with the service's page exactly when page and limit are pageable (`Pagination.Pageable`), else 500 |
| CommunauteController.CreatePost | backend/src/controllers/communaute.controller.js:9-15 | 201 with the stored post; any foreign-key violation is the 400 "Catégorie invalide." and other errors go to the global handler, with no post stored |
| CommunauteController.GetPosts | backend/src/controllers/communaute.controller.js:16-21 | 200 with the category's page exactly when the category is an integer and the page and limit (1 and 10 by default) are pageable (`Pagination.Pageable`), else 500 |
| CommunauteController.GetPostDetails | backend/src/controllers/communaute.controller.js:22-28 | 404 exactly when no post is found, 200 exactly with the post found, 500 for a database error |
| CommunauteController.AddCommentToPost | backend/src/controllers/communaute.controller.js:29-38 | a lookup error is a 500 and a missing post the 404, both writing nothing; otherwise the post is stamped and 201 carries the stored comment, or the insert's error goes to the global handler |
| CommunauteController.GetCommentsForPost | backend/src/controllers/communaute.controller.js:39-44 | 200 with the post's page of comments exactly when the id is an integer and page and limit (1 and 10 by default) are pageable (`Pagination.Pageable`), else 500 |
| CultureService.Summaries | backend/src/services/culture.service.js:14-15 | one summary per catalogue row, in the same position, holding the seven selected columns |
| CultureService.ByNameIsTotalPreorder | backend/src/services/culture.service.js:17 | `ORDER BY nom_culture` is a total preorder |
| CultureService.Ordered | backend/src/services/culture.service.js:13-19 | the whole catalogue in name order: as many rows as the table, sorted, each a summary of a catalogue row |
| CultureService.GetAll | backend/src/services/culture.service.js:10-44 | page 1 and limit 10 by default; a page exactly when pageable (a positive limit and a page ≥ 1, with the limit and the offset (page − 1)·limit within bigint), otherwise the database's negative OFFSET or LIMIT error or its bigint refusal of either; exactly the rows at offset (page − 1)·limit up to page·limit of the catalogue in name order (`Ordered`), so at most `limit`, with `totalPages` the ceiling of the count over the limit |
| CultureService.BrowseListsCatalogue | backend/src/services/culture.service.js:10-39 | for a catalogue and limit within bigint, reading pages 1 to `totalPages` one after the other lists each catalogue row exactly once, in name order |
| CultureService.BrowseIsPrefix | backend/src/services/culture.service.js:11-18 | the first `p` pages read one after the other are the first `p * limit` rows of the ordered catalogue |
| CultureService.GetById | backend/src/services/culture.service.js:51-63 | a row exactly when one with that id exists, and then that row |
| ElevageService.SpeciesOf | backend/src/services/elevage.service.js:28-37 | the join with the catalogue finds a species exactly when an entry with that id exists, and then its name |
| ElevageService.BySpeciesIsTotalPreorder | backend/src/services/elevage.service.js:7 | `ORDER BY nom_espece` is a total preorder |
| ElevageService.RowVerdict | backend/src/services/elevage.service.js:19-53 | a row is accepted exactly when the other constraints pass and a non-null type is in the catalogue; a foreign-key violation becomes the 400 with the operation's message and other errors pass through (`Http.ForeignKeyFailure`) |
| ElevageService.NothingToUpdateIff | backend/src/services/elevage.service.js:44-48 | the update has no `SET` clause exactly when none of the four updatable keys is present |
| ElevageService.CandidatesArePatch | backend/src/services/elevage.service.js:44-47 | applying the present columns in the order they are tested is the field-by-field patch |
| ElevageService.UpdateIsPatch | backend/src/services/elevage.service.js:43-51 | every placeholder of the built `SET` list is bound, and running the statement on a matched row yields the field-by-field patch |
| ElevageService.BuildUpdate | backend/src/services/elevage.service.js:42-51 | no present key is the 400 "Aucun champ à mettre à jour." before any query; otherwise the text and values of the numbered statement, with the id and the owner as the two last placeholders |
| ElevageService.CollectSets | backend/src/services/elevage.service.js:43-47 | the four `if (x !== undefined)` tests with the running `paramCount` build the clauses and values of the present columns |
| ElevageService.Executed | backend/src/services/elevage.service.js:51-52 | the row a matched update returns is the field-by-field patch, with the same id and owner |
| ElevageService.ElevageTables.constructor | backend/src/services/elevage.service.js:4 | the given species catalogue, no animal and the id sequence at 1 |
| ElevageService.ElevageTables.GetTypesAnimaux | backend/src/services/elevage.service.js:5-14 | page 1 and limit 20 by default; a page exactly when pageable (a positive limit and a page ≥ 1, with the limit and the offset (page − 1)·limit within bigint); then the slice [(page − 1)·limit, page·limit) of the catalogue sorted by species name, all from the catalogue, with the count and the page count |
| ElevageService.ElevageTables.AddAnimalUtilisateur | backend/src/services/elevage.service.js:15-25 | a type the integer column cannot read is refused before the sequence moves; otherwise the next id is used up and the row is stored exactly when the database accepts it and its type exists; a foreign-key violation is the 400 "Type d'animal invalide." |
| ElevageService.ElevageTables.ListedBelow | backend/src/services/elevage.service.js:28 | each listed row is one of the caller's animals whose type joins the catalogue, shown with its species; the ids strictly decrease |
| ElevageService.ElevageTables.ListingComplete | backend/src/services/elevage.service.js:28 | every animal of the caller whose type joins the catalogue is listed |
| ElevageService.ElevageTables.ListedRow | backend/src/services/elevage.service.js:28 | a listed row carries the animal's id |
| ElevageService.ElevageTables.CountCoversListing | backend/src/services/elevage.service.js:28-29 | the count of the caller's rows is at least the number of joined rows, and equals it exactly when none of the caller's rows has a NULL type |
| ElevageService.ElevageTables.GetAnimauxUtilisateur | backend/src/services/elevage.service.js:26-35 | page 1 and limit 10 by default; a page exactly when pageable (a positive limit and a page ≥ 1, with the limit and the offset (page − 1)·limit within bigint); then the slice [(page − 1)·limit, page·limit) of the caller's joined rows greatest id first (`ListedBelow`, complete by `ListingComplete`), with the count of all the caller's rows |
| ElevageService.ElevageTables.GetAnimalUtilisateurById | backend/src/services/elevage.service.js:36-40 | a row exactly when the animal is the caller's and its type joins the catalogue, and then the whole animal with its species |
| ElevageService.ElevageTables.LookupUnderForeignKey | backend/src/services/elevage.service.js:37 | under the foreign key, the lookup misses exactly the animals not the caller's and the caller's animals with a NULL type |
| ElevageService.ElevageTables.UpdateAnimalUtilisateur | backend/src/services/elevage.service.js:41-54 | the 400 without any updatable key; a type the column cannot read is refused; no matching row is `null` with no change; otherwise the caller's row becomes the patch exactly when the database accepts it, a foreign-key violation being the 400 "pour MàJ"; the sequence and the catalogue never change |
| ElevageService.ElevageTables.DeleteAnimalUtilisateur | backend/src/services/elevage.service.js:55-59 | true exactly when the caller's animal with that id existed, and then that row and only that row is gone |
| ElevageService.NewAnimal | backend/src/services/elevage.service.js:16-19 | the inserted row has the sequence's id, the caller as owner, the type as the integer column stores it, and the tag, birth date and health notes as the body gives them, an `undefined` one as NULL (`Json.Field`) |
| MeteoService.TimeOf | backend/src/services/meteo.service.js:60 | the time part exists exactly when the timestamp holds a space |
| MeteoService.TimestampParts | backend/src/services/meteo.service.js:42-60 | a provider timestamp `date time` is keyed by `date`, and its detail carries `time` |
| MeteoService.Keys | backend/src/services/meteo.service.js:40-67 | the days with an entry are exactly the day keys with some sample, each listed once, in the order of their first sample |
| MeteoService.OfIsTheDay | backend/src/services/meteo.service.js:42-43 | the samples grouped under a day are exactly the input samples with that day key |
| MeteoService.KeyListed | backend/src/services/meteo.service.js:42-54 | a day has an entry exactly when some sample carries its key |
| MeteoService.LowestMinIsLeast | backend/src/services/meteo.service.js:56 | folding `Math.min` over a day's `temp_min` gives a lower bound of them that one of them attains |
| MeteoService.HighestMaxIsGreatest | backend/src/services/meteo.service.js:57 | folding `Math.max` over a day's `temp_max` gives an upper bound of them that one of them attains |
| MeteoService.Details | backend/src/services/meteo.service.js:59-64 | one detail per sample of the day, in input order, with its time, temperature, description and icon |
| MeteoService.Summaries | backend/src/services/meteo.service.js:40-67 | one day per key, in the order given, each the summary of that day's samples |
| MeteoService.FirstFive | backend/src/services/meteo.service.js:67 | `slice(0, 5)`: the first `min(5, length)` elements |
| MeteoService.Forecast | backend/src/services/meteo.service.js:40-67 | at most five days, one per distinct day key in order of first appearance, each the summary of that day's samples |
| MeteoService.ForecastDays | backend/src/services/meteo.service.js:42-67 | the forecast's dates are the first day keys in order and no date appears twice |
| MeteoService.DayExtremes | backend/src/services/meteo.service.js:44-57 | each forecast day's minimum is at most every `temp_min` and its maximum at least every `temp_max` of that day's samples, and both are attained |
| MeteoService.SummaryExtremes | backend/src/services/meteo.service.js:56-57 | a day's summary bounds its samples' minima and maxima, and both bounds are attained |
| MeteoService.KeysSnoc | backend/src/services/meteo.service.js:41-43 | one more sample adds its day at the end when the day is new and leaves the days otherwise; only its own day's group grows |
| MeteoService.SummarySnoc | backend/src/services/meteo.service.js:56-64 | one more sample of a day updates the running minimum and maximum and appends its detail; the first sample's other fields stay |
| MeteoService.FirstSummary | backend/src/services/meteo.service.js:44-53 | the entry a day's first sample creates is the summary of that one sample before the min, max and detail updates |
| MeteoService.GroupedSnoc | backend/src/services/meteo.service.js:41-65 | one turn of the loop keeps the invariant: the creation order is the day keys, and each entry is the summary of its day's samples so far |
| MeteoService.EntryStep | backend/src/services/meteo.service.js:43-64 | the min, max and detail updates turn the entry of the earlier samples of a day into the summary with the new sample |
| MeteoService.EntriesAreDays | backend/src/services/meteo.service.js:67 | once every sample is grouped, `Object.values` in creation order is the list of day summaries |
| MeteoService.Values | backend/src/services/meteo.service.js:67 | the entries listed in creation order |
| MeteoService.Advance | backend/src/services/meteo.service.js:41-65 | one turn of the `forEach` on sample `x` keeps the grouping invariant for the samples up to `x` |
| MeteoService.DailyForecasts | backend/src/services/meteo.service.js:40-67 | the `forEach` that creates, updates and lists the daily entries computes exactly the forecast |
| MeteoService.GetPrevisions | backend/src/services/meteo.service.js:15-92 | units default to `metric`; without a key the simulated payload and no call; otherwise the provider's city, country and forecast, the 401 exactly for a refused key and the 503 for any other failure |
| MeteoService.InPeriod | backend/src/services/meteo.service.js:109-116 | a row is in the period exactly when its coordinates are equal to the request's and its day lies between both bounds, inclusive |
| MeteoService.ByDateIsTotalPreorder | backend/src/services/meteo.service.js:114 | `ORDER BY date_prevision ASC` is a total preorder |
| MeteoService.GetHistorique | backend/src/services/meteo.service.js:102-135 | a bound the database cannot read as a date is the 500; otherwise the period's cached rows, non-empty and in date order, or, exactly when there are none, the one simulated entry dated `dateStart`; coordinates and bounds are echoed back |
| MeteoValidator.Value | backend/src/middleware/validators/meteo.validator.js:5-14 | a parameter absent from the query reads as the empty text |
| MeteoValidator.CoordinateErrors | backend/src/middleware/validators/meteo.validator.js:5-6 | no error exactly when the parameter is non-empty and a float within its bounds; an absent one reports "requise" |
| MeteoValidator.CoordinatesErrors | backend/src/middleware/validators/meteo.validator.js:5-12 | no error exactly when the latitude lies in [-90, 90] and the longitude in [-180, 180], both given |
| MeteoValidator.ForecastErrors | backend/src/middleware/validators/meteo.validator.js:4-8 | no error exactly when the coordinates pass and `units`, when present, is `metric` or `imperial` |
| MeteoValidator.HistoryErrors | backend/src/middleware/validators/meteo.validator.js:10-21 | no error exactly when the coordinates pass, both dates are given and ISO 8601, and the end is not strictly earlier than a given start |
| MeteoValidator.SameDayRange | backend/src/middleware/validators/meteo.validator.js:15-20 | an end on the same day as the start never draws the order error |
| MeteoValidator.UnparsableEndNoOrderError | backend/src/middleware/validators/meteo.validator.js:16 | an end that does not parse as a date never fires the order check, while the price search's rule, for a start after day 0, does |
| ParcelleValidator.RingError | backend/src/middleware/validators/parcelle.validator.js:22-37 | no message exactly for an array of at least four two-number positions whose first and last positions are equal; otherwise the ring, position or closure message |
| ParcelleValidator.RingsError | backend/src/middleware/validators/parcelle.validator.js:22-37 | no message exactly when every ring is closed; otherwise the message of the first failing ring, all earlier rings being closed |
| ParcelleValidator.GeoJsonError | backend/src/middleware/validators/parcelle.validator.js:4-40 | no message exactly for the accepted geometries: an object with truthy `type` and `coordinates`, Polygon or MultiPolygon, a Polygon needing a non-empty array of closed rings; `undefined` and `null` are "not an object", and an array lacks `type` |
| ParcelleValidator.MultiPolygonUnchecked | backend/src/middleware/validators/parcelle.validator.js:14-18 | a MultiPolygon passes whatever its truthy coordinates are |
| ParcelleValidator.ValidateGeoJson | backend/src/middleware/validators/parcelle.validator.js:4-40 | the nested walks over rings and points, leaving at the first failure, throw exactly the message `GeoJsonError` gives |
| ParcelleValidator.NameErrors | backend/src/middleware/validators/parcelle.validator.js:45-49 | no error exactly when the trimmed name has 3 to 255 characters; an empty name reports both "requis" and the length message; stated for fields that are not JSON arrays |
| ParcelleValidator.GeometryErrors | backend/src/middleware/validators/parcelle.validator.js:54-56 | no error exactly for a non-empty accepted geometry; a missing one reports "requise" and "not an object"; stated for fields that are not JSON arrays |
| ParcelleValidator.AreaErrors | backend/src/middleware/validators/parcelle.validator.js:57-60 | no error exactly when the area is falsy or numeric; stated for fields that are not JSON arrays |
| ParcelleValidator.SoilErrors | backend/src/middleware/validators/parcelle.validator.js:61-65 | no error exactly when the soil type is falsy or at most 100 characters once trimmed; stated for fields that are not JSON arrays |
| ParcelleValidator.CropIdErrors | backend/src/middleware/validators/parcelle.validator.js:66-69 | no error exactly when the crop id is falsy or an integer of at least 1; stated for fields that are not JSON arrays |
| ParcelleValidator.ParcelErrors | backend/src/middleware/validators/parcelle.validator.js:43-71 | no error exactly when every field rule passes; `description` contributes no error; stated for fields that are not JSON arrays |
| ParcelleValidator.ParcelIdErrors | backend/src/middleware/validators/parcelle.validator.js:73-77 | no error exactly when the route id is an integer of at least 1 |
| ParcelleValidator.PositiveIdAccepted | backend/src/middleware/validators/parcelle.validator.js:75 | the decimal form of every positive id passes the id rule |
| PrixValidator.Optional | backend/src/middleware/validators/prix.validator.js:6-18 | an `optional()` chain reports nothing when its parameter is absent |
| PrixValidator.DateEndErrors | backend/src/middleware/validators/prix.validator.js:9-15 | no error exactly when `dateEnd` is absent, or ISO 8601 and not before the start; when both dates parse, no error exactly when the end is ISO 8601 and not earlier |
| PrixValidator.InvalidEndReportedTwice | backend/src/middleware/validators/prix.validator.js:9-15 | an end date that does not parse, after a start later than day 0, is reported twice: not ISO 8601, and earlier than the start because the invalid date compares as 0 |
| PrixValidator.SearchErrors | backend/src/middleware/validators/prix.validator.js:4-20 | no error exactly when each given parameter passes: both ids integers of at least 1, both dates ISO 8601 and in order, page at least 1 and limit between 1 and 100 |
| PrixValidator.LimitOutOfRangeRejected | backend/src/middleware/validators/prix.validator.js:18 | a given limit outside 1 to 100 is always reported |
| PrixValidator.BoundedText | backend/src/middleware/validators/prix.validator.js:26-30 | an optional text passes exactly when absent, or a string of at most `max` characters once trimmed; its errors carry the default message; stated for fields that are not JSON arrays |
| PrixValidator.RequiredId | backend/src/middleware/validators/prix.validator.js:24-25 | no error exactly for an integer of at least 1; an absent id reports both "requis" and "positif"; stated for fields that are not JSON arrays |
| PrixValidator.WhereErrors | backend/src/middleware/validators/prix.validator.js:24-26 | no error exactly when both ids are positive integers and the market, when given, is a short enough string; stated for fields that are not JSON arrays |
| PrixValidator.PriceErrors | backend/src/middleware/validators/prix.validator.js:27-28 | no error exactly when the price is a non-empty float of at least 0 and the unit, when given, is a string of at most 20 characters; stated for fields that are not JSON arrays |
| PrixValidator.WhenErrors | backend/src/middleware/validators/prix.validator.js:29-30 | no error exactly when the date is given and ISO 8601 and the source, when given, is a short enough string; stated for fields that are not JSON arrays |
| PrixValidator.AddErrors | backend/src/middleware/validators/prix.validator.js:22-32 | no error exactly when all seven rules pass; stated for fields that are not JSON arrays |
| ParcelleService.GeometryText | backend/dist/services/parcelle.service.js:16 | the bound text carries exactly the client's geometry, a string as written and any other value serialised |
| ParcelleService.CreateGeometry | backend/dist/services/parcelle.service.js:16-19 | an absent geometry is bound as NULL; a present one is bound as a text carrying exactly the client's value, from which `ST_GeomFromGeoJSON` builds the stored geometry |
| ParcelleService.Returned | backend/dist/services/parcelle.service.js:20 | the `RETURNING` list of `create` and `update` leaves out the description and returns the geometry as PostGIS's `ST_AsGeoJSON` text of the stored geometry, NULL staying NULL, and the other columns as stored |
| ParcelleService.Rendered | backend/dist/services/parcelle.service.js:20 | `ST_AsGeoJSON` of a NULL geometry is NULL, of a stored one PostGIS's rendering of it |
| ParcelleService.NewParcel | backend/dist/services/parcelle.service.js:11-19 | the inserted row has the sequence's id, the caller as owner, the geometry built from the bound text and `culture_actuelle_id` as the integer column reads it |
| ParcelleService.Selected | backend/dist/services/parcelle.service.js:42 | the listing and the lookup select `Returned`'s columns, geometry rendered by `ST_AsGeoJSON`, and the description too |
| ParcelleService.NothingToUpdateIff | backend/dist/services/parcelle.service.js:94-124 | the update throws "Aucune donnée à mettre à jour." exactly when none of the six keys is present; a key present with `null` counts as present |
| ParcelleService.CandidatesArePatch | backend/dist/services/parcelle.service.js:94-118 | applying the present columns in the order tested is the field-by-field patch |
| ParcelleService.UpdateIsPatch | backend/dist/services/parcelle.service.js:91-132 | every placeholder of the built statement is bound, and running it on a matched row yields the field-by-field patch |
| ParcelleService.BuildUpdate | backend/dist/services/parcelle.service.js:91-132 | no present key is the 400 before any query; otherwise the numbered statement, with the geometry wrapped in `ST_GeomFromGeoJSON` and the id and owner as the two last placeholders |
| ParcelleService.CollectSets | backend/dist/services/parcelle.service.js:91-118 | the six `!== undefined` tests with the running `paramIndex` build the clauses and values of the present columns |
| ParcelleService.Executed | backend/dist/services/parcelle.service.js:127-138 | the row a matched update leaves is the field-by-field patch, with the same id, owner and creation date |
| ParcelleService.NewestFirstIsTotalPreorder | backend/dist/services/parcelle.service.js:45 | `ORDER BY date_creation DESC`, ties in id order, is a total preorder |
| ParcelleService.ParcelTable.constructor | backend/dist/services/parcelle.service.js:6 | an empty table whose id sequence starts at 1, with PostGIS's `ST_AsGeoJSON` rendering as given |
| ParcelleService.ParcelTable.Create | backend/dist/services/parcelle.service.js:7-35 | a `culture_actuelle_id` the integer column refuses is that database error, with no row stored and the sequence unmoved; otherwise the sequence moves, and the new row, with the caller as owner, is stored and returned without its description exactly when the database accepts it; a refusal stores nothing, PostGIS's invalid-GeoJSON error being the 400 and any other the database error (`GeometryFailure`) |
| ParcelleService.ParcelTable.FindByIdAndUserId | backend/dist/services/parcelle.service.js:66-81 | a row exactly when the caller owns a parcel with that id, and then that parcel with its description |
| ParcelleService.ParcelTable.OwnedIds | backend/dist/services/parcelle.service.js:44 | exactly the caller's ids below the bound, in increasing order |
| ParcelleService.ParcelTable.OwnedViews | backend/dist/services/parcelle.service.js:41-46 | one selected row per parcel the caller owns |
| ParcelleService.ParcelTable.FindByUserId | backend/dist/services/parcelle.service.js:36-65 | a page exactly when pageable (a positive limit and a page ≥ 1, with the limit and the offset (page − 1)·limit within bigint); then the slice [(page − 1)·limit, page·limit) of the caller's parcels sorted newest first, with the count of the caller's parcels and the page count |
| ParcelleService.ParcelTable.Update | backend/dist/services/parcelle.service.js:82-148 | the 400 without any updatable key; then a `culture_actuelle_id` the integer column refuses is that database error with no change; `null` with no change when the caller owns no such row; otherwise the row becomes the patch exactly when the database accepts it, a rejected geometry being the update's 400; the sequence never moves |
| ParcelleService.ParcelTable.Delete | backend/dist/services/parcelle.service.js:149-161 | true exactly when the caller's parcel with that id existed, and then that row and only that row is gone |
| ParcelleController.CreateParcelle | backend/dist/controllers/parcelle.controller.js:5-20 | 201 with the new row when the database accepts it; a crop id the integer column refuses goes to the global handler with nothing stored and the sequence unmoved; an invalid geometry is the service's 400, any other error goes to the global handler, and then no row is stored |
| ParcelleController.GetUserParcelles | backend/dist/controllers/parcelle.controller.js:21-35 | page and limit read as `parseInt(x, 10) \|\| 1` and `\|\| 10`; 200 with the service's page exactly when page and limit are pageable (`Pagination.Pageable`), otherwise the database's refusal as a 500 |
| ParcelleController.DefaultListing | backend/dist/controllers/parcelle.controller.js:23-30 | with no query string the answer is the first page of at most ten of the caller's parcels |
| ParcelleController.GetParcelleById | backend/dist/controllers/parcelle.controller.js:36-53 | 200 with the row exactly when the caller owns a parcel with that id, the 404 otherwise |
| ParcelleController.UpdateParcelle | backend/dist/controllers/parcelle.controller.js:54-84 | a missing or foreign parcel is the 404 whatever the body, with no update attempted; then the 400 for an empty body, the global handler for a crop id the integer column refuses, the 400 for a rejected geometry, other errors to the global handler, or 200 with the patched row |
| ParcelleController.DeleteParcelle | backend/dist/controllers/parcelle.controller.js:85-104 | 200 exactly when the caller's parcel was removed, the 404 otherwise; on 200 exactly that row is gone, on 404 every row is unchanged |
| PrixService.FindById | backend/src/services/prix.service.js:26-27 | a row is found exactly when some row of the list has the key, and the row found has it |
| PrixService.Join | backend/src/services/prix.service.js:20-27 | an observation appears in the search exactly when its product id and region id are both non-null and both found; the row carries the observation's id, date and market and the product's and region's names |
| PrixService.NewestFirstIsTotalPreorder | backend/src/services/prix.service.js:64 | the order by date descending (NULL first), then product name, is total and transitive |
| PrixService.ByProductNameIsTotalPreorder | backend/src/services/prix.service.js:137 | the product order by name is total and transitive |
| PrixService.ByRegionNameIsTotalPreorder | backend/src/services/prix.service.js:151 | the region order by name is total and transitive |
| PrixService.RowError | backend/src/services/prix.service.js:102-111 | the insert is accepted exactly when the other constraints hold and both references are in their lists; a failure that is not another constraint's is a foreign-key violation |
| PrixService.DateColumn | backend/src/services/prix.service.js:108 | a string date is stored exactly when the date input reads it; every refusal is the invalid-date error |
| PrixService.Refusal | backend/src/services/prix.service.js:105-108 | binding fails exactly when the product id, the region id or the date cannot be read, the product's refusal first; a binding refusal is never a foreign-key violation |
| PrixService.Unit | backend/src/services/prix.service.js:108 | the stored unit is never falsy: a truthy `unite_prix` is kept, any other value becomes `TND/kg` |
| PrixService.NewObservation | backend/src/services/prix.service.js:103-108 | the stored row has the sequence's id, the given source, the defaulted unit, the body's market name and price as given, and the product id, region id and date as their columns read them |
| PrixService.ServiceSource | backend/src/services/prix.service.js:100 | the stored source is never falsy: a truthy `source_information_input` is kept, otherwise a text naming the collector's full name and id |
| PrixService.ProbeNamesMissingKey | backend/src/services/prix.service.js:114-124 | after a foreign-key violation the probes' message (`ProbeMessage`) is never the generic one, the region is blamed only when the product exists and the region does not, and a missing product is always blamed |
| PrixService.NullProductIsBlamed | backend/src/services/prix.service.js:117-121 | a null product id makes its probe find nothing, so the product is blamed |
| PrixService.Where | backend/src/services/prix.service.js:58-62 | the `WHERE` text is empty exactly when there is no clause |
| PrixService.BuildSearch | backend/src/services/prix.service.js:11-65 | both queries carry the filters' conditions after one `WHERE`; the data query ends with the order and the `LIMIT` and `OFFSET` placeholders after the filters'; its parameters are the filters' then limit and offset, the count query's the filters' only |
| PrixService.PriceTables.constructor | backend/src/services/prix.service.js:4 | the tables start with the given products and regions and no observation |
| PrixService.PriceTables.Matching | backend/src/services/prix.service.js:69-74 | the data rows are exactly the joins of the stored observations the conditions keep, and their number is what the count query counts |
| PrixService.PriceTables.Listing | backend/src/services/prix.service.js:64 | the matching rows, sorted newest first and a permutation of the matches |
| PrixService.PriceTables.SearchObservations | backend/src/services/prix.service.js:11-90 | a filter its comparison cannot read fails with that refusal; otherwise a page exists exactly when page and limit are pageable (a positive limit and a page ≥ 1, with the limit and the offset (page − 1)·limit within bigint), holding the slice [(page − 1)·limit, page·limit) of the sorted matches (`Listing`), so at most `limit` of them, with the total count and the ceiling of count over limit as page count |
| PrixService.PriceTables.MatchingMeansFilters | backend/src/services/prix.service.js:37-56 | the matching rows are exactly the joined observations meeting every given filter, in both directions |
| PrixService.PriceTables.GetAllProduits | backend/src/services/prix.service.js:135-143 | every product, sorted by name, a permutation of the list |
| PrixService.PriceTables.GetAllRegions | backend/src/services/prix.service.js:149-157 | every region, sorted by name, a permutation of the list |
| PrixService.PriceTables.Insert | backend/src/services/prix.service.js:102-111 | a binding refusal changes nothing; otherwise the sequence advances and the row is stored under its id unless the database refuses it |
| PrixService.PriceTables.AddObservation | backend/src/services/prix.service.js:98-129 | the insert with the collector's default source; a foreign-key violation becomes the 400 with the probes' message, every other error goes on, and success returns the stored row |
| PrixController.AndEachIsJoin | backend/src/controllers/prix.controller.js:25-47 | the clauses each after ` AND ` are ` AND ` followed by the service's `AND`-joined clauses, and nothing for no clause |
| PrixController.JoinSnoc | backend/src/services/prix.service.js:59 | joining one more piece appends the separator and the piece |
| PrixController.Append | backend/src/controllers/prix.controller.js:28-47 | one filter step extends the text, the parameters and the counter exactly as the plan extended by that filter prescribes |
| PrixController.BuildListing | backend/src/controllers/prix.controller.js:5-49 | the statement is the service's selection, `WHERE 1=1`, one ` AND ` condition per given filter numbered from `$1`, and the order without limit or offset; the parameters are the service's |
| PrixController.SearchPrixObservations | backend/src/controllers/prix.controller.js:51-57 | 200 exactly when every given filter can be read, with every matching row sorted newest first as a permutation of the matches; otherwise the global handler's answer for that refusal |
| PrixController.ServicePageOfListing | backend/src/services/prix.service.js:64-85 | for a pageable page p and limit l, the service's page p of l rows is the slice at offset (p - 1) * l of the controller's unpaged answer, and its count is that answer's length |
| PrixController.ControllerSource | backend/src/controllers/prix.controller.js:77 | the stored source is never falsy: a truthy `source_information` is kept, otherwise `Collecteur ` and the user's id |
| PrixController.AddPrixObservation | backend/src/controllers/prix.controller.js:61-88 | 400 with the required-fields message and no change unless the four fields are truthy; otherwise the insert, 201 with the stored row, the generic 400 after a foreign-key violation, and the global handler for any other error |
| PrixController.GetAllProduits | backend/src/controllers/prix.controller.js:91-99 | 200 with every product sorted by name |
| PrixController.GetAllRegions | backend/src/controllers/prix.controller.js:102-110 | 200 with every region sorted by name |
| PriceSearch.LikeAnything | backend/src/services/prix.service.js:53-55 | the pattern `%` matches every text, so an empty market name keeps every row |
| PriceSearch.LikePrefix | backend/src/services/prix.service.js:54-55 | for a name with no wildcard, `name%` matches exactly the texts that start with the name |
| PriceSearch.LikeSubstring | backend/src/services/prix.service.js:54-55 | for a name with no wildcard, `%name%` matches exactly the texts that contain the name |
| PriceSearch.WildcardInName | backend/src/services/prix.service.js:55 | a market name holding `_` is not taken literally: `%a_c%` matches `abc`, which does not contain `a_c` |
| PriceSearch.ActiveFromFilters | backend/src/services/prix.service.js:37-56 | the applied filters are drawn from the five, and none is applied exactly when no filter value is truthy |
| PriceSearch.PlanInOrder | backend/src/services/prix.service.js:37-56 | condition i tests the i-th applied filter against placeholder `$i+1`, and parameter i is that filter's argument |
| PriceSearch.PlanNumbered | backend/src/services/prix.service.js:38-54 | every placeholder number the conditions use has its parameter |
| PriceSearch.Test | backend/src/services/prix.service.js:37-40 | one `if` extends the clauses, the parameters and the counter exactly as the plan extended by that filter prescribes |
| PriceSearch.BuildConditions | backend/src/services/prix.service.js:15-56 | the clauses are the texts of the plan's conditions, the parameters the plan's, and the counter one past the parameter count |
| PriceSearch.PlanBindsAsWanted | backend/src/services/prix.service.js:65-71 | binding the statement fails exactly when reading some applied filter fails, with the first such error |
| PriceSearch.BindPlan | backend/src/services/prix.service.js:69-72 | the bound parameters are an error exactly when reading the applied filters is, the same error, and otherwise one value per condition |
| PriceSearch.BoundPlanMeansFilters | backend/src/services/prix.service.js:37-62 | once bound, the `WHERE` keeps a row exactly when the row meets every applied filter (equal ids, dates within the bounds, market containing the name) |
| PriceSearch.PlanMeansFilters | backend/src/services/prix.service.js:37-62 | the induction behind it: condition by condition, the bound `WHERE` and the filters' meaning agree on every row |
| PriceSearch.ConditionMeans | backend/src/services/prix.service.js:53-55 | for one applied filter the bound comparison holds exactly when the filter's meaning does, the `ILIKE` pattern included |
| PriceSearch.BindArgument | backend/src/services/prix.service.js:55 | the market name's parameter is `%name%` (`Argument`), and wrapping it in `%` never makes it unreadable |
| SetBuilder.Defined | backend/src/services/elevage.service.js:43-47 | the fields that are not `undefined`, in order, drawn from the candidates, and none exactly when every field is `undefined` |
| SetBuilder.PlanOf | backend/src/services/elevage.service.js:43-47 | one clause and one value per defined field, clause i naming the i-th defined column with placeholder `$i+1` and value i its value |
| SetBuilder.UpdateOf | backend/src/services/elevage.service.js:42-51 | there is no statement exactly when no field is defined |
| SetBuilder.UpdateWellNumbered | backend/src/services/elevage.service.js:43-51 | placeholders `$1..$k` carry the k defined fields in order, `$k+1` the id and `$k+2` the owner |
| SetBuilder.PlanMeansDefined | backend/src/services/elevage.service.js:43-51 | running the clauses with their placeholders' values stores each defined value in its column, whatever values follow |
| SetBuilder.UpdateMeansDefined | backend/src/services/elevage.service.js:50-51 | the statement's `SET` applied to a row is the field-by-field patch of the defined values |
| SetBuilder.BuildStep | backend/src/services/elevage.service.js:43-47 | one test keeps the clauses, values and counter equal to the plan of the fields tested so far |
| SetBuilder.PushIfDefined | backend/src/services/elevage.service.js:43 | a defined field pushes its clause with the counter's placeholder and its value and advances the counter; an `undefined` one changes nothing |
| SetBuilder.Test | backend/src/services/elevage.service.js:43-47 | after the test of field j the builder's state is the plan of the first j + 1 fields |
| SetBuilder.Complete | backend/src/services/elevage.service.js:48-51 | no clause means no query; otherwise the text and values of the statement the plan defines |
| Validation.AsText | backend/src/middleware/validators/parcelle.validator.js:45-68 | the text a validator checks: a string as it is, `undefined` and `null` as the empty text |
| Validation.IntText | backend/src/middleware/validators/parcelle.validator.js:68-75 | `isInt` accepts exactly an optional sign followed by at least one digit and nothing else |
| Validation.IntTextOfIntToString | backend/src/middleware/validators/parcelle.validator.js:68-75 | every integer written in decimal passes `isInt` and reads back as itself |
| Validation.Respond | backend/src/middleware/validators/meteo.validator.js:23-28 | the request proceeds exactly when no error was collected; otherwise 422 with "Erreurs de validation." and one entry per error, in order, each exactly the one-member object `{ [path]: msg }` |
| Validation.Validate | backend/src/middleware/validators/parcelle.validator.js:79-91 | pushing one entry per collected error gives exactly the answer `Respond` describes |
| Common.NatToString | backend/src/services/prix.service.js:38 | the decimal text of a placeholder number is non-empty, all digits, without a leading zero |
| Common.NatToStringRoundTrip | backend/src/services/prix.service.js:38-54 | the digits of a placeholder read back as its number |
| Common.NatToStringInjective | backend/src/services/prix.service.js:38-54 | distinct placeholder numbers have distinct texts |
| Text.Split | backend/src/middleware/auth.middleware.js:6 | `split(' ')` yields at least one piece, no piece holds the separator, and joining the pieces with it gives back the text |
| Text.SplitHasSecondPiece | backend/src/middleware/auth.middleware.js:6 | there is a piece at index 1 exactly when the text holds a space |
| Text.Trim | backend/src/middleware/validators/prix.validator.js:26-30 | the result is empty exactly when the text is all white space, and otherwise neither starts nor ends with white space |
| Text.TrimIdempotent | backend/src/middleware/validators/prix.validator.js:26-30 | trimming twice is trimming once |
| Text.ParseIntJsRoundTrip | backend/dist/controllers/parcelle.controller.js:23-24 | `parseInt(s, 10)` reads back every integer written in decimal |
| Text.ParseIntAutoRoundTrip | backend/src/controllers/communaute.controller.js:6 | `parseInt(s)` without a radix reads back every integer written in decimal |
| Text.HexQueryValue | backend/src/controllers/communaute.controller.js:6 | the two readings differ on `0x1A`: 26 without a radix, 0 with radix 10 |
| Json.Lookup | backend/src/services/prix.service.js:99 | a value is found exactly when a member has the key, and the value found is one of that key's members |
| Json.Get | backend/src/services/prix.service.js:99 | a field is defined exactly when the body is an object with a member of that name |
| Json.TemplateText | backend/src/services/prix.service.js:100 | in a template literal a string is itself, `undefined` is `undefined` and `null` is `null` |
| Http.GlobalHandler | backend/server.js:38-44 | the answer's status is the error's non-zero status or 500; its message is the thrown error's or the database error's message when that is not empty, and the default text otherwise, so it is never empty |
| Http.CatchWithStatus | backend/dist/controllers/parcelle.controller.js:10-19 | an error with a status answers that status and message; any other goes to the global handler's 500 |
| Postgres.IntegerColumnReads | backend/src/services/prix.service.js:105-108 | a decimal integer within the column's range, padded with white space or not, is stored as its value, and so is an integral number |
| Postgres.IntegerParam | backend/src/services/communaute.service.js:24 | a route parameter compared with an integer column is read as that column reads its text, refusal included |
| Sorting.SortBySorted | backend/src/services/culture.service.js:17 | the `ORDER BY` output is ordered under a total preorder; with the sort's own contract it is a permutation of the rows |
| Sorting.SliceSorted | backend/src/services/culture.service.js:18 | a `LIMIT`/`OFFSET` slice of an ordered listing is ordered and holds only its rows |
| Sorting.StrLeTotal | backend/src/services/culture.service.js:17 | any two names are comparable |
| Sorting.StrLeTransitive | backend/src/services/culture.service.js:17 | the name order is transitive |
| Sorting.StrLeAntisymmetric | backend/src/services/culture.service.js:17 | two names each before the other are equal |
| Tables.Select | backend/src/services/elevage.service.js:28 | every selected row comes from a stored row the view keeps, and there are no more than ids issued |
| Tables.SelectComplete | backend/src/services/elevage.service.js:28 | every stored row the view keeps is selected |
| Tables.SelectCounted | backend/src/services/elevage.service.js:28-33 | when the join drops no row the filter keeps, `totalItems` is the number of selected rows |
| Tables.SelectAtMostCount | backend/src/services/elevage.service.js:28-29 | a join that drops rows makes the selection no larger than the filter's count |
| Pagination.QueryInt | backend/dist/controllers/parcelle.controller.js:23-24 | `parseInt(raw, 10) \|\| fallback` is never 0 for a non-zero fallback, and is the fallback for an absent value |
| Pagination.QueryIntReadsBack | backend/dist/controllers/parcelle.controller.js:23-24 | a decimal page number is read as written, except 0, which falls back |
| Pagination.QueryIntAuto | backend/src/controllers/communaute.controller.js:6 | `parseInt(raw) \|\| fallback` is never 0 for a non-zero fallback, and is the fallback for an absent value |
| Pagination.QueryIntAutoAgrees | backend/src/controllers/communaute.controller.js:6 | both readings agree on decimal text; on `0x1A` the radix-less one gives 26 and the radix-10 one falls back |
| Pagination.CeilDiv | backend/src/services/culture.service.js:29 | `Math.ceil(n / d)` is the least page count whose pages hold n rows |
| Pagination.Window | backend/src/services/culture.service.js:18 | a limit, then an offset, outside bigint is refused while binding; then a negative offset, then a negative limit; otherwise at most `limit` rows, the rows from `offset` on in order |
| Pagination.OffsetSign | backend/src/services/culture.service.js:11 | with a positive limit, `(page - 1) * limit` is non-negative exactly when the page is at least 1 |
| Pagination.BindBigint | backend/src/services/culture.service.js:18 | a number bound to a bigint placeholder is accepted exactly within −2^63 to 2^63 − 1; otherwise it is refused as bigint syntax (from 10^21 on, sent in exponent form) or as out of range |
| Pagination.Paginate | backend/src/services/culture.service.js:10-39 | a page exists exactly when pageable (a positive limit and a page ≥ 1, with the limit and the offset (page − 1)·limit within bigint), a limit past bigint being refused as itself and an offset past it likewise; it is the slice at offset (page - 1) * limit, with the count, the page and the ceiling of count over limit |
| Pagination.PagesArePrefixes | backend/src/services/culture.service.js:11-18 | for a pageable p, pages 1 to p together are the first p * limit rows, in order, without gap or repetition |
| Pagination.PagesCoverRows | backend/src/services/culture.service.js:28-35 | for a bigint limit and row count, every page up to `totalPages` is pageable, those pages hold every row, and every pageable page after it is empty |
| Pagination.LastPageable | backend/src/services/culture.service.js:11-29 | the offset of page `totalPages` is below the row count, so within bigint |
| Pagination.EarlierPageable | backend/src/services/culture.service.js:11 | every page from 1 up to a pageable one is pageable |
| Pagination.PastLastEmpty | backend/src/services/culture.service.js:18-29 | a page past `totalPages` starts past the last row and is empty |
| Pagination.PageOfSorted | backend/src/services/culture.service.js:17-18 | a page of an ordered listing is ordered and holds only its rows |
| Sorting.SortBy | backend/src/services/culture.service.js:17 | the listing order returns the same rows with the same multiplicities |
| Tables.Count | backend/src/services/culture.service.js:20 | `COUNT(*)` over the ids issued, never more than their number; `SelectCounted` equates it with the length of the joined listing |

## Left out

- The React pages, layout and common components, and the client's service wrappers, are not part of this model. They only render and call `fetch`. Of the client, only the router `frontend/src/AppRouter.js` is modelled. Its `window.scrollTo` call is not.
- The older client `agritunisie-frontend/` is not part of this model. Its router imports `React` twice and does not load as a module.
- The Gemini service, validator and controller are not part of this model. They call a foreign AI client and log to the database.
- `backend/src/controllers/elevage.controller.js` and `backend/src/controllers/meteo.controller.js` are not part of this model. Each calls `new` on a module that exports an instance, so it throws when loaded. The services behind them are modelled directly.
- The declarative validators (auth, forum, crops, livestock) are not part of this model. Their meaning lives entirely in express-validator.
- The routes files, the process start-up in `backend/server.js`, the pool in `backend/src/config/db.config.js` and the ORM schema are not part of this model. Of `backend/server.js`, only the global error handler is modelled (`Http.GlobalHandler`).
- The wiring is not modelled. In particular, the parcel routes import the parcel validators without applying them, and the price routes run no validator, so the handlers are modelled as receiving unvalidated input.
- `PrixService.PriceTables.SearchObservations` is modelled although no route reaches it. The price routes call the controller's own unpaged search.
- bcrypt, JWT signing and verification, PostGIS's `ST_GeomFromGeoJSON` and `ST_AsGeoJSON`, `NOW()`, `lower()` and PostgreSQL's and validator.js's date and number grammars are parameters of the model. Only what the code does with their results is proved. `isEmail`, `isMobilePhone` and the other recognisers are not modelled.
- `AuthController.UserStore.Register`: the model states that the stored hash is what `bcrypt.hash` returns for the password and the salt `genSalt(10)` returns. It does not state that this differs from the plain password: bcrypt's one-wayness is a property of the parameter.
- Concurrency is not modelled. The two queries of each `Promise.all` read one snapshot, and every handler runs alone, so no race between a check and a write is modelled.
- `CommunauteService.Forum.AddComment`: the post's stamp and the comment's date use one `now`, where the two statements would each call `NOW()`.
- Floating point is not modelled. Coordinates, temperatures and prices are reals used only in comparisons and in min/max. JavaScript's rendering of a number into the provider URL is the `number` parameter.
- The insert's `prix_moyen_kg_ou_unite` is not read by the model. PostgreSQL's refusal of a non-numeric price is part of the `engine` verdict, which the model applies after the sequence has advanced, where PostgreSQL would refuse while binding.
- Every constraint other than the modelled foreign keys and integer columns is the `engine` parameter of the operation that writes the row. This includes NOT NULL, the unique phone number of `utilisateurs`, and the PostGIS check before it is mapped to 400. Login's `UPDATE` of `derniere_connexion` is modelled as always accepted.
- Route ids of parcels, animals and crops are natural numbers. A route id that is not a decimal integer would make PostgreSQL refuse the statement, a 500, and that is not modelled. A negative id would match no row, as a missing one does. The forum's route parameters are strings, read as PostgreSQL reads them.
- PostgreSQL 16's underscores and non-decimal prefixes in integer input are not modelled. `Postgres.PgInteger` accepts a sign and decimal digits between white space.
- `Pagination.Paginate` and the listings built on it (`CultureService.GetAll`, `CommunauteService.Forum.GetCategories`, `CommunauteService.Forum.GetPostsByCategorie`, `CommunauteService.Forum.GetCommentsByPost`, `ElevageService.ElevageTables.GetTypesAnimaux`, `ElevageService.ElevageTables.GetAnimauxUtilisateur`, `ParcelleService.ParcelTable.FindByUserId` and `PrixService.PriceTables.SearchObservations`) require a non-zero limit. With limit 0, `Math.ceil(totalItems / 0)` is `Infinity` or `NaN`, which the model has no value for. Every modelled handler replaces a 0 with its default.
- `Text.ParseIntJsRoundTrip`: reads back every decimal integer exactly. JavaScript's `parseInt` returns a double, so decimal text past 2^53 in magnitude reads back rounded (`"9007199254740993"` gives 9007199254740992), and text of more than about 308 digits reads as `Infinity`. Numbers are not modelled as doubles.
- `Text.ParseIntAutoRoundTrip`: the same exact read-back without a radix; the same rounding past 2^53 is not modelled.
- `Pagination.QueryIntReadsBack`: a page number is read as written for every integer; in JavaScript one past 2^53 in magnitude is read rounded.
- `Pagination.QueryIntAutoAgrees`: its exact-reading conjunct holds in JavaScript only up to 2^53 in magnitude.
- Page and limit are exact integers in the model (`Pagination.QueryInt`, `Pagination.QueryIntAuto`), and so is the offset `(page - 1) * limit` that the listings compute in doubles. The bigint checks of `Pagination.Window` are therefore exact for values below 2^53; a larger offset may round, in JavaScript, to a neighbour on the other side of 2^63 − 1 or 10^21. The same holds for every listing and listing handler built on `Pagination.Paginate`.
- `Sorting.SortBy`: rows that `ORDER BY` leaves tied come out in id order. PostgreSQL leaves their order unspecified, so the model fixes one of the orders the database may choose.
- Names are compared by code point (`Sorting.StrLe`). A database collation other than `C` would order names differently.
- A `LIKE` pattern ending in a lone `\` matches nothing in the model (`PriceSearch.Like`), where PostgreSQL raises an error.
- The price search's meaning is stated for market names without `%`, `_` or `\` after folding. `PriceSearch.WildcardInName` shows what differs otherwise: `ILIKE` treats those characters as wildcards. A market stored from a non-string body value is not read as its text, so it matches no name.
- SQL texts are modelled without the source's line breaks and indentation.
- The inner joins of the price search drop an observation whose product or region is NULL or missing from its list, as PostgreSQL's do. Only rows that pass the foreign keys are stored, so only a NULL id drops a stored row.
- PostgreSQL checks the two foreign keys after the values are bound. The model therefore runs the two probes only after an insert has been refused for a foreign key.
- `ParcelleService.ParcelTable.Create`: a `superficie_calculee_ha` that is not numeric is refused by PostgreSQL while the values are bound, before `culture_actuelle_id` is read and before the sequence moves. The model leaves that refusal to the `engine` verdict, after the sequence has moved. PostGIS may likewise reject the geometry text while the statement is planned, before the sequence moves; the model moves it.
- `ParcelleService.ParcelTable.Update`: a non-numeric `superficie_calculee_ha` is refused while binding, before the crop id, and a geometry text PostGIS rejects may be refused while planning; both happen whether or not the caller owns the row. The model leaves both to the `engine` verdict, which it applies only to an owned row, so for an id the caller does not own it answers `null` where PostgreSQL raises.
- `ParcelleService.Returned`, `ParcelleService.Selected` and `ParcelleService.CreateGeometry`: PostGIS's reading of a GeoJSON text and its `ST_AsGeoJSON` rendering are the table's `asGeoJSON` parameter. The stored geometry is named by the text it was built from, so two texts for one geometry are distinct rows in the model.
- `ParcelleController.UpdateParcelle`: the 404 for a row that vanished between the existence check and the update cannot happen without concurrent writes, so the model has no such answer.
- `MeteoService.DailyForecasts` keeps days in the order of their first sample. A JavaScript object would list integer-like keys first, but no `YYYY-MM-DD` key is integer-like. A `dt_txt` whose date part names an `Object.prototype` member (`toString`) is not modelled.
- `MeteoService.GetPrevisions`: a provider answer without a `list` array would throw inside the loop and become a 503. The model takes the response as already parsed into samples.
- The days produced carry no `humidity_avg`, `wind_speed_avg` or `precipitation_total`, which the weather page reads. The page is not modelled.
- `MeteoService.GetHistorique`: a failing cache query (a 500) is modelled only for dates the date input refuses. A lost connection is not modelled.
- Query strings are modelled as a map from each parameter name to one string (`PrixValidator.Query`, `MeteoValidator.Query`, `Pagination.QueryInt`). Express's parser also produces arrays for a repeated parameter (`?page=1&page=2`) and objects for bracketed keys (`?marcheNom[k]=v`). The validators check arrays element by element, and `isString()` refuses objects with a 422. None of that is modelled, so `marcheNom` never fails its string check in the model.
- A request body whose fields are not JSON values is not modelled. Numbers, booleans, `null` and objects in the parcel, price and forum bodies reach template literals and validators through the `show` parameter. Arrays are not modelled this way (see the validator lines below), and the authentication bodies hold strings only.
- Array-valued body fields are not modelled as express-validator checks them. Its sanitizers (`trim`) and standard validators (`notEmpty`, `isLength`, `isInt`, `isNumeric`, `isFloat`, `isISO8601`) run on each element and report one error per failing element, and `isString` refuses the array as a whole. The model reads an array as the one text `show` gives it and runs each rule once. The members below are stated for fields that are not arrays.
- `ParcelleValidator.NameErrors`: an array `nom_parcelle` is refused by `isString` with "Le nom de la parcelle doit être une chaîne de caractères.", which the model cannot report, and its elements are checked one by one.
- `ParcelleValidator.GeometryErrors`: `notEmpty` runs on each element of an array geometry; the model checks the array once.
- `ParcelleValidator.AreaErrors`: `isNumeric` reports one error per failing element of an array area; the model at most one.
- `ParcelleValidator.SoilErrors`: an array soil type is refused by `isString` with "Le type de sol doit être une chaîne de caractères.", which the model cannot report.
- `ParcelleValidator.CropIdErrors`: `isInt` reports one error per failing element of an array crop id; the model at most one.
- `ParcelleValidator.ParcelErrors`: an array `description` is refused by `isString` with "La description doit être une chaîne de caractères."; in the model `description` never fails. It also inherits the gaps of the five field rules.
- `PrixValidator.BoundedText`: for an array value, `isString` fails once and `isLength` runs on each trimmed element; the model counts one length check.
- `PrixValidator.RequiredId`: `notEmpty` and `isInt` run on each element of an array id (`["x","y"]` gives two "positif" errors); the model reports at most one of each.
- `PrixValidator.WhereErrors`: inherits the array gaps of `RequiredId` and `BoundedText` for the ids and the market.
- `PrixValidator.PriceErrors`: an array price is checked element by element by `notEmpty` and `isFloat`, and an array unit as in `BoundedText`; the model checks each once.
- `PrixValidator.WhenErrors`: an array date is checked element by element by `notEmpty` and `isISO8601`, and an array source as in `BoundedText`; the model checks each once.
- `PrixValidator.AddErrors`: inherits the array gaps of `WhereErrors`, `PriceErrors` and `WhenErrors`.
- `AuthController.UserStore.Register`: the body's fields are strings, so a truthy non-string value cannot be expressed. For the password (`{"mot_de_passe": 123}`) this matters: in the source it passes the presence test, `bcrypt.hash` rejects it with "Illegal arguments", and the request ends in the global handler's 500.
- `AuthController.UserStore.Login`: likewise a truthy non-string password cannot be expressed; in the source `bcrypt.compare` rejects it and the request ends in the global handler's 500.
