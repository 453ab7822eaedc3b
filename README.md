# PathFinderAI authentication and metadata core, modelled in Dafny

This project models the logic of the PathFinderAI monorepo: an education platform with a Next.js web app, an Express API server and a small YouTube-metadata service. It covers:

- **The server's request guard** `verifyJWT`. It takes the access token from the `accessToken` cookie, or else from the `Authorization` header with `Bearer ` removed. It tells an expired token apart from any other bad token. It then re-reads the user by the token's id and attaches a projection of the row to the request. Every failure ends in 401.
- **Google sign-in** `googleSignIn`. It finds the user bound to a Google subject, or creates one. It refuses with 409 an email that another account already holds. It stores the newly issued refresh token on the user and answers with the user (without `password` and `refreshToken`), both tokens in the body, and both tokens as cookies.
- **The web app's route gate** (`middleware.ts`). Signed-in users are sent from `/sign-in`/`/sign-up` to `/dashboard`. Signed-out users are sent from `/dashboard`, `/profile` and `/settings` to `/sign-in?callbackUrl=<path>`.
- **The metadata service.** This covers the YouTube id validator, the two read-through caches `searchVideos` and `getVideoDetails`, and the `/search` and `/video/:id` routes in front of them.
- **The environment check script**, which splits each app's required variable names into missing and set, and reports all good iff no app misses any.

Modules, one per file: `Wrappers` (Option, Result), `Strings` (prefixes, first occurrence, `replace`, truthiness), `Http` (the Express response: status, cookies, JSON body), `Users` (the user table and the database client), `AuthMiddleware`, `GoogleSignIn`, `RouteGate`, `YouTubeId`, `YouTubeService`, `YouTubeController`, `CheckEnv`.

The following become parameters of the model:

- **Token verification**: `jwt.verify` is a function `verify: string -> TokenCheck` returning `Decoded(id)`, `Expired` or `Invalid`.
- **Database errors**: an error thrown by the user lookup is `fault: Option<string>`.
- **Google token check**: the result of `verifyIdToken` is a `Ticket`.
- **Token issuing**: `generateTokens` is `generate: UserId -> TokenPair`.
- **Password hash**: the bcrypt hash of the random password is `hashed`.
- **Database defaults**: the columns the database fills in on create are `Defaults`.
- **Environment**: `NODE_ENV` and `process.env` are explicit values.
- **YouTube API**: the calls are `fetch` functions that return the response items or the message of what they throw. `new Date(x).toISOString()` is `toIso`.

The user table is a map from id to row. Ids are natural numbers handed out from a counter. `findFirst` returns the matching row with the smallest id. The Redis cache is a map from key to payload and TTL.

Three behaviours of the code are worth stating plainly:
- **Guard errors.** The guard does not hide the caught error: it rethrows 401 with `error?.message`, and uses "Authentication failed. Please login again." only when that message is empty (`apps/server/src/middleware/auth.middleware.js:57-62`). `Rethrow` and `LookupFailuresAre401` state exactly that.
- **ID-token rejection.** A Google ID token that `verifyIdToken` rejects is not turned into an `ApiError`: the library's error propagates (`apps/server/src/controllers/GoogleSignIn.controller.js:17-20`), so its status is decided by an error handler that is not part of this model. `SignIn` returns `TicketRejected(reason)`.
- **Guard projection.** The guard's `select` leaves out `providerId` as well as `password` and `refreshToken`. Sign-in's stripping keeps `providerId`. These are two different projections: `SessionUser` and `PublicUser`.

## Model

| member | source | states |
|---|---|---|
| Strings.ReplaceFirst | apps/server/src/middleware/auth.middleware.js:10 | `replace` with a string pattern: a string without the pattern is returned as it is; otherwise exactly the first occurrence is replaced |
| AuthMiddleware.ExtractToken | apps/server/src/middleware/auth.middleware.js:8-10 | a truthy cookie is the token; an empty or absent cookie and no header give no token; otherwise the token is the header with its first `Bearer ` removed |
| AuthMiddleware.Select | apps/server/src/middleware/auth.middleware.js:35-48 | the attached user carries exactly the selected columns of the row (id, email, username, avatar, provider, phoneNo, role, timestamps); its type has no password, refresh-token or provider-id field |
| AuthMiddleware.Rethrow | apps/server/src/middleware/auth.middleware.js:57-62 | the outer catch always yields status 401, keeps a non-empty message, and turns an empty one into "Authentication failed. Please login again." |
| AuthMiddleware.Guard | apps/server/src/middleware/auth.middleware.js:8-56 | every answered request has status 401 and `success: false`, every thrown error has status 401; a missing token (no cookie and no header, or an empty result) is answered 401 "Authentication required. Please login."; the request is admitted iff the token is truthy, verifies to an id, the lookup does not throw and the id has a row, and then the attached user is that row's projection |
| AuthMiddleware.CookieTakesPrecedence | apps/server/src/middleware/auth.middleware.js:8-10 | with a truthy cookie the Authorization header has no influence on the verdict |
| AuthMiddleware.EmptyCookieFallsBackToHeader | apps/server/src/middleware/auth.middleware.js:9-10 | an empty cookie is treated like an absent one |
| AuthMiddleware.BearerHeaderYieldsRest | apps/server/src/middleware/auth.middleware.js:10 | `Bearer <t>` yields `<t>`; only the first `Bearer ` is removed |
| AuthMiddleware.HeaderWithoutBearerIsVerbatim | apps/server/src/middleware/auth.middleware.js:10 | a header not containing `Bearer ` is the token as it is |
| AuthMiddleware.BareBearerIsMissingToken | apps/server/src/middleware/auth.middleware.js:10-18 | a header of exactly `Bearer ` counts as no token: 401 "Authentication required. Please login." |
| AuthMiddleware.ExpiredIsToldApartFromInvalid | apps/server/src/middleware/auth.middleware.js:8-32 | whether the token came from the cookie or the `Authorization` header, an expired token is answered with 401 "Token has expired. Please login again." and any other rejected token throws 401 "Invalid token. Please login again."; the two messages differ |
| AuthMiddleware.LookupFailuresAre401 | apps/server/src/middleware/auth.middleware.js:8-62 | for a token from either source that verifies to an id: no row throws 401 "User not found. Please login again."; a lookup that throws becomes 401 with its own message, or with "Authentication failed. Please login again." when that message is empty |
| AuthMiddleware.OnlyTheDecodedRowMatters | apps/server/src/middleware/auth.middleware.js:35-36 | the verdict depends on the table only through the row under the decoded id |
| AuthMiddleware.VerifyJwt | apps/server/src/middleware/auth.middleware.js:5-63 | the middleware does what `Guard` decides: on admission it sets `req.user` and calls `next` once, leaving the response untouched; on a direct answer it writes status and body and leaves `req.user` unset; on a throw it touches neither |
| Users.FirstFrom | apps/server/src/controllers/GoogleSignIn.controller.js:24-29 | the id found is in range, has a matching row, and no smaller id in range has one; no id is found only if no row in range matches |
| Users.FirstFromFinds | apps/server/src/controllers/GoogleSignIn.controller.js:24-29 | a matching row with no matching row before it is the one the scan returns |
| Users.LookupMissesIffNoMatch | apps/server/src/controllers/GoogleSignIn.controller.js:24-33 | on a valid table a lookup misses exactly when no row matches |
| Users.LookupByEmailIsUnique | apps/server/src/controllers/GoogleSignIn.controller.js:33 | since emails are unique, looking up a row's email finds that row, whatever its provider |
| Users.Build | apps/server/src/controllers/GoogleSignIn.controller.js:39-48 | a created row carries the given id, the supplied email, username, avatar, provider, provider id and password, the database's default role and timestamps, and no refresh token and no phone number |
| Users.UserStore.FindById | apps/server/src/middleware/auth.middleware.js:35-36 | the lookup by id finds the row iff one is stored under that id |
| Users.UserStore.FindFirst | apps/server/src/controllers/GoogleSignIn.controller.js:24-33 | returns the row of the first matching id, or nothing when there is none |
| Users.UserStore.Create | apps/server/src/controllers/GoogleSignIn.controller.js:39-48 | inserts exactly one row under the next id and advances the counter |
| Users.UserStore.UpdateRefreshToken | apps/server/src/controllers/GoogleSignIn.controller.js:55-58 | overwrites only the refresh token of the given row, reporting whether that row exists |
| GoogleSignIn.Strip | apps/server/src/controllers/GoogleSignIn.controller.js:60 | the response user keeps every column except `password` and `refreshToken`, which its type does not have |
| GoogleSignIn.CookieOptionsFor | apps/server/src/controllers/GoogleSignIn.controller.js:63-67 | cookies are httpOnly and sameSite strict, and secure iff `NODE_ENV` is "production" |
| GoogleSignIn.GoogleUser | apps/server/src/controllers/GoogleSignIn.controller.js:40-47 | a first Google sign-in creates the user with the payload's email, name as username, picture as avatar, provider "google", the subject as provider id and the hashed random password |
| GoogleSignIn.SessionCookies | apps/server/src/controllers/GoogleSignIn.controller.js:69-72 | exactly two cookies, `accessToken` then `refreshToken`, carrying the body's token values, both with those options |
| GoogleSignIn.SignIn | apps/server/src/controllers/GoogleSignIn.controller.js:10-84 | a rejected ID token fails before the table is touched; the two modelled failures (rejected ID token, 409) leave the table unchanged; on success the resolved row is a Google row with the payload's subject, its stored refresh token is the one returned, the returned tokens are those issued for its id, the returned user is its stripped row, and no other row changes |
| GoogleSignIn.SignInPreservesValid | apps/server/src/controllers/GoogleSignIn.controller.js:31-58 | sign-in keeps ids in place and below the counter and keeps emails unique |
| GoogleSignIn.SignInKeepsSubjectsUnique | apps/server/src/controllers/GoogleSignIn.controller.js:24-49 | sign-in never creates a second Google row for a subject |
| GoogleSignIn.FirstSignInCreatesOneUser | apps/server/src/controllers/GoogleSignIn.controller.js:38-58 | an unbound subject with a free email adds exactly one row under the next id: a Google row with the payload's subject, email, name, picture, the hashed password and the issued refresh token |
| GoogleSignIn.TakenEmailIsRefused | apps/server/src/controllers/GoogleSignIn.controller.js:31-36 | an unbound subject whose email any row holds, a Google row with another subject included, gets 409 "Email already registered with another account" and the table is unchanged |
| GoogleSignIn.BoundSubjectReusesRow | apps/server/src/controllers/GoogleSignIn.controller.js:24-58 | a bound subject signs in as its row; only that row's refresh token changes and no row is added |
| GoogleSignIn.ReSignInIsIdempotent | apps/server/src/controllers/GoogleSignIn.controller.js:24-58 | after a successful sign-in, signing in again with the same subject resolves to the same id and adds no row |
| GoogleSignIn.HandleGoogleSignIn | apps/server/src/controllers/GoogleSignIn.controller.js:10-84 | the handler changes the table as `SignIn` says; on success it answers 200 with the two cookies and an `ApiResponse(200, {user, accessToken, refreshToken}, "Google sign-in successful")`; on failure it throws that error and leaves the response untouched |
| RouteGate.Gate | apps/web/middleware.ts:11-39 | a redirect is either signed-in on an auth page to `/dashboard` or signed-out on a protected page to `/sign-in?callbackUrl=` plus the raw pathname; the request passes iff neither applies |
| RouteGate.ProtectedAndAuthAreDisjoint | apps/web/middleware.ts:18-25 | no pathname is both protected and an authentication page |
| RouteGate.SignedInLeavesAuthPages | apps/web/middleware.ts:24-30 | signed in on `/sign-in…` or `/sign-up…` redirects to `/dashboard` |
| RouteGate.SignedOutLeavesProtectedPages | apps/web/middleware.ts:18-37 | signed out on a protected page redirects to `/sign-in?callbackUrl=` followed by the pathname verbatim |
| RouteGate.MatchingStatePasses | apps/web/middleware.ts:28-39 | signed in on a protected page, or signed out on an auth page, passes |
| RouteGate.UnlistedPathPasses | apps/web/middleware.ts:28-39 | a pathname under neither list passes whatever the session state |
| RouteGate.PrefixIsRaw | apps/web/middleware.ts:19-25 | classification is a raw, case-sensitive prefix test: `/dashboards`, `/profile-x` protected, `/sign-inx` an auth page, `/dash` and `/Dashboard` not protected |
| RouteGate.SignInTargetPath | apps/web/middleware.ts:35 | the sign-in redirect's pathname is `/sign-in` whatever pathname is appended |
| RouteGate.NoRedirectLoop | apps/web/middleware.ts:28-39 | the target of any redirect, requested in the same session state, passes through |
| RouteGate.Middleware | apps/web/middleware.ts:5-51 | a path the matcher selects gets exactly the gate's decision; a path it does not select passes untouched |
| RouteGate.DeployedNoRedirectLoop | apps/web/middleware.ts:5-51 | behind the matcher, the target of any redirect, requested in the same session state, passes through |
| RouteGate.UnmatchedPrefixIsNotGated | apps/web/middleware.ts:19-51 | `/dashboards` passes the prefix test, so the gate alone would redirect a signed-out visitor, but the matcher never selects it and it passes |
| RouteGate.MatcherSelectsOnlyListedPaths | apps/web/middleware.ts:43-51 | every path the matcher hands to the middleware is protected or an auth page |
| YouTubeId.ClassRun | apps/youtube-scraper/src/utils/helpers.js:11 | `[a-zA-Z0-9_-]{n}` matches at a position iff n characters of the class follow it, and ends n characters later |
| YouTubeId.NoMatchAfterStart | apps/youtube-scraper/src/utils/helpers.js:11 | the `^`-anchored pattern matches at no position but the first |
| YouTubeId.ValidateYouTubeId | apps/youtube-scraper/src/utils/helpers.js:10-13 | `validateYouTubeId(id)` is true iff `id` is eleven characters long and each is an ASCII letter, digit, `_` or `-` |
| YouTubeId.SearchMatchesReading | apps/youtube-scraper/src/utils/helpers.js:11-12 | the engine's search over start positions, with `^` and `$` anchors, succeeds iff `id` has length 11 and every character is an ASCII letter, digit, `_` or `-` |
| YouTubeId.TrailingCharacterIsRefused | apps/youtube-scraper/src/utils/helpers.js:11 | a valid id followed by any character, a newline included, is refused |
| YouTubeId.EmptyIsRefused | apps/youtube-scraper/src/utils/helpers.js:10-13 | the empty string is refused |
| YouTubeId.Examples | apps/youtube-scraper/src/utils/helpers.js:11-12 | sample ids of the right and wrong length and alphabet are accepted and refused accordingly |
| YouTubeService.SearchKey | apps/youtube-scraper/src/services/youtube.service.js:8 | a search key is `youtube:search:` followed by the query |
| YouTubeService.VideoKey | apps/youtube-scraper/src/services/youtube.service.js:49 | a video key is `youtube:video:` followed by the id |
| YouTubeService.PrefixesExclude | apps/youtube-scraper/src/services/youtube.service.js:8-49 | no key starts with both prefixes |
| YouTubeService.KeyFamiliesDisjoint | apps/youtube-scraper/src/services/youtube.service.js:8-49 | no search key equals any video key |
| YouTubeService.Transform | apps/youtube-scraper/src/services/youtube.service.js:30-37 | the results have the items' length and order; each videoId, title, channel, thumbnail and description is copied from its own item and publishedAt is its normalised date |
| YouTubeService.ToDetails | apps/youtube-scraper/src/services/youtube.service.js:66-73 | details copy duration, views, likes and comments from the item, and tags default to the empty list |
| YouTubeService.Search | apps/youtube-scraper/src/services/youtube.service.js:7-46 | a hit returns the stored results and changes nothing; a failure leaves the cache unchanged; a miss whose API call succeeds returns the transformed items and stores exactly them under the search key with TTL 3600; any success leaves the returned results stored under the search key; a failed API call on a miss yields "YouTube API Error: " followed by its message; no other key changes; the cache stays well-typed |
| YouTubeService.Details | apps/youtube-scraper/src/services/youtube.service.js:48-80 | the same for video details under the video key: a miss whose API call returns items succeeds with the first item's details, stored with TTL 3600; a failed API call on a miss yields "Video details error: " followed by its message, and an empty item list yields "Video details error: " followed by the `TypeError` text of reading `contentDetails` of `undefined` |
| YouTubeService.SearchIsReadThrough | apps/youtube-scraper/src/services/youtube.service.js:7-46 | a successful miss fetches with `maxResults` defaulting to 10, stores the transformed items with TTL 3600, and a repeated search with any `maxResults` returns the same value from the cache without change |
| YouTubeService.DetailsIsReadThrough | apps/youtube-scraper/src/services/youtube.service.js:48-80 | a successful miss stores the first item's details with TTL 3600, and a repeated request returns them from the cache without change |
| YouTubeService.SearchVideos | apps/youtube-scraper/src/services/youtube.service.js:7-46 | the client-level search returns and stores what `Search` says, errors prefixed "YouTube API Error: " |
| YouTubeService.GetVideoDetails | apps/youtube-scraper/src/services/youtube.service.js:48-80 | the client-level details call returns and stores what `Details` says, errors prefixed "Video details error: " |
| YouTubeController.MaxOrDefault | apps/youtube-scraper/src/controllers/youtube.controller.js:16 | a missing or empty `max` becomes 10, any other `max` is passed on unchanged |
| YouTubeController.SearchRoute | apps/youtube-scraper/src/controllers/youtube.controller.js:8-21 | a missing or empty `q` answers 400 "Search query required" without touching the cache; otherwise the service's results are sent, or its error as 500 `{error}` |
| YouTubeController.VideoRoute | apps/youtube-scraper/src/controllers/youtube.controller.js:25-33 | the id reaches the service unchanged and unvalidated; the details are sent, or the error as 500 `{error}` |
| CheckEnv.MissingOf | scripts/check-env.js:55-61 | the missing list is no longer than `vars` and holds only required names that are absent or empty |
| CheckEnv.PresentOf | scripts/check-env.js:55-61 | the set list is no longer than `vars` and holds only required names that are set non-empty |
| CheckEnv.MissingAndPresentPartition | scripts/check-env.js:52-61 | the missing and set lists together hold every name of `vars` exactly as often as `vars` does |
| CheckEnv.MembershipIsByValue | scripts/check-env.js:55-61 | a name is listed missing iff it is required and absent or empty, and listed set iff it is required and non-empty |
| CheckEnv.NoneMissingIffAppOk | scripts/check-env.js:63-71 | nothing is missing iff every required name is set |
| CheckEnv.CheckEnvVars | scripts/check-env.js:49-72 | the loop builds the two lists in input order and returns true iff every name is set |
| CheckEnv.CheckAll | scripts/check-env.js:97-106 | `allGood` is true iff every app passes, and every app's check is made, in order, even after one fails: the i-th report is app i's name with exactly its missing and its set names |
| CheckEnv.AllGoodIffRequiredNamesSet | scripts/check-env.js:16-46 | with the script's own table, all is good iff each of the nine distinct required names is set non-empty |

## Left out

- Cryptography is out of scope. JWT signing and verification, Google's `verifyIdToken` and bcrypt are parameters, not models. The Google audience check is commented out in the source and is not modelled.
- `generateTokens`, and the register, login, refresh and logout flows, live in `apps/server/src/controllers/User.controller.js`. That file is not part of this model. Whether `generateTokens` writes the refresh token itself, and any rotation policy, are therefore not modelled.
- `generateRandomPassword` uses `Math.random`, so the hash of its result is the `hashed` parameter.
- `ApiError`, `ApiResponse`, `asyncHandler` and the Express error handler are not part of this model. So the HTTP status a thrown error finally produces is not modelled, and neither is the `success` field of `ApiResponse`. Thrown errors are results of the model.
- The schema is not part of this model. A created row takes its role and timestamps from `Defaults`. The model does not update `updatedAt` when the refresh token is written.
- A Google payload without `email` makes the email lookup throw, but only when the subject is not yet bound to a user: a bound subject skips that lookup and the create, and signs in without an email. A token whose payload has no `id` makes the database client throw. The model treats both fields as always present.
- GoogleSignIn.SignIn: token issuing (`generateTokens`, line 52), `bcrypt.hash` and the four database calls are treated as never throwing. In the code, a throw from `generateTokens` or from the refresh-token `update` (line 55) after a first-time `create` (line 39) leaves the new row in the table with no refresh token; the model does not produce that state.
- Concurrency is not modelled: the race between the email check and the create, and last-writer-wins refresh-token writes. Each flow runs to completion on the table it started with.
- `console.log` of the ID token and every other log line is not modelled.
- `middleware.ts`: `getToken` is reduced to the boolean `isAuthenticated`. Redirect targets are same-origin path strings, not `URL` objects. `MatcherSelects` reads `/<route>/:path*` as "the route itself or anything below it" and ignores trailing-slash normalisation.
- `youtube.service.js:2` imports `redis` as a default export, but `helpers.js:3` only exports it by name. The model assumes the import resolves to the client.
- Redis itself: client construction, connection failures of `get`/`setex`, and expiry over time are not modelled. An entry records only the TTL it was written with.
- Cache values are stored as structured values. The `JSON.stringify`/`JSON.parse` round trip is not modelled.
- `toIso` stands for `new Date(x).toISOString()`. The `RangeError` it throws on an unparseable date is not modelled.
- HTTP transport and the API key are not modelled.
- A query-string parameter given more than once (an array value) is not modelled. `q`, `max` and the path id are strings.
- `check-env.js`: `dotenv`, the `.env` file report (`checkEnvFiles`) and the console output are not modelled. `reports` stands for the per-app lists the script prints.
- UI components and pages, build and deploy scripts, configuration, and server start-up wiring are not modelled.
