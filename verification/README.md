# spammerino-api users routes, modelled in Dafny

spammerino-api is a small HTTP API over Twitch. Given a Twitch user name, it
answers three routes:

- the user's profile, from `GET /users/{userName}`;
- a search of users by partial name, from `GET /users/search/{userName}`;
- every emote the user's channel can show, from `GET /users/{userName}/emotes`.

The emotes are the global and channel emotes of Twitch, BTTV, 7TV and FFZ, fetched through an emote library.

This project models the logic around the library calls. That is:

- `mapUser`, which projects a library user onto the response record;
- the search pipeline: look up every hit, drop the `null`s, sort by display name;
- `TwitchEmotes.fetchEmotes`, which makes eight fetches and flattens them;
- the handlers' decisions between 200 and 404.

The Twitch API client, the emote library and the locale's collation are parameters. The model takes whatever they answer, with two assumptions: a collection the library returns has distinct keys, and the sortedness of search results holds for a collation that is consistent (it flips sign when its arguments swap and is transitive).

Modules, one per source file plus one for the JavaScript semantics the code relies on:

- `JsRuntime` (`jsruntime.dfy`) models:
  - `null` as `Option`;
  - awaited promises as `Settled`, either `Fulfilled` or `Rejected`;
  - `Promise.all` as `All`;
  - truthiness tests;
  - the unary `+` applied to a user id.
- `UserModel` (`user_model.dfy`) models `src/routes/users/user.model.ts`:
  - the library user `HelixUser` and the response record `User`;
  - `mapUser`;
  - the `Emote` record and its four `type` values;
  - the fields of `selectUsersSchema` and `selectEmotesSchema`.
- `TwitchEmotesService` (`twitch_emotes_service.dfy`) models `src/core/twitch-emotes.service.ts`:
  - `TwitchEmotes` is a class whose constructor sets `fetcher` and `emoteParser` once.
  - `FetchEmotes` is proved equal to the specification function `FetchEmotesResult`.
  - Lemmas give order, length, per-entry content and all-or-nothing failure.
- `UsersHandlers` (`users_handlers.dfy`) models `src/routes/users/users.handlers.ts`:
  - the shared lookups and the three registered handlers;
  - the search's sort, modelled as a stable insertion sort, with its sortedness and permutation proofs.

Three behaviours of the code are worth stating up front:

- One failed emote fetch fails the whole `fetchEmotes`: the eight fetches go to `Promise.all` without a `catch` (src/core/twitch-emotes.service.ts:30-41), and the emotes handler rethrows the failure. `FetchEmotesAllOrNothing` states this.
- One failed user lookup fails the whole search: the lookups go to `Promise.all` without a `catch` (src/routes/users/users.handlers.ts:39). `SearchUserRecords` states this.
- All four providers are fetched, FFZ included: first the four global collections, then the four channel ones. `EmoteRequestsCoverProvidersOnce` states this.

## Model

| member | source | states |
|---|---|---|
| `JsRuntime.All` | src/core/twitch-emotes.service.ts:30-41 | `Promise.all`: fulfilled exactly when every promise is, then with every value in argument order; otherwise rejected with the reason of one of the rejected promises |
| `JsRuntime.ToNumber` | src/routes/users/users.handlers.ts:77 | `+id`: NaN exactly when the id has a non-digit character; 0 exactly when every character is `0` (the empty id included); never negative |
| `JsRuntime.ToNumberOfDecimalString` | src/routes/users/users.handlers.ts:77 | converting the decimal form of a number `n` back with `+` gives `n`, so a numeric id keeps its value |
| `UserModel.MapUser` | src/routes/users/user.model.ts:6-21 | `null` exactly for `null`; otherwise every field of the record equals the input's property of the same name, and no other field exists |
| `UserModel.UserFieldsAreSchemaFields` | src/routes/users/user.model.ts:24-34 | a user record has exactly the nine fields of `selectUsersSchema`; eight hold strings and `creationDate` holds the library's date |
| `UserModel.MapUserInjective` | src/routes/users/user.model.ts:10-20 | on the model's library user, which has exactly the nine projected properties, two users with the same projection are equal: `mapUser` copies every one of them unchanged |
| `UserModel.EmoteFieldsAreSchemaFields` | src/routes/users/user.model.ts:36-46 | an emote has exactly the fields `name`, `link`, `type` of `selectEmotesSchema` |
| `TwitchEmotesService.TypeTagDeclared` | src/core/twitch-emotes.service.ts:50 | the lowercased name of each of the library's four emote classes is one of `twitchemote`, `bttvemote`, `seventvemote`, `ffzemote`, and it names that class back |
| `TwitchEmotesService.DeclaredTagsAreClassTags` | src/core/twitch-emotes.service.ts:3-7 | each of the four declared `Emote.type` values is the lowercased name of exactly one library emote class |
| `TwitchEmotesService.ToEmote` | src/core/twitch-emotes.service.ts:47-51 | for an ASCII constructor name, an entry's `Emote` has a `type` as long as that name. When that name is one of the library's four classes, the `type` is among the four declared values and names that class |
| `TwitchEmotesService.UncheckedTypeCast` | src/core/twitch-emotes.service.ts:50 | the cast is unchecked: an emote object whose constructor is named `Emote` gets the `type` `emote`, which is not one of the four declared values |
| `TwitchEmotesService.EmoteRequestsCoverProvidersOnce` | src/core/twitch-emotes.service.ts:30-41 | there are exactly eight fetches: each provider once globally and once for the channel, and nothing else. The four global fetches come first. Within each scope the order is Twitch, BTTV, 7TV, FFZ |
| `TwitchEmotesService.EmotesOfLength` | src/core/twitch-emotes.service.ts:43-51 | there are as many emotes as entries in all collections together, so nothing is dropped or deduplicated |
| `TwitchEmotesService.EmotesOfAt` | src/core/twitch-emotes.service.ts:43-51 | entry `k` of collection `i` becomes the emote at position (size of the earlier collections + `k`). Its name is the entry's key, its link is `toLink(1)`, and its type is the lowercased class name |
| `TwitchEmotesService.EmotesOfAppend` | src/core/twitch-emotes.service.ts:43-45 | flattening distributes over concatenation of the collection list |
| `TwitchEmotesService.FetchEmotesAllOrNothing` | src/core/twitch-emotes.service.ts:30-41 | `fetchEmotes` succeeds exactly when all eight fetches do; otherwise it fails with the reason of one failed fetch |
| `TwitchEmotesService.FetchEmotesConcatenates` | src/core/twitch-emotes.service.ts:29-54 | when the eight fetches give collections `cs`, the result is the emotes of `cs` in request order, and there are exactly as many as `cs` holds entries |
| `TwitchEmotesService.TwitchEmotes.constructor` | src/core/twitch-emotes.service.ts:12-23 | builds `fetcher` as `FetcherFor(env, network)`, that is, with the client id and secret from the environment, and `emoteParser` from that fetcher, the HTML template and the match expression with its global flag |
| `TwitchEmotesService.TwitchEmotes.FetchEmotes` | src/core/twitch-emotes.service.ts:29-54 | returns `FetchEmotesResult(fetcher, channelId)`; with no `modifies` clause it reassigns neither field |
| `UsersHandlers.UserByName` | src/routes/users/users.handlers.ts:13-21 | an empty name gives `null` whatever the API would answer. Otherwise a failed lookup fails with the same reason, the result is `null` exactly when the lookup finds nobody, and a found user is projected field by field |
| `UsersHandlers.GetUserByUsername` | src/routes/users/users.handlers.ts:53-65 | 404 exactly when the name is empty or the lookup finds nobody, with the message `User "<userName>" not found`. Otherwise 200 with `mapUser` of the found user. A failed lookup is rethrown with the lookup's own reason |
| `UsersHandlers.EmotesForUserId` | src/routes/users/users.handlers.ts:22-30 | a falsy id (0 or NaN) gives `null`. Otherwise the result is what a newly built service's `fetchEmotes` gives for that id |
| `UsersHandlers.EmotesByUsername` | src/routes/users/users.handlers.ts:70-79 | `null` when the name resolves to no user; otherwise the emotes for `+user.id`; a failed lookup is passed on |
| `UsersHandlers.GetEmotesByUsername` | src/routes/users/users.handlers.ts:67-91 | 404 with `User "<userName>" not found` for an empty name, for a lookup that finds nobody, and for an id that converts to 0 or NaN. Otherwise 200 with exactly the fetched emotes, an empty list included. A failure of the lookup or of any emote fetch is rethrown |
| `UsersHandlers.NonNullUsers` | src/routes/users/users.handlers.ts:41 | the filter keeps each non-null user exactly as often as it occurs, and no more users than its input |
| `UsersHandlers.SortByDisplayName` | src/routes/users/users.handlers.ts:41 | the sort is a permutation of its input |
| `UsersHandlers.SortIsSorted` | src/routes/users/users.handlers.ts:41 | under a consistent comparison the sort gives ascending display names |
| `UsersHandlers.ShapeSearchResults` | src/routes/users/users.handlers.ts:41 | the results are exactly the projections of the non-null users, and there are no more of them than users looked up |
| `UsersHandlers.UsersOfHits` | src/routes/users/users.handlers.ts:39-41 | succeeds exactly when every hit's lookup does, and then holds exactly the projected non-null users, at most one per hit. Otherwise it fails with the reason of one failed lookup |
| `UsersHandlers.SearchUserRecords` | src/routes/users/users.handlers.ts:32-42 | the search is sent with limit 5. The result succeeds exactly when the search and every lookup do. It then holds exactly the projected non-null users, at most one per search hit. A failed search fails it with the search's reason; otherwise a failure carries the reason of one failed lookup |
| `UsersHandlers.SearchResultsSorted` | src/routes/users/users.handlers.ts:41 | successful search results are in ascending display-name order under a consistent collation |
| `UsersHandlers.SearchResultsArePermutation` | src/routes/users/users.handlers.ts:35-41 | successful search results hold each non-null projected user exactly as often as the lookups do. When the search keeps its limit, there are at most 5 |
| `UsersHandlers.SearchUsers` | src/routes/users/users.handlers.ts:93-107 | a completed search always answers 200 with the search results, possibly none, so the `Users "<userName>" not found` branch is unreachable. A failed search or lookup is rethrown with the same reason |

## Left out

- The Twitch API client (`getUserByName`, `searchChannels`, a search hit's `getUser`) is a parameter, `UsersHandlers.TwitchApi`. So is the emote library's network behaviour: the `fetch*Emotes` calls are `TwitchEmotesService.Network`, and `toLink` is a field of each library emote. These are foreign libraries doing network I/O.
- Concurrency: the model evaluates the fetches of `Promise.all` in order. It does not model timing.
- JsRuntime.All: states only that the reason is that of some rejected promise. `Promise.all` rejects with the earliest rejection in time, and timing is not modelled; the body picks the first rejection by position.
- `localeCompare`'s collation is the parameter `Collation`. Sortedness is proved for any comparison that flips sign when its arguments swap and is transitive. The model does not fix a locale.
- SortByDisplayName: the contract does not say how users whose display names compare equal are ordered. `Array.prototype.sort` is stable, and so is the insertion sort, but stability is not stated. For an inconsistent comparison, JavaScript's order is implementation-defined; the model gives the insertion sort's order.
- ToEmote: `toLowerCase` is modelled on ASCII only: `A`-`Z` become `a`-`z` and every other character is kept. The library's emote classes and their base class `Emote` have ASCII names. JavaScript lowercases all of Unicode, and for some characters (such as `İ`) the result is longer than its input, so for non-ASCII constructor names the model's `type` differs, and the length clause is stated only for ASCII names.
- ToNumber: converts only the empty string and strings of decimal digits, the form Twitch user ids take. Other forms JavaScript's `+` accepts are mapped to NaN: surrounding whitespace, a sign, a fraction, an exponent, the `0x`/`0o`/`0b` prefixes, `Infinity`. Numbers are unbounded integers, so precision loss above 2^53 is not modelled.
- `TwitchEmotes.parse` and the parser's behaviour: these live in the emote library. The model keeps only the parser's configuration: the template, and the match expression's source and flags.
- The badges route (`getBadgesByUsername`, `_getUserBadges`) is left out. It calls a `fetchBadges` that `TwitchEmotes` does not define, and the route is not registered in `src/routes/users/users.index.ts`.
- src/core/twitch-singleton.ts is not part of this model. It lazily builds an authenticated client from credentials.
- Routing, OpenAPI metadata, request validation (the 422 answers), CORS and server start-up are left out. So is the framework's answer to a rethrown error. In the model a rethrown error is a `Rejected` outcome.
- JSON serialisation of `creationDate` is left out. `mapUser` passes the library's date through unchanged (`FieldValue.Date`), while `selectUsersSchema` declares a string; the framework does the conversion.
- Collections are modelled as sequences of entries with distinct keys, in iteration order. The library's `Collection` class itself is not modelled.
