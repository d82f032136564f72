/** The `/users` route handlers and the shared lookups behind them: a user by
    name, a user's emotes, and a search of users by partial name. The Twitch
    API client's answers are a parameter (`TwitchApi`); so is the collation
    `localeCompare` applies. */
module UsersHandlers {
  import opened JsRuntime
  import opened UserModel
  import opened TwitchEmotesService

  /** One hit of a channel search, as far as the handlers use it: it is only
      passed back to the library to look its user up. */
  datatype ChannelSearchResult = ChannelSearchResult(id: string, name: string, displayName: string)

  /** The options a channel search is sent with. */
  datatype SearchOptions = SearchOptions(limit: nat)

  /** The number of channels a search asks for. */
  const SearchLimit: nat := 5

  /** What the Twitch API client answers: `users.getUserByName(name)`,
      `search.searchChannels(query, options).data` and a search hit's `getUser()`. */
  datatype TwitchApi = TwitchApi(
    getUserByName: string -> Settled<Option<HelixUser>>,
    searchChannels: (string, SearchOptions) -> Settled<seq<ChannelSearchResult>>,
    getUser: ChannelSearchResult -> Settled<Option<HelixUser>>)

  /** A JSON response of a handler: 200 with a body, or 404 with a message. */
  datatype Response<T> = Ok(body: T) | NotFound(message: string) {
    function Status(): int {
      if Ok? then 200 else 404
    }
  }

  /** `a.localeCompare(b)`: negative when `a` sorts first, zero when the two
      compare equal, positive when `b` sorts first. */
  type Collation = (string, string) -> int

  /** A comparison `Array.prototype.sort` can rely on: swapping the arguments
      flips the sign, and "sorts no later than" is transitive. `localeCompare`
      is one such comparison for any fixed locale. */
  ghost predicate ConsistentComparison(cmp: Collation) {
    && (forall a, b :: cmp(a, b) < 0 <==> cmp(b, a) > 0)
    && (forall a, b, c :: cmp(a, b) <= 0 && cmp(b, c) <= 0 ==> cmp(a, c) <= 0)
  }

  /** Users in ascending order of `displayName` under `cmp`. */
  ghost predicate SortedByDisplayName(us: seq<User>, cmp: Collation) {
    forall i, j | 0 <= i < j < |us| :: cmp(us[i].displayName, us[j].displayName) <= 0
  }

  // ---------------------------------------------------------------------------
  // A user by name

  /** `_getUserByUsername(userName)`: `null` for an empty name, without asking
      the API; otherwise the projection of what the lookup answers. */
  function UserByName(userName: string, api: TwitchApi): (r: Settled<Option<User>>)
    ensures userName == "" ==> r == Fulfilled(None)
    ensures userName != "" ==> (r.Rejected? <==> api.getUserByName(userName).Rejected?)
    ensures userName != "" && r.Rejected? ==> r.reason == api.getUserByName(userName).reason
    ensures r.Fulfilled? && userName != "" ==>
      (r.value.None? <==> api.getUserByName(userName) == Fulfilled(None))
    ensures r.Fulfilled? && r.value.Some? ==>
      && api.getUserByName(userName).Fulfilled?
      && api.getUserByName(userName).value.Some?
      && forall f :: r.value.value.Field(f) == api.getUserByName(userName).value.value.Property(f)
  {
    if !StringTruthy(userName) then Fulfilled(None)
    else
      match api.getUserByName(userName)
      case Rejected(e) => Rejected(e)
      case Fulfilled(data) => Fulfilled(MapUser(data))
  }

  /** `getUserByUsername`: 404 with `User "<userName>" not found` when no user
      comes back, 200 with the user record otherwise; a failed lookup is
      rethrown. */
  function GetUserByUsername(userName: string, api: TwitchApi): (r: Settled<Response<User>>)
    ensures r.Rejected? <==> userName != "" && api.getUserByName(userName).Rejected?
    ensures r.Rejected? ==> r.reason == api.getUserByName(userName).reason
    ensures r.Fulfilled? ==>
      (r.value.NotFound? <==> userName == "" || api.getUserByName(userName) == Fulfilled(None))
    ensures r.Fulfilled? && r.value.NotFound? ==>
      r.value.message == "User \"" + userName + "\" not found" && r.value.Status() == 404
    ensures r.Fulfilled? && r.value.Ok? ==>
      && r.value.Status() == 200
      && api.getUserByName(userName).Fulfilled?
      && MapUser(api.getUserByName(userName).value) == Some(r.value.body)
  {
    match UserByName(userName, api)
    case Rejected(e) => Rejected(e)
    case Fulfilled(user) =>
      if !ObjectTruthy(user) then Fulfilled(NotFound("User \"" + userName + "\" not found"))
      else Fulfilled(Ok(user.value))
  }

  // ---------------------------------------------------------------------------
  // A user's emotes

  /** `_getUserEmotes(userId)`: `null` for a falsy id (0 or NaN), otherwise what
      a newly built `TwitchEmotes` service fetches for that id. */
  method EmotesForUserId(userId: JsNumber, env: Env, network: Network) returns (r: Settled<Option<seq<Emote>>>)
    ensures !NumberTruthy(userId) ==> r == Fulfilled(None)
    ensures NumberTruthy(userId) ==> r == AsNullable(FetchEmotesResult(FetcherFor(env, network), userId.n))
  {
    if !NumberTruthy(userId) {
      return Fulfilled(None);
    }
    var service := new TwitchEmotes(env, network);
    var emotes := service.FetchEmotes(userId.n);
    r := AsNullable(emotes);
  }

  /** The helper inside `getEmotesByUsername`: `null` when the name resolves to
      no user, otherwise the emotes for the numeric form of the user's id. */
  method EmotesByUsername(userName: string, api: TwitchApi, env: Env, network: Network)
    returns (r: Settled<Option<seq<Emote>>>)
    ensures UserByName(userName, api).Rejected? ==> r == Rejected(UserByName(userName, api).reason)
    ensures UserByName(userName, api) == Fulfilled(None) ==> r == Fulfilled(None)
    ensures UserByName(userName, api).Fulfilled? && UserByName(userName, api).value.Some? ==>
      var id := ToNumber(UserByName(userName, api).value.value.id);
      r == if NumberTruthy(id) then AsNullable(FetchEmotesResult(FetcherFor(env, network), id.n)) else Fulfilled(None)
  {
    var user := UserByName(userName, api);
    if user.Rejected? {
      return Rejected(user.reason);
    }
    if !ObjectTruthy(user.value) {
      return Fulfilled(None);
    }
    r := EmotesForUserId(ToNumber(user.value.value.id), env, network);
  }

  /** `getEmotesByUsername`: 404 with `User "<userName>" not found` when the name
      is empty, the lookup finds nobody, or the user's id converts to 0 or NaN;
      otherwise 200 with exactly the fetched emotes, even none. A failure of
      the lookup or of any emote fetch is rethrown. */
  method GetEmotesByUsername(userName: string, api: TwitchApi, env: Env, network: Network)
    returns (r: Settled<Response<seq<Emote>>>)
    ensures r.Fulfilled? && r.value.NotFound? ==>
      r.value.message == "User \"" + userName + "\" not found" && r.value.Status() == 404
    ensures userName == "" ==> r.Fulfilled? && r.value.NotFound?
    ensures userName != "" && api.getUserByName(userName).Rejected? ==>
      r == Rejected(api.getUserByName(userName).reason)
    ensures userName != "" && api.getUserByName(userName) == Fulfilled(None) ==>
      r.Fulfilled? && r.value.NotFound?
    ensures userName != "" && api.getUserByName(userName).Fulfilled? && api.getUserByName(userName).value.Some? ==>
      var id := ToNumber(api.getUserByName(userName).value.value.id);
      && (!NumberTruthy(id) ==> r.Fulfilled? && r.value.NotFound?)
      && (NumberTruthy(id) ==>
            var emotes := FetchEmotesResult(FetcherFor(env, network), id.n);
            && (emotes.Rejected? ==> r == Rejected(emotes.reason))
            && (emotes.Fulfilled? ==> r == Fulfilled(Ok(emotes.value)) && r.value.Status() == 200))
  {
    var emotes := EmotesByUsername(userName, api, env, network);
    if emotes.Rejected? {
      return Rejected(emotes.reason);
    }
    if !ObjectTruthy(emotes.value) {
      return Fulfilled(NotFound("User \"" + userName + "\" not found"));
    }
    r := Fulfilled(Ok(emotes.value.value));
  }

  // ---------------------------------------------------------------------------
  // Searching users

  /** `users.map(user => mapUser(user))` */
  function MapUsers(users: seq<Option<HelixUser>>): (r: seq<Option<User>>)
    ensures |r| == |users|
    ensures forall i | 0 <= i < |r| :: r[i] == MapUser(users[i])
  {
    seq(|users|, i requires 0 <= i < |users| => MapUser(users[i]))
  }

  /** `.filter(user => user !== null)`: the non-null users, each as often as it
      occurs, in their order. */
  function NonNullUsers(us: seq<Option<User>>): (r: seq<User>)
    ensures |r| <= |us|
    ensures forall u :: multiset(r)[u] == multiset(us)[Some(u)]
  {
    if us == [] then []
    else
      var rest := NonNullUsers(us[1..]);
      assert us == [us[0]] + us[1..];
      if us[0].Some? then [us[0].value] + rest else rest
  }

  /** Puts `u` before the first user whose display name it does not sort after. */
  function InsertByDisplayName(u: User, s: seq<User>, cmp: Collation): (r: seq<User>)
    ensures multiset(r) == multiset(s) + multiset{u}
  {
    if s == [] then [u]
    else if cmp(u.displayName, s[0].displayName) <= 0 then [u] + s
    else
      assert s == [s[0]] + s[1..];
      [s[0]] + InsertByDisplayName(u, s[1..], cmp)
  }

  /** `.sort((a, b) => a.displayName.localeCompare(b.displayName))`, as a
      stable insertion sort. */
  function SortByDisplayName(us: seq<User>, cmp: Collation): (r: seq<User>)
    ensures multiset(r) == multiset(us)
  {
    if us == [] then []
    else
      assert us == [us[0]] + us[1..];
      InsertByDisplayName(us[0], SortByDisplayName(us[1..], cmp), cmp)
  }

  /** A user that sorts no later than every user of a sorted list can head it. */
  lemma PrependKeepsSorted(x: User, t: seq<User>, cmp: Collation)
    requires SortedByDisplayName(t, cmp)
    requires forall y | y in t :: cmp(x.displayName, y.displayName) <= 0
    ensures SortedByDisplayName([x] + t, cmp)
  {
    var r := [x] + t;
    forall i, j | 0 <= i < j < |r| ensures cmp(r[i].displayName, r[j].displayName) <= 0 {
      assert r[j] == t[j - 1];
      if i > 0 {
        assert r[i] == t[i - 1];
      }
    }
  }

  /** The head of a sorted list sorts no later than any of its users. */
  lemma HeadSortsFirst(s: seq<User>, cmp: Collation)
    requires s != [] && SortedByDisplayName(s, cmp)
    ensures forall y | y in s[1..] :: cmp(s[0].displayName, y.displayName) <= 0
  {
    forall y | y in s[1..] ensures cmp(s[0].displayName, y.displayName) <= 0 {
      var k :| 0 <= k < |s[1..]| && s[1..][k] == y;
      assert s[k + 1] == y;
    }
  }

  lemma {:induction false} InsertKeepsSorted(u: User, s: seq<User>, cmp: Collation)
    requires ConsistentComparison(cmp)
    requires SortedByDisplayName(s, cmp)
    ensures SortedByDisplayName(InsertByDisplayName(u, s, cmp), cmp)
  {
    if s == [] {
    } else if cmp(u.displayName, s[0].displayName) <= 0 {
      HeadSortsFirst(s, cmp);
      forall y | y in s ensures cmp(u.displayName, y.displayName) <= 0 {
        if y != s[0] {
          assert y in s[1..] by {
            var k :| 0 <= k < |s| && s[k] == y;
            assert s[1..][k - 1] == y;
          }
        }
      }
      PrependKeepsSorted(u, s, cmp);
    } else {
      var t := InsertByDisplayName(u, s[1..], cmp);
      InsertKeepsSorted(u, s[1..], cmp);
      HeadSortsFirst(s, cmp);
      assert SortedByDisplayName(s[1..], cmp) by {
        forall i, j | 0 <= i < j < |s[1..]| ensures cmp(s[1..][i].displayName, s[1..][j].displayName) <= 0 {
          assert s[1..][i] == s[i + 1] && s[1..][j] == s[j + 1];
        }
      }
      forall x | x in t ensures cmp(s[0].displayName, x.displayName) <= 0 {
        assert x in multiset(t);
        if x != u {
          assert x in multiset(s[1..]);
        }
      }
      PrependKeepsSorted(s[0], t, cmp);
    }
  }

  /** Under a consistent comparison the sort yields ascending display names. */
  lemma {:induction false} SortIsSorted(us: seq<User>, cmp: Collation)
    requires ConsistentComparison(cmp)
    ensures SortedByDisplayName(SortByDisplayName(us, cmp), cmp)
  {
    if us != [] {
      SortIsSorted(us[1..], cmp);
      InsertKeepsSorted(us[0], SortByDisplayName(us[1..], cmp), cmp);
    }
  }

  /** The pipeline `_searchUsers` applies to the looked-up users: project them,
      drop the `null`s, sort by display name. */
  function ShapeSearchResults(users: seq<Option<HelixUser>>, cmp: Collation): (r: seq<User>)
    ensures |r| <= |users|
    ensures forall u :: u in r <==> exists i | 0 <= i < |users| :: MapUser(users[i]) == Some(u)
  {
    var mapped := MapUsers(users);
    var result := SortByDisplayName(NonNullUsers(mapped), cmp);
    assert |result| == |NonNullUsers(mapped)| by {
      assert |multiset(result)| == |multiset(NonNullUsers(mapped))|;
    }
    forall u ensures u in result <==> exists i | 0 <= i < |users| :: MapUser(users[i]) == Some(u) {
      assert u in result <==> u in multiset(result);
      assert Some(u) in mapped <==> Some(u) in multiset(mapped);
    }
    result
  }

  /** `data.data.map(el => el.getUser())`: one lookup per search hit, in order. */
  function LookupUsers(page: seq<ChannelSearchResult>, api: TwitchApi): (ps: seq<Settled<Option<HelixUser>>>)
    ensures |ps| == |page|
    ensures forall i | 0 <= i < |page| :: ps[i] == api.getUser(page[i])
  {
    seq(|page|, i requires 0 <= i < |page| => api.getUser(page[i]))
  }

  /** The part of `_searchUsers` after the search: look up every hit's user,
      drop the ones that come back `null`, sort by display name. Rejected when
      any one lookup is, with that lookup's reason. */
  function UsersOfHits(page: seq<ChannelSearchResult>, api: TwitchApi, cmp: Collation): (r: Settled<seq<User>>)
    ensures r.Fulfilled? <==> forall i | 0 <= i < |page| :: api.getUser(page[i]).Fulfilled?
    ensures r.Fulfilled? ==>
      && |r.value| <= |page|
      && forall u :: u in r.value <==>
           exists i | 0 <= i < |page| :: api.getUser(page[i]).Fulfilled? && MapUser(api.getUser(page[i]).value) == Some(u)
    ensures r.Rejected? ==>
      exists i | 0 <= i < |page| :: api.getUser(page[i]).Rejected? && api.getUser(page[i]).reason == r.reason
  {
    var lookups := LookupUsers(page, api);
    match All(lookups)
    case Rejected(e) =>
      assert exists i | 0 <= i < |page| :: api.getUser(page[i]).Rejected? && api.getUser(page[i]).reason == e by {
        var i :| 0 <= i < |lookups| && lookups[i].Rejected? && lookups[i].reason == e;
        assert lookups[i] == api.getUser(page[i]);
      }
      Rejected(e)
    case Fulfilled(users) =>
      var result := ShapeSearchResults(users, cmp);
      assert forall u :: u in result <==>
        exists i | 0 <= i < |page| :: lookups[i].Fulfilled? && MapUser(lookups[i].value) == Some(u) by {
        forall u ensures u in result <==>
          exists i | 0 <= i < |page| :: lookups[i].Fulfilled? && MapUser(lookups[i].value) == Some(u)
        {
          if u in result {
            var i :| 0 <= i < |users| && MapUser(users[i]) == Some(u);
            assert users[i] == lookups[i].value;
          }
        }
      }
      Fulfilled(result)
  }

  /** `_searchUsers(userName)`: search at most five channels, then look up,
      filter and sort the hits' users. Rejected when the search or any one
      lookup is, with the reason of the one that failed. */
  function SearchUserRecords(userName: string, api: TwitchApi, cmp: Collation): (r: Settled<seq<User>>)
    ensures var page := api.searchChannels(userName, SearchOptions(limit := 5));
      r.Fulfilled? <==> page.Fulfilled? && forall i | 0 <= i < |page.value| :: api.getUser(page.value[i]).Fulfilled?
    ensures var page := api.searchChannels(userName, SearchOptions(limit := 5));
      r.Fulfilled? ==>
        && |r.value| <= |page.value|
        && forall u :: u in r.value <==>
             exists i | 0 <= i < |page.value| :: api.getUser(page.value[i]).Fulfilled? && MapUser(api.getUser(page.value[i]).value) == Some(u)
    ensures var page := api.searchChannels(userName, SearchOptions(limit := 5));
      page.Rejected? ==> r == Rejected(page.reason)
    ensures var page := api.searchChannels(userName, SearchOptions(limit := 5));
      page.Fulfilled? && r.Rejected? ==>
        exists i | 0 <= i < |page.value| :: api.getUser(page.value[i]).Rejected? && api.getUser(page.value[i]).reason == r.reason
  {
    match api.searchChannels(userName, SearchOptions(limit := SearchLimit))
    case Rejected(e) => Rejected(e)
    case Fulfilled(page) => UsersOfHits(page, api, cmp)
  }

  /** Search results come sorted by display name, given a consistent collation. */
  lemma SearchResultsSorted(userName: string, api: TwitchApi, cmp: Collation)
    requires ConsistentComparison(cmp)
    ensures SearchUserRecords(userName, api, cmp).Fulfilled? ==>
      SortedByDisplayName(SearchUserRecords(userName, api, cmp).value, cmp)
  {
    var page := api.searchChannels(userName, SearchOptions(limit := SearchLimit));
    if SearchUserRecords(userName, api, cmp).Fulfilled? {
      var users := All(LookupUsers(page.value, api));
      SortIsSorted(NonNullUsers(MapUsers(users.value)), cmp);
    }
  }

  /** Search results are a permutation of the non-null looked-up users: every
      one of them appears exactly as often as among the lookups, so no more
      users than the search asked for (five) when the search keeps its limit. */
  lemma SearchResultsArePermutation(userName: string, api: TwitchApi, cmp: Collation)
    ensures var page := api.searchChannels(userName, SearchOptions(limit := SearchLimit));
      var r := SearchUserRecords(userName, api, cmp);
      r.Fulfilled? ==>
        var users := All(LookupUsers(page.value, api));
        && users.Fulfilled?
        && (forall u :: multiset(r.value)[u] == multiset(MapUsers(users.value))[Some(u)])
        && (|page.value| <= SearchLimit ==> |r.value| <= SearchLimit)
  {
  }

  /** `searchUsers`: always 200 with the search results, possibly none; the
      `Users "<userName>" not found` branch can never be taken, since the results
      are an array and every array is truthy. A failed search or lookup is
      rethrown. */
  function SearchUsers(userName: string, api: TwitchApi, cmp: Collation): (r: Settled<Response<seq<User>>>)
    ensures r.Fulfilled? ==> r.value.Ok? && r.value.Status() == 200
    ensures r.Rejected? <==> SearchUserRecords(userName, api, cmp).Rejected?
    ensures r.Fulfilled? ==> r.value.body == SearchUserRecords(userName, api, cmp).value
    ensures r.Rejected? ==> r.reason == SearchUserRecords(userName, api, cmp).reason
  {
    match SearchUserRecords(userName, api, cmp)
    case Rejected(e) => Rejected(e)
    case Fulfilled(data) =>
      if !ObjectTruthy(Some(data)) then Fulfilled(NotFound("Users \"" + userName + "\" not found"))
      else Fulfilled(Ok(data))
  }
}
