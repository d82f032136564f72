/** `TwitchEmotes`: the service that asks the emote library for the global and
    channel emotes of four providers and flattens them into one list of
    `Emote` records. The library's network fetches are a parameter. */
module TwitchEmotesService {
  import opened JsRuntime
  import opened UserModel

  /** The four emote providers the library knows. */
  datatype Provider = Twitch | BTTV | SevenTV | FFZ

  /** One fetch through the library: a provider's global emotes (`channel` is
      `None`, the call takes no argument) or one channel's emotes. */
  datatype EmoteRequest = EmoteRequest(provider: Provider, channel: Option<int>)

  /** The four emote classes the library defines. */
  datatype EmoteClass = TwitchEmote | BTTVEmote | SevenTVEmote | FFZEmote {
    /** The class's constructor name. */
    function ClassName(): string {
      match this
      case TwitchEmote => "TwitchEmote"
      case BTTVEmote => "BTTVEmote"
      case SevenTVEmote => "SevenTVEmote"
      case FFZEmote => "FFZEmote"
    }
  }

  /** An emote object of the library: the name of its constructor
      (`value.constructor.name`), and `toLink(size)`, which the library computes
      from data of its own. The service does not check the name, so it is any
      string here. */
  datatype LibraryEmote = LibraryEmote(className: string, toLink: nat -> string)

  /** An entry `[key, value]` of a collection: the emote's name and its object. */
  type Entry = (string, LibraryEmote)

  predicate KeysDistinct(es: seq<Entry>) {
    forall i, j | 0 <= i < j < |es| :: es[i].0 != es[j].0
  }

  /** A collection the library returns: a map from emote name to emote object,
      listed in its iteration order. */
  type Collection = es: seq<Entry> | KeysDistinct(es) witness []

  /** What the network and the emote providers answer to each fetch. */
  type Network = EmoteRequest -> Settled<Collection>

  /** The Twitch application credentials read from the environment. */
  datatype Env = Env(twitchClientId: string, twitchClientSecret: string)

  /** The library's `EmoteFetcher`: the credentials it was built with, and the
      answers its fetches get. */
  datatype EmoteFetcher = EmoteFetcher(clientId: string, clientSecret: string, fetch: Network)

  /** The library's `EmoteParser` with the options the service gives it: the
      HTML template, and the source and flags of the match regular expression. */
  datatype EmoteParser = EmoteParser(fetcher: EmoteFetcher, template: string, matchPattern: string, matchFlags: string)

  /** The custom HTML format of parsed emotes. */
  const ParserTemplate: string := "<img class=\"emote\" alt=\"{name}\" src=\"{link}\">"

  /** The source of the regular expression that matches emote names without
      colons. */
  const ParserMatch: string := "(\\w+)+?"

  /** Its flags: global, so every match in a text is replaced. */
  const ParserMatchFlags: string := "g"

  /** The fetcher the constructor builds from the environment. */
  function FetcherFor(env: Env, network: Network): EmoteFetcher {
    EmoteFetcher(env.twitchClientId, env.twitchClientSecret, network)
  }

  function LowerChar(c: char): char {
    if 'A' <= c <= 'Z' then (c as int + 32) as char else c
  }

  /** A string of ASCII characters only. */
  predicate IsAscii(s: string) {
    forall i | 0 <= i < |s| :: s[i] < 128 as char
  }

  /** `s.toLowerCase()` on ASCII letters; other characters are kept as they are
      (the library's class names are ASCII). */
  function ToLowerCase(s: string): (r: string)
    ensures |r| == |s|
  {
    seq(|s|, i requires 0 <= i < |s| => LowerChar(s[i]))
  }

  /** The lowercased name of one of the library's classes. */
  function TypeTag(c: EmoteClass): string {
    ToLowerCase(c.ClassName())
  }

  /** The library class a constructor name names, if any. */
  function KnownClass(name: string): (r: Option<EmoteClass>)
    ensures r.Some? ==> r.value.ClassName() == name
  {
    match name
    case "TwitchEmote" => Some(TwitchEmote)
    case "BTTVEmote" => Some(BTTVEmote)
    case "SevenTVEmote" => Some(SevenTVEmote)
    case "FFZEmote" => Some(FFZEmote)
    case _ => None
  }

  /** The class an emote's `type` names, if any. */
  function ClassOfTag(t: string): Option<EmoteClass> {
    match t
    case "twitchemote" => Some(TwitchEmote)
    case "bttvemote" => Some(BTTVEmote)
    case "seventvemote" => Some(SevenTVEmote)
    case "ffzemote" => Some(FFZEmote)
    case _ => None
  }

  /** The lowercased name of each of the library's four classes is one of the
      four declared `Emote.type` values, and it names the class back. */
  lemma TypeTagDeclared(c: EmoteClass)
    ensures TypeTag(c) in EmoteTypes
    ensures ClassOfTag(TypeTag(c)) == Some(c)
  {
    match c
    case TwitchEmote => assert TypeTag(c) == "twitchemote";
    case BTTVEmote => assert TypeTag(c) == "bttvemote";
    case SevenTVEmote => assert TypeTag(c) == "seventvemote";
    case FFZEmote => assert TypeTag(c) == "ffzemote";
  }

  /** Every declared `Emote.type` value is the tag of exactly one class. */
  lemma DeclaredTagsAreClassTags(t: string)
    requires t in EmoteTypes
    ensures ClassOfTag(t).Some? && TypeTag(ClassOfTag(t).value) == t
  {
    TypeTagDeclared(ClassOfTag(t).value);
  }

  /** One collection entry as an `Emote`: the key is the name, the link is the
      size-1 link, the type is the lowercased constructor name, cast to
      `Emote['type']` without a check. */
  function ToEmote(e: Entry): (m: Emote)
    ensures IsAscii(e.1.className) ==> |m.emoteType| == |e.1.className|
    ensures KnownClass(e.1.className).Some? ==>
      m.emoteType in EmoteTypes && ClassOfTag(m.emoteType) == KnownClass(e.1.className)
  {
    var m := Emote(name := e.0, link := e.1.toLink(1), emoteType := ToLowerCase(e.1.className));
    if KnownClass(e.1.className).Some? then
      TypeTagDeclared(KnownClass(e.1.className).value);
      m
    else m
  }

  /** The cast is unchecked: an emote object whose constructor is not one of
      the four library classes gets a `type` outside the declared four. */
  lemma UncheckedTypeCast(key: string, toLink: nat -> string)
    ensures ToEmote((key, LibraryEmote("Emote", toLink))).emoteType == "emote"
    ensures ToEmote((key, LibraryEmote("Emote", toLink))).emoteType !in EmoteTypes
  {
    assert ToLowerCase("Emote") == "emote";
  }

  /** The eight fetches, in the order they are passed to `Promise.all`: the
      global emotes of Twitch, BTTV, 7TV and FFZ, then the same four providers'
      emotes for `channelId`. */
  function EmoteRequests(channelId: int): seq<EmoteRequest> {
    [ EmoteRequest(Twitch, None), EmoteRequest(BTTV, None),
      EmoteRequest(SevenTV, None), EmoteRequest(FFZ, None),
      EmoteRequest(Twitch, Some(channelId)), EmoteRequest(BTTV, Some(channelId)),
      EmoteRequest(SevenTV, Some(channelId)), EmoteRequest(FFZ, Some(channelId)) ]
  }

  /** Provider order within each scope. */
  function ProviderRank(p: Provider): nat {
    match p
    case Twitch => 0
    case BTTV => 1
    case SevenTV => 2
    case FFZ => 3
  }

  /** Exactly eight fetches: every provider once globally and once for the
      channel and nothing else, the four global ones first, and within each
      scope Twitch, BTTV, 7TV, FFZ. */
  lemma EmoteRequestsCoverProvidersOnce(channelId: int)
    ensures |EmoteRequests(channelId)| == 8
    ensures forall p: Provider ::
      EmoteRequest(p, None) in EmoteRequests(channelId) && EmoteRequest(p, Some(channelId)) in EmoteRequests(channelId)
    ensures forall q | q in EmoteRequests(channelId) :: q.channel == None || q.channel == Some(channelId)
    ensures forall i, j | 0 <= i < j < 8 :: EmoteRequests(channelId)[i].channel.Some? ==> EmoteRequests(channelId)[j].channel.Some?
    ensures forall i, j | 0 <= i < j < 8 && EmoteRequests(channelId)[i].channel == EmoteRequests(channelId)[j].channel ::
      ProviderRank(EmoteRequests(channelId)[i].provider) < ProviderRank(EmoteRequests(channelId)[j].provider)
  {
    var rs := EmoteRequests(channelId);
    forall p: Provider
      ensures EmoteRequest(p, None) in rs && EmoteRequest(p, Some(channelId)) in rs
    {
      assert rs[ProviderRank(p)] == EmoteRequest(p, None);
      assert rs[ProviderRank(p) + 4] == EmoteRequest(p, Some(channelId));
    }
  }

  /** What the eight fetches answer, in request order. */
  function Fetched(fetcher: EmoteFetcher, channelId: int): (ps: seq<Settled<Collection>>)
    ensures |ps| == 8
    ensures forall i | 0 <= i < 8 :: ps[i] == fetcher.fetch(EmoteRequests(channelId)[i])
  {
    seq(8, i requires 0 <= i < 8 => fetcher.fetch(EmoteRequests(channelId)[i]))
  }

  /** The entries of every collection, collection after collection, each in its
      own iteration order. */
  function FlatEntries(cs: seq<Collection>): seq<Entry> {
    if cs == [] then [] else cs[0] + FlatEntries(cs[1..])
  }

  /** The number of entries in all collections together. */
  function TotalSize(cs: seq<Collection>): nat {
    if cs == [] then 0 else |cs[0]| + TotalSize(cs[1..])
  }

  /** The emotes of a list of collections: every entry, in order, as an `Emote`. */
  function EmotesOf(cs: seq<Collection>): seq<Emote> {
    var es := FlatEntries(cs);
    seq(|es|, i requires 0 <= i < |es| => ToEmote(es[i]))
  }

  /** What `fetchEmotes(channelId)` resolves to: rejected when one of the eight
      fetches is, and otherwise the emotes of the eight collections. */
  function FetchEmotesResult(fetcher: EmoteFetcher, channelId: int): Settled<seq<Emote>> {
    match All(Fetched(fetcher, channelId))
    case Rejected(e) => Rejected(e)
    case Fulfilled(cs) => Fulfilled(EmotesOf(cs))
  }

  lemma {:induction false} FlatEntriesLength(cs: seq<Collection>)
    ensures |FlatEntries(cs)| == TotalSize(cs)
  {
    if cs != [] {
      FlatEntriesLength(cs[1..]);
    }
  }

  lemma {:induction false} FlatEntriesAppend(a: seq<Collection>, b: seq<Collection>)
    ensures FlatEntries(a + b) == FlatEntries(a) + FlatEntries(b)
  {
    if a == [] {
      assert a + b == b;
    } else {
      assert (a + b)[1..] == a[1..] + b;
      FlatEntriesAppend(a[1..], b);
    }
  }

  /** Nothing is dropped or merged: there are as many emotes as entries in all
      eight collections together, whatever names repeat across them. */
  lemma EmotesOfLength(cs: seq<Collection>)
    ensures |EmotesOf(cs)| == TotalSize(cs)
  {
    FlatEntriesLength(cs);
  }

  /** Order is kept: entry `k` of collection `i` is the flattened entry at
      position `k` past all entries of the collections before `i`. */
  lemma FlatEntriesAt(cs: seq<Collection>, i: nat, k: nat)
    requires i < |cs| && k < |cs[i]|
    ensures TotalSize(cs[..i]) + k < |FlatEntries(cs)|
    ensures FlatEntries(cs)[TotalSize(cs[..i]) + k] == cs[i][k]
  {
    var before, rest := cs[..i], cs[i..];
    assert cs == before + rest;
    FlatEntriesAppend(before, rest);
    FlatEntriesLength(before);
    assert FlatEntries(rest) == cs[i] + FlatEntries(rest[1..]);
  }

  /** Order is kept: entry `k` of collection `i` is the emote at position `k`
      past all entries of the collections before `i`, named by its key, linked
      at size 1 and typed by its lowercased class name. */
  lemma EmotesOfAt(cs: seq<Collection>, i: nat, k: nat)
    requires i < |cs| && k < |cs[i]|
    ensures TotalSize(cs[..i]) + k < |EmotesOf(cs)|
    ensures EmotesOf(cs)[TotalSize(cs[..i]) + k]
         == Emote(cs[i][k].0, cs[i][k].1.toLink(1), ToLowerCase(cs[i][k].1.className))
  {
    FlatEntriesAt(cs, i, k);
  }

  /** The emotes of two lists of collections one after the other are the
      emotes of the first list followed by those of the second. */
  lemma EmotesOfAppend(a: seq<Collection>, b: seq<Collection>)
    ensures EmotesOf(a + b) == EmotesOf(a) + EmotesOf(b)
  {
    FlatEntriesAppend(a, b);
  }

  /** `fetchEmotes` fails as a whole when any one fetch fails, with that fetch's
      reason, and succeeds only when all eight do. */
  lemma FetchEmotesAllOrNothing(fetcher: EmoteFetcher, channelId: int)
    ensures FetchEmotesResult(fetcher, channelId).Fulfilled?
        <==> forall q | q in EmoteRequests(channelId) :: fetcher.fetch(q).Fulfilled?
    ensures FetchEmotesResult(fetcher, channelId).Rejected? ==>
      exists q | q in EmoteRequests(channelId) ::
        fetcher.fetch(q).Rejected? && fetcher.fetch(q).reason == FetchEmotesResult(fetcher, channelId).reason
  {
    var ps := Fetched(fetcher, channelId);
    var rs := EmoteRequests(channelId);
    if FetchEmotesResult(fetcher, channelId).Rejected? {
      var i :| 0 <= i < |ps| && ps[i].Rejected? && ps[i].reason == All(ps).reason;
      assert rs[i] in rs;
    } else {
      forall q | q in rs ensures fetcher.fetch(q).Fulfilled? {
        var i :| 0 <= i < |rs| && rs[i] == q;
        assert ps[i].Fulfilled?;
      }
    }
  }

  /** When all eight fetches succeed, the emotes are those of the eight
      collections in request order, as many as they hold together. */
  lemma FetchEmotesConcatenates(fetcher: EmoteFetcher, channelId: int, cs: seq<Collection>)
    requires |cs| == 8
    requires forall i | 0 <= i < 8 :: fetcher.fetch(EmoteRequests(channelId)[i]) == Fulfilled(cs[i])
    ensures FetchEmotesResult(fetcher, channelId) == Fulfilled(EmotesOf(cs))
    ensures |EmotesOf(cs)| == TotalSize(cs)
  {
    var all := All(Fetched(fetcher, channelId));
    assert all.Fulfilled?;
    assert all.value == cs;
    EmotesOfLength(cs);
  }

  /** The service object: configuration built once by the constructor. */
  class TwitchEmotes {
    var fetcher: EmoteFetcher
    var emoteParser: EmoteParser

    constructor (env: Env, network: Network)
      ensures fetcher == FetcherFor(env, network)
      ensures emoteParser == EmoteParser(fetcher, ParserTemplate, ParserMatch, ParserMatchFlags)
    {
      fetcher := EmoteFetcher(env.twitchClientId, env.twitchClientSecret, network);
      emoteParser := EmoteParser(fetcher, ParserTemplate, ParserMatch, ParserMatchFlags);
    }

    /** `fetchEmotes(channelId)`. It has no `modifies` clause: it reassigns
        neither `fetcher` nor `emoteParser`. */
    method FetchEmotes(channelId: int) returns (r: Settled<seq<Emote>>)
      ensures r == FetchEmotesResult(fetcher, channelId)
    {
      var fetches := [
        fetcher.fetch(EmoteRequest(Twitch, None)),
        fetcher.fetch(EmoteRequest(BTTV, None)),
        fetcher.fetch(EmoteRequest(SevenTV, None)),
        fetcher.fetch(EmoteRequest(FFZ, None)),
        fetcher.fetch(EmoteRequest(Twitch, Some(channelId))),
        fetcher.fetch(EmoteRequest(BTTV, Some(channelId))),
        fetcher.fetch(EmoteRequest(SevenTV, Some(channelId))),
        fetcher.fetch(EmoteRequest(FFZ, Some(channelId)))];
      assert fetches == Fetched(fetcher, channelId);
      var collections := All(fetches);
      if collections.Rejected? {
        return Rejected(collections.reason);
      }
      var entries := FlatEntries(collections.value);
      r := Fulfilled(seq(|entries|, i requires 0 <= i < |entries| => ToEmote(entries[i])));
    }
  }
}
