/** The user and emote records the API answers with, and `mapUser`, which
    projects the Twitch library's user object onto the user record. */
module UserModel {
  import opened JsRuntime

  /** The value of one property of a user: a string, or the creation date
      (milliseconds since the epoch). */
  datatype FieldValue = Text(text: string) | Date(epochMillis: int)

  /** The user object the Twitch API library hands back from a lookup
      (`HelixUser`), with the properties it exposes as data. Its `type`
      property is `userType` here, since `type` is a Dafny keyword. */
  datatype HelixUser = HelixUser(
    id: string,
    name: string,
    displayName: string,
    description: string,
    userType: string,
    broadcasterType: string,
    profilePictureUrl: string,
    offlinePlaceholderUrl: string,
    creationDate: int)
  {
    /** `data[f]`: the property named `f`, or nothing. */
    function Property(f: string): Option<FieldValue> {
      match f
      case "id" => Some(Text(id))
      case "name" => Some(Text(name))
      case "displayName" => Some(Text(displayName))
      case "description" => Some(Text(description))
      case "type" => Some(Text(userType))
      case "broadcasterType" => Some(Text(broadcasterType))
      case "profilePictureUrl" => Some(Text(profilePictureUrl))
      case "offlinePlaceholderUrl" => Some(Text(offlinePlaceholderUrl))
      case "creationDate" => Some(Date(creationDate))
      case _ => None
    }
  }

  /** The plain user record `mapUser` builds and the API returns as JSON. */
  datatype User = User(
    id: string,
    name: string,
    displayName: string,
    description: string,
    userType: string,
    broadcasterType: string,
    profilePictureUrl: string,
    offlinePlaceholderUrl: string,
    creationDate: int)
  {
    /** `user[f]`: the field named `f`, or nothing. */
    function Field(f: string): Option<FieldValue> {
      match f
      case "id" => Some(Text(id))
      case "name" => Some(Text(name))
      case "displayName" => Some(Text(displayName))
      case "description" => Some(Text(description))
      case "type" => Some(Text(userType))
      case "broadcasterType" => Some(Text(broadcasterType))
      case "profilePictureUrl" => Some(Text(profilePictureUrl))
      case "offlinePlaceholderUrl" => Some(Text(offlinePlaceholderUrl))
      case "creationDate" => Some(Date(creationDate))
      case _ => None
    }
  }

  /** The zod types the response schemas use. */
  datatype SchemaType = ZString

  /** `selectUsersSchema`: the fields of a user response and their declared types. */
  const SelectUsersSchema: map<string, SchemaType> := map[
    "id" := ZString,
    "name" := ZString,
    "displayName" := ZString,
    "description" := ZString,
    "type" := ZString,
    "broadcasterType" := ZString,
    "profilePictureUrl" := ZString,
    "offlinePlaceholderUrl" := ZString,
    "creationDate" := ZString]

  /** `mapUser`: `null` stays `null`; a user becomes a record with the nine
      schema fields copied from it. */
  function MapUser(data: Option<HelixUser>): (r: Option<User>)
    ensures r.None? <==> data.None?
    ensures r.Some? ==> forall f :: r.value.Field(f) == data.value.Property(f)
  {
    match data
    case None => None
    case Some(d) =>
      Some(User(
        id := d.id,
        name := d.name,
        displayName := d.displayName,
        description := d.description,
        userType := d.userType,
        broadcasterType := d.broadcasterType,
        profilePictureUrl := d.profilePictureUrl,
        offlinePlaceholderUrl := d.offlinePlaceholderUrl,
        creationDate := d.creationDate))
  }

  /** A user record has exactly the fields `selectUsersSchema` declares; all but
      `creationDate` hold strings, and `creationDate` holds the library's date. */
  lemma UserFieldsAreSchemaFields(u: User)
    ensures forall f :: u.Field(f).Some? <==> f in SelectUsersSchema
    ensures forall f | f in SelectUsersSchema && f != "creationDate" :: u.Field(f).Some? && u.Field(f).value.Text?
    ensures u.Field("creationDate") == Some(Date(u.creationDate))
  {
  }

  /** Two users that `mapUser` sends to the same record are the same user:
      the projection loses nothing the library object carries as data. */
  lemma MapUserInjective(a: HelixUser, b: HelixUser)
    requires MapUser(Some(a)) == MapUser(Some(b))
    ensures a == b
  {
  }

  /** `Emote`: one emote of a channel's or a provider's global set. Its `type`
      property is `emoteType` here. */
  datatype Emote = Emote(name: string, link: string, emoteType: string) {
    /** `emote[f]`: the field named `f`, or nothing. */
    function Field(f: string): Option<string> {
      match f
      case "name" => Some(name)
      case "link" => Some(link)
      case "type" => Some(emoteType)
      case _ => None
    }
  }

  /** The four values `Emote.type` is declared to take. */
  const EmoteTypes: set<string> := {"seventvemote", "ffzemote", "bttvemote", "twitchemote"}

  /** The fields of `selectEmotesSchema`'s element type, all `z.string()`. */
  const SelectEmotesSchema: map<string, SchemaType> := map["name" := ZString, "link" := ZString, "type" := ZString]

  /** An emote has exactly the fields `selectEmotesSchema` declares. */
  lemma EmoteFieldsAreSchemaFields(e: Emote)
    ensures forall f :: e.Field(f).Some? <==> f in SelectEmotesSchema
  {
  }
}
