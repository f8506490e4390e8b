/**
  The read-only content provider that answers content URIs with data from the
  simple Vimeo API: the URI-type constants, the registration table filled by
  the static initialiser, the three lookups over a URI's type, the `query`
  front end and the rejected mutations.
 */
module Provider {
  import opened UriMatching

  // URI types, as registered with the matcher.
  const ActionsListUriType: int := 1
  const ActionSingleUriType: int := 2
  const AlbumsListUriType: int := 3
  const AlbumSingleUriType: int := 4
  const ChannelsListUriType: int := 5
  const ChannelSingleUriType: int := 6
  const GroupsListUriType: int := 7
  const GroupSingleUriType: int := 8
  const UsersListUriType: int := 9
  const UserSingleUriType: int := 10
  const VideosListUriType: int := 11
  const VideoSingleUriType: int := 12

  /** The entity kinds a URI can return (the ContentType enumeration). */
  datatype ContentType = Activity | Album | Channel | Group | User | Video

  /**
    The MIME tags of one entity's DTO class: its CONTENT_TYPE for a
    collection and its CONTENT_ITEM_TYPE for a single item. Their string
    values are kept opaque; distinct constructors give distinct tags.
   */
  datatype MimeType = CollectionType(entity: ContentType) | ItemType(entity: ContentType)

  /** The exceptions the provider throws. */
  datatype Exception = IllegalArgument | UnsupportedOperation

  datatype Result<T> = Success(value: T) | Failure(error: Exception)

  /** The table the static initialiser registers, in registration order. */
  const ProviderTable: seq<Registration> :=
    UserTemplates + VideoTemplates + GroupTemplates + ChannelTemplates + AlbumTemplates + ActivityTemplates

  const UserTemplates: seq<Registration> := [
    Registration([Exact("user"), Text, Exact("info")], UserSingleUriType),
    Registration([Exact("user"), Text, Exact("videos")], VideosListUriType),
    Registration([Exact("user"), Text, Exact("likes")], VideosListUriType),
    Registration([Exact("user"), Text, Exact("appears")], VideosListUriType),
    Registration([Exact("user"), Text, Exact("all")], VideosListUriType),
    Registration([Exact("user"), Text, Exact("subscr")], VideosListUriType),
    Registration([Exact("user"), Text, Exact("albums")], AlbumsListUriType),
    Registration([Exact("user"), Text, Exact("channels")], ChannelsListUriType),
    Registration([Exact("user"), Text, Exact("groups")], GroupsListUriType),
    Registration([Exact("user"), Text, Exact("ccreated")], VideosListUriType),
    Registration([Exact("user"), Text, Exact("clikes")], VideosListUriType)
  ]

  const VideoTemplates: seq<Registration> := [
    Registration([Exact("video"), Number], VideoSingleUriType)
  ]

  const GroupTemplates: seq<Registration> := [
    Registration([Exact("group"), Text, Exact("info")], GroupSingleUriType),
    Registration([Exact("group"), Text, Exact("videos")], VideosListUriType),
    Registration([Exact("group"), Text, Exact("users")], UsersListUriType)
  ]

  const ChannelTemplates: seq<Registration> := [
    Registration([Exact("channel"), Text, Exact("info")], ChannelSingleUriType),
    Registration([Exact("channel"), Text, Exact("videos")], VideosListUriType)
  ]

  const AlbumTemplates: seq<Registration> := [
    Registration([Exact("album"), Number, Exact("info")], AlbumSingleUriType),
    Registration([Exact("album"), Number, Exact("videos")], VideosListUriType)
  ]

  const ActivityTemplates: seq<Registration> := [
    Registration([Exact("activity"), Text, Exact("did")], ActionsListUriType),
    Registration([Exact("activity"), Text, Exact("happened")], ActionsListUriType),
    Registration([Exact("activity"), Text, Exact("cdid")], ActionsListUriType),
    Registration([Exact("activity"), Text, Exact("chappened")], ActionsListUriType),
    Registration([Exact("activity"), Text, Exact("edid")], ActionsListUriType)
  ]

  /** The static initialiser: a fresh matcher filled by one addURI per template, in table order. */
  method StaticInit() returns (m: UriMatcher)
    ensures fresh(m)
    ensures m.registrations == ProviderTable
    ensures forall p :: m.Match(p) == Classify(p)
  {
    m := new UriMatcher();
    RegisterUserTemplates(m);
    RegisterVideoTemplates(m);
    RegisterGroupTemplates(m);
    RegisterChannelTemplates(m);
    RegisterAlbumTemplates(m);
    RegisterActivityTemplates(m);
  }

  method RegisterUserTemplates(m: UriMatcher)
    modifies m
    ensures m.registrations == old(m.registrations) + UserTemplates
  {
    m.AddUri([Exact("user"), Text, Exact("info")], UserSingleUriType);
    m.AddUri([Exact("user"), Text, Exact("videos")], VideosListUriType);
    m.AddUri([Exact("user"), Text, Exact("likes")], VideosListUriType);
    m.AddUri([Exact("user"), Text, Exact("appears")], VideosListUriType);
    m.AddUri([Exact("user"), Text, Exact("all")], VideosListUriType);
    m.AddUri([Exact("user"), Text, Exact("subscr")], VideosListUriType);
    m.AddUri([Exact("user"), Text, Exact("albums")], AlbumsListUriType);
    m.AddUri([Exact("user"), Text, Exact("channels")], ChannelsListUriType);
    m.AddUri([Exact("user"), Text, Exact("groups")], GroupsListUriType);
    m.AddUri([Exact("user"), Text, Exact("ccreated")], VideosListUriType);
    m.AddUri([Exact("user"), Text, Exact("clikes")], VideosListUriType);
  }

  method RegisterVideoTemplates(m: UriMatcher)
    modifies m
    ensures m.registrations == old(m.registrations) + VideoTemplates
  {
    m.AddUri([Exact("video"), Number], VideoSingleUriType);
  }

  method RegisterGroupTemplates(m: UriMatcher)
    modifies m
    ensures m.registrations == old(m.registrations) + GroupTemplates
  {
    m.AddUri([Exact("group"), Text, Exact("info")], GroupSingleUriType);
    m.AddUri([Exact("group"), Text, Exact("videos")], VideosListUriType);
    m.AddUri([Exact("group"), Text, Exact("users")], UsersListUriType);
  }

  method RegisterChannelTemplates(m: UriMatcher)
    modifies m
    ensures m.registrations == old(m.registrations) + ChannelTemplates
  {
    m.AddUri([Exact("channel"), Text, Exact("info")], ChannelSingleUriType);
    m.AddUri([Exact("channel"), Text, Exact("videos")], VideosListUriType);
  }

  method RegisterAlbumTemplates(m: UriMatcher)
    modifies m
    ensures m.registrations == old(m.registrations) + AlbumTemplates
  {
    m.AddUri([Exact("album"), Number, Exact("info")], AlbumSingleUriType);
    m.AddUri([Exact("album"), Number, Exact("videos")], VideosListUriType);
  }

  method RegisterActivityTemplates(m: UriMatcher)
    modifies m
    ensures m.registrations == old(m.registrations) + ActivityTemplates
  {
    m.AddUri([Exact("activity"), Text, Exact("did")], ActionsListUriType);
    m.AddUri([Exact("activity"), Text, Exact("happened")], ActionsListUriType);
    m.AddUri([Exact("activity"), Text, Exact("cdid")], ActionsListUriType);
    m.AddUri([Exact("activity"), Text, Exact("chappened")], ActionsListUriType);
    m.AddUri([Exact("activity"), Text, Exact("edid")], ActionsListUriType);
  }

  /** Every registered code is one of the twelve URI types. */
  lemma TableCodesAreUriTypes()
    ensures forall i :: 0 <= i < |ProviderTable| ==> 1 <= ProviderTable[i].code <= 12
  {
  }

  /** uriMatcher.match(uri) once the static initialiser has run. */
  function Classify(path: seq<string>): (r: int)
    ensures r == NoMatch <==> !Matched(ProviderTable, path)
    ensures r != NoMatch ==> 1 <= r <= 12
  {
    TableCodesAreUriTypes();
    MatchIn(ProviderTable, path)
  }

  // The three switches over a URI type.

  /** The switch of getType. */
  function MimeTypeFor(code: int): (r: Result<MimeType>)
    ensures r.Failure? <==> !(1 <= code <= 12)
    ensures r.Failure? ==> r.error == IllegalArgument
    // The tag belongs to the entity getReturnedContentType names, and is the
    // collection tag exactly for the types that return many results.
    ensures r.Success? ==> ContentTypeFor(code) == Success(r.value.entity)
    ensures r.Success? ==> MultipleResultsFor(code) == Success(r.value.CollectionType?)
  {
    if code == ActionsListUriType then Success(CollectionType(Activity))
    else if code == ActionSingleUriType then Success(ItemType(Activity))
    else if code == AlbumsListUriType then Success(CollectionType(Album))
    else if code == AlbumSingleUriType then Success(ItemType(Album))
    else if code == ChannelsListUriType then Success(CollectionType(Channel))
    else if code == ChannelSingleUriType then Success(ItemType(Channel))
    else if code == GroupsListUriType then Success(CollectionType(Group))
    else if code == GroupSingleUriType then Success(ItemType(Group))
    else if code == UsersListUriType then Success(CollectionType(User))
    else if code == UserSingleUriType then Success(ItemType(User))
    else if code == VideosListUriType then Success(CollectionType(Video))
    else if code == VideoSingleUriType then Success(ItemType(Video))
    else Failure(IllegalArgument)
  }

  /** The switch of getReturnedContentType. */
  function ContentTypeFor(code: int): (r: Result<ContentType>)
    ensures r.Failure? <==> !(1 <= code <= 12)
    ensures r.Failure? ==> r.error == IllegalArgument
  {
    if code == ActionsListUriType || code == ActionSingleUriType then Success(Activity)
    else if code == AlbumsListUriType || code == AlbumSingleUriType then Success(Album)
    else if code == ChannelsListUriType || code == ChannelSingleUriType then Success(Channel)
    else if code == GroupsListUriType || code == GroupSingleUriType then Success(Group)
    else if code == UsersListUriType || code == UserSingleUriType then Success(User)
    else if code == VideosListUriType || code == VideoSingleUriType then Success(Video)
    else Failure(IllegalArgument)
  }

  /** The switch of getReturnsMultipleResults. */
  function MultipleResultsFor(code: int): (r: Result<bool>)
    ensures r.Failure? <==> !(1 <= code <= 12)
    ensures r.Failure? ==> r.error == IllegalArgument
    // The list constants are the odd ones, each single constant following its entity's list.
    ensures r.Success? ==> (r.value <==> code % 2 == 1)
  {
    if code == ActionsListUriType || code == AlbumsListUriType || code == ChannelsListUriType
      || code == GroupsListUriType || code == UsersListUriType || code == VideosListUriType
    then Success(true)
    else if code == ActionSingleUriType || code == AlbumSingleUriType || code == ChannelSingleUriType
      || code == GroupSingleUriType || code == UserSingleUriType || code == VideoSingleUriType
    then Success(false)
    else Failure(IllegalArgument)
  }

  /** getType: the MIME tag of the URI's type; IllegalArgumentException when no template matches. */
  function GetType(path: seq<string>): (r: Result<MimeType>)
    ensures r.Failure? <==> !Matched(ProviderTable, path)
    ensures r.Failure? ==> r.error == IllegalArgument
  {
    MimeTypeFor(Classify(path))
  }

  /** getReturnedContentType: the entity the URI returns; IllegalArgumentException when no template matches. */
  function GetReturnedContentType(path: seq<string>): (r: Result<ContentType>)
    ensures r.Failure? <==> !Matched(ProviderTable, path)
    ensures r.Failure? ==> r.error == IllegalArgument
  {
    ContentTypeFor(Classify(path))
  }

  /** getReturnsMultipleResults: the URI's cardinality; IllegalArgumentException when no template matches. */
  function GetReturnsMultipleResults(path: seq<string>): (r: Result<bool>)
    ensures r.Failure? <==> !Matched(ProviderTable, path)
    ensures r.Failure? ==> r.error == IllegalArgument
  {
    MultipleResultsFor(Classify(path))
  }

  // The query front end.

  /** The fields of one parsed JSON object; values are kept as their text. */
  type JsonObject = map<string, string>

  /** The remote API URI that resolveUriForSimpleApi derives from a content URI. */
  type ApiUri = string

  /** The exceptions the transport and the JSON parser raise. */
  datatype FetchFailure = ClientProtocolFailure | JsonFailure | IoFailure

  /** What the remote API answers for one request: an array, an object, or a failure. */
  datatype Answer = ArrayAnswer(items: seq<JsonObject>) | ObjectAnswer(obj: JsonObject) | FailedAnswer(failure: FetchFailure)

  /** A request made through the transport: askForArray or askForObject. */
  datatype FetchCall = AskForArray(uri: ApiUri) | AskForObject(uri: ApiUri)

  /** The cursor built over a fetched array or a fetched object and the projection. */
  datatype Cursor = ArrayCursor(items: seq<JsonObject>, projection: seq<string>) | ObjectCursor(obj: JsonObject, projection: seq<string>)

  /** What query does: throws, or returns a cursor (None for Java's null). */
  datatype QueryOutcome = Thrown(ex: Exception) | Returned(cursor: Option<Cursor>)

  datatype Option<T> = None | Some(value: T)

  /**
    The cursor query builds from the remote answer, or None when the fetch or
    the parse fails. An object answered to askForArray, or an array answered
    to askForObject, fails to parse as the expected shape.
   */
  function CursorFrom(call: FetchCall, answer: Answer, projection: seq<string>): (r: Option<Cursor>)
    ensures r.Some? <==> (call.AskForArray? && answer.ArrayAnswer?) || (call.AskForObject? && answer.ObjectAnswer?)
    ensures r.Some? ==> r.value.projection == projection
    ensures r.Some? && call.AskForArray? ==> r.value == ArrayCursor(answer.items, projection)
    ensures r.Some? && call.AskForObject? ==> r.value == ObjectCursor(answer.obj, projection)
  {
    match (call, answer)
    case (AskForArray(_), ArrayAnswer(items)) => Some(ArrayCursor(items, projection))
    case (AskForObject(_), ObjectAnswer(obj)) => Some(ObjectCursor(obj, projection))
    case _ => None
  }

  /**
    query(contentUri, projection, selection, selectionArgs, sortOrder).
    `resolve` stands for VimeoApiUtils.resolveUriForSimpleApi and `remote` for
    what the API answers; `calls` lists the requests made through the
    transport, in order. Null Java arguments are None.
   */
  method Query(
    uri: seq<string>, projection: Option<seq<string>>, selection: Option<string>,
    selectionArgs: Option<seq<string>>, sortOrder: Option<string>,
    resolve: seq<string> -> ApiUri, remote: ApiUri -> Answer)
    returns (r: QueryOutcome, calls: seq<FetchCall>)
    // Rejected options come first, and nothing is fetched after a rejection.
    ensures selection.Some? || selectionArgs.Some? ==> r == Thrown(UnsupportedOperation)
    ensures selection.None? && selectionArgs.None? && sortOrder.Some? ==> r == Thrown(UnsupportedOperation)
    ensures selection.None? && selectionArgs.None? && sortOrder.None? && projection.None? ==> r == Thrown(IllegalArgument)
    ensures selection.None? && selectionArgs.None? && sortOrder.None? && projection.Some? && Classify(uri) == NoMatch
      ==> r == Thrown(IllegalArgument)
    ensures r.Thrown? <==> calls == []
    // A recognised URI with acceptable options is fetched exactly once, with
    // the shape its cardinality asks for; a failed fetch gives null.
    ensures selection.None? && selectionArgs.None? && sortOrder.None? && projection.Some? && Classify(uri) != NoMatch ==>
      && calls == [if GetReturnsMultipleResults(uri) == Success(true) then AskForArray(resolve(uri)) else AskForObject(resolve(uri))]
      && r == Returned(CursorFrom(calls[0], remote(resolve(uri)), projection.value))
  {
    if selection.Some? || selectionArgs.Some? {
      return Thrown(UnsupportedOperation), [];
    }
    if sortOrder.Some? {
      return Thrown(UnsupportedOperation), [];
    }
    if projection.None? {
      return Thrown(IllegalArgument), [];
    }
    var apiUri := resolve(uri);
    var multiple := GetReturnsMultipleResults(uri);
    if multiple.Failure? {
      return Thrown(multiple.error), [];
    }
    var call := if multiple.value then AskForArray(apiUri) else AskForObject(apiUri);
    var answer := remote(apiUri);
    calls := [call];
    r := Returned(CursorFrom(call, answer, projection.value));
  }

  // Mutations: the provider is read-only.

  /** Stand-in for Android's ContentValues: column names to values. */
  type ContentValues = map<string, string>

  function Insert(uri: seq<string>, values: ContentValues): (r: Result<seq<string>>)
    ensures r == Failure(UnsupportedOperation)
  {
    Failure(UnsupportedOperation)
  }

  function Update(uri: seq<string>, values: ContentValues, selection: Option<string>, selectionArgs: Option<seq<string>>): (r: Result<int>)
    ensures r == Failure(UnsupportedOperation)
  {
    Failure(UnsupportedOperation)
  }

  function Delete(uri: seq<string>, selection: Option<string>, selectionArgs: Option<seq<string>>): (r: Result<int>)
    ensures r == Failure(UnsupportedOperation)
  {
    Failure(UnsupportedOperation)
  }
}
