/**
  What the provider's table and lookups guarantee: the registered templates
  never disagree on a path, classification coincides with a direct reading
  of the resource table, `#` segments demand digits, and the three lookups
  agree with each other and fail exactly on unrecognised paths.
 */
module ProviderProperties {
  import opened UriMatching
  import opened Provider

  /**
    The provider's resource table read directly, shape by shape: the URI type
    a path denotes, or NoMatch. It is written independently of the
    registration list so that the two can be compared.
   */
  function ReferenceClassify(path: seq<string>): int {
    if |path| == 2 then
      if path[0] == "video" && IsNumber(path[1]) then VideoSingleUriType else NoMatch
    else if |path| != 3 then NoMatch
    else
      var root, id, leaf := path[0], path[1], path[2];
      if root == "user" then
        if leaf == "info" then UserSingleUriType
        else if leaf == "videos" || leaf == "likes" || leaf == "appears" || leaf == "all"
          || leaf == "subscr" || leaf == "ccreated" || leaf == "clikes" then VideosListUriType
        else if leaf == "albums" then AlbumsListUriType
        else if leaf == "channels" then ChannelsListUriType
        else if leaf == "groups" then GroupsListUriType
        else NoMatch
      else if root == "group" then
        if leaf == "info" then GroupSingleUriType
        else if leaf == "videos" then VideosListUriType
        else if leaf == "users" then UsersListUriType
        else NoMatch
      else if root == "channel" then
        if leaf == "info" then ChannelSingleUriType
        else if leaf == "videos" then VideosListUriType
        else NoMatch
      else if root == "album" && IsNumber(id) then
        if leaf == "info" then AlbumSingleUriType
        else if leaf == "videos" then VideosListUriType
        else NoMatch
      else if root == "activity" then
        if leaf == "did" || leaf == "happened" || leaf == "cdid" || leaf == "chappened" || leaf == "edid"
        then ActionsListUriType
        else NoMatch
      else NoMatch
  }

  /** Each registration, when it matches, names the type the resource table gives. */
  lemma TableSound(path: seq<string>)
    ensures forall i :: 0 <= i < |ProviderTable| && TemplateMatches(ProviderTable[i].template, path) ==>
      ReferenceClassify(path) == ProviderTable[i].code
  {
  }

  /** Every shape of the resource table is covered by some registration. */
  lemma TableComplete(path: seq<string>)
    requires ReferenceClassify(path) != NoMatch
    ensures Matched(ProviderTable, path)
  {
    var root, leaf := path[0], path[|path| - 1];
    var i: nat;
    if |path| == 2 {
      i := 11;
    } else if root == "user" {
      i := if leaf == "info" then 0 else if leaf == "videos" then 1 else if leaf == "likes" then 2
        else if leaf == "appears" then 3 else if leaf == "all" then 4 else if leaf == "subscr" then 5
        else if leaf == "albums" then 6 else if leaf == "channels" then 7 else if leaf == "groups" then 8
        else if leaf == "ccreated" then 9 else 10;
    } else if root == "group" {
      i := if leaf == "info" then 12 else if leaf == "videos" then 13 else 14;
    } else if root == "channel" {
      i := if leaf == "info" then 15 else 16;
    } else if root == "album" {
      i := if leaf == "info" then 17 else 18;
    } else {
      i := if leaf == "did" then 19 else if leaf == "happened" then 20 else if leaf == "cdid" then 21
        else if leaf == "chappened" then 22 else 23;
    }
    assert TemplateMatches(ProviderTable[i].template, path);
  }

  /** Classification is the resource table: registration order plays no part. */
  lemma ClassifyIsReference(path: seq<string>)
    ensures Classify(path) == ReferenceClassify(path)
  {
    TableSound(path);
    TableCodesAreUriTypes();
    if ReferenceClassify(path) != NoMatch {
      TableComplete(path);
    }
    MatchInAgreeing(ProviderTable, path, ReferenceClassify(path));
  }

  /**
    The registry is unambiguous: whenever two registered templates match the
    same concrete path they carry the same URI type.
   */
  lemma TableDisjoint(path: seq<string>, i: nat, j: nat)
    requires i < |ProviderTable| && TemplateMatches(ProviderTable[i].template, path)
    requires j < |ProviderTable| && TemplateMatches(ProviderTable[j].template, path)
    ensures ProviderTable[i].code == ProviderTable[j].code
  {
    TableSound(path);
  }

  /**
    Registration order does not matter: registering the same templates in any
    order (any permutation of the table) classifies every path alike.
   */
  lemma ClassifyAnyOrder(table: seq<Registration>, path: seq<string>)
    requires multiset(table) == multiset(ProviderTable)
    ensures MatchIn(table, path) == Classify(path)
  {
    TableSound(path);
    MatchInPermutation(ProviderTable, table, path, ReferenceClassify(path));
  }

  /** A path that fits a registered template classifies to that template's type. */
  lemma EveryTemplateClassifies(i: nat, path: seq<string>)
    requires i < |ProviderTable| && TemplateMatches(ProviderTable[i].template, path)
    ensures Classify(path) == ProviderTable[i].code
  {
    TableSound(path);
    ClassifyIsReference(path);
  }

  /** A user's liked videos, for any user id, are a video collection. */
  lemma UserLikesExample(id: string)
    ensures Classify(["user", id, "likes"]) == VideosListUriType
  {
    ClassifyIsReference(["user", id, "likes"]);
  }

  /** An album's info is a single album whenever the album id is numeric, e.g. album/7/info. */
  lemma AlbumInfoExample(id: string)
    requires IsNumber(id)
    ensures Classify(["album", id, "info"]) == AlbumSingleUriType
  {
    ClassifyIsReference(["album", id, "info"]);
  }

  /** video/abc is unrecognised: `#` needs digits. */
  lemma VideoAbcExample()
    ensures Classify(["video", "abc"]) == NoMatch
  {
    assert !IsNumber("abc") by { assert "abc"[0] == 'a'; }
    ClassifyIsReference(["video", "abc"]);
  }

  /** album/x/videos is unrecognised: `#` needs digits. */
  lemma AlbumXVideosExample()
    ensures Classify(["album", "x", "videos"]) == NoMatch
  {
    assert !IsNumber("x") by { assert "x"[0] == 'x'; }
    ClassifyIsReference(["album", "x", "videos"]);
  }

  /**
    The `#` templates (video/#, album/#/info, album/#/videos) accept only a
    numeric second segment, and only at their own length.
   */
  lemma NumberSegmentsRequireDigits(path: seq<string>)
    ensures Classify(path) == VideoSingleUriType <==> |path| == 2 && path[0] == "video" && IsNumber(path[1])
    ensures Classify(path) == AlbumSingleUriType <==> |path| == 3 && path[0] == "album" && IsNumber(path[1]) && path[2] == "info"
    ensures |path| == 3 && path[0] == "album" && path[2] == "videos" ==> (Classify(path) == VideosListUriType <==> IsNumber(path[1]))
    ensures |path| >= 2 && (path[0] == "video" || path[0] == "album") && !IsNumber(path[1]) ==> Classify(path) == NoMatch
  {
    ClassifyIsReference(path);
  }

  /** Only two- and three-segment paths are ever recognised. */
  lemma SegmentCount(path: seq<string>)
    ensures Classify(path) != NoMatch ==> |path| == 2 || |path| == 3
    ensures |path| == 2 && Classify(path) != NoMatch ==> path[0] == "video"
  {
  }

  /** No template registers ACTION_SINGLE_URI_TYPE, so classification never yields it. */
  lemma ActionSingleNeverClassified(path: seq<string>)
    ensures Classify(path) != ActionSingleUriType
  {
  }

  /** The two components of a URI type: the entity it returns and its cardinality. */
  datatype UriKind = UriKind(content: ContentType, multiple: bool)

  /** The URI-type constant of each kind: the *_LIST_URI_TYPE and *_SINGLE_URI_TYPE names. */
  function CodeOf(k: UriKind): (c: int)
    ensures 1 <= c <= 12
  {
    match k
    case UriKind(Activity, true) => ActionsListUriType
    case UriKind(Activity, false) => ActionSingleUriType
    case UriKind(Album, true) => AlbumsListUriType
    case UriKind(Album, false) => AlbumSingleUriType
    case UriKind(Channel, true) => ChannelsListUriType
    case UriKind(Channel, false) => ChannelSingleUriType
    case UriKind(Group, true) => GroupsListUriType
    case UriKind(Group, false) => GroupSingleUriType
    case UriKind(User, true) => UsersListUriType
    case UriKind(User, false) => UserSingleUriType
    case UriKind(Video, true) => VideosListUriType
    case UriKind(Video, false) => VideoSingleUriType
  }

  /** The kind a URI-type constant names; every one of the twelve codes names one. */
  function KindOf(c: int): (k: UriKind)
    requires 1 <= c <= 12
    ensures CodeOf(k) == c
  {
    var content := match (c + 1) / 2
      case 1 => Activity case 2 => Album case 3 => Channel
      case 4 => Group case 5 => User case _ => Video;
    UriKind(content, c % 2 == 1)
  }

  /** The twelve constants are distinct: decoding a kind's code gives the kind back. */
  lemma KindOfCodeOf(k: UriKind)
    ensures KindOf(CodeOf(k)) == k
  {
  }

  /** Each switch, on each URI type, answers from the type's entity and cardinality alone. */
  lemma LookupsByKind(k: UriKind)
    ensures MultipleResultsFor(CodeOf(k)) == Success(k.multiple)
    ensures ContentTypeFor(CodeOf(k)) == Success(k.content)
    ensures MimeTypeFor(CodeOf(k)) == Success(if k.multiple then CollectionType(k.content) else ItemType(k.content))
  {
  }

  /** On a code that is no URI type, e.g. NO_MATCH, every switch throws IllegalArgumentException. */
  lemma LookupsRejectOtherCodes(c: int)
    requires forall k :: CodeOf(k) != c
    ensures MultipleResultsFor(c) == Failure(IllegalArgument)
    ensures ContentTypeFor(c) == Failure(IllegalArgument)
    ensures MimeTypeFor(c) == Failure(IllegalArgument)
  {
    if 1 <= c <= 12 {
      KindOfCodeOf(KindOf(c));
    }
  }

  /**
    getReturnsMultipleResults is true on exactly the six *_LIST types and
    false on exactly the six *_SINGLE types.
   */
  lemma MultipleResultsExactlyLists(c: int)
    ensures MultipleResultsFor(c) == Success(true) <==> exists k :: CodeOf(k) == c && k.multiple
    ensures MultipleResultsFor(c) == Success(false) <==> exists k :: CodeOf(k) == c && !k.multiple
  {
    if 1 <= c <= 12 {
      LookupsByKind(KindOf(c));
    } else {
      LookupsRejectOtherCodes(c);
    }
  }

  /** All three lookups throw IllegalArgumentException exactly when no template matches. */
  lemma LookupsFailIffUnmatched(path: seq<string>)
    ensures GetType(path).Failure? <==> !Matched(ProviderTable, path)
    ensures GetReturnedContentType(path).Failure? <==> !Matched(ProviderTable, path)
    ensures GetReturnsMultipleResults(path).Failure? <==> !Matched(ProviderTable, path)
    ensures GetType(path).Failure? ==> GetType(path).error == IllegalArgument
    ensures GetReturnedContentType(path).Failure? ==> GetReturnedContentType(path).error == IllegalArgument
    ensures GetReturnsMultipleResults(path).Failure? ==> GetReturnsMultipleResults(path).error == IllegalArgument
  {
    TableCodesAreUriTypes();
    var c := Classify(path);
    if 1 <= c <= 12 {
      LookupsByKind(KindOf(c));
    } else {
      LookupsRejectOtherCodes(c);
    }
  }

  /**
    On a recognised path the lookups agree: getType is the CONTENT_TYPE of
    the entity getReturnedContentType names when the path returns many
    results, and its CONTENT_ITEM_TYPE when it returns one.
   */
  lemma LookupsAgree(path: seq<string>)
    requires Matched(ProviderTable, path)
    ensures GetType(path).Success? && GetReturnedContentType(path).Success? && GetReturnsMultipleResults(path).Success?
    ensures GetType(path).value ==
      if GetReturnsMultipleResults(path).value then CollectionType(GetReturnedContentType(path).value)
      else ItemType(GetReturnedContentType(path).value)
  {
    TableCodesAreUriTypes();
    LookupsByKind(KindOf(Classify(path)));
  }

  /** Every recognised activity/... path returns many actions. */
  lemma ActivityPathsReturnMany(path: seq<string>)
    requires |path| > 0 && path[0] == "activity" && Matched(ProviderTable, path)
    ensures GetReturnsMultipleResults(path) == Success(true)
    ensures GetReturnedContentType(path) == Success(Activity)
    ensures GetType(path) == Success(CollectionType(Activity))
  {
    TableCodesAreUriTypes();
    ClassifyIsReference(path);
  }
}
