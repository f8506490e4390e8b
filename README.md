# vimeoid simple-API content provider, modelled in Dafny

`VimeoSimpleApiProvider` is a read-only Android content provider. It answers
content URIs such as `user/42/videos`, `video/12345` or `album/7/info` with
data from the simple Vimeo API. This project models its core:

- the twelve URI-type constants and the static table of path templates
  registered with the URI matcher (`*` matches any one segment, `#` matches
  one all-digit segment);
- classification of a path against that table;
- the three switches over a URI type, used by `getType`,
  `getReturnedContentType` and `getReturnsMultipleResults`;
- the `query` front end: its argument checks, its choice between an array
  fetch and an object fetch, and its mapping of fetch failures to `null`;
- `insert`, `update` and `delete`, which are always rejected.

Files:

- `UriMatching.dfy`: URI-matcher semantics. It defines template segments,
  segment and template matching, and `MatchIn`, first-match classification
  over a registration list. It also defines the class `UriMatcher`, whose
  `AddUri` appends one registration.
- `Provider.dfy`: the provider itself. It holds the constants,
  `ProviderTable`, the static initialiser (`StaticInit`, one `AddUri` per
  template in source order), `Classify`, the switches, `Query` and the
  mutations.
- `ProviderProperties.dfy`: what the table and the lookups guarantee. It
  defines `ReferenceClassify`, the resource table read directly shape by
  shape. Classification is proved equal to it. Disjointness, coverage, the
  `#` digit checks and the lookup facts follow from that equality.

Modelling choices:

- A content URI is modelled by its decoded path segments (`seq<string>`).
  `NO_MATCH` is `-1`.
- URI types stay integers, as in the source. Each switch is an `if` chain
  over the named constants, and its `default` branch is
  `Failure(IllegalArgument)`.
- `UriKind` splits each URI type into the entity it returns and whether it
  returns many results. `CodeOf` and `KindOf` are the two directions of that
  mapping.
- In `Query`, `resolveUriForSimpleApi` and the remote API are function
  parameters (`resolve`, `remote`). The returned `calls` sequence records
  the transport requests that were made, so the contract can say that no
  fetch happens before the argument checks pass.
- `askForArray` on an object answer, and `askForObject` on an array answer,
  are modelled as parse failures. The caught exception then makes `query`
  return `null` (`Returned(None)`).

Points about the code's behaviour that a reader might not expect:

- An empty projection array is accepted. Only a `null` projection raises
  `IllegalArgumentException` (line 188).
- `query` calls `resolveUriForSimpleApi` before it classifies the URI.
  Classification happens inside `getReturnsMultipleResults`. For an
  unrecognised URI, that call's `IllegalArgumentException` is not one of the
  caught exceptions, so `query` throws it (lines 189-191). `Query` returns
  `Thrown(IllegalArgument)` and makes no fetch.
- A fetch that returns the wrong shape, and every transport failure, give a
  `null` cursor. Neither is reported as a distinct error (lines 198-208).
- No separate "invalid segment" error exists. A non-numeric segment where
  `#` stands simply leaves the path unmatched.

## Model

| member | source | states |
|---|---|---|
| UriMatching.MatchIn | apk/src/org/vimeoid/VimeoSimpleApiProvider.java:66-97 | with no matching template the result is NO_MATCH; otherwise it is the code of the first registration whose template matches, segment count and every segment agreeing |
| UriMatching.MatchInPermutation | apk/src/org/vimeoid/VimeoSimpleApiProvider.java:66-97 | on a path where all matching registrations agree, any reordering of the table matches to the same result |
| UriMatching.MatchInAgreeing | apk/src/org/vimeoid/VimeoSimpleApiProvider.java:66-97 | when all matching registrations carry one code, matching yields that code whenever anything matches, whatever the registration order |
| UriMatching.UriMatcher.constructor | apk/src/org/vimeoid/VimeoSimpleApiProvider.java:67 | a new matcher has no registrations |
| UriMatching.UriMatcher.AddUri | apk/src/org/vimeoid/VimeoSimpleApiProvider.java:69 | addURI appends exactly one registration (template, code) and changes nothing else |
| Provider.StaticInit | apk/src/org/vimeoid/VimeoSimpleApiProvider.java:66-98 | the static block leaves a fresh matcher holding exactly the 24 registrations of the table, in source order, so that matching with it is `Classify` on every path |
| Provider.Classify | apk/src/org/vimeoid/VimeoSimpleApiProvider.java:113 | uriMatcher.match on the provider's table gives NO_MATCH exactly when no template matches, and otherwise one of the twelve URI types |
| Provider.MimeTypeFor | apk/src/org/vimeoid/VimeoSimpleApiProvider.java:112-128 | the getType switch fails, with IllegalArgument, exactly on codes outside the twelve URI types; otherwise its tag belongs to the entity the content-type switch gives and is the collection tag exactly when the cardinality switch says many |
| Provider.ContentTypeFor | apk/src/org/vimeoid/VimeoSimpleApiProvider.java:130-146 | the getReturnedContentType switch fails, with IllegalArgument, exactly on codes outside the twelve URI types |
| Provider.MultipleResultsFor | apk/src/org/vimeoid/VimeoSimpleApiProvider.java:148-164 | the getReturnsMultipleResults switch fails, with IllegalArgument, exactly on codes outside the twelve URI types; otherwise it is true exactly on the odd codes, the list constants |
| Provider.GetType | apk/src/org/vimeoid/VimeoSimpleApiProvider.java:112-128 | getType throws IllegalArgument exactly when no template matches the URI |
| Provider.GetReturnedContentType | apk/src/org/vimeoid/VimeoSimpleApiProvider.java:130-146 | getReturnedContentType throws IllegalArgument exactly when no template matches the URI |
| Provider.GetReturnsMultipleResults | apk/src/org/vimeoid/VimeoSimpleApiProvider.java:148-164 | getReturnsMultipleResults throws IllegalArgument exactly when no template matches the URI |
| Provider.RegisterUserTemplates | apk/src/org/vimeoid/VimeoSimpleApiProvider.java:69-79 | the eleven user/* addURI calls append the user templates in order |
| Provider.RegisterVideoTemplates | apk/src/org/vimeoid/VimeoSimpleApiProvider.java:81 | the video/# addURI call appends its template |
| Provider.RegisterGroupTemplates | apk/src/org/vimeoid/VimeoSimpleApiProvider.java:83-85 | the three group/* addURI calls append their templates in order |
| Provider.RegisterChannelTemplates | apk/src/org/vimeoid/VimeoSimpleApiProvider.java:87-88 | the two channel/* addURI calls append their templates in order |
| Provider.RegisterAlbumTemplates | apk/src/org/vimeoid/VimeoSimpleApiProvider.java:90-91 | the two album/# addURI calls append their templates in order |
| Provider.RegisterActivityTemplates | apk/src/org/vimeoid/VimeoSimpleApiProvider.java:93-97 | the five activity/* addURI calls append their templates in order |
| Provider.CursorFrom | apk/src/org/vimeoid/VimeoSimpleApiProvider.java:191-208 | a cursor exists exactly when the answer has the shape the fetch asked for; it wraps that array or object with the caller's projection unchanged; otherwise the result is null |
| Provider.Query | apk/src/org/vimeoid/VimeoSimpleApiProvider.java:183-209 | selection or selectionArgs given throws UnsupportedOperation, then sortOrder given throws UnsupportedOperation, then a null projection throws IllegalArgument, then an unrecognised URI throws IllegalArgument; it throws iff no fetch is made; otherwise exactly one fetch is made, array for many-result URIs and object for single ones, and the outcome is the cursor or null |
| Provider.Insert | apk/src/org/vimeoid/VimeoSimpleApiProvider.java:170-172 | insert throws UnsupportedOperation for every argument |
| Provider.Update | apk/src/org/vimeoid/VimeoSimpleApiProvider.java:215-218 | update throws UnsupportedOperation for every argument |
| Provider.Delete | apk/src/org/vimeoid/VimeoSimpleApiProvider.java:104-106 | delete throws UnsupportedOperation for every argument |
| Provider.TableCodesAreUriTypes | apk/src/org/vimeoid/VimeoSimpleApiProvider.java:53-97 | every registered code is one of the twelve URI types |
| ProviderProperties.TableSound | apk/src/org/vimeoid/VimeoSimpleApiProvider.java:69-97 | every registration that matches a path names the type the resource table gives that path |
| ProviderProperties.TableComplete | apk/src/org/vimeoid/VimeoSimpleApiProvider.java:69-97 | every path the resource table recognises is matched by some registration |
| ProviderProperties.ClassifyIsReference | apk/src/org/vimeoid/VimeoSimpleApiProvider.java:69-97 | classification equals the resource table read shape by shape, for every path |
| ProviderProperties.ClassifyAnyOrder | apk/src/org/vimeoid/VimeoSimpleApiProvider.java:69-97 | registering the provider's 24 templates in any order classifies every path as the source order does |
| ProviderProperties.TableDisjoint | apk/src/org/vimeoid/VimeoSimpleApiProvider.java:69-97 | two registrations that match the same concrete path carry the same URI type |
| ProviderProperties.EveryTemplateClassifies | apk/src/org/vimeoid/VimeoSimpleApiProvider.java:69-97 | any path that fits a registered template classifies to that template's type |
| ProviderProperties.UserLikesExample | apk/src/org/vimeoid/VimeoSimpleApiProvider.java:71 | user/X/likes is a video collection for every user id X |
| ProviderProperties.AlbumInfoExample | apk/src/org/vimeoid/VimeoSimpleApiProvider.java:90 | album/N/info is a single album for every numeric N, e.g. album/7/info |
| ProviderProperties.VideoAbcExample | apk/src/org/vimeoid/VimeoSimpleApiProvider.java:81 | video/abc is unrecognised |
| ProviderProperties.AlbumXVideosExample | apk/src/org/vimeoid/VimeoSimpleApiProvider.java:91 | album/x/videos is unrecognised |
| ProviderProperties.NumberSegmentsRequireDigits | apk/src/org/vimeoid/VimeoSimpleApiProvider.java:81-91 | a path is a single video iff it is video/N with N numeric, and a single album iff it is album/N/info with N numeric; album/N/videos is a video list iff N is numeric; a video or album path with a non-numeric second segment is unrecognised |
| ProviderProperties.SegmentCount | apk/src/org/vimeoid/VimeoSimpleApiProvider.java:69-97 | only two- and three-segment paths are recognised, and the only two-segment ones are under video |
| ProviderProperties.ActionSingleNeverClassified | apk/src/org/vimeoid/VimeoSimpleApiProvider.java:54-97 | no path classifies as ACTION_SINGLE_URI_TYPE |
| ProviderProperties.CodeOf | apk/src/org/vimeoid/VimeoSimpleApiProvider.java:53-64 | every entity and cardinality has a URI-type constant between 1 and 12 |
| ProviderProperties.KindOf | apk/src/org/vimeoid/VimeoSimpleApiProvider.java:53-64 | every code from 1 to 12 is the constant of some entity and cardinality |
| ProviderProperties.KindOfCodeOf | apk/src/org/vimeoid/VimeoSimpleApiProvider.java:53-64 | the twelve constants are pairwise distinct: decoding a kind's code gives the kind back |
| ProviderProperties.LookupsByKind | apk/src/org/vimeoid/VimeoSimpleApiProvider.java:112-164 | for every URI type, the cardinality switch gives its cardinality, the content-type switch gives its entity, and the MIME switch gives the entity's collection tag for list types and its item tag for single types |
| ProviderProperties.LookupsRejectOtherCodes | apk/src/org/vimeoid/VimeoSimpleApiProvider.java:112-164 | on any code that is not a URI type, NO_MATCH among them, all three switches throw IllegalArgument |
| ProviderProperties.MultipleResultsExactlyLists | apk/src/org/vimeoid/VimeoSimpleApiProvider.java:148-164 | getReturnsMultipleResults is true exactly on the six list types and false exactly on the six single types |
| ProviderProperties.LookupsFailIffUnmatched | apk/src/org/vimeoid/VimeoSimpleApiProvider.java:112-164 | each of getType, getReturnedContentType and getReturnsMultipleResults fails iff no template matches the path, and fails only with IllegalArgument |
| ProviderProperties.LookupsAgree | apk/src/org/vimeoid/VimeoSimpleApiProvider.java:112-146 | on a recognised path, getType is the CONTENT_TYPE of the entity getReturnedContentType names when the path returns many results, and its CONTENT_ITEM_TYPE when it returns one |
| ProviderProperties.ActivityPathsReturnMany | apk/src/org/vimeoid/VimeoSimpleApiProvider.java:93-164 | every recognised activity path returns many results, of entity ACTIVITY, tagged with the action collection type |

## Left out

- HTTP transport (`JsonOverHttp.askForArray` / `askForObject`): network I/O in a file that is not part of this model. The remote API is the function parameter `remote`, which answers an array, an object or one of the three caught failures.
- JSON parsing and `JsonObjectsCursor`: not part of this model. A parsed object is a map of field texts, and a cursor is an opaque value built from the fetched payload and the projection. Row and column projection is not modelled.
- `VimeoApiUtils.resolveUriForSimpleApi`: not part of this model. It is the function parameter `resolve`, and any exception it might throw is not modelled.
- Android plumbing: `onCreate`, `AUTHORITY`, `BASE_URI`, scheme and authority matching, URI parsing and percent-decoding of segments, `Log.e` and `printStackTrace`. Every registration uses the provider's single authority, so paths are matched without it.
- UriMatcher internals: the splitting of template strings at `/`, and the root code passed to the constructor. That root code only answers a URI with neither authority nor path. Templates are written as segment sequences.
- UriMatcher's trie: Android walks a trie and takes the first matching child at each level, without backtracking. The model scans the registrations in order instead. The two agree on this table, because at no level is a literal child a sibling of a wildcard child. That the order of the registrations does not matter is proved as `ClassifyAnyOrder`, from `TableSound` and `MatchInPermutation`.
- UriMatching.UriMatcher.AddUri: Android's addURI overwrites the code when the same template is added twice, so the last registration wins; the model appends, and `MatchIn` takes the first. Android's addURI also throws IllegalArgumentException on a negative code; the model accepts any code. Neither case arises with the provider's 24 registrations, whose templates are distinct and whose codes are 1 to 12.
- UriMatching.IsNumber: accepts the empty string, as UriMatcher's digit loop does. Android's path segments are never empty, so the case does not arise.
- The concrete strings of each DTO's `CONTENT_TYPE` / `CONTENT_ITEM_TYPE` and the `ContentType` enum: they are defined in classes that are not part of this model. They are distinct datatype constructors per entity.
- Concurrency: the tables are immutable after initialisation, and each call is independent.
