# Wattpad-Py client object model, in Dafny

This project models the core of Wattpad-Py, a Python client for the Wattpad REST API, and
proves properties of that model. The client has four parts:

- **Field selection and URLs.** The caller says which fields to fetch as a nested *include*
  mapping (`{"tags": True, "parts": {"id": True}}`). `construct_fields` turns it into the
  wire grammar `tags,parts(id)`. `build_url` adds the `fields`, `limit` and `offset` query
  parameters. The collection endpoints wrap the selection once more: `users(...)`,
  `stories(...)` or `lists(...)`.
- **Schema tables.** The pydantic models (`UserModel`, `StoryModel`, `ListModel` and the
  value models) list each entity's fields in declaration order. Each field may have a wire
  alias and a default. `get_fields` reads this table to expand `include=True`.
  `convert_from_aliases` reads it to rename incoming keys to attribute names.
- **Identity cache.** Every entity class has a metaclass that keeps one instance per key.
  `User("Alice")` and a later `User("alice")` are the same object. A cached instance comes
  back without `__init__` running again.
- **Entities.** `User`, `Story` and `List` objects have fetch methods. Each fetch method
  normalises the include argument and forces identifying fields into it, builds the request
  URL, and then processes the decoded response. Processing resolves every returned entity
  through the cache, merges the returned fields into its record, and updates the relation
  sets and counts on both sides.

The model is made of these modules:

| module | file | contents |
|---|---|---|
| `Wrappers` | `wrappers.dfy` | the `Option` and `Result` types |
| `Text` | `text.dfy` | lowercasing, `removesuffix`, `join`, integer formatting |
| `Assoc` | `assoc.dfy` | insertion-ordered dicts |
| `JsonValue` | `json.dfy` | decoded JSON |
| `FieldQuery` | `fields.dfy` | `construct_fields`, `build_url`, include forcing |
| `Schema` | `schema.dfy` | `get_fields` (both versions), `convert_from_aliases`, record construction and update |
| `Models` | `models.dfy` | the model tables and their shape |
| `Identity` | `identity.dfy` | cache keys and the per-class registry |
| `Payload` | `payload.dfy` | reading the parts of a response the fetch methods index into |
| `Wattpad` | `entities.dfy` | the `User`, `Story`, `List`, `StorySet` and `Client` classes |

The pure code (`construct_fields`, `build_url`, `get_fields`, `convert_from_aliases`, the
model tables) becomes functions and lemmas. Each loop among them (both `get_fields`, the two
loops of `convert_from_aliases`, `construct_fields`) also gets a method, proved equal to its
function.

The code that changes state becomes classes whose methods modify the fields the source
updates in place:

- the caller's include dict is a `Selection` object;
- a `User` has `followers`, `following`, `stories`, `lists` and `data`;
- a `Story` has `user`, `recommended` and `data`;
- a `List` has `name`, `user` and a shared `StorySet`;
- each class's `_instances` table is a `Registry`, and the `Client` holds one registry per
  class.

Each fetch method takes the decoded response as a parameter. It returns the URL it would
request, plus the resolved page (or the raw record for `User.fetch` and `Story.fetch`).

The fetch methods say which cached instances they may change through tight `modifies`
clauses: `CachedStories`, `CachedSets`, `CachedUser` and `ReplyAuthor` name exactly the
cached instances under the keys of the page. A cached instance outside those sets keeps its
state, because the method is not allowed to write it. Where a frame has to be wider, an
`unchanged` clause says the same, as in `ReadPage`.

## Model

| member | source | states |
|---|---|---|
| `Text.Lower` | src/wattpad/utils.py:191 | lowercasing keeps the length; each upper-case ASCII letter becomes its lower-case letter (code point plus 32), every other character stays, and no upper-case letter is left |
| `Text.LowerIdempotent` | src/wattpad/utils.py:191 | lowercasing an already lowercased key changes nothing |
| `Text.RemoveSuffix` | src/wattpad/utils.py:109 | `removesuffix` strips exactly one trailing occurrence, and only when there is one |
| `Text.StripTerminated` | src/wattpad/utils.py:97-109 | appending `part + ","` for each part and then stripping one trailing comma gives `",".join(parts)` |
| `Text.IntToString` | src/wattpad/utils.py:137 | `f"{limit}"` starts with `-` exactly for a negative number; the digits after it read back as the absolute value, with no leading zero (so `r[0]` is a digit when `n >= 0`) |
| `Assoc.Remove` | src/wattpad/wattpad.py:93-94 | `data.pop(key)` removes the key and keeps every other key's value |
| `Assoc.Put` | src/wattpad/wattpad.py:118 | `d[k] = v` sets `k`, keeps every other key, and keeps an existing key's position or appends a new one last |
| `Assoc.PutKeepsUniqueKeys` | src/wattpad/wattpad.py:118 | assigning into a dict never creates a repeated key |
| `FieldQuery.ConstructFieldsLoop` | src/wattpad/utils.py:97-111 | the accumulate-and-strip loop, recursing into nested dicts, computes `ConstructFields` |
| `FieldQuery.ConstructFieldsIsGrammar` | src/wattpad/utils.py:99-109 | `construct_fields` equals the independent grammar: `False` entries skipped, `True` as the bare key, a dict as `key(<nested>)`, in insertion order, comma-separated |
| `FieldQuery.AllExcludedYieldsEmpty` | src/wattpad/utils.py:97-111 | an empty mapping, or one whose entries are all `False`, serialises to `""` |
| `FieldQuery.NoTrailingComma` | src/wattpad/utils.py:109 | with field-name keys, the result never ends in a comma, and it is empty exactly when every entry is `False` |
| `FieldQuery.DocstringExample` | src/wattpad/utils.py:79-89 | the docstring's mapping serialises to `tags,id,parts(id),tagRankings` |
| `FieldQuery.SubChunk` | src/wattpad/utils.py:106-107 | a nested mapping that selects one key renders as `key(sub),` |
| `FieldQuery.AllIncluded` | src/wattpad/wattpad.py:81-83 | `{key: True for key in names}` has the names as its keys, in order, each `True` |
| `FieldQuery.AllIncludedSerialisesInOrder` | src/wattpad/wattpad.py:81-83 | selecting every field serialises to the field names joined by commas, in declaration order |
| `FieldQuery.BuildUrlShape` | src/wattpad/utils.py:131-144 | every URL is the API root, the path and `?`, followed by the present parameters joined by `&`; `fields`, `limit` and `offset` come in that order, each only when truthy (`None`, `{}` and `0` are omitted); with none present the URL ends in `?` |
| `FieldQuery.CollectionUrlShape` | src/wattpad/wattpad.py:182-190 | a collection URL carries no top-level `fields` and ends with `&fields=<wrapper>(<selection>)` after the paging parameters |
| `FieldQuery.CollectionUrlWithoutPaging` | src/wattpad/wattpad.py:128-131 | without `limit` and `offset`, the wrapped selection directly follows `?&` |
| `FieldQuery.ForceWithin` | src/wattpad/wattpad.py:120-126 | a child is forced only inside a parent entry that is a dict; every other entry, and a non-dict parent, stay as they were |
| `FieldQuery.StoriesSelection` | src/wattpad/wattpad.py:118-126 | `fetch_stories` forces `id`; a `tagRankings` dict gets `name` forced and a `parts` dict gets `id` forced, other values of those two stay; no other entry changes, and the key order is kept |
| `FieldQuery.UsersSelection` | src/wattpad/wattpad.py:180 | `fetch_followers` and `fetch_following` force `username` and change nothing else; a `username` already given keeps its place, and a new one goes last, so the key order `construct_fields` follows is kept |
| `FieldQuery.ListsSelection` | src/wattpad/wattpad.py:290-294 | `fetch_lists` forces `id`; a `stories` dict gets `id` forced, any other `stories` value stays; no other entry changes, and the key order is kept |
| `FieldQuery.DefaultListsSelectsOnlyId` | src/wattpad/wattpad.py:281-304 | with `include=False` the lists request selects `id` and nothing else: the wrapped selection is `lists(id)` |
| `FieldQuery.AuthorSelection` | src/wattpad/wattpad.py:388-398 | the `user` entry always becomes a dict: every user field when it was `True`; `{"username": True}` when it was `False` or absent; a given dict with `username` forced and its other entries kept; no other entry changes |
| `FieldQuery.RecommendedSelection` | src/wattpad/wattpad.py:443-455 | `fetch_recommended` forces `id` and rewrites `user` exactly as `AuthorSelection` does (every user field, `{"username": True}`, or the given dict with `username` forced); no other entry changes |
| `FieldQuery.ForcedFieldsAreSelected` | src/wattpad/wattpad.py:118-126 | whatever the caller asked for, the serialised selection names `id` for stories, lists and recommendations, and `username` for followers and following |
| `FieldQuery.TagsAndUserRewritten` | src/wattpad/wattpad.py:388-392 | `{"tags": True, "user": True}` becomes `tags` plus `user` as a dict of every user field |
| `FieldQuery.TagsAndFullAuthor` | src/wattpad/wattpad.py:388-392 | that selection serialises to `tags,user(<all user fields>)` |
| `Schema.GetFields` | src/wattpad/utils.py:26-42 | one entry per field in declaration order: the alias when there is one and `prefer_alias` is set, the name otherwise |
| `Schema.GetFieldsLoop` | src/wattpad/utils.py:36-42 | the append loop computes `GetFields` |
| `Schema.LegacyGetFieldsLoop` | src/utils.py:6-12 | the older loop computes `LegacyGetFields` |
| `Schema.LegacyGetFieldsPrefersAlias` | src/utils.py:4-12 | the older `get_fields` has one entry per field, in order, always preferring the alias: it is the newer one with `prefer_alias=True` |
| `Schema.AliasTableSpec` | src/wattpad/utils.py:60-65 | `alias_to_original` holds exactly the aliases that differ from their names, each mapped to the name of its last such field |
| `Schema.AliasTableValues` | src/wattpad/utils.py:62-65 | every value of the table is the name paired with its key by some field |
| `Schema.RenameInvertsAliases` | src/wattpad/utils.py:45-73 | an alias is renamed to its field's attribute name; a key that is no alias passes through unchanged |
| `Schema.ConvertFromAliasesLoop` | src/wattpad/utils.py:57-73 | the two loops compute `ConvertFromAliases` |
| `Schema.AliasTableLoop` | src/wattpad/utils.py:62-65 | the zip loop builds exactly `AliasTable` of the two field lists |
| `Schema.RenameKeysLoop` | src/wattpad/utils.py:67-71 | the copy loop builds exactly `RenameKeys` of the data under the table |
| `Schema.RenameKeysDomain` | src/wattpad/utils.py:67-71 | the converted dict has exactly the renamed incoming keys |
| `Schema.RenameKeysValue` | src/wattpad/utils.py:67-71 | values pass through untouched: each renamed key carries the value of the last incoming key renamed to it |
| `Schema.InstantiateSpec` | src/wattpad/wattpad.py:64 | building a model succeeds exactly when every required field is supplied under its wire name, and then yields the populated record |
| `Schema.PopulateDomain` | src/wattpad/wattpad.py:64 | a new record holds exactly the declared fields |
| `Schema.PopulateValue` | src/wattpad/wattpad.py:365 | each field of a new record takes the argument under its wire name, or else its default |
| `Schema.UpdateRecordSpec` | src/wattpad/wattpad.py:329-337 | `_update_data` overwrites exactly the alias-converted keys it receives, with their last values, and keeps every other field |
| `Schema.UpdatesCompose` | src/wattpad/wattpad.py:473-481 | two updates equal one update with both argument lists, later winning; repeating an update changes nothing |
| `Models.UserModelShape` | src/wattpad/models.py:40-87 | `username` is the only required field, declared first and never again; every other field defaults to None |
| `Models.StoryModelShape` | src/wattpad/models.py:132-167 | `id` is the only required field; `parts` and `tag_rankings` default to empty lists, every other field to None |
| `Models.ValueModelsShape` | src/wattpad/models.py:90-175 | `ListModel` requires `id`, `name` and `stories`; the part, language and user sub-models require every field; `TagRankingModel` requires only `name` |
| `Models.UserAliasesRenamable` | src/wattpad/models.py:40-87 | every alias of `UserModel` is non-empty and differs from its name (e.g. `is_private`/`isPrivate`) |
| `Models.StoryAliasesRenamable` | src/wattpad/models.py:132-167 | the same for `StoryModel` (e.g. `tag_rankings`/`tagRankings`) |
| `Models.PartAliasesRenamable` | src/wattpad/models.py:97-121 | the same for the part models |
| `Models.UserFieldsOrder` | src/wattpad/models.py:43-47 | `include=True` for a user begins `username, avatar, isPrivate, backgroundUrl, follower` |
| `Models.KeyFieldNotRenamedInto` | src/wattpad/utils.py:60-71 | no incoming key other than the key field's own name is converted into it |
| `Models.UpdateKeepsKey` | src/wattpad/wattpad.py:335-337 | an update that does not mention the key field keeps it |
| `Models.KeyedRecordSpec` | src/wattpad/wattpad.py:64 | building a user or story record from its key never fails, holds every declared field, and carries the key given |
| `Models.KeyedRecordFields` | src/wattpad/wattpad.py:414 | every other field of a rebuilt record comes from the response or falls back to its default |
| `Models.FetchResetsUpdateKeeps` | src/wattpad/wattpad.py:93-96 | a field the response leaves out is reset to its default by `fetch`, but keeps its old value under `_update_data` |
| `Identity.CacheKeyFolded` | src/wattpad/utils.py:190-196 | the corrected key: as `CacheKey`, with every string key case-folded |
| `Identity.AsWrittenKeyIsFoldedIffLower` | src/wattpad/utils.py:190-196 | the key as written equals the folded key on every positional call and every non-string key; on a keyword call with a string key they are equal exactly when that key is already lower case |
| `Identity.KeywordKeyNotFolded` | src/wattpad/utils.py:193-194 | as written, `User("Alice")` and `User(username="Alice")` get different keys |
| `Identity.FoldedKeyIgnoresCallStyle` | src/wattpad/utils.py:190-196 | with folded keys, a positional or keyword call in any letter case reaches the entry of the lowercased name |
| `Identity.FoldIdempotent` | src/wattpad/utils.py:198-201 | folding a folded key changes nothing |
| `Identity.Registry.Find` | src/wattpad/utils.py:198 | an instance is found exactly when its key is registered |
| `Identity.Registry.Register` | src/wattpad/utils.py:199-200 | registering a new key adds that one entry and keeps every other |
| `Identity.Registry.Evict` | src/wattpad/utils.py:182-184 | a reclaimed instance leaves the table |
| `Payload.PopKey` | src/wattpad/wattpad.py:195 | `item.pop(key)` succeeds exactly on an object whose key is a string, and leaves the rest without that key |
| `Payload.PopKeys` | src/wattpad/wattpad.py:194-195 | a page is read exactly when every item pops, and then item by item, in order |
| `Payload.Member` | src/wattpad/wattpad.py:194 | `data["users"]` (and the like) is read exactly when the response is an object holding a list there |
| `Payload.PopList` | src/wattpad/wattpad.py:308-316 | a returned list is read exactly when it is an object with an `id` whose `stories` is a list of objects with string ids (`ListReadable`); it then yields that id and its stories, each with its id popped |
| `Payload.PopLists` | src/wattpad/wattpad.py:308-316 | every returned list is read, in order, or the page is rejected |
| `Payload.StoryPage` | src/wattpad/wattpad.py:135-139 | the page is read exactly when every story, without `user`, has a string id; it has one entry per story, in order, whose key is that story's id and whose fields are the rest of the story; none of them names `id` or `user` |
| `Payload.PopAuthor` | src/wattpad/wattpad.py:406-410 | the `Story.fetch` response loses `id` and `user`, keeps every other key, and yields the author's username and fields exactly when it names an author |
| `Payload.RecommendedItems` | src/wattpad/wattpad.py:457-469 | a recommended response is read exactly when it is a list of objects with string ids |
| `Payload.ListPage` | src/wattpad/wattpad.py:305-308 | `data["lists"]` is read exactly when every list in it is well formed |
| `Wattpad.Normalise` | src/wattpad/wattpad.py:78-85 | `False` gives a new empty dict, `True` a new dict of every field; a given dict is used itself, not copied |
| `Wattpad.UserPage` | src/wattpad/wattpad.py:194-195 | a users page is read exactly when `data["users"]` is a list of objects with string usernames; it has one entry per user, in order, whose key is that username and whose fields are the rest of the object; no entry keeps its username |
| `Wattpad.IncomingLacksUsername` | src/wattpad/wattpad.py:195-202 | once the username is popped, merging the rest cannot touch a user's key |
| `Wattpad.UserCallKey` | src/wattpad/wattpad.py:196-198 | `User(name)` and `User(username=name)` are cached under the lowercased name |
| `Wattpad.StoryIdKey` | src/wattpad/wattpad.py:141-143 | `Story(id=...)` is cached under the lowercased id |
| `Wattpad.StoryCallHasKey` | src/wattpad/wattpad.py:469 | a `Story(**story)` call with a string id has a cache key |
| `Wattpad.ItemsAreStoryCalls` | src/wattpad/wattpad.py:469 | every item of a readable recommended page is a valid `Story(**story)` call once `user` is taken out |
| `Wattpad.SameUserSameInstance` | src/wattpad/utils.py:198-201 | two calls naming one user, by position or keyword and in any case, return one object and add at most one cache entry |
| `Wattpad.SharedDefaultLeaks` | src/wattpad/wattpad.py:499 | as written, two lists built without stories share one set: a story added to one appears in the other |
| `Wattpad.SeparateListsSeparateStories` | src/wattpad/wattpad.py:498-512 | with a set per list, adding to one list leaves the other's stories empty |
| `Wattpad.User.constructor` | src/wattpad/wattpad.py:51-64 | the username is lowercased, the relations start empty, and the record is built from the username and the keyword arguments |
| `Wattpad.User.UpdateData` | src/wattpad/wattpad.py:329-337 | the record becomes the old one overridden by the converted arguments; the relations are untouched; the key is kept |
| `Wattpad.User.ModelCopy` | src/wattpad/wattpad.py:335-337 | `model_copy(update=m)` overrides the record's fields with `m` |
| `Wattpad.User.Fetch` | src/wattpad/wattpad.py:69-98 | the URL of `users/<name>` with the normalised selection; the record is rebuilt from the username and the response without `username`; a non-object response changes nothing |
| `Wattpad.User.ReadAuthor` | src/wattpad/wattpad.py:408-411 | the author is the user cached under the lowercased username, and the cache grows by that key alone; a user cached before is returned with its record updated by the author's other fields and its relations kept; otherwise a new user holds the record of its username updated by them and no relations; no other cached user may change |
| `Wattpad.User.ResolveAuthors` | src/wattpad/wattpad.py:469 | each named author of a recommended page is the cached user for that username; the user cache only grows |
| `Wattpad.User.Link` | src/wattpad/wattpad.py:199-201 | the other user is added to exactly one of the two relation sets |
| `Wattpad.User.UsersRequest` | src/wattpad/wattpad.py:171-190 | `username` is forced into the caller's dict, and the URL is `users/<username>/followers` (or `/following`) with the paging and the forced selection wrapped in `users(...)` |
| `Wattpad.User.ReadPage` | src/wattpad/wattpad.py:191-206 | the response half of `fetch_followers` (relation `Followers`) and of `fetch_following` (`Following` corrected, `FollowingAsWritten` as written, lines 246-261): the user cache grows by exactly the lowercased usernames, each mapped to the returned user, which is the one cached before or a new one; when this user is not on the page, each returned user gains this user in its `following` (followers fetch) or `followers` (following fetch), its record is its prior record with each of its entries merged in, in order, and its other relation is kept; this user's followers (or, corrected, its following) gain the page and `num_followers` (or `num_following`) is set to the new size of the relation named; every cached user not on the page and other than this user is unchanged |
| `Wattpad.User.JoinPage` | src/wattpad/wattpad.py:193-202 | the loop of both fetches: the same cache growth, links and record merges as `ReadPage`, for any other user; the other user gains a relation only when it is itself on the page, and no cached user off the page changes |
| `Wattpad.User.Relate` | src/wattpad/wattpad.py:199-202 | each resolved user's new state is its old state with the other user added to one relation and its entries merged into its record; the other user keeps its key |
| `Wattpad.User.ResolveUsers` | src/wattpad/wattpad.py:194-198 | every username is resolved in order; the cache grows by exactly these keys, each maps to its user, and each user's state is what the cache held, or blank for a new one |
| `Wattpad.User.ResolveEachUser` | src/wattpad/wattpad.py:194-198 | the loop itself: the cache keeps every old entry and maps each key to its user, and every user it adds is new and blank |
| `Wattpad.User.LinkAll` | src/wattpad/wattpad.py:199-201 | every resolved user gains the other user in one relation; its record and other relations are unchanged |
| `Wattpad.User.MergeAll` | src/wattpad/wattpad.py:202 | each user's record becomes its old record with the fields of each of its entries merged in, in page order; only the records change |
| `Wattpad.User.MergeStep` | src/wattpad/wattpad.py:202 | one `_update_data` call: only that user's record changes, by exactly its entry |
| `Wattpad.MergedSpec` | src/wattpad/wattpad.py:329-337 | a record after several updates holds exactly its old fields plus those the entries set; an untouched field keeps its value, and a set field has the value of the last entry that sets it |
| `Wattpad.MergedLast` | src/wattpad/wattpad.py:329-337 | a field set by one entry and by no later entry of the same user has that entry's value |
| `Wattpad.MergedKeepsKey` | src/wattpad/wattpad.py:195-202 | a field that no entry carries, like the popped username, keeps its value |
| `Wattpad.MergedAbsent` | src/wattpad/wattpad.py:202 | a page on which a user does not occur leaves that user's record as it was |
| `Wattpad.MergedAppend` | src/wattpad/wattpad.py:329-337 | merging two pages one after the other equals merging their concatenation |
| `Wattpad.User.Collect` | src/wattpad/wattpad.py:205-206 | the named relation set grows by the page and its count field is set to the set's new size |
| `Wattpad.User.AddRelation` | src/wattpad/wattpad.py:205 | the page is added to exactly one of the two relation sets |
| `Wattpad.User.SetCount` | src/wattpad/wattpad.py:206 | setting a count field keeps every other field and the key |
| `Wattpad.User.FollowingMisfiled` | src/wattpad/wattpad.py:255-261 | as written, a new user `alice` who fetches its following and gets `bob` has `bob` among its followers and not its following, and `num_following` stays 0 |
| `Wattpad.User.FollowingFiled` | src/wattpad/wattpad.py:248-261 | corrected, the same fetch puts `bob` in the following of `alice` and not its followers, and `num_following` becomes 1 |
| `Wattpad.User.StoriesRequest` | src/wattpad/wattpad.py:109-131 | `id` and the nested ids are forced into the caller's dict, and the URL is `users/<username>/stories` with the selection wrapped in `stories(...)` |
| `Wattpad.User.ReadStoriesPage` | src/wattpad/wattpad.py:132-151 | the response half of `fetch_stories`: the returned stories are read as `ReadStories` states, with this user as the author of new ones; this user's stories become exactly the page, in order, and `num_stories_published` its length |
| `Wattpad.User.TakeStories` | src/wattpad/wattpad.py:148-151 | `self.stories = stories` and the count of the page |
| `Wattpad.User.ListsRequest` | src/wattpad/wattpad.py:281-304 | the forced selection, and the URL `users/<username>/lists` with the paging and the selection wrapped in `lists(...)` |
| `Wattpad.User.ListsPage` | src/wattpad/wattpad.py:305-325 | the response half of `fetch_lists`: the list cache grows by exactly the list keys and each maps to its returned list, which is the one cached before or a new one owned by this user; the story cache grows by exactly the keys of the listed stories, each read as `ReadStories` states without an author; each list's set holds exactly what it held before plus the stories read for every list of the page that shares that set (`SetsFilled`); this user's lists gain the page and `num_lists` is the new count; only the sets of the listed lists and the stories on the page may change |
| `Wattpad.User.ReadListStories` | src/wattpad/wattpad.py:314-319 | the stories of all lists are read in page order as `ReadStories` states, without an author; the story cache grows by exactly their keys; no list, set or user changes |
| `Wattpad.User.KeepLists` | src/wattpad/wattpad.py:309-325 | the list side of that loop once the stories are read: lists resolved and linked, and each set filled exactly, as `LinkLists` states; no story touched; the user's lists and count updated |
| `Wattpad.User.AddLists` | src/wattpad/wattpad.py:324-325 | `self.lists.update(lists)` and the count of the grown set; the lists and the caches are left alone |
| `Wattpad.Story.constructor` | src/wattpad/wattpad.py:354-365 | the id is lowercased, the author is stored, `recommended` is empty, and the record is built from the id and the arguments |
| `Wattpad.Story.UpdateData` | src/wattpad/wattpad.py:473-481 | the record is overridden by the converted arguments, keeping the key |
| `Wattpad.Story.ModelCopy` | src/wattpad/wattpad.py:479-481 | `model_copy(update=m)` on a story record |
| `Wattpad.Story.AuthorRequest` | src/wattpad/wattpad.py:379-405 | the rewritten selection, and the URL `stories/<id>` of this story with that selection |
| `Wattpad.Story.ReadReply` | src/wattpad/wattpad.py:406-414 | the response half of `Story.fetch`: a response is read exactly when it is an object whose `user`, if any, names a username; the record becomes the id plus the rest of the response; a named author is read as `ReadAuthor` states and becomes the story's user; without one, the user and the user cache are unchanged; no other cached user may change |
| `Wattpad.Story.TakeAuthor` | src/wattpad/wattpad.py:408-412 | `self.user` becomes the author read as `ReadAuthor` states |
| `Wattpad.Story.Rebuild` | src/wattpad/wattpad.py:414 | `StoryModel(id=self.id, **data)` is the record of the id and the rest, and keeps the key |
| `Wattpad.Story.RecommendedRequest` | src/wattpad/wattpad.py:434-465 | `id` forced and `user` rewritten in the caller's dict; the URL of `stories/<id>/recommended` with the paging |
| `Wattpad.Story.FetchRecommendedAsWritten` | src/wattpad/wattpad.py:467-469 | as written: `recommended` becomes the returned stories in order, each the one cached under its key; the story cache grows by exactly those keys, so a story cached before is the one returned; a new one is built from its item with the raw `user` object as its author; a malformed response changes nothing |
| `Wattpad.Story.AuthorLeftRaw` | src/wattpad/wattpad.py:469 | as written, a new recommended story whose item names `bob` has the raw dict `{"username": "bob"}` as its author, not a `User` |
| `Wattpad.Story.FetchRecommended` | src/wattpad/wattpad.py:457-469 | corrected: the same, with the author of a new story the cached `User` its item names; the user cache only grows |
| `Wattpad.Story.ResolveRecommended` | src/wattpad/wattpad.py:469 | each call yields the story cached under its key, and the cache grows by exactly these keys; the first call with an uncached key builds it from its arguments and author; later calls with that key share it |
| `Wattpad.Story.ResolveNext` | src/wattpad/wattpad.py:469 | one step of that comprehension keeps both properties |
| `Wattpad.Story.ReadStories` | src/wattpad/wattpad.py:134-146 | the story cache grows by exactly the lowercased ids, each mapped to its returned story, which is the one cached before or a new one with the given author; each story's record is its prior record (the cached one, or the record of its id alone) with each of its entries merged in, in order; a cached story keeps its author; no cached story off the page may change |
| `Wattpad.Story.ResolveStories` | src/wattpad/wattpad.py:139-143 | the ids are resolved in order; the cache grows by exactly these keys, and each story's state is what the cache held, or blank with the given author |
| `Wattpad.Story.ResolveEach` | src/wattpad/wattpad.py:139-143 | the loop itself: old entries kept, each key mapped to its story, and every story it adds is new and blank |
| `Wattpad.Story.MergeStories` | src/wattpad/wattpad.py:144 | each story's record becomes its old record with the fields of each of its entries merged in, in page order |
| `Wattpad.Story.MergeStep` | src/wattpad/wattpad.py:144 | one `_update_data` call: only that story's record changes, by exactly its entry |
| `Wattpad.StorySet.Update` | src/wattpad/wattpad.py:321 | `set.update` adds exactly the given stories |
| `Wattpad.List.constructor` | src/wattpad/wattpad.py:498-512 | the id is kept as given; owner, name and story set are stored |
| `Wattpad.List.UpdateData` | src/wattpad/wattpad.py:517-533 | each argument replaces its attribute only when it is truthy |
| `Wattpad.List.LinkLists` | src/wattpad/wattpad.py:309-321 | the list cache grows by exactly the list keys; each returned list is the one cached before or a new one owned by the fetching user; each list's set holds exactly its old members plus the stories read for every list of the page that shares it; no story changes |
| `Wattpad.List.ResolveLists` | src/wattpad/wattpad.py:309-312 | list ids are resolved in order; the cache grows by exactly their keys; a list cached before is the one returned, a new list belongs to the owner and has a fresh, empty set of its own; every set holds what it held before |
| `Wattpad.List.AddAll` | src/wattpad/wattpad.py:314-321 | after the `list_cls.stories.update(stories)` calls, each set holds exactly its old members plus the stories read for every list of the page that holds it (`AddedTo`), even when sets are shared |
| `Wattpad.List.AddStep` | src/wattpad/wattpad.py:320 | one `update` call: the `i`-th list's set gains that list's stories, and every other set is left alone |
| `Wattpad.AddedToMembers` | src/wattpad/wattpad.py:314-320 | a story is added to a set exactly when it was read for some list of the page that holds that set |
| `Wattpad.GainAdded` | src/wattpad/wattpad.py:314-320 | every list's stories reach its set, whichever other lists share it |
| `Wattpad.ReadInGain` | src/wattpad/wattpad.py:315-318 | the `k`-th story read for the `i`-th list is among that list's stories |
| `Wattpad.ListsHoldTheirStories` | src/wattpad/wattpad.py:314-321 | once the sets are filled, every listed story is the cached story in its list's set |
| `Wattpad.ListStoriesAt` | src/wattpad/wattpad.py:314-319 | the `k`-th story of the `i`-th list is read at its place in the flattened story page |
| `Wattpad.Client.ResolveUser` | src/wattpad/utils.py:188-201 | a cached user is returned as it is; otherwise exactly one new user is built and registered under the folded key |
| `Wattpad.Client.ResolveStory` | src/wattpad/utils.py:188-201 | the same for `Story(**kwargs)`: a new story has the lowercased id, the author and the record of the other arguments |
| `Wattpad.Client.ResolveKeyed` | src/wattpad/wattpad.py:469 | `Story(**story)` through the cache, by its folded key |
| `Wattpad.Client.ResolveStoryById` | src/wattpad/wattpad.py:141-143 | `Story(user=..., id=...)` through the cache |
| `Wattpad.Client.ResolveList` | src/wattpad/wattpad.py:309-312 | corrected: `List(id=..., user=...)` through the cache; a new list gets an empty set of its own |
| `Wattpad.Client.ResolveListSharedDefault` | src/wattpad/wattpad.py:498-512 | as written: a new list takes the one default set object |

## Left out

- HTTP, the response cache and the `WPPY_SKIP_CACHE` switch of `fetch_url` are outside
  the model. Every fetch method is split at the network call into three parts: a request
  method that returns the URL it would request (`UsersRequest`, `StoriesRequest`,
  `ListsRequest`, `AuthorRequest`, `RecommendedRequest`), a function that parses the
  decoded response (`UserPage`, `StoryPage`, `ListPage`, `PopAuthor`, `RecommendedItems`),
  and a method that reads the parsed page into the cache and the entities (`ReadPage`,
  `ReadStoriesPage`, `ListsPage`, `ReadReply`, `FetchRecommended`). No single method joins
  the three: a contract that names the whole URL beside the response processing made the
  proofs too costly.
- `async`/`await`, the metaclass lock and the weak references are left out. The model is
  sequential. Garbage collection appears only as the explicit `Registry.Evict`.
- Pydantic validation and coercion are not modelled. Records hold JSON values, and only
  the presence of required fields is checked (`Schema.Instantiate`). `deep=True` copying
  has no counterpart, because the values are immutable.
- `Text.Lower` folds ASCII letters only. Python's `str.lower` also folds other scripts.
- A malformed response is handled differently. The source raises partway through its
  loop, after some entities have been changed. The model rejects the response (`None`)
  before any change except the include forcing, which happens before the request in both.
- `Payload.Member` and `Payload.RecommendedItems` accept only a JSON list where the source
  loops over `data["users"]`, `data["stories"]`, `data["lists"]`, `list_["stories"]` or the
  recommended reply (src/wattpad/wattpad.py:135, 194, 249, 308, 315, 469). When that value is
  an empty object `{}` or an empty string `""`, the Python loop runs zero times and the fetch
  succeeds with an empty page; the model rejects the response with `None` instead. Any
  other non-list value makes the source raise as well.
- The loops of `fetch_followers`, `fetch_following`, `fetch_stories` and `fetch_lists`
  do three things for each item in turn: resolve it, link it, merge its fields. The
  model does each of these for all items before the next, in three passes. The final
  state is the same, because no pass reads what another pass writes.
- `fetch_lists` reads the stories of each list while it resolves that list. The model
  reads the stories of all lists first (`Wattpad.User.ReadListStories`) and resolves the lists
  afterwards (`Wattpad.User.KeepLists`). The two steps touch disjoint state, so the final
  state is the same.
- Nested include dicts are values inside the caller's `Selection`. If the caller also
  holds a nested dict elsewhere, the model does not show that copy changing.
- No invariant over the whole `Client` (every cached instance valid and keyed by its own
  id) is stated. Each method states what it does to the instances it touches.
- The `__repr__` methods are cosmetic.
- The earlier API generation (`src/wattpad_py.py`, `src/user.py`, `src/story.py`,
  `src/classes.py`, `src/models.py`) and the TypedDicts of `src/wattpad/model_types.py`
  are not part of this model.
- Wattpad.User.ReadPage: the returned users' records, links and the count are stated only
  when this user is not among the returned users. If it is, its own record and relations
  are also merged. `Wattpad.User.FollowingFiled` and `Wattpad.User.FollowingMisfiled` show
  the full outcome on a one-user page.
- Payload.PopList: a list without a `stories` entry is rejected, so `ListPage` gives
  `None` and `Wattpad.User.ListsPage` changes nothing. With `include=False`,
  `fetch_lists` asks for `lists(id)` only (`FieldQuery.DefaultListsSelectsOnlyId`,
  src/wattpad/wattpad.py:281-304), yet it reads `list_["stories"]`
  (src/wattpad/wattpad.py:315). A reply that honours that selection makes the source
  raise `KeyError`, so the model's `None` stands for that error.
- Wattpad.Client.ResolveList: lists are keyed by the folded key (`Identity.Fold`), the
  corrected behaviour of `CacheKeyFolded`. As written, `List(id=...)` is keyed by the id
  exactly as given (src/wattpad/utils.py:193-196, src/wattpad/wattpad.py:310-312). For the
  integer ids that Wattpad returns, the two keys are equal.
- Wattpad.Story.FetchRecommended: the corrected author is resolved through the cache but
  does not merge in the author's other returned fields, as `Story.fetch` does.
- Wattpad.Story.FetchRecommendedAsWritten: a story that was already cached is returned
  unchanged, so its record and author are not stated beyond being the cached instance.

## Findings

| source | as written | input that shows it | evidently intended | confidence | as-written member | corrected member |
|---|---|---|---|---|---|---|
| src/wattpad/wattpad.py:260-261 | `fetch_following` adds the followed users to `self.followers` and sets `num_following` to the size of the unchanged `self.following` | user `alice`, following nobody; response `{"users": [{"username": "bob"}]}` | `bob` joins `alice.following` and `num_following` becomes 1, mirroring `fetch_followers` | not executed | `Wattpad.User.ReadPage` with `FollowingAsWritten`, `Wattpad.User.FollowingMisfiled` | `Wattpad.User.ReadPage` with `Following`, `Wattpad.User.FollowingFiled` |
| src/wattpad/utils.py:193-194 | keyword cache keys are used as given, while positional keys are lowercased | `User("Alice")` then `User(username="Alice")` | one instance per lowercased username, as the class docstring promises | not executed | `Identity.KeywordKeyNotFolded`, `Identity.AsWrittenKeyIsFoldedIffLower` | `Identity.CacheKeyFolded`, `Identity.FoldedKeyIgnoresCallStyle` |
| src/wattpad/wattpad.py:499 | the default `stories=set()` is evaluated once, so every list built without stories shares one set, and `fetch_lists` adds to it in place | two new lists with ids 1 and 2, then a story added to the first | each list has a set of its own | not executed | `Wattpad.Client.ResolveListSharedDefault`, `Wattpad.SharedDefaultLeaks` | `Wattpad.SeparateListsSeparateStories` |
| src/wattpad/wattpad.py:469 | `Story(**story)` passes the raw `user` dict of each recommended item as the story's author | a recommended item `{"id": "1", "user": {"username": "bob"}}` for an uncached story | the author is the cached `User` named by the item, as `Story.fetch` does and as the `Optional[User]` attribute declares | not executed | `Wattpad.Story.FetchRecommendedAsWritten`, `Wattpad.Story.AuthorLeftRaw` | `Wattpad.Story.FetchRecommended` |

The rest of the model uses the corrected members:

- The caches are keyed by `Identity.CacheKeyFolded`, through `Wattpad.Client.ResolveUser`
  and `Wattpad.Client.ResolveStory`. The as-written recommended reading also uses these
  folded keys.
- `Wattpad.User.ListsPage` resolves lists through `Wattpad.List.ResolveLists`, which uses
  `Wattpad.Client.ResolveList`.
