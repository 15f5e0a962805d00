/** Field selection: the nested "include" mapping, its wire serialisation and request URLs
    (src/wattpad/utils.py `construct_fields` and `build_url`), and the include rewriting
    done by the fetch methods of src/wattpad/wattpad.py. */
module FieldQuery {
  import opened Wrappers
  import opened Text
  import opened Assoc

  /** The value stored under one key of an include mapping: `False`, `True`, or a nested mapping. */
  datatype Sel = Exclude | Include | Sub(entries: seq<(string, Sel)>)

  /** An include mapping, in insertion order. */
  type Tree = Dict<Sel>

  // ---------------------------------------------------------------------------
  // construct_fields, as the source computes it

  /** What one loop iteration of `construct_fields` appends for the entry `key: v`. */
  function Chunk(key: string, v: Sel): string
    decreases v, 1, 0
  {
    match v
    case Exclude => ""
    case Include => key + ","
    case Sub(t) => key + "(" + ConstructFields(t) + "),"
  }

  /** The accumulator `fields_str` after the first `n` entries of `t`. */
  function Accumulated(t: Tree, n: nat): string
    requires n <= |t|
    decreases Sub(t), 0, n
  {
    if n == 0 then "" else Accumulated(t, n - 1) + Chunk(t[n - 1].0, t[n - 1].1)
  }

  /** `construct_fields(t)`: accumulate every chunk, then drop one trailing comma. */
  function ConstructFields(t: Tree): string
    decreases Sub(t), 0, |t| + 1
  {
    RemoveSuffix(Accumulated(t, |t|), ",")
  }

  /** The loop of `construct_fields`, with its recursive call for nested mappings. */
  method ConstructFieldsLoop(t: Tree) returns (s: string)
    ensures s == ConstructFields(t)
    decreases Sub(t), 0, |t| + 1
  {
    var acc := "";
    var i := 0;
    while i < |t|
      invariant 0 <= i <= |t|
      invariant acc == Accumulated(t, i)
    {
      var (key, v) := t[i];
      match v {
        case Exclude =>
        case Include =>
          acc := acc + key + ",";
        case Sub(inner) =>
          var nested := ConstructFieldsLoop(inner);
          acc := acc + key + "(" + nested + "),";
      }
      i := i + 1;
    }
    s := RemoveSuffix(acc, ",");
  }

  // ---------------------------------------------------------------------------
  // The selection grammar `a,b,parent(c,d)`, stated independently

  /** The item one included entry contributes to the comma-separated list. */
  function Item(key: string, v: Sel): string
    requires !v.Exclude?
    decreases v, 1, 0
  {
    if v.Include? then key else key + "(" + Serialize(v.entries) + ")"
  }

  /** The items of the first `n` entries that are not excluded, in insertion order. */
  function Items(t: Tree, n: nat): seq<string>
    requires n <= |t|
    decreases Sub(t), 0, n
  {
    if n == 0 then []
    else if t[n - 1].1.Exclude? then Items(t, n - 1)
    else Items(t, n - 1) + [Item(t[n - 1].0, t[n - 1].1)]
  }

  /** The wire grammar: the items of the included entries joined by commas. */
  function Serialize(t: Tree): string
    decreases Sub(t), 0, |t| + 1
  {
    Join(Items(t, |t|), ",")
  }

  lemma {:induction false} ChunkIsTerminatedItem(key: string, v: Sel)
    ensures Chunk(key, v) == if v.Exclude? then "" else Item(key, v) + ","
    decreases v, 1, 0
  {
    if v.Sub? {
      ConstructFieldsIsGrammar(v.entries);
    }
  }

  lemma {:induction false} AccumulatedIsTerminated(t: Tree, n: nat)
    requires n <= |t|
    ensures Accumulated(t, n) == Terminated(Items(t, n), ",")
    decreases Sub(t), 0, n
  {
    if n > 0 {
      AccumulatedIsTerminated(t, n - 1);
      ChunkIsTerminatedItem(t[n - 1].0, t[n - 1].1);
      var ps := Items(t, n - 1);
      if !t[n - 1].1.Exclude? {
        var ps' := ps + [Item(t[n - 1].0, t[n - 1].1)];
        assert ps'[..|ps'| - 1] == ps;
      }
    }
  }

  /** `construct_fields` produces exactly the selection grammar: included entries in
      insertion order, nested mappings in parentheses, separated by single commas. */
  lemma {:induction false} ConstructFieldsIsGrammar(t: Tree)
    ensures ConstructFields(t) == Serialize(t)
    decreases Sub(t), 0, |t| + 1
  {
    AccumulatedIsTerminated(t, |t|);
    StripTerminated(Items(t, |t|), ",");
  }

  lemma {:induction false} ItemsEmptyIffAllExcluded(t: Tree, n: nat)
    requires n <= |t|
    ensures Items(t, n) == [] <==> forall i :: 0 <= i < n ==> t[i].1.Exclude?
  {
    if n > 0 {
      ItemsEmptyIffAllExcluded(t, n - 1);
    }
  }

  /** An empty mapping, or one whose entries are all `False`, yields the empty string. */
  lemma AllExcludedYieldsEmpty(t: Tree)
    requires forall i :: 0 <= i < |t| ==> t[i].1.Exclude?
    ensures ConstructFields(t) == ""
  {
    ConstructFieldsIsGrammar(t);
    ItemsEmptyIffAllExcluded(t, |t|);
  }

  /** Keys that are plain field names: never empty, never ending in a comma. */
  predicate NameLike(key: string)
  {
    key != [] && key[|key| - 1] != ','
  }

  lemma {:induction false} ItemsEndWell(t: Tree, n: nat)
    requires n <= |t|
    requires forall i :: 0 <= i < |t| ==> NameLike(t[i].0)
    ensures forall j :: 0 <= j < |Items(t, n)| ==> NameLike(Items(t, n)[j])
  {
    if n > 0 {
      ItemsEndWell(t, n - 1);
    }
  }

  lemma {:induction false} JoinEndsWithLast(parts: seq<string>, sep: string)
    requires |parts| > 0 && parts[|parts| - 1] != []
    ensures Join(parts, sep) != []
    ensures Join(parts, sep)[|Join(parts, sep)| - 1] == parts[|parts| - 1][|parts[|parts| - 1]| - 1]
  {
  }

  lemma {:induction false} JoinEmptyIffNoParts(parts: seq<string>, sep: string)
    requires forall j :: 0 <= j < |parts| ==> parts[j] != []
    ensures Join(parts, sep) == [] <==> parts == []
  {
    if |parts| > 0 {
      JoinEndsWithLast(parts, sep);
    }
  }

  /** With field-name keys, the result never ends in a comma, and it is empty exactly when
      every entry is `False` (in particular for the empty mapping). */
  lemma NoTrailingComma(t: Tree)
    requires forall i :: 0 <= i < |t| ==> NameLike(t[i].0)
    ensures ConstructFields(t) == [] || ConstructFields(t)[|ConstructFields(t)| - 1] != ','
    ensures ConstructFields(t) == [] <==> forall i :: 0 <= i < |t| ==> t[i].1.Exclude?
  {
    ConstructFieldsIsGrammar(t);
    var items := Items(t, |t|);
    ItemsEndWell(t, |t|);
    ItemsEmptyIffAllExcluded(t, |t|);
    JoinEmptyIffNoParts(items, ",");
    if items != [] {
      JoinEndsWithLast(items, ",");
    }
  }

  /** The example of the `construct_fields` docstring. */
  lemma DocstringExample()
    ensures ConstructFields([("tags", Include), ("id", Include), ("parts", Sub([("id", Include)])), ("tagRankings", Include)])
         == "tags,id,parts(id),tagRankings"
  {
    var t := [("tags", Include), ("id", Include), ("parts", Sub([("id", Include)])), ("tagRankings", Include)];
    DocstringPrefix(t);
    assert Accumulated(t, 4) == "tags,id,parts(id)," + "tagRankings,";
    RemoveAppendedSuffix("tags,id,parts(id),tagRankings", ",");
  }

  /** The first three chunks of that example. */
  lemma DocstringPrefix(t: Tree)
    requires t == [("tags", Include), ("id", Include), ("parts", Sub([("id", Include)])), ("tagRankings", Include)]
    ensures Accumulated(t, 3) == "tags,id,parts(id),"
  {
    SubChunk("parts", "id");
    assert Accumulated(t, 1) == "tags,";
    assert Accumulated(t, 2) == "tags,id,";
    assert Accumulated(t, 3) == "tags,id," + "parts(id),";
  }

  /** A key whose sub-tree includes one key `sub` renders as `key(sub),`. */
  lemma SubChunk(key: string, sub: string)
    ensures Chunk(key, Sub([(sub, Include)])) == key + "(" + sub + "),"
  {
    SingleKeyFields(sub);
  }

  /** A tree that includes one key renders as that key alone. */
  lemma SingleKeyFields(key: string)
    ensures ConstructFields([(key, Include)]) == key
  {
    assert Accumulated([(key, Include)], 1) == key + ",";
    RemoveAppendedSuffix(key, ",");
  }

  // ---------------------------------------------------------------------------
  // Full inclusion: `{key: True for key in names}`

  function AllIncluded(names: seq<string>): (t: Tree)
    ensures Keys(t) == names
    ensures forall i :: 0 <= i < |t| ==> t[i].1 == Include
  {
    seq(|names|, i requires 0 <= i < |names| => (names[i], Include))
  }

  lemma {:induction false} ItemsOfAllIncluded(names: seq<string>, n: nat)
    requires n <= |names|
    ensures Items(AllIncluded(names), n) == names[..n]
  {
    if n > 0 {
      ItemsOfAllIncluded(names, n - 1);
      assert names[..n] == names[..n - 1] + [names[n - 1]];
    }
  }

  /** Including every field serialises to the field names in declaration order. */
  lemma AllIncludedSerialisesInOrder(names: seq<string>)
    ensures ConstructFields(AllIncluded(names)) == Join(names, ",")
  {
    ConstructFieldsIsGrammar(AllIncluded(names));
    ItemsOfAllIncluded(names, |names|);
    assert names[..|names|] == names;
  }

  // ---------------------------------------------------------------------------
  // build_url

  const ApiRoot := "https://www.wattpad.com/api/v3/"

  /** Python truthiness of the `fields` argument: `None` and `{}` are false. */
  predicate FieldsGiven(fields: Option<Tree>)
  {
    fields.Some? && fields.value != []
  }

  /** Python truthiness of `limit` and `offset`: `None` and `0` are false. */
  predicate CountGiven(n: Option<int>)
  {
    n.Some? && n.value != 0
  }

  /** One conditional step of `build_url`: `url += f"{param}&"` when the argument is truthy. */
  function AppendParam(url: string, present: bool, param: string): string
  {
    if present then url + param + "&" else url
  }

  /** `build_url(path, fields, limit, offset)`: each truthy argument appends `name=value&`,
      then one trailing `&` is removed. */
  function BuildUrl(path: string, fields: Option<Tree>, limit: Option<int>, offset: Option<int>): string
  {
    var withFields := AppendParam(ApiRoot + path + "?", FieldsGiven(fields),
                                  "fields=" + if fields.Some? then ConstructFields(fields.value) else "");
    var withLimit := AppendParam(withFields, CountGiven(limit), "limit=" + if limit.Some? then IntToString(limit.value) else "");
    var withOffset := AppendParam(withLimit, CountGiven(offset), "offset=" + if offset.Some? then IntToString(offset.value) else "");
    RemoveSuffix(withOffset, "&")
  }

  function ParamIf(present: bool, param: string): seq<string>
  {
    if present then [param] else []
  }

  /** The query parameters of a request, in the order `fields`, `limit`, `offset`,
      each present only when its argument is truthy. */
  function QueryParams(fields: Option<Tree>, limit: Option<int>, offset: Option<int>): seq<string>
  {
    ParamIf(FieldsGiven(fields), "fields=" + if fields.Some? then Serialize(fields.value) else "")
    + ParamIf(CountGiven(limit), "limit=" + if limit.Some? then IntToString(limit.value) else "")
    + ParamIf(CountGiven(offset), "offset=" + if offset.Some? then IntToString(offset.value) else "")
  }

  lemma AppendParamTerminates(base: string, ps: seq<string>, present: bool, param: string)
    ensures AppendParam(base + Terminated(ps, "&"), present, param) == base + Terminated(ps + ParamIf(present, param), "&")
  {
    if present {
      TerminatedSnoc(ps, param, "&");
    } else {
      assert ps + [] == ps;
    }
  }

  lemma StripAfterBase(base: string, ps: seq<string>)
    requires base != [] && base[|base| - 1] == '?'
    ensures RemoveSuffix(base + Terminated(ps, "&"), "&") == base + Join(ps, "&")
  {
    TerminatedIsJoined(ps, "&");
    if ps == [] {
      assert base + Terminated(ps, "&") == base;
    } else {
      assert base + Terminated(ps, "&") == (base + Join(ps, "&")) + "&";
      RemoveAppendedSuffix(base + Join(ps, "&"), "&");
    }
  }

  /** Each parameter appended by `build_url` leaves the URL as the base followed by the
      parameters so far, each ending in `&`. */
  lemma BuildUrlTerminated(path: string, fields: Option<Tree>, limit: Option<int>, offset: Option<int>)
    ensures BuildUrl(path, fields, limit, offset)
         == RemoveSuffix(ApiRoot + path + "?" + Terminated(QueryParams(fields, limit, offset), "&"), "&")
  {
    var base := ApiRoot + path + "?";
    var f := "fields=" + if fields.Some? then ConstructFields(fields.value) else "";
    var l := "limit=" + if limit.Some? then IntToString(limit.value) else "";
    var o := "offset=" + if offset.Some? then IntToString(offset.value) else "";
    if fields.Some? {
      ConstructFieldsIsGrammar(fields.value);
    }
    assert base == base + Terminated([], "&");
    AppendParamTerminates(base, [], FieldsGiven(fields), f);
    var p1 := [] + ParamIf(FieldsGiven(fields), f);
    AppendParamTerminates(base, p1, CountGiven(limit), l);
    var p2 := p1 + ParamIf(CountGiven(limit), l);
    AppendParamTerminates(base, p2, CountGiven(offset), o);
    assert p2 + ParamIf(CountGiven(offset), o) == QueryParams(fields, limit, offset);
  }

  /** Every URL is the API root, the path and `?`, followed by the present parameters
      joined by `&`; with no parameter it ends in the bare `?`. */
  lemma BuildUrlShape(path: string, fields: Option<Tree>, limit: Option<int>, offset: Option<int>)
    ensures BuildUrl(path, fields, limit, offset)
         == ApiRoot + path + "?" + Join(QueryParams(fields, limit, offset), "&")
    ensures QueryParams(fields, limit, offset) == [] ==> BuildUrl(path, fields, limit, offset) == ApiRoot + path + "?"
  {
    BuildUrlTerminated(path, fields, limit, offset);
    StripAfterBase(ApiRoot + path + "?", QueryParams(fields, limit, offset));
  }

  /** The collection endpoints: a URL without top-level `fields`, to which
      `&fields=<wrapper>(<selection>)` is appended. */
  function CollectionUrl(path: string, wrapper: string, t: Tree, limit: Option<int>, offset: Option<int>): string
  {
    BuildUrl(path, None, limit, offset) + "&fields=" + wrapper + "(" + ConstructFields(t) + ")"
  }

  lemma WrappedTail(u: string, wrapper: string, t: Tree)
    ensures u + "&fields=" + wrapper + "(" + ConstructFields(t) + ")" == u + "&fields=" + wrapper + "(" + Serialize(t) + ")"
  {
    ConstructFieldsIsGrammar(t);
  }

  /** The wrapped selection always closes the URL, after the paging parameters. */
  lemma CollectionUrlShape(path: string, wrapper: string, t: Tree, limit: Option<int>, offset: Option<int>)
    ensures CollectionUrl(path, wrapper, t, limit, offset)
         == ApiRoot + path + "?" + Join(QueryParams(None, limit, offset), "&")
            + "&fields=" + wrapper + "(" + Serialize(t) + ")"
  {
    BuildUrlShape(path, None, limit, offset);
    WrappedTail(BuildUrl(path, None, limit, offset), wrapper, t);
  }

  lemma UnpagedBase(path: string, limit: Option<int>, offset: Option<int>)
    requires !CountGiven(limit) && !CountGiven(offset)
    ensures BuildUrl(path, None, limit, offset) == ApiRoot + path + "?"
  {
    BuildUrlShape(path, None, limit, offset);
    assert QueryParams(None, limit, offset) == [];
  }

  lemma AppendAfterQuestionMark(u: string, path: string, wrapper: string, sel: string)
    requires u == ApiRoot + path + "?"
    ensures u + "&fields=" + wrapper + "(" + sel + ")" == ApiRoot + path + "?&fields=" + wrapper + "(" + sel + ")"
  {
  }

  /** Without `limit` and `offset` the wrapped selection directly follows `?&`. */
  lemma CollectionUrlWithoutPaging(path: string, wrapper: string, t: Tree, limit: Option<int>, offset: Option<int>)
    requires !CountGiven(limit) && !CountGiven(offset)
    ensures CollectionUrl(path, wrapper, t, limit, offset)
         == ApiRoot + path + "?&fields=" + wrapper + "(" + ConstructFields(t) + ")"
  {
    UnpagedBase(path, limit, offset);
    AppendAfterQuestionMark(BuildUrl(path, None, limit, offset), path, wrapper, ConstructFields(t));
  }

  // ---------------------------------------------------------------------------
  // The include argument and the fields each endpoint forces

  /** The `include` argument once its dict (if any) is read: `False`, `True` or a mapping. */
  datatype IncludeValue = NoFields | AllFields | Fields(t: Tree)

  /** `False` becomes `{}`, `True` becomes every field of the model, a mapping is used as is. */
  function Initial(v: IncludeValue, modelFields: seq<string>): Tree
  {
    match v
    case NoFields => []
    case AllFields => AllIncluded(modelFields)
    case Fields(t) => t
  }

  /** `if parent in t and type(t[parent]) is dict: t[parent][child] = True`. */
  function ForceWithin(t: Tree, parent: string, child: string): (r: Tree)
    ensures Keys(r) == Keys(t)
    ensures forall j :: j != parent ==> Get(r, j) == Get(t, j)
    ensures (Get(t, parent).Some? && Get(t, parent).value.Sub?) ==>
              Get(r, parent).Some? && Get(r, parent).value.Sub?
              && Get(Get(r, parent).value.entries, child) == Some(Include)
              && (forall j :: j != child ==> Get(Get(r, parent).value.entries, j) == Get(Get(t, parent).value.entries, j))
    ensures !(Get(t, parent).Some? && Get(t, parent).value.Sub?) ==> r == t
  {
    match Get<Sel>(t, parent)
    case Some(Sub(d)) => Put(t, parent, Sub(Put(d, child, Include)))
    case _ => t
  }

  /** The entry `after` is the entry `before` with `child` forced inside it: a mapping gains
      (or keeps) `child: True` and keeps every other entry, and anything else is left alone. */
  ghost predicate ForcedIn(before: Option<Sel>, after: Option<Sel>, child: string)
  {
    if before.Some? && before.value.Sub? then
      after.Some? && after.value.Sub? &&
      Keys(after.value.entries) == Keys(Put(before.value.entries, child, Include)) &&
      Get(after.value.entries, child) == Some(Include) &&
      forall j :: j != child ==> Get(after.value.entries, j) == Get(before.value.entries, j)
    else after == before
  }

  /** `fetch_stories`: `id` is forced, and so are `name` inside a `tagRankings` mapping and
      `id` inside a `parts` mapping. */
  function StoriesSelection(t: Tree): (r: Tree)
    ensures Get(r, "id") == Some(Include)
    ensures ForcedIn(Get(t, "tagRankings"), Get(r, "tagRankings"), "name")
    ensures ForcedIn(Get(t, "parts"), Get(r, "parts"), "id")
    ensures forall j :: j != "id" && j != "tagRankings" && j != "parts" ==> Get(r, j) == Get(t, j)
    ensures Keys(r) == Keys(Put(t, "id", Include))
  {
    ForceWithin(ForceWithin(Put(t, "id", Include), "tagRankings", "name"), "parts", "id")
  }

  /** `fetch_followers` and `fetch_following`: `username` is forced. */
  function UsersSelection(t: Tree): (r: Tree)
    ensures Get(r, "username") == Some(Include)
    ensures forall j :: j != "username" ==> Get(r, j) == Get(t, j)
    ensures Keys(r) == if Has(t, "username") then Keys(t) else Keys(t) + ["username"]
  {
    Put(t, "username", Include)
  }

  /** `fetch_lists`: `id` is forced, and `id` inside a `stories` mapping. */
  function ListsSelection(t: Tree): (r: Tree)
    ensures Get(r, "id") == Some(Include)
    ensures ForcedIn(Get(t, "stories"), Get(r, "stories"), "id")
    ensures forall j :: j != "id" && j != "stories" ==> Get(r, j) == Get(t, j)
    ensures Keys(r) == Keys(Put(t, "id", Include))
  {
    ForceWithin(Put(t, "id", Include), "stories", "id")
  }

  /** The `user` entry `after` that `before` is rewritten to: `True` becomes every user field,
      absent or `False` becomes `{"username": True}`, and a mapping gets `username` forced. */
  ghost predicate AuthorRewritten(before: Option<Sel>, after: Option<Sel>, userFields: seq<string>)
  {
    if before == Some(Include) then after == Some(Sub(AllIncluded(userFields)))
    else if before.Some? && before.value.Sub? then ForcedIn(before, after, "username")
    else after == Some(Sub([("username", Include)]))
  }

  /** `Story.fetch` and `fetch_recommended`: the `user` entry becomes a mapping. Absent or
      `False` becomes `{"username": True}`; `True` becomes every user field; a mapping gets
      `username` forced. */
  function AuthorSelection(t: Tree, userFields: seq<string>): (r: Tree)
    ensures AuthorRewritten(Get(t, "user"), Get(r, "user"), userFields)
    ensures Get(r, "user").Some? && Get(r, "user").value.Sub?
    ensures forall j :: j != "user" ==> Get(r, j) == Get(t, j)
    ensures Keys(r) == if Has(t, "user") then Keys(t) else Keys(t) + ["user"]
  {
    match Get<Sel>(t, "user")
    case Some(Include) => Put(t, "user", Sub(AllIncluded(userFields)))
    case Some(Exclude) => Put(t, "user", Sub([("username", Include)]))
    case Some(Sub(d)) => Put(t, "user", Sub(Put(d, "username", Include)))
    case None => Put(t, "user", Sub([("username", Include)]))
  }

  /** `fetch_recommended`: `id` is forced before the `user` entry is rewritten. */
  function RecommendedSelection(t: Tree, userFields: seq<string>): (r: Tree)
    ensures Get(r, "id") == Some(Include)
    ensures AuthorRewritten(Get(t, "user"), Get(r, "user"), userFields)
    ensures forall j :: j != "id" && j != "user" ==> Get(r, j) == Get(t, j)
    ensures Keys(r) == Keys(AuthorSelection(Put(t, "id", Include), userFields))
  {
    AuthorSelection(Put(t, "id", Include), userFields)
  }

  /** With `include=False` the lists request selects the list ids and nothing else. */
  lemma DefaultListsSelectsOnlyId()
    ensures ListsSelection([]) == [("id", Include)]
    ensures ConstructFields(ListsSelection([])) == "id"
  {
    assert Put<Sel>([], "id", Include) == [("id", Include)];
    assert Get<Sel>([("id", Include)], "stories") == None by {
      assert Keys<Sel>([("id", Include)]) == ["id"];
    }
  }

  lemma {:induction false} IncludedEntryIsItem(t: Tree, n: nat, i: nat)
    requires i < n <= |t| && t[i].1 == Include
    ensures t[i].0 in Items(t, n)
  {
    if i < n - 1 {
      IncludedEntryIsItem(t, n - 1, i);
    }
  }

  /** A key whose entry is `True` appears, bare, among the serialised items. */
  lemma IncludedKeyIsSelected(t: Tree, key: string)
    requires Get(t, key) == Some(Include)
    ensures key in Items(t, |t|)
  {
    GetFindsEntry(t, key);
    var i :| 0 <= i < |t| && t[i].0 == key && Get(t, key) == Some(t[i].1);
    IncludedEntryIsItem(t, |t|, i);
  }

  /** Whatever the caller asked for, the identifying field of each endpoint is requested:
      `id` for stories, lists and recommendations, `username` for followers and following. */
  lemma ForcedFieldsAreSelected(t: Tree, userFields: seq<string>)
    ensures "id" in Items(StoriesSelection(t), |StoriesSelection(t)|)
    ensures "username" in Items(UsersSelection(t), |UsersSelection(t)|)
    ensures "id" in Items(ListsSelection(t), |ListsSelection(t)|)
    ensures "id" in Items(RecommendedSelection(t, userFields), |RecommendedSelection(t, userFields)|)
  {
    IncludedKeyIsSelected(StoriesSelection(t), "id");
    IncludedKeyIsSelected(UsersSelection(t), "username");
    IncludedKeyIsSelected(ListsSelection(t), "id");
    IncludedKeyIsSelected(RecommendedSelection(t, userFields), "id");
  }

  /** A story fetch asking for `{"tags": True, "user": True}` selects the tags and, inside
      `user(...)`, every user field in declaration order. */
  lemma TagsAndUserRewritten(userFields: seq<string>)
    ensures AuthorSelection([("tags", Include), ("user", Include)], userFields)
         == [("tags", Include), ("user", Sub(AllIncluded(userFields)))]
  {
    var t := [("tags", Include), ("user", Include)];
    var v := Sub(AllIncluded(userFields));
    assert Keys(t) == ["tags", "user"];
    assert Get(t, "user") == Some(Include);
    assert Replace(t[1..], "user", v) == [("user", v)];
    assert Replace(t, "user", v) == [("tags", Include)] + Replace(t[1..], "user", v);
  }

  lemma TagsAndFullAuthor(userFields: seq<string>)
    ensures ConstructFields(AuthorSelection([("tags", Include), ("user", Include)], userFields))
         == "tags,user(" + Join(userFields, ",") + ")"
  {
    TagsAndUserRewritten(userFields);
    var r := [("tags", Include), ("user", Sub(AllIncluded(userFields)))];
    AllIncludedSerialisesInOrder(userFields);
    var inner := Join(userFields, ",");
    assert Accumulated(r, 1) == "tags,";
    assert Chunk("user", Sub(AllIncluded(userFields))) == "user(" + inner + "),";
    assert Accumulated(r, 2) == "tags,user(" + inner + ")" + ",";
    RemoveAppendedSuffix("tags,user(" + inner + ")", ",");
  }
}
