/** The declarative field tables of src/wattpad/models.py: every model's fields in
    declaration order, with their wire aliases and defaults. */
module Models {
  import opened Wrappers
  import opened Assoc
  import opened JsonValue
  import opened Schema

  const InboxModel: Model := [Req("unread"), Req("total")]

  const NotificationsModel: Model := [Req("unread")]

  const ConnectedServicesModel: Model := [Req("facebook"), Req("twitter")]

  /** `UserModel`: 42 fields, built from `UserDecl` so that a contract naming it does not
      spell out every field. */
  function UserModel(): Model
  {
    seq(42, UserDecl)
  }

  /** The fields of `UserModel` (src/wattpad/models.py), by declaration position. */
  function UserDecl(i: int): FieldDecl
  {
    match i
    case 0 => Req("username")
    case 1 => Opt("avatar")
    case 2 => OptAlias("is_private", "isPrivate")
    case 3 => OptAlias("background_url", "backgroundUrl")
    case 4 => Opt("follower")
    case 5 => Opt("following")
    case 6 => Opt("name")
    case 7 => Opt("description")
    case 8 => Opt("status")
    case 9 => Opt("gender")
    case 10 => OptAlias("gender_code", "genderCode")
    case 11 => Opt("language")
    case 12 => Opt("locale")
    case 13 => OptAlias("create_date", "createDate")
    case 14 => OptAlias("modify_date", "modifyDate")
    case 15 => Opt("location")
    case 16 => Opt("verified")
    case 17 => Opt("ambassador")
    case 18 => Opt("facebook")
    case 19 => Opt("twitter")
    case 20 => Opt("website")
    case 21 => Opt("lulu")
    case 22 => Opt("smashwords")
    case 23 => Opt("bubok")
    case 24 => OptAlias("votes_received", "votesReceived")
    case 25 => OptAlias("num_stories_published", "numStoriesPublished")
    case 26 => OptAlias("num_following", "numFollowing")
    case 27 => OptAlias("num_followers", "numFollowers")
    case 28 => OptAlias("num_messages", "numMessages")
    case 29 => OptAlias("num_lists", "numLists")
    case 30 => Opt("verified_email")
    case 31 => Opt("preferred_categories")
    case 32 => OptAlias("allow_crawler", "allowCrawler")
    case 33 => Opt("deeplink")
    case 34 => OptAlias("is_muted", "isMuted")
    case 35 => Opt("birthdate")
    case 36 => Opt("inbox")
    case 37 => Opt("notifications")
    case 38 => OptAlias("connected_services", "connectedServices")
    case 39 => Opt("age")
    case 40 => Opt("email")
    case _ => Opt("has_password")
  }

  const LanguageModel: Model := [Req("id"), Req("name")]

  const FirstPublishedPartModel: Model := [Req("id"), ReqAlias("create_date", "createDate")]

  const LastPublishedPartModel: Model := [Req("id"), ReqAlias("create_date", "createDate")]

  const PartModel: Model := [
    Req("id"),
    Req("title"),
    Req("url"),
    ReqAlias("modify_date", "modifyDate"),
    ReqAlias("create_date", "createDate"),
    ReqAlias("comment_count", "commentCount"),
    ReqAlias("vote_count", "voteCount"),
    ReqAlias("read_count", "readCount")
  ]

  const TagRankingModel: Model := [Req("name"), Opt("rank"), Opt("total")]

  /** `StoryModel`: 27 fields, built from `StoryDecl` like `UserModel`. */
  function StoryModel(): Model
  {
    seq(27, StoryDecl)
  }

  /** The fields of `StoryModel` (src/wattpad/models.py), by declaration position. */
  function StoryDecl(i: int): FieldDecl
  {
    match i
    case 0 => Req("id")
    case 1 => Opt("title")
    case 2 => OptAlias("create_date", "createDate")
    case 3 => OptAlias("modify_date", "modifyDate")
    case 4 => OptAlias("vote_count", "voteCount")
    case 5 => OptAlias("read_count", "readCount")
    case 6 => OptAlias("comment_count", "commentCount")
    case 7 => Opt("description")
    case 8 => Opt("completed")
    case 9 => Opt("tags")
    case 10 => Opt("rating")
    case 11 => Opt("mature")
    case 12 => Opt("url")
    case 13 => OptAlias("is_paywalled", "isPaywalled")
    case 14 => Opt("cover")
    case 15 => Opt("cover_timestamp")
    case 16 => Opt("categories")
    case 17 => Opt("copyright")
    case 18 => OptAlias("first_part_id", "firstPartId")
    case 19 => OptAlias("num_parts", "numParts")
    case 20 => Opt("deleted")
    case 21 => OptAlias("first_published_part", "firstPublishedPart")
    case 22 => OptAlias("last_published_part", "lastPublishedPart")
    case 23 => Opt("language")
    case 24 => Opt("user")
    case 25 => FieldDecl("parts", None, Some(JArr([])))
    case _ => FieldDecl("tag_rankings", Some("tagRankings"), Some(JArr([])))
  }

  const ListModel: Model := [Req("id"), Req("name"), Req("stories")]


  /** A model whose first field `key` is its only required one, declared once. */
  predicate KeyedModel(model: Model, key: string)
  {
    |model| > 0 && model[0] == Req(key) && LastDeclared(model, 0) &&
    forall i :: 1 <= i < |model| ==> model[i].default.Some?
  }

  /** The only required field of `UserModel` is `username`, declared first and never again;
      every other field defaults to None. */
  lemma UserModelShape()
    ensures UserModel()[0] == Req("username") && LastDeclared(UserModel(), 0)
    ensures forall i :: 1 <= i < |UserModel()| ==> UserModel()[i].default == Some(JNull)
    ensures KeyedModel(UserModel(), "username")
  {
  }

  /** `StoryModel` requires only `id`, declared first and never again; `parts` and
      `tag_rankings` default to empty lists and every other field to None. */
  lemma StoryModelShape()
    ensures StoryModel()[0] == Req("id") && LastDeclared(StoryModel(), 0)
    ensures forall i :: 1 <= i < |StoryModel()| ==>
              StoryModel()[i].default == if StoryModel()[i].name == "parts" || StoryModel()[i].name == "tag_rankings"
                                       then Some(JArr([])) else Some(JNull)
    ensures KeyedModel(StoryModel(), "id")
  {
  }

  /** `ListModel`, the part models, `LanguageModel` and the user sub-models require every
      field; `TagRankingModel` requires only `name`. */
  lemma ValueModelsShape()
    ensures ListModel[0].name == "id" && ListModel[1].name == "name" && ListModel[2].name == "stories"
    ensures forall i :: 0 <= i < |ListModel| ==> ListModel[i].default.None?
    ensures forall i :: 0 <= i < |PartModel| ==> PartModel[i].default.None?
    ensures forall i :: 0 <= i < |FirstPublishedPartModel| ==> FirstPublishedPartModel[i].default.None?
    ensures forall i :: 0 <= i < |LastPublishedPartModel| ==> LastPublishedPartModel[i].default.None?
    ensures forall i :: 0 <= i < |LanguageModel| ==> LanguageModel[i].default.None?
    ensures forall i :: 0 <= i < |InboxModel| ==> InboxModel[i].default.None?
    ensures forall i :: 0 <= i < |NotificationsModel| ==> NotificationsModel[i].default.None?
    ensures forall i :: 0 <= i < |ConnectedServicesModel| ==> ConnectedServicesModel[i].default.None?
    ensures TagRankingModel[0] == Req("name")
    ensures forall i :: 1 <= i < |TagRankingModel| ==> TagRankingModel[i].default == Some(JNull)
  {
  }

  /** Every declared alias is non-empty and differs from its attribute name, so it is exactly
      what `convert_from_aliases` renames. */
  predicate AliasesRenamable(model: Model)
  {
    forall i :: 0 <= i < |model| && model[i].alias.Some? ==>
      HasAlias(model[i]) && model[i].alias.value != model[i].name
  }

  lemma UserAliasesRenamable()
    ensures AliasesRenamable(UserModel())
    ensures UserModel()[2] == OptAlias("is_private", "isPrivate")
  {
  }

  lemma StoryAliasesRenamable()
    ensures AliasesRenamable(StoryModel())
    ensures StoryModel()[26] == FieldDecl("tag_rankings", Some("tagRankings"), Some(JArr([])))
  {
  }

  lemma PartAliasesRenamable()
    ensures AliasesRenamable(PartModel)
    ensures AliasesRenamable(FirstPublishedPartModel) && AliasesRenamable(LastPublishedPartModel)
  {
  }

  /** `include=True` for a user lists the wire names in declaration order. */
  lemma UserFieldsOrder()
    ensures |GetFields(UserModel(), true)| == |UserModel()|
    ensures GetFields(UserModel(), true)[..5] == ["username", "avatar", "isPrivate", "backgroundUrl", "follower"]
  {
    var names := GetFields(UserModel(), true);
    assert WireName(UserModel()[0]) == "username";
    assert WireName(UserModel()[1]) == "avatar";
    assert WireName(UserModel()[2]) == "isPrivate";
    assert WireName(UserModel()[3]) == "backgroundUrl";
    assert WireName(UserModel()[4]) == "follower";
  }

  /** `UserModel(username=username, **args)`. */
  function UserData(username: string, args: Object): Record
  {
    Populate(UserModel(), Put(args, "username", JStr(username)))
  }

  /** `StoryModel(id=id, **args)`. */
  function StoryData(id: string, args: Object): Record
  {
    Populate(StoryModel(), Put(args, "id", JStr(id)))
  }

  /** No incoming key but the key field's own name is converted into it: its field has no
      alias and no other field bears its name. */
  lemma {:induction false} KeyFieldNotRenamedInto(model: Model, key: string, k: string)
    requires KeyedModel(model, key)
    ensures Rename(model, k) == key ==> k == key
  {
    var a, p := GetFields(model, true), GetFields(model, false);
    if k in AliasToOriginal(model) {
      AliasTableValues(a, p, k);
      var i :| 0 <= i < |a| && a[i] == k && a[i] != p[i] && AliasTable(a, p)[k] == p[i];
      if i == 0 {
        assert !HasAlias(model[0]);
      } else {
        assert p[i] == model[i].name;
      }
    }
  }

  /** An update that does not mention the key field keeps it. */
  lemma {:induction false} UpdateKeepsKey(model: Model, key: string, data: Record, kwargs: Object)
    requires KeyedModel(model, key) && key in data && !Has(kwargs, key)
    ensures key in UpdateRecord(data, kwargs, model) && UpdateRecord(data, kwargs, model)[key] == data[key]
  {
    forall i | 0 <= i < |kwargs| ensures Rename(model, kwargs[i].0) != key {
      assert Keys(kwargs)[i] == kwargs[i].0;
      KeyFieldNotRenamedInto(model, key, kwargs[i].0);
    }
    UpdateRecordSpec(data, kwargs, model);
  }

  /** Building a record of a keyed model from its key never fails validation, holds every
      declared field, and carries the key given. */
  lemma {:induction false} KeyedRecordSpec(model: Model, key: string, value: Json, args: Object)
    requires KeyedModel(model, key)
    ensures Instantiate(model, Put(args, key, value)) == Success(Populate(model, Put(args, key, value)))
    ensures Populate(model, Put(args, key, value)).Keys == set i | 0 <= i < |model| :: model[i].name
    ensures key in Populate(model, Put(args, key, value)) && Populate(model, Put(args, key, value))[key] == value
  {
    var full := Put(args, key, value);
    assert Has(full, key) by {
      assert Get(full, key).Some?;
    }
    InstantiateSpec(model, full);
    PopulateDomain(model, full);
    PopulateValue(model, full, 0);
  }

  /** Every other field of such a record comes from `args` under its wire name, or falls back
      to its default when `args` does not carry it. */
  lemma {:induction false} KeyedRecordFields(model: Model, key: string, value: Json, args: Object, i: nat)
    requires KeyedModel(model, key)
    requires 1 <= i < |model| && LastDeclared(model, i) && WireName(model[i]) != key
    ensures model[i].name in Populate(model, Put(args, key, value))
    ensures Populate(model, Put(args, key, value))[model[i].name] ==
              match Get(args, WireName(model[i])) case Some(v) => v case None => model[i].default.value
  {
    PopulateValue(model, Put(args, key, value), i);
  }

  /** Fetching rebuilds the record while updating merges into it: a field the arguments do
      not carry falls back to its default in the rebuilt record, but keeps its old value in
      the updated one. */
  lemma FetchResetsUpdateKeeps(model: Model, key: string, value: Json, data: Record, args: Object, i: nat)
    requires KeyedModel(model, key)
    requires 1 <= i < |model| && LastDeclared(model, i) && WireName(model[i]) != key
    requires model[i].name in data && !Has(args, WireName(model[i]))
    requires forall j :: 0 <= j < |args| ==> Rename(model, args[j].0) != model[i].name
    ensures model[i].name in Populate(model, Put(args, key, value))
    ensures Populate(model, Put(args, key, value))[model[i].name] == model[i].default.value
    ensures model[i].name in UpdateRecord(data, args, model)
    ensures UpdateRecord(data, args, model)[model[i].name] == data[model[i].name]
  {
    KeyedRecordFields(model, key, value, args, i);
    UpdateRecordSpec(data, args, model);
  }
}
