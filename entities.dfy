/** The entity classes of src/wattpad/wattpad.py (`User`, `Story`, `List`), their
    per-class identity caches, and what each fetch method does with a decoded response.
    The HTTP request itself is left out: each fetch method receives the decoded response
    and returns the URL it would have requested. */
module Wattpad {
  import opened Wrappers
  import opened Text
  import opened Assoc
  import opened JsonValue
  import opened FieldQuery
  import opened Schema
  import opened Models
  import opened Identity
  import opened Payload

  /** An include dict. The fetch methods force fields into the caller's own dict. */
  class Selection {
    var entries: Tree

    constructor (t: Tree)
      ensures entries == t
    {
      entries := t;
    }
  }

  /** The `include` argument: `False`, `True`, or a dict. */
  datatype Include = Off | All | Given(sel: Selection)

  /** The `include` normalisation at the top of every fetch method: `False` gives a new empty
      dict, `True` a new dict selecting every field of the model, and a dict is used itself,
      not copied. */
  method Normalise(incl: Include, modelFields: seq<string>) returns (sel: Selection)
    ensures incl.Given? ==> sel == incl.sel
    ensures !incl.Given? ==> fresh(sel)
    ensures sel.entries == Initial(Argument(incl), modelFields)
  {
    match incl
    case Off =>
      sel := new Selection([]);
    case All =>
      sel := new Selection(AllIncluded(modelFields));
    case Given(s) =>
      sel := s;
  }

  /** The value of the `include` argument, reading the dict it names. */
  function Argument(incl: Include): IncludeValue
    reads IncludeFrame(incl)
  {
    match incl
    case Off => NoFields
    case All => AllFields
    case Given(s) => Fields(s.entries)
  }

  /** The objects a fetch method may change through its `include` argument. */
  function IncludeFrame(incl: Include): set<Selection>
  {
    if incl.Given? then {incl.sel} else {}
  }

  /** Who wrote a story: nobody known yet, a `User`, or (as `fetch_recommended` leaves it) the
      raw author dict of a response. */
  datatype Author = NoAuthor | AuthorRef(u: User) | RawAuthor(j: Json)

  class User {
    const username: string
    var stories: seq<Story>
    var followers: set<User>
    var following: set<User>
    var lists: set<List>
    var data: Record

    /** The record's `username` is the instance's: URLs are built from `data.username`. */
    ghost predicate Valid()
      reads this`data
    {
      "username" in data && data["username"] == JStr(username)
    }

    /** `User.__init__`: the username is lowercased, the relations start empty, and the record
        is built from the username and the extra keyword arguments. */
    constructor (name: string, kwargs: Object)
      requires !Has(kwargs, "username")
      ensures username == Lower(name)
      ensures stories == [] && followers == {} && following == {} && lists == {}
      ensures data == UserData(Lower(name), kwargs)
      ensures Valid()
    {
      username := Lower(name);
      stories := [];
      followers := {};
      following := {};
      lists := {};
      data := UserData(Lower(name), kwargs);
      UserModelShape();
      KeyedRecordSpec(UserModel(), "username", JStr(Lower(name)), kwargs);
    }

    /** `User._update_data`: `model_copy(update=convert_from_aliases(kwargs))`. */
    method UpdateData(kwargs: Object)
      modifies this`data
      ensures data == UpdateRecord(old(data), kwargs, UserModel())
      ensures stories == old(stories) && lists == old(lists)
      ensures followers == old(followers) && following == old(following)
      ensures old(Valid()) && !Has(kwargs, "username") ==> Valid()
    {
      if Valid() && !Has(kwargs, "username") {
        UserModelShape();
        UpdateKeepsKey(UserModel(), "username", data, kwargs);
      }
      ModelCopy(ConvertFromAliases(kwargs, UserModel()));
    }

    /** `User.fetch`: the URL of `users/<name>` with the include selection (the caller's dict
        is copied, not changed), and the record rebuilt from the username and the response
        without its `username`, so every field the response leaves out is back at its
        default. A response that is not an object changes nothing. */
    method Fetch(incl: Include, response: Json) returns (url: string, raw: Option<Object>)
      requires Valid()
      modifies this`data
      ensures url == BuildUrl("users/" + username, Some(Initial(Argument(incl), GetFields(UserModel(), true))), None, None)
      ensures raw.Some? <==> response.JObj?
      ensures raw.Some? ==> raw.value == Remove(response.fields, "username") && data == UserData(username, raw.value)
      ensures raw.None? ==> data == old(data)
      ensures Valid()
    {
      var sel := Normalise(incl, GetFields(UserModel(), true));
      url := BuildUrl("users/" + username, Some(sel.entries), None, None);
      if !response.JObj? {
        return url, None;
      }
      var rest := Remove(response.fields, "username");
      UserModelShape();
      KeyedRecordSpec(UserModel(), "username", JStr(username), rest);
      data := UserData(username, rest);
      raw := Some(rest);
    }

    /** The author half of `Story.fetch`: `User(user_data.pop("username"))` through the
        cache, then `_update_data(**user_data)` with the rest of the author's fields. No
        other cached user changes. */
    static method ReadAuthor(c: Client, e: Entry) returns (u: User)
      modifies c.users, CachedUser(c, e.key)`data
      ensures AuthorRead(c, e, u)
    {
      u := c.ResolveUser(e.key, true);
      assert KeySet([JStr(Lower(e.key))]) == {JStr(Lower(e.key))} by {
        assert [JStr(Lower(e.key))][0] == JStr(Lower(e.key));
      }
      label Resolved:
      u.UpdateData(e.fields);
      assert JStr(Lower(e.key)) !in old(c.users.instances) ==> old@Resolved(u.data) == UserData(Lower(e.key), []);
    }

    /** The authors of a recommended page, each `User(username)` through the cache. */
    static method ResolveAuthors(c: Client, named: seq<Option<Entry>>) returns (authors: seq<Author>)
      modifies c.users
      ensures |authors| == |named| && Grew(old(c.users.instances), c.users.instances)
      ensures forall i :: 0 <= i < |named| ==> AuthorFor(c, named[i], authors[i])
    {
      authors := [];
      var i := 0;
      while i < |named|
        invariant 0 <= i <= |named| && |authors| == i
        invariant Grew(old(c.users.instances), c.users.instances)
        invariant forall j :: 0 <= j < i ==> AuthorFor(c, named[j], authors[j])
      {
        var a := NoAuthor;
        if named[i].Some? {
          var u := c.ResolveUser(named[i].value.key, true);
          a := AuthorRef(u);
        }
        authors := authors + [a];
        i := i + 1;
      }
    }

    /** pydantic's `model_copy(update=m)`: the fields of `m` override those of the record. */
    method ModelCopy(m: map<string, Json>)
      modifies this`data
      ensures data == old(data) + m
    {
      data := data + m;
    }

    /** The relation half of one iteration of the loop of `fetch_followers` /
        `fetch_following`: `other` is added to this user's following (or followers). */
    method Link(other: User, intoFollowing: bool)
      modifies this`following, this`followers
      ensures data == old(data)
      ensures stories == old(stories) && lists == old(lists)
      ensures following == old(following) + (if intoFollowing then {other} else {})
      ensures followers == old(followers) + (if intoFollowing then {} else {other})
    {
      if intoFollowing {
        following := following + {other};
      } else {
        followers := followers + {other};
      }
    }

    /** The request half of `fetch_followers` and `fetch_following`: the include argument
        is normalised and `username` forced into it (into the caller's own dict, when one was
        given), and the URL of `users/<name>/followers` or `users/<name>/following` is built
        around the forced selection, wrapped in `users(...)`. */
    method UsersRequest(incl: Include, r: Relation, limit: Option<int>, offset: Option<int>)
      returns (url: string)
      requires Valid()
      modifies IncludeFrame(incl)
      ensures incl.Given? ==> incl.sel.entries == UsersSelection(old(incl.sel.entries))
      ensures url == CollectionUrl("users/" + username + (if r.Followers? then "/followers" else "/following"), "users",
                                   UsersSelection(old(Initial(Argument(incl), GetFields(UserModel(), true)))),
                                   limit, offset)
    {
      var sel := Normalise(incl, GetFields(UserModel(), true));
      sel.entries := UsersSelection(sel.entries);
      var path := "users/" + username + (if r.Followers? then "/followers" else "/following");
      url := CollectionUrl(path, "users", sel.entries, limit, offset);
    }

    /** A new user `alice`, who follows nobody, fetches the users `alice` follows, and the
        response names `bob`. As written, `bob` lands among the followers of `alice`, not
        among those `alice` follows, and `num_following` stays 0 where one followed user was
        returned. */
    static method FollowingMisfiled() returns (alice: User, bob: User)
      ensures bob in alice.followers && bob !in alice.following
      ensures "num_following" in alice.data && alice.data["num_following"] == JInt(0)
    {
      var c := new Client();
      alice := new User("alice", []);
      var response := JObj([("users", JArr([JObj([("username", JStr("bob"))])]))]);
      OneUserPage(response, "bob");
      var es := UserPage(response);
      var page := alice.ReadPage(c, es.value, FollowingAsWritten);
      bob := page[0];
      MembersOfOne(page);
    }

    /** The same fetch as `FollowingMisfiled`, with the relation corrected: `bob` joins those
        `alice` follows, and `num_following` counts that one user. */
    static method FollowingFiled() returns (alice: User, bob: User)
      ensures bob in alice.following && bob !in alice.followers
      ensures "num_following" in alice.data && alice.data["num_following"] == JInt(1)
    {
      var c := new Client();
      alice := new User("alice", []);
      var response := JObj([("users", JArr([JObj([("username", JStr("bob"))])]))]);
      OneUserPage(response, "bob");
      var es := UserPage(response);
      var page := alice.ReadPage(c, es.value, Following);
      bob := page[0];
      MembersOfOne(page);
    }

    /** A response listing one user by username is a page of one entry. */
    static lemma OneUserPage(response: Json, name: string)
      requires response == JObj([("users", JArr([JObj([("username", JStr(name))])]))])
      ensures UserPage(response).Some? && |UserPage(response).value| == 1
    {
      assert Member(response, "users") == Some([JObj([("username", JStr(name))])]);
      assert PopKey(JObj([("username", JStr(name))]), "username").Some?;
    }

    /** The request half of `fetch_stories`: the URL of `users/<name>/stories`, unpaged. */
    method StoriesRequest(incl: Include) returns (url: string)
      requires Valid()
      modifies IncludeFrame(incl)
      ensures incl.Given? ==> incl.sel.entries == StoriesSelection(old(incl.sel.entries))
      ensures url == CollectionUrl("users/" + username + "/stories", "stories",
                                   StoriesSelection(old(Initial(Argument(incl), GetFields(StoryModel(), true)))),
                                   None, None)
    {
      var sel := Normalise(incl, GetFields(StoryModel(), true));
      sel.entries := StoriesSelection(sel.entries);
      url := CollectionUrl("users/" + username + "/stories", "stories", sel.entries, None, None);
    }

    /** What `fetch_stories` does with the returned stories `es`: they are read through the
        cache with this user as the author of new ones, become this user's stories, in order,
        and `num_stories_published` their number. Cached stories not on the page are left
        alone. */
    method ReadStoriesPage(c: Client, es: seq<Entry>) returns (rs: seq<Story>)
      requires Valid()
      modifies this`stories, this`data, c.stories, CachedStories(c, EntryKeys(es))`data
      ensures StoriesRead(c, es, rs) && GrewBy(c.stories, EntryKeys(es))
      ensures StoryCachedOrNew(old(c.stories.instances), EntryKeys(es), rs)
      ensures StoriesJoined(old(c.stories.instances), EntryKeys(es), rs, StoryIncomings(es), AuthorRef(this))
      ensures stories == rs && data == old(data)["num_stories_published" := JInt(|rs|)]
      ensures Valid()
    {
      rs := Story.ReadStories(c, es, StoryIncomings(es), AuthorRef(this));
      label Read:
      TakeStories(rs);
      assert unchanged@Read(rs);
    }

    /** `self.stories = stories`, then `self.data.num_stories_published = len(stories)`. */
    method TakeStories(rs: seq<Story>)
      requires Valid()
      modifies this`stories, this`data
      ensures stories == rs && data == old(data)["num_stories_published" := JInt(|rs|)]
      ensures Valid()
    {
      stories := rs;
      SetCount("num_stories_published", |rs|);
    }

    /** The request half of `fetch_lists`: the URL of `users/<name>/lists`. */
    method ListsRequest(incl: Include, limit: Option<int>, offset: Option<int>) returns (url: string)
      requires Valid()
      modifies IncludeFrame(incl)
      ensures incl.Given? ==> incl.sel.entries == ListsSelection(old(incl.sel.entries))
      ensures url == CollectionUrl("users/" + username + "/lists", "lists", ListsSelection(old(Initial(Argument(incl), GetFields(ListModel, true)))),
                                   limit, offset)
    {
      var sel := Normalise(incl, GetFields(ListModel, true));
      sel.entries := ListsSelection(sel.entries);
      url := CollectionUrl("users/" + username + "/lists", "lists", sel.entries, limit, offset);
    }

    /** The response half of `fetch_lists`, given the lists `les` of the reply (see
        `ListPage`): the loop over the lists resolves each by `List(id=..., user=self)`, reads
        the stories of all lists, in page order, as `Story(id=...)` calls without an author,
        and adds each list's stories to its set; then the user keeps the lists. Story sets of
        lists not on the page are left alone. The stories are read before the lists are
        resolved: the two touch disjoint state, so the end state is the same. */
    method ListsPage(c: Client, les: seq<ListEntry>) returns (ls: seq<List>, read: seq<Story>)
      requires Valid()
      modifies this`lists, this`data, c.lists, c.stories,
               CachedStories(c, EntryKeys(ListStories(les, |les|)))`data, CachedSets(c, les)`members
      ensures ListsFetched(c, les, ls, read, this) && SetsFilled(les, ls, read, old(Holding(c, les)))
      ensures lists == old(lists) + Members(ls) && data == old(data)["num_lists" := JInt(|lists|)]
      ensures Valid()
    {
      ghost var prior := Holding(c, les);
      read := ReadListStories(c, les);
      ls := KeepLists(c, les, read, prior);
    }

    /** The story side of `fetch_lists`: the stories of all lists `les`, in page order, read
        as `Story(id=...)` calls without an author. No list, set or user changes. */
    method ReadListStories(c: Client, les: seq<ListEntry>) returns (read: seq<Story>)
      modifies c.stories, CachedStories(c, EntryKeys(ListStories(les, |les|)))`data
      ensures StoriesRead(c, ListStories(les, |les|), read) && GrewBy(c.stories, EntryKeys(ListStories(les, |les|)))
      ensures StoriesJoined(old(c.stories.instances), EntryKeys(ListStories(les, |les|)), read,
                            StoryIncomings(ListStories(les, |les|)), NoAuthor)
      ensures unchanged(this) && unchanged(c.lists, c.lists.instances.Values) && unchanged(AllSets(c))
    {
      var ss := ListStories(les, |les|);
      read := Story.ReadStories(c, ss, StoryIncomings(ss), NoAuthor);
    }

    /** The list side of `fetch_lists`, once the stories `read` are read: the lists are
        resolved and gain their stories, and the user keeps them. No story changes. */
    method KeepLists(c: Client, les: seq<ListEntry>, read: seq<Story>, ghost prior: seq<set<Story>>) returns (ls: seq<List>)
      requires Valid() && StoriesRead(c, ListStories(les, |les|), read) && prior == Holding(c, les)
      modifies this`lists, this`data, c.lists, CachedSets(c, les)`members
      ensures ListsLinked(c, les, ls, this) && SetsFilled(les, ls, read, prior)
      ensures unchanged(c.stories, c.stories.instances.Values)
      ensures lists == old(lists) + Members(ls) && data == old(data)["num_lists" := JInt(|lists|)]
      ensures Valid()
    {
      ls := List.LinkLists(c, les, this, read, prior);
      label Linked:
      AddLists(ls, c);
    }

    /** `self.lists.update(lists)`, then `self.data.num_lists = len(self.lists)`. The lists
        and the caches of `c` are left alone. */
    method AddLists(ls: seq<List>, ghost c: Client)
      requires Valid()
      modifies this`lists, this`data
      ensures lists == old(lists) + Members(ls) && data == old(data)["num_lists" := JInt(|lists|)]
      ensures unchanged(ls) && unchanged(c.lists) && unchanged(c.stories, c.stories.instances.Values)
      ensures Valid()
    {
      lists := lists + Members(ls);
      SetCount("num_lists", |lists|);
    }

    /** What `fetch_followers` and `fetch_following` do with the returned users `es`, for the
        relation `r`: every returned user is resolved through the cache by its username,
        gains this user in its following (`fetch_followers`) or its followers, and merges in
        the rest of its entry; then this user adds them all to its followers
        (`fetch_followers`, and `fetch_following` as written) or its following, and sets the
        count of that relation (`num_following` for both versions of `fetch_following`).
        Cached users not on the page are left alone. */
    method ReadPage(c: Client, es: seq<Entry>, r: Relation) returns (rs: seq<User>)
      requires Valid() && forall i :: 0 <= i < |es| ==> !Has(es[i].fields, "username")
      modifies this`following, this`followers, this`data, c.users,
               c.users.instances.Values`data, c.users.instances.Values`following, c.users.instances.Values`followers
      ensures Fetched(c, es, rs) && GrewBy(c.users, EntryKeys(es))
      ensures CachedOrNew(old(c.users.instances), EntryKeys(es), rs)
      ensures this !in rs ==> PageJoined(old(c.users.instances), EntryKeys(es), rs, Incomings(es), this, IntoFollowing(r))
      ensures unchanged(old(c.users.instances.Values) - Members(rs) - {this})
      ensures this !in rs ==> Collected(this, rs, AddsToFollowing(r), CountsFollowing(r))
      ensures Valid()
    {
      var ms := Incomings(es);
      forall i | 0 <= i < |es| ensures "username" !in ms[i] {
        IncomingLacksUsername(es[i]);
      }
      rs := JoinPage(c, es, ms, this, IntoFollowing(r));
      Collect(rs, AddsToFollowing(r), CountsFollowing(r));
    }

    /** The loop of `fetch_followers` and `fetch_following` over the returned users `es`:
        each is resolved through the cache by its username, gains `other` as a followee
        (`intoFollowing`) or as a follower, and merges in the rest of its entry. */
    static method JoinPage(c: Client, es: seq<Entry>, ms: seq<map<string, Json>>, other: User, intoFollowing: bool)
      returns (rs: seq<User>)
      requires other.Valid() && |ms| == |es|
      requires forall i :: 0 <= i < |es| ==> "username" !in ms[i]
      modifies c.users, c.users.instances.Values`data, c.users.instances.Values`following,
               c.users.instances.Values`followers
      ensures other.Valid()
      ensures Fetched(c, es, rs) && GrewBy(c.users, EntryKeys(es))
      ensures CachedOrNew(old(c.users.instances), EntryKeys(es), rs)
      ensures PageJoined(old(c.users.instances), EntryKeys(es), rs, ms, other, intoFollowing)
      ensures unchanged(old(c.users.instances.Values) - Members(rs))
      ensures other.following == old(other.following) + (if other in rs then Gained(other, intoFollowing) else {})
      ensures other.followers == old(other.followers) + (if other in rs then Gained(other, !intoFollowing) else {})
      ensures other !in rs ==> unchanged(other)
    {
      rs := ResolveUsers(c, es);
      Relate(rs, ms, other, intoFollowing);
    }

    /** The second and third phases of that loop over the resolved users `us`: each gains
        `other` and merges in its fields `ms`. */
    static method Relate(us: seq<User>, ms: seq<map<string, Json>>, other: User, intoFollowing: bool)
      requires other.Valid() && |ms| == |us|
      requires forall i :: 0 <= i < |us| ==> "username" !in ms[i]
      modifies us`data, us`following, us`followers
      ensures other.Valid()
      ensures forall i :: 0 <= i < |us| ==> State(us[i]) == Joined(old(State(us[i])), us, ms, us[i], other, intoFollowing)
      ensures other.following == old(other.following) + (if other in us then Gained(other, intoFollowing) else {})
      ensures other.followers == old(other.followers) + (if other in us then Gained(other, !intoFollowing) else {})
    {
      LinkAll(us, other, intoFollowing);
      label Linked:
      MergeAll(us, ms);
      if other in us {
        var j :| 0 <= j < |us| && us[j] == other;
        MergedKeepsKey(old@Linked(other.data), us, ms, other, |us|, "username");
      }
    }

    /** The first half of the loop of `fetch_followers` and `fetch_following`: every returned
        user is resolved by keyword through the cache, in order; a user not cached yet is
        built blank. */
    static method ResolveUsers(c: Client, es: seq<Entry>) returns (rs: seq<User>)
      modifies c.users
      ensures Fetched(c, es, rs) && GrewBy(c.users, EntryKeys(es))
      ensures CachedOrNew(old(c.users.instances), EntryKeys(es), rs)
      ensures forall i :: 0 <= i < |rs| ==> State(rs[i]) == Prior(old(c.users.instances), EntryKeys(es)[i], rs[i])
    {
      rs := ResolveEachUser(c, es);
      assert forall i :: 0 <= i < |rs| ==> EntryKeys(es)[i] == JStr(Lower(es[i].key));
    }

    /** The loop itself: each key of `es` in turn is resolved, and every user it adds to the
        cache is new and blank. */
    static method ResolveEachUser(c: Client, es: seq<Entry>) returns (rs: seq<User>)
      modifies c.users
      ensures |rs| == |es| && Resolved(old(c.users.instances), c.users.instances, EntryKeys(es), rs)
      ensures forall k :: k in c.users.instances && k !in old(c.users.instances) ==>
                fresh(c.users.instances[k]) && State(c.users.instances[k]) == BlankState(c.users.instances[k].username)
    {
      rs := [];
      var i := 0;
      while i < |es|
        invariant 0 <= i <= |es| && |rs| == i
        invariant Resolved(old(c.users.instances), c.users.instances, EntryKeys(es), rs)
        invariant forall k :: k in c.users.instances && k !in old(c.users.instances) ==>
                    fresh(c.users.instances[k]) && State(c.users.instances[k]) == BlankState(c.users.instances[k].username)
      {
        ghost var before := c.users.instances;
        label Head:
        var u := c.ResolveUser(es[i].key, false);
        CacheStep(old(c.users.instances), before, c.users.instances, EntryKeys(es), rs, u);
        forall k | k in c.users.instances && k !in old(c.users.instances)
          ensures fresh(c.users.instances[k]) && State(c.users.instances[k]) == BlankState(c.users.instances[k].username)
        {
          if k in before {
            var t := before[k];
            assert old@Head(State(t)) == BlankState(t.username);
            assert State(t) == old@Head(State(t));
          }
        }
        rs := rs + [u];
        i := i + 1;
      }
    }

    /** The relation half of the loop, over all resolved users: each gains `other` as a
        followee (`intoFollowing`) or as a follower. Nothing else changes. */
    static method LinkAll(us: seq<User>, other: User, intoFollowing: bool)
      modifies us`following, us`followers
      ensures forall i :: 0 <= i < |us| ==>
                State(us[i]) == old(State(us[i])).(following := old(us[i].following) + Gained(other, intoFollowing),
                                                   followers := old(us[i].followers) + Gained(other, !intoFollowing))
      ensures other.following == old(other.following) + (if other in us then Gained(other, intoFollowing) else {})
      ensures other.followers == old(other.followers) + (if other in us then Gained(other, !intoFollowing) else {})
    {
      var i := 0;
      ghost var linked: set<User> := {};
      while i < |us|
        invariant 0 <= i <= |us|
        invariant forall j :: 0 <= j < i ==> us[j] in linked
        invariant forall j :: 0 <= j < |us| ==>
                    us[j].data == old(us[j].data) &&
                    us[j].stories == old(us[j].stories) && us[j].lists == old(us[j].lists)
        invariant forall j :: 0 <= j < |us| ==>
                    us[j].following == old(us[j].following) + (if intoFollowing && us[j] in linked then {other} else {}) &&
                    us[j].followers == old(us[j].followers) + (if !intoFollowing && us[j] in linked then {other} else {})
      {
        us[i].Link(other, intoFollowing);
        linked := linked + {us[i]};
        i := i + 1;
      }
    }

    /** The data half of the loop: each resolved user `us[j]` merges in the renamed fields
        `ms[j]` of its entry, so a user's record ends up as its old record with each of its
        entries merged in, in page order. Only the records change. */
    static method MergeAll(us: seq<User>, ms: seq<map<string, Json>>)
      requires |us| == |ms|
      modifies us`data
      ensures RecordsMerged(us, ms, |us|)
    {
      var i := 0;
      while i < |us|
        invariant 0 <= i <= |us|
        invariant forall j :: 0 <= j < |us| ==> us[j].data == Merged(old(us[j].data), us, ms, us[j], i)
      {
        MergeStep(us, ms, i);
        i := i + 1;
      }
    }

    /** One iteration: `us[i]` merges in `ms[i]`, and every other user keeps its record. */
    static method MergeStep(us: seq<User>, ms: seq<map<string, Json>>, i: nat)
      requires i < |us| == |ms|
      modifies {us[i]}`data
      ensures forall j :: 0 <= j < |us| ==> us[j].data == old(us[j].data) + (if us[j] == us[i] then ms[i] else map[])
    {
      us[i].ModelCopy(ms[i]);
      forall j | 0 <= j < |us| && us[j] != us[i]
        ensures us[j].data == old(us[j].data) + map[]
      {
        assert us[j].data + map[] == us[j].data;
      }
    }

    /** After a page `rs` was read: this user's following (`addToFollowing`) or followers
        gain the page, and the count of its following (`countFollowing`) or followers is set
        to that set's new size. */
    method Collect(rs: seq<User>, addToFollowing: bool, countFollowing: bool)
      requires Valid()
      modifies this`following, this`followers, this`data
      ensures following == old(following) + (if addToFollowing then Members(rs) else {})
      ensures followers == old(followers) + (if addToFollowing then {} else Members(rs))
      ensures data == old(data)[CountKey(countFollowing) := JInt(if countFollowing then |following| else |followers|)]
      ensures this !in rs ==> unchanged(rs)
      ensures Valid()
    {
      AddRelation(rs, addToFollowing);
      SetCount(CountKey(countFollowing), if countFollowing then |following| else |followers|);
    }

    /** `self.following.update(rs)` (`intoFollowing`) or `self.followers.update(rs)`. */
    method AddRelation(rs: seq<User>, intoFollowing: bool)
      modifies this`following, this`followers
      ensures following == old(following) + (if intoFollowing then Members(rs) else {})
      ensures followers == old(followers) + (if intoFollowing then {} else Members(rs))
    {
      if intoFollowing {
        following := following + Members(rs);
      } else {
        followers := followers + Members(rs);
      }
    }

    /** `self.data.<key> = n` for a count field: the record keeps its key. */
    method SetCount(key: string, n: int)
      requires Valid() && key != "username"
      modifies this`data
      ensures data == old(data)[key := JInt(n)]
      ensures Valid()
    {
      data := data[key := JInt(n)];
    }
  }

  class Story {
    const id: string
    var user: Author
    var recommended: seq<Story>
    var data: Record

    ghost predicate Valid()
      reads this`data
    {
      "id" in data && data["id"] == JStr(id)
    }

    /** `Story.__init__`: the id is lowercased and the record is built from it and the extra
        keyword arguments. */
    constructor (storyId: string, author: Author, kwargs: Object)
      requires !Has(kwargs, "id")
      ensures id == Lower(storyId) && user == author && recommended == []
      ensures data == StoryData(Lower(storyId), kwargs)
      ensures Valid()
    {
      id := Lower(storyId);
      user := author;
      recommended := [];
      data := StoryData(Lower(storyId), kwargs);
      StoryModelShape();
      KeyedRecordSpec(StoryModel(), "id", JStr(Lower(storyId)), kwargs);
    }

    /** `Story._update_data`. */
    method UpdateData(kwargs: Object)
      modifies this`data
      ensures data == UpdateRecord(old(data), kwargs, StoryModel())
      ensures old(Valid()) && !Has(kwargs, "id") ==> Valid()
    {
      if Valid() && !Has(kwargs, "id") {
        StoryModelShape();
        UpdateKeepsKey(StoryModel(), "id", data, kwargs);
      }
      ModelCopy(ConvertFromAliases(kwargs, StoryModel()));
    }

    /** The response half of `Story.fetch`. */
    method ReadReply(c: Client, response: Json) returns (raw: Option<Object>)
      requires Valid()
      modifies this`data, this`user, c.users, ReplyAuthor(c, response)`data
      ensures raw.Some? <==> PopAuthor(response).Some?
      ensures raw.None? ==> data == old(data) && user == old(user)
      ensures raw.Some? ==> raw.value == PopAuthor(response).value.rest && data == StoryData(id, raw.value)
      ensures raw.Some? && PopAuthor(response).value.author.Some? ==>
                user.AuthorRef? && AuthorRead(c, PopAuthor(response).value.author.value, user.u)
      ensures !(raw.Some? && PopAuthor(response).value.author.Some?) ==>
                user == old(user) && unchanged(c.users)
      ensures Valid()
    {
      var reply := PopAuthor(response);
      if reply.None? {
        return None;
      }
      if reply.value.author.Some? {
        TakeAuthor(c, reply.value.author.value);
      }
      label Took:
      Rebuild(reply.value.rest);
      assert unchanged@Took(c.users) && (user.AuthorRef? ==> unchanged@Took(user.u));
      raw := Some(reply.value.rest);
    }

    /** `self.user = User(...)` for the author entry `e` of a `Story.fetch` response. */
    method TakeAuthor(c: Client, e: Entry)
      modifies this`user, c.users, CachedUser(c, e.key)`data
      ensures user.AuthorRef? && AuthorRead(c, e, user.u)
    {
      var u := User.ReadAuthor(c, e);
      user := AuthorRef(u);
    }

    /** `self.data = StoryModel(id=self.id, **data)`: a record of the id and `rest`. */
    method Rebuild(rest: Object)
      modifies this`data
      ensures data == StoryData(id, rest) && Valid()
    {
      StoryModelShape();
      KeyedRecordSpec(StoryModel(), "id", JStr(id), rest);
      data := StoryData(id, rest);
    }

    /** The request half of `Story.fetch`: the URL of `stories/<id>` with the rewritten
        selection. */
    method AuthorRequest(incl: Include) returns (url: string)
      requires Valid()
      modifies IncludeFrame(incl)
      ensures incl.Given? ==> incl.sel.entries == AuthorSelection(old(incl.sel.entries), GetFields(UserModel(), true))
      ensures url == BuildUrl("stories/" + id,
                              Some(AuthorSelection(old(Initial(Argument(incl), GetFields(StoryModel(), true))),
                                                   GetFields(UserModel(), true))),
                              None, None)
    {
      var sel := Normalise(incl, GetFields(StoryModel(), true));
      sel.entries := AuthorSelection(sel.entries, GetFields(UserModel(), true));
      url := BuildUrl("stories/" + id, Some(sel.entries), None, None);
    }

    /** The response half of `fetch_recommended` as written: `recommended` becomes
        `[Story(**story) for story in data]`. A story new to the cache is built from its item,
        with the item's raw `user` object as its author; a cached one is returned as it is.
        A response that is not a list of objects with a string `id` changes nothing. */
    method FetchRecommendedAsWritten(c: Client, response: Json) returns (page: Option<seq<Story>>)
      modifies this`recommended, c.stories
      ensures page.Some? <==> RecommendedItems(response).Some?
      ensures page.Some? ==> recommended == page.value
      ensures page.Some? ==> ReadAsWritten(c, old(c.stories.instances.Values), RecommendedItems(response).value, page.value)
      ensures page.Some? ==> forall i :: 0 <= i < |page.value| ==> page.value[i] in old(c.stories.instances.Values) || fresh(page.value[i])
      ensures page.Some? ==> GrewBy(c.stories, StoryKeys(Kwargs(RecommendedItems(response).value)))
      ensures page.None? ==> recommended == old(recommended) && unchanged(c.stories)
    {
      var items := RecommendedItems(response);
      if items.None? {
        return None;
      }
      ItemsAreStoryCalls(response);
      var rs := ResolveRecommended(c, Kwargs(items.value), RawAuthors(items.value));
      recommended := rs;
      page := Some(rs);
    }

    /** The response half of `fetch_recommended` as its `Story.user: Optional[User]` attribute
        intends: the author of a new story is the cached `User` for the username its item
        names, resolved as `Story.fetch` resolves it. A response whose `user` objects do not
        all name a username changes nothing. */
    method FetchRecommended(c: Client, response: Json) returns (page: Option<seq<Story>>)
      modifies this`recommended, c.stories, c.users
      ensures page.Some? <==> RecommendedItems(response).Some? && AuthorsNamed(RecommendedItems(response).value)
      ensures page.Some? ==> recommended == page.value
      ensures page.Some? ==> ReadAsIntended(c, old(c.stories.instances.Values), RecommendedItems(response).value, page.value)
      ensures page.Some? ==> forall i :: 0 <= i < |page.value| ==> page.value[i] in old(c.stories.instances.Values) || fresh(page.value[i])
      ensures page.Some? ==> GrewBy(c.stories, StoryKeys(Kwargs(RecommendedItems(response).value)))
      ensures Grew(old(c.users.instances), c.users.instances)
      ensures page.None? ==> recommended == old(recommended) && unchanged(c.stories, c.users)
    {
      var items := RecommendedItems(response);
      if items.None? || !AuthorsNamed(items.value) {
        return None;
      }
      ItemsAreStoryCalls(response);
      var named := seq(|items.value|, i requires 0 <= i < |items.value| => AuthorEntry(items.value[i]));
      var authors := User.ResolveAuthors(c, named);
      ghost var olds := c.stories.instances.Values;
      var rs := ResolveRecommended(c, Kwargs(items.value), authors);
      AuthoredFrom(c, olds, items.value, named, authors, rs);
      recommended := rs;
      page := Some(rs);
    }

    /** A recommended item for a story nobody has cached names its author `bob`. As written,
        the new story's author is the raw dict `{"username": "bob"}`, not a `User`. */
    static method AuthorLeftRaw() returns (s: Story)
      ensures s.user == RawAuthor(JObj([("username", JStr("bob"))]))
      ensures !s.user.AuthorRef?
    {
      var c := new Client();
      var from := new Story("0", NoAuthor, []);
      var item := [("id", JStr("1")), ("user", JObj([("username", JStr("bob"))]))];
      var response := JArr([JObj(item)]);
      assert Keys(item) == ["id", "user"];
      assert PopKey(JObj(item), "id").Some?;
      var page := from.FetchRecommendedAsWritten(c, response);
      assert RecommendedItems(response).value == [item];
      assert RawAuthors([item])[0] == RawAuthor(JObj([("username", JStr("bob"))]));
      s := page.value[0];
    }

    /** The request half of `fetch_recommended`: `id` is forced into the include dict and
        `user` made a selection naming `username` (all user fields when it was `True`), and the
        URL of `stories/<id>/recommended` carries it with the paging. */
    method RecommendedRequest(incl: Include, limit: Option<int>, offset: Option<int>) returns (url: string)
      requires Valid()
      modifies IncludeFrame(incl)
      ensures incl.Given? ==> incl.sel.entries == RecommendedSelection(old(incl.sel.entries), GetFields(UserModel(), true))
      ensures url == BuildUrl("stories/" + id + "/recommended",
                              Some(RecommendedSelection(old(Initial(Argument(incl), GetFields(StoryModel(), true))),
                                                        GetFields(UserModel(), true))),
                              limit, offset)
    {
      var sel := Normalise(incl, GetFields(StoryModel(), true));
      sel.entries := RecommendedSelection(sel.entries, GetFields(UserModel(), true));
      url := BuildUrl("stories/" + id + "/recommended", Some(sel.entries), limit, offset);
    }

    /** The loop `[Story(**kwargs) for ...]`, with the author of each call given apart: every
        story is resolved through the cache, in order. The first item with a key that was not
        cached builds a story from its own arguments and author; every later item with that
        key gets the same story back. */
    static method ResolveRecommended(c: Client, kws: seq<Object>, authors: seq<Author>) returns (rs: seq<Story>)
      requires |kws| == |authors| && forall i :: 0 <= i < |kws| ==> StoryCall(kws[i])
      modifies c.stories
      ensures |rs| == |kws|
      ensures forall i :: 0 <= i < |kws| ==>
                StoryKeys(kws)[i] in c.stories.instances && c.stories.instances[StoryKeys(kws)[i]] == rs[i]
      ensures BuiltWith(old(c.stories.instances.Values), kws, authors, rs)
      ensures forall i :: 0 <= i < |rs| ==> rs[i] in old(c.stories.instances.Values) || fresh(rs[i])
      ensures GrewBy(c.stories, StoryKeys(kws))
    {
      ghost var keys := StoryKeys(kws);
      ghost var olds := c.stories.instances.Values;
      rs := [];
      var i := 0;
      while i < |kws|
        invariant 0 <= i <= |kws| && |rs| == i
        invariant Resolved(old(c.stories.instances), c.stories.instances, keys, rs)
        invariant BuiltWith(olds, kws, authors, rs)
        invariant forall j :: 0 <= j < i ==> rs[j] in olds || fresh(rs[j])
      {
        var s := ResolveNext(c, kws, authors, rs, old(c.stories.instances), olds);
        rs := rs + [s];
        i := i + 1;
      }
    }

    /** One step of `ResolveRecommended`: the call after the `rs` already resolved. */
    static method ResolveNext(c: Client, kws: seq<Object>, authors: seq<Author>, rs: seq<Story>,
                              ghost m0: map<Json, Story>, ghost olds: set<Story>) returns (s: Story)
      requires |rs| < |kws| == |authors| && forall i :: 0 <= i < |kws| ==> StoryCall(kws[i])
      requires olds == m0.Values
      requires Resolved(m0, c.stories.instances, StoryKeys(kws), rs) && BuiltWith(olds, kws, authors, rs)
      modifies c.stories
      ensures Resolved(m0, c.stories.instances, StoryKeys(kws), rs + [s]) && BuiltWith(olds, kws, authors, rs + [s])
      ensures s in olds || s in rs || fresh(s)
    {
      ghost var keys := StoryKeys(kws);
      ghost var before := c.stories.instances;
      var i := |rs|;
      assert keys[i] == StoryKey(kws[i]);
      s := c.ResolveKeyed(kws[i], authors[i]);
      if keys[i] in m0 {
        assert s == m0[keys[i]];
        assert s in olds;
      } else if keys[i] in before {
        var j :| 0 <= j < i && keys[j] == keys[i];
        assert s == rs[j];
      }
      if FirstOccurrence(keys, i) && keys[i] !in m0 {
        FirstIsOld(m0, before, keys, rs);
        assert s.user == authors[i] && Built(s, kws[i]);
      }
      CacheStep(m0, before, c.stories.instances, keys, rs, s);
      BuiltStep(olds, kws, authors, rs, s);
    }

    /** pydantic's `model_copy(update=m)` on a story record. */
    method ModelCopy(m: map<string, Json>)
      modifies this`data
      ensures data == old(data) + m
    {
      data := data + m;
    }

    /** The loop of `fetch_stories` and of the inner loop of `fetch_lists` over the returned
        stories `es`: each is resolved through the cache by its id, a new one with `author`
        as its author, and merges in the rest of its entry. A story that was already cached
        keeps its author, as only records change, and cached stories not on the page are
        left alone. */
    static method ReadStories(c: Client, es: seq<Entry>, ms: seq<map<string, Json>>, author: Author) returns (rs: seq<Story>)
      requires |ms| == |es|
      modifies c.stories, CachedStories(c, EntryKeys(es))`data
      ensures StoriesRead(c, es, rs) && GrewBy(c.stories, EntryKeys(es))
      ensures StoryCachedOrNew(old(c.stories.instances), EntryKeys(es), rs)
      ensures StoriesJoined(old(c.stories.instances), EntryKeys(es), rs, ms, author)
    {
      rs := ResolveStories(c, es, author);
      MergeStories(rs, ms);
    }

    /** The first half of that loop: every returned story is resolved by `Story(id=...)`; a
        story not cached yet is built with `author` and the record of its id alone. */
    static method ResolveStories(c: Client, es: seq<Entry>, author: Author) returns (rs: seq<Story>)
      modifies c.stories
      ensures StoriesRead(c, es, rs) && GrewBy(c.stories, EntryKeys(es))
      ensures StoryCachedOrNew(old(c.stories.instances), EntryKeys(es), rs)
      ensures StoriesAsBefore(old(c.stories.instances), EntryKeys(es), rs, author)
    {
      rs := ResolveEach(c, es, author);
      assert forall i :: 0 <= i < |rs| ==> EntryKeys(es)[i] == JStr(Lower(es[i].key));
    }

    /** The loop itself: each key of `es` in turn is resolved, and every story it adds to
        the cache is new and blank. */
    static method ResolveEach(c: Client, es: seq<Entry>, author: Author) returns (rs: seq<Story>)
      modifies c.stories
      ensures |rs| == |es| && Resolved(old(c.stories.instances), c.stories.instances, EntryKeys(es), rs)
      ensures AddedBlank(old(c.stories.instances), c.stories.instances, author)
    {
      rs := [];
      var i := 0;
      while i < |es|
        invariant 0 <= i <= |es| && |rs| == i
        invariant Resolved(old(c.stories.instances), c.stories.instances, EntryKeys(es), rs)
        invariant AddedBlank(old(c.stories.instances), c.stories.instances, author)
      {
        ghost var before := c.stories.instances;
        label Head:
        var s := c.ResolveStoryById(es[i].key, author);
        CacheStep(old(c.stories.instances), before, c.stories.instances, EntryKeys(es), rs, s);
        forall k | k in c.stories.instances && k !in old(c.stories.instances)
          ensures fresh(c.stories.instances[k]) &&
                  Content(c.stories.instances[k]) == BlankStory(c.stories.instances[k].id, author)
        {
          if k in before {
            var t := before[k];
            assert old@Head(Content(t)) == BlankStory(t.id, author);
            assert Content(t) == old@Head(Content(t));
          }
        }
        rs := rs + [s];
        i := i + 1;
      }
    }

    /** The data half: each story `us[j]` merges in the renamed fields `ms[j]` of its entry,
        in page order. */
    static method MergeStories(us: seq<Story>, ms: seq<map<string, Json>>)
      requires |us| == |ms|
      modifies us`data
      ensures StoryRecordsMerged(us, ms, |us|)
    {
      var i := 0;
      while i < |us|
        invariant 0 <= i <= |us|
        invariant forall j :: 0 <= j < |us| ==> us[j].data == Merged(old(us[j].data), us, ms, us[j], i)
      {
        MergeStep(us, ms, i);
        i := i + 1;
      }
    }

    /** One iteration: `us[i]` merges in `ms[i]`, and every other story keeps its record. */
    static method MergeStep(us: seq<Story>, ms: seq<map<string, Json>>, i: nat)
      requires i < |us| == |ms|
      modifies {us[i]}`data
      ensures forall j :: 0 <= j < |us| ==> us[j].data == old(us[j].data) + (if us[j] == us[i] then ms[i] else map[])
    {
      us[i].ModelCopy(ms[i]);
      forall j | 0 <= j < |us| && us[j] != us[i]
        ensures us[j].data == old(us[j].data) + map[]
      {
        assert us[j].data + map[] == us[j].data;
      }
    }
  }

  /** A Python `set[Story]` object, which several lists may hold at once. */
  class StorySet {
    var members: set<Story>

    constructor ()
      ensures members == {}
    {
      members := {};
    }

    /** `s.update(other)`. */
    method Update(other: set<Story>)
      modifies this`members
      ensures members == old(members) + other
    {
      members := members + other;
    }
  }

  class List {
    const id: Json
    var name: string
    var user: User
    var stories: StorySet

    /** `List.__init__`: the id is kept as given (it is not lowercased). */
    constructor (listId: Json, owner: User, listName: string, set0: StorySet)
      ensures id == listId && user == owner && name == listName && stories == set0
    {
      id := listId;
      user := owner;
      name := listName;
      stories := set0;
    }

    /** `List._update_data`: each argument replaces its attribute only when it is truthy (a
        non-empty name, a user, a non-empty set). */
    method UpdateData(newName: Option<string>, newUser: Option<User>, newStories: Option<StorySet>)
      modifies this
      ensures name == if newName.Some? && newName.value != "" then newName.value else old(name)
      ensures user == if newUser.Some? then newUser.value else old(user)
      ensures stories == if newStories.Some? && newStories.value.members != {} then newStories.value else old(stories)
    {
      if newName.Some? && newName.value != "" {
        name := newName.value;
      }
      if newUser.Some? {
        user := newUser.value;
      }
      if newStories.Some? && newStories.value.members != {} {
        stories := newStories.value;
      }
    }

    /** The list side of the loop of `fetch_lists`: the lists `les` are resolved, then each
        list's set gains its own stories, already read as `read`. No story changes. */
    static method LinkLists(c: Client, les: seq<ListEntry>, owner: User, read: seq<Story>, ghost prior: seq<set<Story>>) returns (ls: seq<List>)
      requires |read| == |ListStories(les, |les|)| && prior == Holding(c, les)
      modifies c.lists, CachedSets(c, les)`members
      ensures ListsLinked(c, les, ls, owner) && SetsFilled(les, ls, read, prior)
      ensures unchanged(c.stories, c.stories.instances.Values)
    {
      ls := ResolveLists(c, les, owner);
      label Listed:
      AddAll(les, SetsOf(ls), read);
      assert unchanged@Listed(c.lists) && unchanged@Listed(ls) && unchanged@Listed(c.stories, c.stories.instances.Values);
    }

    /** The first half of that loop: every returned list is resolved through the cache, in
        order; a new one belongs to `owner` and has a set of its own. */
    static method ResolveLists(c: Client, les: seq<ListEntry>, owner: User) returns (ls: seq<List>)
      modifies c.lists
      ensures ListsLinked(c, les, ls, owner)
      ensures forall i :: 0 <= i < |ls| && Fold(les[i].id) !in old(c.lists.instances) ==> fresh(ls[i].stories)
      ensures forall i :: 0 <= i < |ls| ==> ls[i].stories in old(CachedSets(c, les)) || fresh(ls[i].stories)
      ensures forall i :: 0 <= i < |ls| ==> ls[i].stories.members == old(Holding(c, les))[i]
    {
      ls := [];
      var i := 0;
      while i < |les|
        invariant 0 <= i <= |les| && |ls| == i
        invariant Resolved(old(c.lists.instances), c.lists.instances, ListKeys(les), ls)
        invariant forall k :: k in c.lists.instances && k !in old(c.lists.instances) ==>
                    fresh(c.lists.instances[k]) && fresh(c.lists.instances[k].stories) && c.lists.instances[k].user == owner &&
                    c.lists.instances[k].stories.members == {}
      {
        ghost var before := c.lists.instances;
        var l := c.ResolveList(les[i].id, owner);
        CacheStep(old(c.lists.instances), before, c.lists.instances, ListKeys(les), ls, l);
        ls := ls + [l];
        i := i + 1;
      }
      assert KeySet(ListKeys(les)) == (set j | 0 <= j < |ls| :: ListKeys(les)[j]);
      forall i | 0 <= i < |ls| ensures ls[i].stories in old(CachedSets(c, les)) || fresh(ls[i].stories) {
        if Fold(les[i].id) in old(c.lists.instances) {
          assert old(c.lists.instances[Fold(les[i].id)].stories) == ls[i].stories;
        }
      }
    }

    /** The last part: the set `ss[i]` of the `i`-th list gains the stories read for the
        entry `les[i]`, the slice of `read` that holds them. A set shared by several lists of
        the page gains the stories of each of them, and nothing else. */
    static method AddAll(les: seq<ListEntry>, ss: seq<StorySet>, read: seq<Story>)
      requires |les| == |ss| && |read| == |ListStories(les, |les|)|
      modifies Members(ss)`members
      ensures forall j :: 0 <= j < |ss| ==> ss[j].members == old(ss[j].members) + AddedTo(les, ss, read, ss[j], |ss|)
    {
      var i := 0;
      while i < |les|
        invariant 0 <= i <= |les|
        invariant forall j :: 0 <= j < |ss| ==> ss[j].members == old(ss[j].members) + AddedTo(les, ss, read, ss[j], i)
      {
        assert ss[i] in Members(ss);
        AddStep(les, ss, read, i);
        i := i + 1;
      }
    }

    /** One turn of that loop: `list_cls.stories.update(stories)` for the `i`-th list, whose
        set is `ss[i]`. Every list holding that set sees it gain the stories of `les[i]`;
        every other set is left alone. */
    static method AddStep(les: seq<ListEntry>, ss: seq<StorySet>, read: seq<Story>, i: nat)
      requires i < |ss| == |les| && |read| == |ListStories(les, |les|)|
      modifies {ss[i]}`members
      ensures forall j :: 0 <= j < |ss| ==>
                ss[j].members == old(ss[j].members) + (if ss[j] == ss[i] then ListGain(les, read, i) else {})
    {
      ss[i].Update(ListGain(les, read, i));
    }
  }

  /** The record `d` once the fields `ms[j]` of every position `j < n` of a page that holds
      `u` have been merged into it, in page order: what the `_update_data` calls of a fetch
      loop do to `u`'s record. */
  function Merged<T(==)>(d: Record, us: seq<T>, ms: seq<map<string, Json>>, u: T, n: nat): Record
    requires n <= |us| == |ms|
  {
    if n == 0 then d else Merged(d, us, ms, u, n - 1) + (if us[n - 1] == u then ms[n - 1] else map[])
  }

  /** The fields that the entries of `u` among the first `n` positions set. */
  function MergedKeys<T(==)>(us: seq<T>, ms: seq<map<string, Json>>, u: T, n: nat): set<string>
    requires n <= |us| == |ms|
  {
    set j, k | 0 <= j < n && us[j] == u && k in ms[j] :: k
  }

  /** A merged record holds exactly the old fields and those `u`'s entries set; a field no
      entry of `u` sets keeps its old value, and any other field has the value of the last
      entry of `u` that sets it. */
  lemma MergedSpec<T>(d: Record, us: seq<T>, ms: seq<map<string, Json>>, u: T, n: nat)
    requires n <= |us| == |ms|
    ensures Merged(d, us, ms, u, n).Keys == d.Keys + MergedKeys(us, ms, u, n)
    ensures forall k :: k in d && k !in MergedKeys(us, ms, u, n) ==> Merged(d, us, ms, u, n)[k] == d[k]
    ensures forall j, k :: 0 <= j < n && us[j] == u && k in ms[j] &&
                           (forall l :: j < l < n && us[l] == u ==> k !in ms[l]) ==>
                           Merged(d, us, ms, u, n)[k] == ms[j][k]
  {
    MergedDomain(d, us, ms, u, n);
    forall j, k | 0 <= j < n && us[j] == u && k in ms[j] &&
                  (forall l :: j < l < n && us[l] == u ==> k !in ms[l])
    {
      MergedLast(d, us, ms, u, n, j, k);
    }
  }

  /** The fields of a merged record, and the value of those no entry of `u` sets. */
  lemma {:induction false} MergedDomain<T>(d: Record, us: seq<T>, ms: seq<map<string, Json>>, u: T, n: nat)
    requires n <= |us| == |ms|
    ensures Merged(d, us, ms, u, n).Keys == d.Keys + MergedKeys(us, ms, u, n)
    ensures forall k :: k in d && k !in MergedKeys(us, ms, u, n) ==> Merged(d, us, ms, u, n)[k] == d[k]
  {
    if n > 0 {
      MergedDomain(d, us, ms, u, n - 1);
      assert MergedKeys(us, ms, u, n) == MergedKeys(us, ms, u, n - 1) + (if us[n - 1] == u then ms[n - 1].Keys else {});
    }
  }

  /** A field `k` set by the entry of `u` at `j`, and by none of its later entries, has the
      value that entry gave it. */
  lemma {:induction false} MergedLast<T>(d: Record, us: seq<T>, ms: seq<map<string, Json>>, u: T, n: nat, j: nat, k: string)
    requires n <= |us| == |ms| && j < n && us[j] == u && k in ms[j]
    requires forall l :: j < l < n && us[l] == u ==> k !in ms[l]
    ensures k in Merged(d, us, ms, u, n) && Merged(d, us, ms, u, n)[k] == ms[j][k]
  {
    if j < n - 1 {
      MergedLast(d, us, ms, u, n - 1, j, k);
    }
  }

  /** A key that none of the merged fields carries keeps its value. */
  lemma {:induction false} MergedKeepsKey<T>(d: Record, us: seq<T>, ms: seq<map<string, Json>>, u: T, n: nat, k: string)
    requires n <= |us| == |ms| && k in d
    requires forall j :: 0 <= j < |ms| ==> k !in ms[j]
    ensures k in Merged(d, us, ms, u, n) && Merged(d, us, ms, u, n)[k] == d[k]
  {
    if n > 0 {
      MergedKeepsKey(d, us, ms, u, n - 1, k);
    }
  }

  /** A page on which `u` does not occur leaves `u`'s record as it was. */
  lemma {:induction false} MergedAbsent<T>(d: Record, us: seq<T>, ms: seq<map<string, Json>>, u: T, n: nat)
    requires n <= |us| == |ms|
    requires forall j :: 0 <= j < n ==> us[j] != u
    ensures Merged(d, us, ms, u, n) == d
  {
    if n > 0 {
      MergedAbsent(d, us, ms, u, n - 1);
      assert d + map[] == d;
    }
  }

  /** Merging two pages one after the other is merging their concatenation. */
  lemma {:induction false} MergedAppend<T>(d: Record, us: seq<T>, ms: seq<map<string, Json>>,
                                           vs: seq<T>, ns: seq<map<string, Json>>, u: T, n: nat)
    requires |us| == |ms| && n <= |vs| == |ns|
    ensures Merged(Merged(d, us, ms, u, |us|), vs, ns, u, n) == Merged(d, us + vs, ms + ns, u, |us| + n)
  {
    if n == 0 {
      MergedPrefix(d, us, ms, us + vs, ms + ns, u, |us|);
    } else {
      MergedAppend(d, us, ms, vs, ns, u, n - 1);
      assert (us + vs)[|us| + n - 1] == vs[n - 1];
    }
  }

  /** The first `n` merges depend only on the first `n` positions. */
  lemma {:induction false} MergedPrefix<T>(d: Record, us: seq<T>, ms: seq<map<string, Json>>,
                                           us': seq<T>, ms': seq<map<string, Json>>, u: T, n: nat)
    requires n <= |us| == |ms| && n <= |us'| == |ms'|
    requires us[..n] == us'[..n] && ms[..n] == ms'[..n]
    ensures Merged(d, us, ms, u, n) == Merged(d, us', ms', u, n)
  {
    if n > 0 {
      assert us[n - 1] == us[..n][n - 1] && us'[n - 1] == us'[..n][n - 1];
      assert ms[n - 1] == ms[..n][n - 1] && ms'[n - 1] == ms'[..n][n - 1];
      assert us[..n - 1] == us[..n][..n - 1] && us'[..n - 1] == us'[..n][..n - 1];
      assert ms[..n - 1] == ms[..n][..n - 1] && ms'[..n - 1] == ms'[..n][..n - 1];
      MergedPrefix(d, us, ms, us', ms', u, n - 1);
    }
  }

  /** The cache `m`, which was `m0`, has resolved the first `|rs|` of the keys `ks`, in order,
      to `rs`: it only grew, by those keys, and each key holds its instance. */
  ghost predicate Resolved<T>(m0: map<Json, T>, m: map<Json, T>, ks: seq<Json>, rs: seq<T>)
  {
    |rs| <= |ks| && Grew(m0, m) && m.Keys == m0.Keys + (set j | 0 <= j < |rs| :: ks[j]) &&
    forall j :: 0 <= j < |rs| ==> ks[j] in m && m[ks[j]] == rs[j]
  }

  /** Resolving one more key keeps `Resolved`: the cache `m` became `m1` by storing `u` under
      the next key, keeping every entry it had. */
  lemma CacheStep<T>(m0: map<Json, T>, m: map<Json, T>, m1: map<Json, T>, ks: seq<Json>, rs: seq<T>, u: T)
    requires Resolved(m0, m, ks, rs) && |rs| < |ks|
    requires m1 == m[ks[|rs|] := u] && Grew(m, m1)
    ensures Resolved(m0, m1, ks, rs + [u])
  {
    var i := |rs|;
    assert (set j | 0 <= j < i + 1 :: ks[j]) == (set j | 0 <= j < i :: ks[j]) + {ks[i]};
    forall j | 0 <= j < i + 1 ensures ks[j] in m1 && m1[ks[j]] == (rs + [u])[j] {
      if j < i {
        assert ks[j] in m;
      }
    }
  }

  /** A key met for the first time is in the cache exactly when it was before the loop, and
      under the same value. */
  lemma FirstIsOld<T>(m0: map<Json, T>, m: map<Json, T>, ks: seq<Json>, rs: seq<T>)
    requires Resolved(m0, m, ks, rs) && |rs| < |ks| && FirstOccurrence(ks, |rs|)
    ensures ks[|rs|] in m <==> ks[|rs|] in m0
    ensures ks[|rs|] in m0 ==> m[ks[|rs|]] == m0[ks[|rs|]]
  {
    assert ks[|rs|] !in (set j | 0 <= j < |rs| :: ks[j]);
  }

  /** The cache keys of the entries of a response: their names or ids, lowercased. */
  function EntryKeys(es: seq<Entry>): (ks: seq<Json>)
    ensures |ks| == |es| && forall i :: 0 <= i < |es| ==> ks[i] == JStr(Lower(es[i].key))
  {
    if es == [] then [] else [JStr(Lower(es[0].key))] + EntryKeys(es[1..])
  }

  /** The keys of `ks`, as a set. */
  function KeySet(ks: seq<Json>): set<Json>
  {
    set j | 0 <= j < |ks| :: ks[j]
  }

  /** The fields a user entry of a response sets, under their attribute names. */
  function Incoming(e: Entry): map<string, Json>
  {
    ConvertFromAliases(e.fields, UserModel())
  }

  /** The popped entry of a returned user no longer names a username, so merging it in
      cannot touch the record's key. */
  lemma IncomingLacksUsername(e: Entry)
    requires !Has(e.fields, "username")
    ensures "username" !in Incoming(e)
  {
    UserModelShape();
    forall i | 0 <= i < |e.fields| ensures Rename(UserModel(), e.fields[i].0) != "username" {
      assert Keys(e.fields)[i] == e.fields[i].0;
      KeyFieldNotRenamedInto(UserModel(), "username", e.fields[i].0);
    }
    RenameKeysDomain(e.fields, AliasToOriginal(UserModel()));
  }

  /** The fields each user entry of a page sets, in page order. */
  function Incomings(es: seq<Entry>): (ms: seq<map<string, Json>>)
    ensures |ms| == |es| && forall i :: 0 <= i < |es| ==> ms[i] == Incoming(es[i])
  {
    if es == [] then [] else [Incoming(es[0])] + Incomings(es[1..])
  }

  /** The registry `r` only grew, and by the keys `ks` exactly: every instance cached before
      is still cached under its key. */
  twostate predicate GrewBy<T>(r: Registry<T>, ks: seq<Json>)
    reads r
  {
    Grew(old(r.instances), r.instances) && (forall j :: 0 <= j < |ks| ==> ks[j] in r.instances) &&
    forall k :: k in r.instances ==> k in old(r.instances) || k in ks
  }

  /** The record field that counts a user's following or its followers. */
  function CountKey(countFollowing: bool): (k: string)
    ensures k != "username"
  {
    if countFollowing then "num_following" else "num_followers"
  }

  /** `u` collected the page `rs`: its following (`addToFollowing`) or followers gained the
      page, and the count of its following (`countFollowing`) or followers is that set's new
      size. */
  twostate predicate Collected(u: User, new rs: seq<User>, addToFollowing: bool, countFollowing: bool)
    reads u
  {
    u.following == old(u.following) + (if addToFollowing then Members(rs) else {}) &&
    u.followers == old(u.followers) + (if addToFollowing then {} else Members(rs)) &&
    u.data == old(u.data)[CountKey(countFollowing) := JInt(if countFollowing then |u.following| else |u.followers|)]
  }

  /** Each user of `us` holds its old record with the fields `ms[j]` of the first `n`
      positions `j` that hold it merged in. */
  twostate predicate RecordsMerged(us: seq<User>, ms: seq<map<string, Json>>, n: nat)
    reads us
  {
    n <= |us| == |ms| && forall j :: 0 <= j < |us| ==> us[j].data == Merged(old(us[j].data), us, ms, us[j], n)
  }

  /** `{other}` when `b`, else nothing. */
  function Gained(other: User, b: bool): set<User>
  {
    if b then {other} else {}
  }

  /** What a user holds besides its username: its record, its relations, its stories and
      its lists. */
  datatype UserState = UserState(data: Record, following: set<User>, followers: set<User>,
                                 stories: seq<Story>, lists: set<List>)

  /** Which fetch a page of users answers: `fetch_followers`, `fetch_following` as its
      docstring and `fetch_followers` intend, or `fetch_following` as written. */
  datatype Relation = Followers | Following | FollowingAsWritten

  /** Whether each returned user gains the fetching user in its following: only the users
      of a `fetch_followers` page follow the fetching user. */
  function IntoFollowing(r: Relation): bool
  {
    r.Followers?
  }

  /** Whether the fetching user's following, rather than its followers, gains the page: only
      for `fetch_following` as intended, since as written it updates the followers. */
  function AddsToFollowing(r: Relation): bool
  {
    r.Following?
  }

  /** Whether the count set afterwards is `num_following` rather than `num_followers`: for
      both versions of `fetch_following`. */
  function CountsFollowing(r: Relation): bool
  {
    !r.Followers?
  }

  /** What `u` holds now. */
  function State(u: User): UserState
    reads u
  {
    UserState(u.data, u.following, u.followers, u.stories, u.lists)
  }

  /** What `User(username=name)` holds when the name was not cached yet: the record of the
      username alone, and no stories, followers, following or lists. */
  function BlankState(name: string): UserState
  {
    UserState(UserData(name, []), {}, {}, [], {})
  }

  /** The state `s` of the user `u` once a page `us` with the entries `ms` has been joined:
      `u` gained `other` in its following (`intoFollowing`) or in its followers, and the
      fields of each of its entries were merged into its record in page order; its other
      relation, its stories and its lists are as they were. */
  function Joined(s: UserState, us: seq<User>, ms: seq<map<string, Json>>, u: User, other: User,
                  intoFollowing: bool): UserState
    requires |us| == |ms|
  {
    UserState(Merged(s.data, us, ms, u, |us|), s.following + Gained(other, intoFollowing),
              s.followers + Gained(other, !intoFollowing), s.stories, s.lists)
  }

  /** Each user of a page `rs`, read under the keys `ks`, is the one cached under its key in
      `m0` or else a new one. */
  twostate predicate CachedOrNew(m0: map<Json, User>, ks: seq<Json>, new rs: seq<User>)
  {
    |rs| == |ks| &&
    forall i :: 0 <= i < |rs| ==> if ks[i] in m0 then rs[i] == m0[ks[i]] else fresh(rs[i])
  }

  /** What the user `u`, read under the key `k`, held before: what the user cached under `k`
      in `m0` held then, or a blank user's state when `k` was not cached. */
  twostate function Prior(m0: map<Json, User>, k: Json, new u: User): UserState
  {
    if k in m0 then old(State(m0[k])) else BlankState(u.username)
  }

  /** What the users of a page `rs`, read under the keys `ks` from a cache that was `m0`,
      hold once the page is joined: each holds what it held before, joined with the page. */
  twostate predicate PageJoined(m0: map<Json, User>, ks: seq<Json>, new rs: seq<User>, ms: seq<map<string, Json>>,
                                other: User, intoFollowing: bool)
    reads rs
  {
    |rs| == |ks| == |ms| &&
    forall i :: 0 <= i < |rs| ==> State(rs[i]) == Joined(Prior(m0, ks[i], rs[i]), rs, ms, rs[i], other, intoFollowing)
  }

  /** The users of a `fetch_followers` / `fetch_following` response, each with its username
      popped; `None` when the response has no such list. */
  function UserPage(response: Json): (r: Option<seq<Entry>>)
    ensures r.Some? <==> Member(response, "users").Some? && PopKeys(Member(response, "users").value, "username").Some?
    ensures r.Some? ==> |r.value| == |Member(response, "users").value|
    ensures r.Some? ==> forall i :: 0 <= i < |r.value| ==>
              Some(r.value[i]) == PopKey(Member(response, "users").value[i], "username")
    ensures r.Some? ==> forall i :: 0 <= i < |r.value| ==> !Has(r.value[i].fields, "username")
  {
    var items := Member(response, "users");
    if items.Some? then PopKeys(items.value, "username") else None
  }

  /** A page of one holds just that one. */
  lemma MembersOfOne<T>(rs: seq<T>)
    requires |rs| == 1
    ensures Members(rs) == {rs[0]}
  {
  }

  /** The elements of a page, as a set. */
  function Members<T(==)>(rs: seq<T>): set<T>
  {
    set i | 0 <= i < |rs| :: rs[i]
  }

  /** After a page of users `es` was read as `rs`: each entry's user is the one now cached
      under its lowercased username. */
  ghost predicate Fetched(c: Client, es: seq<Entry>, rs: seq<User>)
    reads c.users
  {
    |rs| == |es| &&
    forall i :: 0 <= i < |es| ==>
      JStr(Lower(es[i].key)) in c.users.instances && c.users.instances[JStr(Lower(es[i].key))] == rs[i]
  }

  /** The author entry `e` was read as `u`: the user now cached under its lowercased
      username, which the cache gained if it lacked it. A user cached before is that same
      user, with the rest of the entry merged into its record and its relations as they
      were; otherwise `u` is new, with the record the entry gives its username and no
      relations. */
  twostate predicate AuthorRead(c: Client, e: Entry, new u: User)
    reads c.users, u
  {
    Cached(c, e.key, u) && GrewBy(c.users, [JStr(Lower(e.key))]) &&
    if JStr(Lower(e.key)) in old(c.users.instances) then
      u == old(c.users.instances[JStr(Lower(e.key))]) &&
      u.data == UpdateRecord(old(u.data), e.fields, UserModel()) &&
      u.stories == old(u.stories) && u.followers == old(u.followers) &&
      u.following == old(u.following) && u.lists == old(u.lists)
    else
      u.username == Lower(e.key) && u.data == UpdateRecord(UserData(Lower(e.key), []), e.fields, UserModel()) &&
      u.stories == [] && u.followers == {} && u.following == {} && u.lists == {}
  }

  /** `u` is the user cached under the lowercased `name`. */
  ghost predicate Cached(c: Client, name: string, u: User)
    reads c.users
  {
    JStr(Lower(name)) in c.users.instances && c.users.instances[JStr(Lower(name))] == u
  }

  /** The items of a recommended page are valid `Story(**kwargs)` calls. */
  lemma ItemsAreStoryCalls(response: Json)
    requires RecommendedItems(response).Some?
    ensures forall i :: 0 <= i < |RecommendedItems(response).value| ==> StoryCall(Kwargs(RecommendedItems(response).value)[i])
  {
    var items := RecommendedItems(response).value;
    forall i | 0 <= i < |items| ensures StoryCall(Kwargs(items)[i]) {
      assert JObj(items[i]) == response.items[i];
      assert PopKey(response.items[i], "id").Some?;
      assert Get(Remove(items[i], "user"), "id") == Get(items[i], "id");
    }
  }

  /** The keyword arguments `Story(**story)` passes on to the record: the item without
      `user`, which `Story.__init__` takes as the author. */
  function Kwargs(items: seq<Object>): (kws: seq<Object>)
    ensures |kws| == |items|
  {
    seq(|items|, i requires 0 <= i < |items| => Remove(items[i], "user"))
  }

  /** The cache key of a `Story(**kwargs)` call, case-folded. */
  function StoryKey(kwargs: Object): Json
    requires StoryCall(kwargs)
  {
    CacheKeyFolded(Keywords(kwargs)).value
  }

  function StoryKeys(kws: seq<Object>): (ks: seq<Json>)
    requires forall i :: 0 <= i < |kws| ==> StoryCall(kws[i])
    ensures |ks| == |kws|
  {
    seq(|kws|, i requires 0 <= i < |kws| => StoryKey(kws[i]))
  }

  /** `s[i]` occurs nowhere before position `i`. */
  predicate FirstOccurrence<T(==)>(s: seq<T>, i: int)
    requires 0 <= i < |s|
  {
    forall j :: 0 <= j < i ==> s[j] != s[i]
  }

  /** `s` is the story `Story(**kwargs)` builds: its lowercased id and the record of it and
      the other arguments. */
  ghost predicate Built(s: Story, kwargs: Object)
    requires StoryCall(kwargs)
    reads s
  {
    s.id == Lower(Get(kwargs, "id").value.s) && s.data == StoryData(s.id, Remove(kwargs, "id"))
  }

  /** The raw `user` object of a recommended item, as `Story(**story)` stores it. */
  function RawAuthorOf(item: Object): Author
  {
    match Get(item, "user")
    case Some(u) => RawAuthor(u)
    case None => NoAuthor
  }

  /** Every `user` object of the items names its username. */
  predicate AuthorsNamed(items: seq<Object>)
  {
    forall i :: 0 <= i < |items| ==> PopAuthor(JObj(items[i])).Some?
  }

  /** The author entry of a recommended item, its username popped. */
  function AuthorEntry(item: Object): Option<Entry>
  {
    if PopAuthor(JObj(item)).Some? then PopAuthor(JObj(item)).value.author else None
  }

  /** `a` is what the author entry `e` resolves to: no author, or the cached user. */
  ghost predicate AuthorFor(c: Client, e: Option<Entry>, a: Author)
    reads c.users
  {
    if e.None? then a == NoAuthor else a.AuthorRef? && Cached(c, e.value.key, a.u)
  }

  /** Of the stories `rs` resolved for the calls `kws` with the authors `authors`, each first
      one under its key was cached before (in `olds`) or was built from its call and author. */
  ghost predicate BuiltWith(olds: set<Story>, kws: seq<Object>, authors: seq<Author>, rs: seq<Story>)
    reads rs
  {
    |rs| <= |kws| == |authors| && (forall i :: 0 <= i < |kws| ==> StoryCall(kws[i])) &&
    forall i :: 0 <= i < |rs| && FirstOccurrence(StoryKeys(kws), i) ==>
      rs[i] in olds || (rs[i].user == authors[i] && Built(rs[i], kws[i]))
  }

  /** One more resolved call keeps `BuiltWith`. */
  lemma BuiltStep(olds: set<Story>, kws: seq<Object>, authors: seq<Author>, rs: seq<Story>, s: Story)
    requires BuiltWith(olds, kws, authors, rs) && |rs| < |kws|
    requires FirstOccurrence(StoryKeys(kws), |rs|) ==> s in olds || (s.user == authors[|rs|] && Built(s, kws[|rs|]))
    ensures BuiltWith(olds, kws, authors, rs + [s])
  {
    forall i | 0 <= i < |rs| + 1 && FirstOccurrence(StoryKeys(kws), i)
      ensures (rs + [s])[i] in olds || ((rs + [s])[i].user == authors[i] && Built((rs + [s])[i], kws[i]))
    {
      if i < |rs| {
        assert (rs + [s])[i] == rs[i];
      }
    }
  }

  /** The raw `user` objects of the recommended items, one per item. */
  function RawAuthors(items: seq<Object>): (authors: seq<Author>)
    ensures |authors| == |items| && forall i :: 0 <= i < |items| ==> authors[i] == RawAuthorOf(items[i])
  {
    if items == [] then [] else [RawAuthorOf(items[0])] + RawAuthors(items[1..])
  }

  /** The authors resolved for the author entries of `items` make a `BuiltWith` page an
      `AuthoredBuilt` one. */
  lemma AuthoredFrom(c: Client, olds: set<Story>, items: seq<Object>, named: seq<Option<Entry>>, authors: seq<Author>, rs: seq<Story>)
    requires BuiltWith(olds, Kwargs(items), authors, rs) && |rs| == |items|
    requires |named| == |items| && forall i :: 0 <= i < |items| ==> named[i] == AuthorEntry(items[i])
    requires forall i :: 0 <= i < |items| ==> AuthorFor(c, named[i], authors[i])
    ensures AuthoredBuilt(c, olds, items, rs)
  {
  }

  /** As `BuiltWith` for the raw authors, with each new story's author the cached user its item names. */
  ghost predicate AuthoredBuilt(c: Client, olds: set<Story>, items: seq<Object>, rs: seq<Story>)
    reads rs, c.users
  {
    |rs| == |items| && (forall i :: 0 <= i < |items| ==> StoryCall(Kwargs(items)[i])) &&
    forall i :: 0 <= i < |rs| && FirstOccurrence(StoryKeys(Kwargs(items)), i) ==>
      rs[i] in olds || (AuthorFor(c, AuthorEntry(items[i]), rs[i].user) && Built(rs[i], Kwargs(items)[i]))
  }

  /** A recommended page `items` read as `rs`, as written: each item's story is the one
      cached under its key, and each first one under its key was cached before (in `olds`)
      or was built from its item with the item's raw `user` object. */
  ghost predicate ReadAsWritten(c: Client, olds: set<Story>, items: seq<Object>, rs: seq<Story>)
    reads c.stories, rs
  {
    Recommended(c, items, rs) && BuiltWith(olds, Kwargs(items), RawAuthors(items), rs)
  }

  /** As `ReadAsWritten`, with each new story's author the cached user its item names. */
  ghost predicate ReadAsIntended(c: Client, olds: set<Story>, items: seq<Object>, rs: seq<Story>)
    reads c.stories, c.users, rs
  {
    Recommended(c, items, rs) && AuthoredBuilt(c, olds, items, rs)
  }

  /** After a recommended page `items` was read as `rs`: each item's story is the one cached
      under its key. */
  ghost predicate Recommended(c: Client, items: seq<Object>, rs: seq<Story>)
    reads c.stories
  {
    |rs| == |items| && (forall i :: 0 <= i < |items| ==> StoryCall(Kwargs(items)[i])) &&
    forall i :: 0 <= i < |items| ==>
      StoryKeys(Kwargs(items))[i] in c.stories.instances && c.stories.instances[StoryKeys(Kwargs(items))[i]] == rs[i]
  }

  /** `User(name)` (positional) or `User(username=name)`. */
  function UserCall(name: string, positional: bool): CallArgs
  {
    if positional then Positional(JStr(name), []) else Keywords([("username", JStr(name))])
  }

  lemma UserCallKey(name: string, positional: bool)
    ensures CacheKeyFolded(UserCall(name, positional)) == Some(JStr(Lower(name)))
  {
    FoldedKeyIgnoresCallStyle(name, name, []);
  }

  /** A `Story(**kwargs)` call the class accepts: its `id` is a string. */
  predicate StoryCall(kwargs: Object)
  {
    Get(kwargs, "id").Some? && Get(kwargs, "id").value.JStr?
  }

  lemma StoryCallHasKey(kwargs: Object)
    requires StoryCall(kwargs)
    ensures CacheKeyFolded(Keywords(kwargs)).Some?
  {
  }

  /** `Story(id=storyId)` is cached under the lowercased id. */
  lemma StoryIdKey(storyId: string)
    ensures StoryCall([("id", JStr(storyId))])
    ensures CacheKeyFolded(Keywords([("id", JStr(storyId))])) == Some(JStr(Lower(storyId)))
  {
    assert Keys([("id", JStr(storyId))]) == ["id"];
  }

  /** The fields a story entry of a response sets, under their attribute names. */
  function StoryIncoming(e: Entry): map<string, Json>
  {
    ConvertFromAliases(e.fields, StoryModel())
  }

  /** The renamed fields of each story entry. */
  function StoryIncomings(es: seq<Entry>): (ms: seq<map<string, Json>>)
    ensures |ms| == |es| && forall i :: 0 <= i < |es| ==> ms[i] == StoryIncoming(es[i])
  {
    if es == [] then [] else [StoryIncoming(es[0])] + StoryIncomings(es[1..])
  }

  /** After a page of stories `es` was read as `rs`: each entry's story is the one now
      cached under its lowercased id. */
  ghost predicate StoriesRead(c: Client, es: seq<Entry>, rs: seq<Story>)
    reads c.stories
  {
    |rs| == |es| &&
    forall i :: 0 <= i < |es| ==>
      JStr(Lower(es[i].key)) in c.stories.instances && c.stories.instances[JStr(Lower(es[i].key))] == rs[i]
  }

  /** What a story holds besides its id: its record, its author and its recommendations. */
  datatype StoryState = StoryState(data: Record, user: Author, recommended: seq<Story>)

  /** What `s` holds now. */
  function Content(s: Story): StoryState
    reads s
  {
    StoryState(s.data, s.user, s.recommended)
  }

  /** What `Story(id=id, user=author)` makes of an id not cached yet: the record of the id
      alone, `author`, and no recommendations. */
  function BlankStory(id: string, author: Author): StoryState
  {
    StoryState(StoryData(id, []), author, [])
  }

  /** Each story of `rs` is the one cached under `ks[i]` before, or else a new one. */
  twostate predicate StoryCachedOrNew(m0: map<Json, Story>, ks: seq<Json>, new rs: seq<Story>)
  {
    |rs| == |ks| && forall i :: 0 <= i < |rs| ==> if ks[i] in m0 then rs[i] == m0[ks[i]] else fresh(rs[i])
  }

  /** What the story `s` read under the key `k` held before the page: what the cached one
      held, or else a blank story of `author`. */
  twostate function PriorStory(m0: map<Json, Story>, k: Json, new s: Story, author: Author): StoryState
  {
    if k in m0 then old(Content(m0[k])) else BlankStory(s.id, author)
  }

  /** Every story cached under a key that `m0` lacks is new and blank for `author`. */
  twostate predicate AddedBlank(m0: map<Json, Story>, new m: map<Json, Story>, author: Author)
    reads m.Values
  {
    forall k :: k in m && k !in m0 ==> fresh(m[k]) && Content(m[k]) == BlankStory(m[k].id, author)
  }

  /** Each story of `rs`, resolved under the keys `ks`, holds what it held before the page. */
  twostate predicate StoriesAsBefore(m0: map<Json, Story>, ks: seq<Json>, new rs: seq<Story>, author: Author)
    reads rs
  {
    |rs| == |ks| && forall i :: 0 <= i < |rs| ==> Content(rs[i]) == PriorStory(m0, ks[i], rs[i], author)
  }

  /** After a page of stories was read as `rs` under the keys `ks` with the fields `ms`: each
      story holds what it held before, or a blank story of `author`, with the fields of its
      entries merged into its record in page order; its author and its recommendations are
      as they were. */
  twostate predicate StoriesJoined(m0: map<Json, Story>, ks: seq<Json>, new rs: seq<Story>, ms: seq<map<string, Json>>,
                                   author: Author)
    reads rs
  {
    |rs| == |ks| == |ms| &&
    forall i :: 0 <= i < |rs| ==>
      Content(rs[i]) == PriorStory(m0, ks[i], rs[i], author).(data := Merged(PriorStory(m0, ks[i], rs[i], author).data, rs, ms, rs[i], |rs|))
  }

  /** Each story of `us` holds its old record with the fields `ms[j]` of the first `n`
      positions `j` that hold it merged in. */
  twostate predicate StoryRecordsMerged(us: seq<Story>, ms: seq<map<string, Json>>, n: nat)
    reads us
  {
    n <= |us| == |ms| && forall j :: 0 <= j < |us| ==> us[j].data == Merged(old(us[j].data), us, ms, us[j], n)
  }

  /** The cache keys of a page of lists: each id as given, folded like every other key. */
  function ListKeys(les: seq<ListEntry>): (ks: seq<Json>)
    ensures |ks| == |les| && forall i :: 0 <= i < |les| ==> ks[i] == Fold(les[i].id)
  {
    if les == [] then [] else [Fold(les[0].id)] + ListKeys(les[1..])
  }

  /** The stories of the first `n` lists of a page, one list after the other. */
  function ListStories(les: seq<ListEntry>, n: nat): seq<Entry>
    requires n <= |les|
  {
    if n == 0 then [] else ListStories(les, n - 1) + les[n - 1].stories
  }

  /** The stories of the first `i` lists start the stories of the first `n`. */
  lemma {:induction false} ListStoriesPrefix(les: seq<ListEntry>, i: nat, n: nat)
    requires i <= n <= |les|
    ensures |ListStories(les, i)| <= |ListStories(les, n)|
    ensures ListStories(les, n)[..|ListStories(les, i)|] == ListStories(les, i)
  {
    if i < n {
      ListStoriesPrefix(les, i, n - 1);
      assert ListStories(les, n)[..|ListStories(les, n - 1)|] == ListStories(les, n - 1);
    }
  }

  /** Story `k` of list `i` sits in the flattened stories of the page right after the
      stories of the lists before it. */
  lemma ListStoriesAt(les: seq<ListEntry>, i: nat, k: nat)
    requires i < |les| && k < |les[i].stories|
    ensures |ListStories(les, i)| + k < |ListStories(les, |les|)|
    ensures ListStories(les, |les|)[|ListStories(les, i)| + k] == les[i].stories[k]
  {
    ListStoriesPrefix(les, i + 1, |les|);
    assert ListStories(les, i + 1)[|ListStories(les, i)| + k] == les[i].stories[k];
  }

  /** The stories read for the list entry `les[i]`: its slice of `read`, the stories of the
      whole page read one list after the other. */
  function ListGain(les: seq<ListEntry>, read: seq<Story>, i: nat): set<Story>
    requires i < |les| && |read| == |ListStories(les, |les|)|
  {
    ListStoriesPrefix(les, i + 1, |les|);
    Members(read[|ListStories(les, i)|..|ListStories(les, i)| + |les[i].stories|])
  }

  /** Story `k` of the entry `les[i]`, as read, is among the stories that entry gains. */
  lemma ReadInGain(les: seq<ListEntry>, read: seq<Story>, i: nat, k: nat)
    requires i < |les| && k < |les[i].stories| && |read| == |ListStories(les, |les|)|
    ensures |ListStories(les, i)| + k < |read| && read[|ListStories(les, i)| + k] in ListGain(les, read, i)
  {
    ListStoriesPrefix(les, i + 1, |les|);
    var lo := |ListStories(les, i)|;
    assert read[lo..lo + |les[i].stories|][k] == read[lo + k];
  }

  /** What the loop of `fetch_lists` adds to the set `s` over the first `n` lists of the page,
      whose sets are `ss`: the stories read for every one of them that holds `s`. */
  function AddedTo(les: seq<ListEntry>, ss: seq<StorySet>, read: seq<Story>, s: StorySet, n: nat): set<Story>
    requires n <= |ss| == |les| && |read| == |ListStories(les, |les|)|
  {
    if n == 0 then {}
    else AddedTo(les, ss, read, s, n - 1) + if ss[n - 1] == s then ListGain(les, read, n - 1) else {}
  }

  /** The set objects of the lists `ls`, in order. */
  function SetsOf(ls: seq<List>): (ss: seq<StorySet>)
    reads ls
    ensures |ss| == |ls| && forall i :: 0 <= i < |ls| ==> ss[i] == ls[i].stories
  {
    if ls == [] then [] else [ls[0].stories] + SetsOf(ls[1..])
  }

  /** A story is added to `s` exactly when it was read for one of the first `n` lists that
      hold `s`: the loop adds no story from elsewhere. */
  lemma {:induction false} AddedToMembers(les: seq<ListEntry>, ss: seq<StorySet>, read: seq<Story>, s: StorySet, n: nat,
                                          x: Story)
    requires n <= |ss| == |les| && |read| == |ListStories(les, |les|)|
    ensures x in AddedTo(les, ss, read, s, n) <==>
              exists i :: 0 <= i < n && ss[i] == s && x in ListGain(les, read, i)
  {
    if n > 0 {
      AddedToMembers(les, ss, read, s, n - 1, x);
    }
  }

  /** Each list among the first `n` gains, in its set, the stories read for it. */
  lemma {:induction false} GainAdded(les: seq<ListEntry>, ss: seq<StorySet>, read: seq<Story>, i: nat, n: nat)
    requires i < n <= |ss| == |les| && |read| == |ListStories(les, |les|)|
    ensures ListGain(les, read, i) <= AddedTo(les, ss, read, ss[i], n)
  {
    if i < n - 1 {
      GainAdded(les, ss, read, i, n - 1);
    }
  }

  /** The sets of every cached list. */
  function AllSets(c: Client): set<StorySet>
    reads c.lists, c.lists.instances.Values
  {
    set l | l in c.lists.instances.Values :: l.stories
  }

  /** What the set of the list cached under each entry's id holds, entry by entry; nothing
      for an entry whose id is not cached, since its list will get a new set. */
  function Holding(c: Client, les: seq<ListEntry>): (hs: seq<set<Story>>)
    reads c.lists, c.lists.instances.Values, AllSets(c)
    ensures |hs| == |les|
    ensures forall i :: 0 <= i < |les| ==>
              hs[i] == if Fold(les[i].id) in c.lists.instances then c.lists.instances[Fold(les[i].id)].stories.members else {}
  {
    if les == [] then []
    else
      var k := Fold(les[0].id);
      [if k in c.lists.instances then c.lists.instances[k].stories.members else {}] + Holding(c, les[1..])
  }

  /** The user cached under the lowercased `name`, if any: the only cached user that reading
      an author entry for `name` may change. */
  function CachedUser(c: Client, name: string): set<User>
    reads c.users
  {
    if JStr(Lower(name)) in c.users.instances then {c.users.instances[JStr(Lower(name))]} else {}
  }

  /** The cached user that reading the author of a story response may change. */
  function ReplyAuthor(c: Client, response: Json): set<User>
    reads c.users
  {
    var reply := PopAuthor(response);
    if reply.Some? && reply.value.author.Some? then CachedUser(c, reply.value.author.value.key) else {}
  }

  /** The stories cached under the keys `ks`: the only cached stories that reading a page
      under those keys may change. */
  function CachedStories(c: Client, ks: seq<Json>): set<Story>
    reads c.stories
  {
    set i | 0 <= i < |ks| && ks[i] in c.stories.instances :: c.stories.instances[ks[i]]
  }

  /** The story sets of the lists cached under the ids of `les`: the only story sets that
      reading those lists may change. */
  function CachedSets(c: Client, les: seq<ListEntry>): set<StorySet>
    reads c.lists, c.lists.instances.Values
  {
    set i | 0 <= i < |les| && Fold(les[i].id) in c.lists.instances :: c.lists.instances[Fold(les[i].id)].stories
  }

  /** The story sets of the lists `ls`. */
  function ListSets(ls: seq<List>): set<StorySet>
    reads ls
  {
    set i | 0 <= i < |ls| :: ls[i].stories
  }

  /** After the lists `les` were read as `ls`: each entry's list is the one cached under its
      folded id. */
  ghost predicate ListsRead(c: Client, les: seq<ListEntry>, ls: seq<List>)
    reads c.lists
  {
    |ls| == |les| &&
    forall i :: 0 <= i < |les| ==> Fold(les[i].id) in c.lists.instances && c.lists.instances[Fold(les[i].id)] == ls[i]
  }

  /** Once every list's set holds at least what the page adds to it, each story of each
      returned list is cached and in that list's set, even when lists share a set. */
  lemma ListsHoldTheirStories(c: Client, les: seq<ListEntry>, ls: seq<List>, read: seq<Story>)
    requires |ls| == |les| && StoriesRead(c, ListStories(les, |les|), read)
    requires forall i :: 0 <= i < |ls| ==> AddedTo(les, SetsOf(ls), read, ls[i].stories, |ls|) <= ls[i].stories.members
    ensures forall i, k :: 0 <= i < |les| && 0 <= k < |les[i].stories| ==>
              JStr(Lower(les[i].stories[k].key)) in c.stories.instances &&
              c.stories.instances[JStr(Lower(les[i].stories[k].key))] in ls[i].stories.members
  {
    forall i, k | 0 <= i < |les| && 0 <= k < |les[i].stories|
      ensures JStr(Lower(les[i].stories[k].key)) in c.stories.instances
      ensures c.stories.instances[JStr(Lower(les[i].stories[k].key))] in ls[i].stories.members
    {
      ListStoriesAt(les, i, k);
      GainAdded(les, SetsOf(ls), read, i, |ls|);
      ReadInGain(les, read, i, k);
    }
  }

  /** After the lists `les` were read as `ls` for `owner`: the lists are the cached ones,
      the list cache grew by the page's keys, and each list was already cached under its key
      or is a new list of `owner`. */
  twostate predicate ListsLinked(c: Client, les: seq<ListEntry>, new ls: seq<List>, owner: User)
    reads c.lists, ls
  {
    ListsRead(c, les, ls) && GrewBy(c.lists, ListKeys(les)) &&
    forall i :: 0 <= i < |ls| ==>
      if Fold(les[i].id) in old(c.lists.instances) then ls[i] == old(c.lists.instances[Fold(les[i].id)])
      else fresh(ls[i]) && ls[i].user == owner
  }

  /** The set of each list `ls[i]` holds exactly what it held before, `prior[i]`, and the
      stories read as `read` for every list of the page `les` that holds that set. */
  ghost predicate SetsFilled(les: seq<ListEntry>, ls: seq<List>, read: seq<Story>, prior: seq<set<Story>>)
    reads ls, ListSets(ls)
  {
    |ls| == |les| == |prior| && |read| == |ListStories(les, |les|)| &&
    forall i :: 0 <= i < |ls| ==> ls[i].stories.members == prior[i] + AddedTo(les, SetsOf(ls), read, ls[i].stories, |ls|)
  }

  /** After a page of lists `les` was read as `ls` for `owner`, with the stories of all its
      lists read as `read`: the lists are linked as above, the story cache grew by the
      page's story keys, and every story read merged in its fields in page order. */
  twostate predicate ListsFetched(c: Client, les: seq<ListEntry>, new ls: seq<List>, new read: seq<Story>, owner: User)
    reads c.lists, c.stories, ls, read
  {
    ListsLinked(c, les, ls, owner) &&
    StoriesRead(c, ListStories(les, |les|), read) && GrewBy(c.stories, EntryKeys(ListStories(les, |les|))) &&
    StoriesJoined(old(c.stories.instances), EntryKeys(ListStories(les, |les|)), read, StoryIncomings(ListStories(les, |les|)), NoAuthor)
  }

  /** The three per-class caches of the running program, and the one set object that
      `List.__init__` shares as its default `stories`. */
  class Client {
    const users: Registry<User>
    const stories: Registry<Story>
    const lists: Registry<List>
    const sharedDefault: StorySet

    constructor ()
      ensures fresh(users) && fresh(stories) && fresh(lists) && fresh(sharedDefault)
      ensures users.instances == map[] && stories.instances == map[] && lists.instances == map[]
      ensures sharedDefault.members == {}
    {
      users := new Registry<User>();
      stories := new Registry<Story>();
      lists := new Registry<List>();
      sharedDefault := new StorySet();
    }

    /** `User(name)` or `User(username=name)` through the metaclass: the instance cached under
        the (folded) key, or else a new one, constructed once and cached. */
    method ResolveUser(name: string, positional: bool) returns (u: User)
      modifies users
      ensures CacheKeyFolded(UserCall(name, positional)) == Some(JStr(Lower(name)))
      ensures users.instances == old(users.instances)[JStr(Lower(name)) := u]
      ensures Grew(old(users.instances), users.instances)
      ensures JStr(Lower(name)) in old(users.instances) ==> u == old(users.instances[JStr(Lower(name))])
      ensures JStr(Lower(name)) !in old(users.instances) ==>
                fresh(u) && u.username == Lower(name) && u.data == UserData(Lower(name), []) &&
                u.stories == [] && u.followers == {} && u.following == {} && u.lists == {} && u.Valid()
    {
      UserCallKey(name, positional);
      var key := CacheKeyFolded(UserCall(name, positional)).value;
      var found := users.Find(key);
      if found.Some? {
        u := found.value;
      } else {
        u := new User(name, []);
        users.Register(key, u);
      }
    }

    /** `Story(**kwargs)`, with `user=author`, through the metaclass. */
    method ResolveStory(kwargs: Object, author: Author) returns (s: Story)
      requires StoryCall(kwargs)
      modifies stories
      ensures CacheKeyFolded(Keywords(kwargs)).Some?
      ensures stories.instances == old(stories.instances)[CacheKeyFolded(Keywords(kwargs)).value := s]
      ensures CacheKeyFolded(Keywords(kwargs)).value in old(stories.instances) ==>
                s == old(stories.instances[CacheKeyFolded(Keywords(kwargs)).value])
      ensures CacheKeyFolded(Keywords(kwargs)).value !in old(stories.instances) ==>
                fresh(s) && s.id == Lower(Get(kwargs, "id").value.s) && s.user == author &&
                s.recommended == [] && s.data == StoryData(s.id, Remove(kwargs, "id")) && s.Valid()
    {
      var key := CacheKeyFolded(Keywords(kwargs)).value;
      var found := stories.Find(key);
      if found.Some? {
        s := found.value;
      } else {
        s := new Story(Get(kwargs, "id").value.s, author, Remove(kwargs, "id"));
        stories.Register(key, s);
      }
    }

    /** `Story(**kwargs, user=author)` for a keyword call, by its folded key. */
    method ResolveKeyed(kwargs: Object, author: Author) returns (s: Story)
      requires StoryCall(kwargs)
      modifies stories
      ensures stories.instances == old(stories.instances)[StoryKey(kwargs) := s]
      ensures Grew(old(stories.instances), stories.instances)
      ensures StoryKey(kwargs) in old(stories.instances) ==> s == old(stories.instances[StoryKey(kwargs)])
      ensures StoryKey(kwargs) !in old(stories.instances) ==> fresh(s) && s.user == author && Built(s, kwargs)
    {
      s := ResolveStory(kwargs, author);
    }

    /** `Story(id=storyId, user=author)`: cached under the lowercased id. */
    method ResolveStoryById(storyId: string, author: Author) returns (s: Story)
      modifies stories
      ensures stories.instances == old(stories.instances)[JStr(Lower(storyId)) := s]
      ensures Grew(old(stories.instances), stories.instances)
      ensures JStr(Lower(storyId)) in old(stories.instances) ==> s == old(stories.instances[JStr(Lower(storyId))])
      ensures JStr(Lower(storyId)) !in old(stories.instances) ==>
                fresh(s) && s.id == Lower(storyId) && s.user == author && s.data == StoryData(Lower(storyId), []) &&
                s.recommended == []
    {
      StoryIdKey(storyId);
      s := ResolveStory([("id", JStr(storyId))], author);
      assert Remove([("id", JStr(storyId))], "id") == [];
    }

    /** `List(id=listId, user=owner)` through the metaclass. A new list gets a set of its own. */
    method ResolveList(listId: Json, owner: User) returns (l: List)
      modifies lists
      ensures lists.instances == old(lists.instances)[Fold(listId) := l]
      ensures Fold(listId) in old(lists.instances) ==> l == old(lists.instances[Fold(listId)])
      ensures Fold(listId) !in old(lists.instances) ==>
                fresh(l) && fresh(l.stories) && l.id == listId && l.user == owner && l.name == "" &&
                l.stories.members == {}
    {
      assert CacheKeyFolded(Keywords([("id", listId)])) == Some(Fold(listId)) by {
        assert Keys([("id", listId)]) == ["id"];
      }
      var found := lists.Find(Fold(listId));
      if found.Some? {
        l := found.value;
      } else {
        var own := new StorySet();
        l := new List(listId, owner, "", own);
        lists.Register(Fold(listId), l);
      }
    }

    /** The same, as written: a new list takes the default `stories=set()`, which Python
        evaluates once, so every list built without stories holds the same set object. */
    method ResolveListSharedDefault(listId: Json, owner: User) returns (l: List)
      modifies lists
      ensures lists.instances == old(lists.instances)[Fold(listId) := l]
      ensures Fold(listId) in old(lists.instances) ==> l == old(lists.instances[Fold(listId)])
      ensures Fold(listId) !in old(lists.instances) ==>
                fresh(l) && l.id == listId && l.user == owner && l.name == "" && l.stories == sharedDefault
    {
      var found := lists.Find(Fold(listId));
      if found.Some? {
        l := found.value;
      } else {
        l := new List(listId, owner, "", sharedDefault);
        lists.Register(Fold(listId), l);
      }
    }
  }

  /** The same key always yields the same instance: two calls naming one user, by position or
      by keyword and in any letter case, return one object and build at most one. */
  method SameUserSameInstance(c: Client, name: string, other: string)
    returns (u1: User, u2: User)
    requires Lower(name) == Lower(other)
    modifies c.users
    ensures u1 == u2
    ensures |c.users.instances.Keys - old(c.users.instances.Keys)| <= 1
  {
    u1 := c.ResolveUser(name, true);
    u2 := c.ResolveUser(other, false);
  }

  /** As written, two lists created without stories share one set: a story added to the
      first shows up in the second. */
  method SharedDefaultLeaks(c: Client, owner: User, s: Story) returns (l1: List, l2: List)
    requires JInt(1) !in c.lists.instances && JInt(2) !in c.lists.instances
    modifies c.lists, c.sharedDefault
    ensures l1 != l2 && l1.stories == l2.stories
    ensures s in l1.stories.members && s in l2.stories.members
  {
    l1 := c.ResolveListSharedDefault(JInt(1), owner);
    l2 := c.ResolveListSharedDefault(JInt(2), owner);
    l1.stories.Update({s});
  }

  /** With a set per list, adding to one list's stories leaves another's unchanged. */
  method SeparateListsSeparateStories(c: Client, owner: User, s: Story) returns (l1: List, l2: List)
    requires JInt(1) !in c.lists.instances && JInt(2) !in c.lists.instances
    modifies c.lists
    ensures l1 != l2 && l1.stories != l2.stories
    ensures s in l1.stories.members && l2.stories.members == {}
  {
    l1 := c.ResolveList(JInt(1), owner);
    l2 := c.ResolveList(JInt(2), owner);
    l1.stories.Update({s});
  }
}
