/** The parts of a decoded API response that the fetch methods of src/wattpad/wattpad.py
    index into. A response that lacks one of them makes the source raise; here it is
    reported as `None`. */
module Payload {
  import opened Wrappers
  import opened Assoc
  import opened JsonValue

  /** One returned item after its identifying key has been popped. */
  datatype Entry = Entry(key: string, fields: Object)

  /** `d.pop(k)` on an object: the object without `k`, when `d` is an object. */
  function Without(item: Json, k: string): Json
  {
    if item.JObj? then JObj(Remove(item.fields, k)) else item
  }

  /** `item.pop(keyName)` on an object whose `keyName` is a string. */
  function PopKey(item: Json, keyName: string): (r: Option<Entry>)
    ensures r.Some? <==> item.JObj? && Get(item.fields, keyName).Some? && Get(item.fields, keyName).value.JStr?
    ensures r.Some? ==> JStr(r.value.key) == Get(item.fields, keyName).value
    ensures r.Some? ==> r.value.fields == Remove(item.fields, keyName) && !Has(r.value.fields, keyName)
  {
    if item.JObj? then
      match Get<Json>(item.fields, keyName)
      case Some(JStr(s)) => Some(Entry(s, Remove(item.fields, keyName)))
      case _ => None
    else None
  }

  /** Every item popped, in order; `None` as soon as one item does not fit. */
  function PopKeys(items: seq<Json>, keyName: string): (r: Option<seq<Entry>>)
    ensures r.Some? <==> forall i :: 0 <= i < |items| ==> PopKey(items[i], keyName).Some?
    ensures r.Some? ==> |r.value| == |items|
    ensures r.Some? ==> forall i :: 0 <= i < |items| ==> Some(r.value[i]) == PopKey(items[i], keyName)
  {
    if items == [] then Some([])
    else
      var head := PopKey(items[0], keyName);
      var tail := PopKeys(items[1..], keyName);
      if head.Some? && tail.Some? then Some([head.value] + tail.value)
      else
        assert tail.None? ==> exists i :: 0 <= i < |items| - 1 && PopKey(items[1..][i], keyName).None?;
        None
  }

  /** `data[member]` where the response is an object holding a list there. */
  function Member(response: Json, member: string): (r: Option<seq<Json>>)
    ensures r.Some? <==> response.JObj? && Get(response.fields, member).Some? && Get(response.fields, member).value.JArr?
    ensures r.Some? ==> r.value == Get(response.fields, member).value.items
  {
    if response.JObj? then
      match Get<Json>(response.fields, member)
      case Some(JArr(items)) => Some(items)
      case _ => None
    else None
  }

  /** One list of a `fetch_lists` response: its id, popped, and its stories, each with its id
      popped. */
  datatype ListEntry = ListEntry(id: Json, stories: seq<Entry>)

  /** An item `fetch_lists` can read: an object with an `id`, holding a list of stories
      under `stories`, each of which has a string `id`. */
  predicate ListReadable(item: Json)
  {
    item.JObj? && Has(item.fields, "id") && Member(Without(item, "id"), "stories").Some? &&
    PopKeys(Member(Without(item, "id"), "stories").value, "id").Some?
  }

  function PopList(item: Json): (r: Option<ListEntry>)
    ensures r.Some? <==> ListReadable(item)
    ensures r.Some? ==> item.JObj? && Get(item.fields, "id") == Some(r.value.id)
    ensures r.Some? ==> Member(Without(item, "id"), "stories").Some?
    ensures r.Some? ==> PopKeys(Member(Without(item, "id"), "stories").value, "id") == Some(r.value.stories)
  {
    if item.JObj? && Has(item.fields, "id") then
      var stories := Member(Without(item, "id"), "stories");
      if stories.Some? then
        var es := PopKeys(stories.value, "id");
        if es.Some? then Some(ListEntry(Get(item.fields, "id").value, es.value)) else None
      else None
    else None
  }

  function PopLists(items: seq<Json>): (r: Option<seq<ListEntry>>)
    ensures r.Some? <==> forall i :: 0 <= i < |items| ==> PopList(items[i]).Some?
    ensures r.Some? ==> |r.value| == |items|
    ensures r.Some? ==> forall i :: 0 <= i < |items| ==> Some(r.value[i]) == PopList(items[i])
  {
    if items == [] then Some([])
    else
      var head := PopList(items[0]);
      var tail := PopLists(items[1..]);
      if head.Some? && tail.Some? then Some([head.value] + tail.value)
      else
        assert tail.None? ==> exists i :: 0 <= i < |items| - 1 && PopList(items[1..][i]).None?;
        None
  }
  /** The stories of a `fetch_stories` response: each loses its `user` entry, if any, and
      has its string `id` popped. */
  function StoryPage(response: Json): (r: Option<seq<Entry>>)
    ensures r.Some? <==> (Member(response, "stories").Some? &&
                          forall i :: 0 <= i < |Member(response, "stories").value| ==>
                            PopKey(Without(Member(response, "stories").value[i], "user"), "id").Some?)
    ensures r.Some? ==> |r.value| == |Member(response, "stories").value|
    ensures r.Some? ==> forall i :: 0 <= i < |r.value| ==>
              Some(r.value[i]) == PopKey(Without(Member(response, "stories").value[i], "user"), "id")
    ensures r.Some? ==> forall i :: 0 <= i < |r.value| ==>
              !Has(r.value[i].fields, "id") && !Has(r.value[i].fields, "user")
  {
    var items := Member(response, "stories");
    if items.None? then None
    else
      var stripped := seq(|items.value|, i requires 0 <= i < |items.value| => Without(items.value[i], "user"));
      assert forall i :: 0 <= i < |items.value| ==> stripped[i] == Without(items.value[i], "user");
      var r := PopKeys(stripped, "id");
      if r.Some? then
        assert forall i :: 0 <= i < |r.value| ==>
                 Some(r.value[i]) == PopKey(Without(items.value[i], "user"), "id");
        assert forall i :: 0 <= i < |r.value| ==> !Has(r.value[i].fields, "user") by {
          forall i | 0 <= i < |r.value| ensures !Has(r.value[i].fields, "user") {
            assert Some(r.value[i]) == PopKey(stripped[i], "id");
            assert Get(r.value[i].fields, "user") == Get(stripped[i].fields, "user");
          }
        }
        r
      else r
  }

  /** A `Story.fetch` response with its `id` popped and, when it names its author, the
      author popped as well, split into the username and the rest of its fields. */
  datatype StoryReply = StoryReply(rest: Object, author: Option<Entry>)

  function PopAuthor(response: Json): (r: Option<StoryReply>)
    ensures r.Some? <==> (response.JObj? &&
                          (Has(response.fields, "user") ==> PopKey(Get(response.fields, "user").value, "username").Some?))
    ensures r.Some? ==> !Has(r.value.rest, "id") && !Has(r.value.rest, "user")
    ensures r.Some? ==> forall k :: k != "id" && k != "user" ==> Get(r.value.rest, k) == Get(response.fields, k)
    ensures r.Some? ==> (r.value.author.Some? <==> Has(response.fields, "user"))
    ensures r.Some? && r.value.author.Some? ==>
              Some(r.value.author.value) == PopKey(Get(response.fields, "user").value, "username")
  {
    if !response.JObj? then None
    else
      var fields := Remove(response.fields, "id");
      match Get(fields, "user")
      case None => Some(StoryReply(fields, None))
      case Some(u) =>
        var e := PopKey(u, "username");
        if e.Some? then
          assert Get(Remove(fields, "user"), "id") == Get(fields, "id");
          Some(StoryReply(Remove(fields, "user"), e))
        else None
  }

  /** The items of a `fetch_recommended` response, a list of story objects whose `id` is a
      string; `None` when the response is anything else. */
  function RecommendedItems(response: Json): (r: Option<seq<Object>>)
    ensures r.Some? <==> response.JArr? && forall i :: 0 <= i < |response.items| ==> PopKey(response.items[i], "id").Some?
    ensures r.Some? ==> |r.value| == |response.items|
    ensures r.Some? ==> forall i :: 0 <= i < |r.value| ==> JObj(r.value[i]) == response.items[i]
  {
    if response.JArr? && PopKeys(response.items, "id").Some? then
      Some(seq(|response.items|, i requires 0 <= i < |response.items| && response.items[i].JObj? =>
                 response.items[i].fields))
    else None
  }
  /** The lists of a `fetch_lists` response, each with its id and its stories popped. */
  function ListPage(response: Json): (r: Option<seq<ListEntry>>)
    ensures r.Some? <==> (Member(response, "lists").Some? && PopLists(Member(response, "lists").value).Some?)
    ensures r.Some? ==> r == PopLists(Member(response, "lists").value)
  {
    var items := Member(response, "lists");
    if items.Some? then PopLists(items.value) else None
  }
}
