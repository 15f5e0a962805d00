/** The per-class identity cache of src/wattpad/utils.py `create_singleton`: a call's cache
    key, and the registry of live instances that the metaclass consults before constructing. */
module Identity {
  import opened Wrappers
  import opened Text
  import opened Assoc
  import opened JsonValue

  /** The arguments of a class call: a first positional argument (plus keywords), or keywords
      only. Only JSON-like arguments matter for the key; object arguments such as `user=` are
      left out of `named`. */
  datatype CallArgs = Positional(first: Json, named: Object) | Keywords(named: Object)

  /** The cache key as the metaclass computes it: the first positional argument lowercased
      (a non-string has no `lower` and the call fails), else the `username` keyword, else the
      `id` keyword (absent: the call fails). Keyword keys are used as given. */
  function CacheKey(call: CallArgs): Option<Json>
  {
    match call
    case Positional(first, _) => if first.JStr? then Some(JStr(Lower(first.s))) else None
    case Keywords(named) =>
      if Has(named, "username") then Get(named, "username") else Get(named, "id")
  }

  /** A key with its text case-folded; non-string keys (list ids are integers) are kept. */
  function Fold(key: Json): Json
  {
    if key.JStr? then JStr(Lower(key.s)) else key
  }

  /** The key the entity docstrings promise ("unique as per their username / id"): the same
      text whatever the call style, since every string key is case-folded. */
  function CacheKeyFolded(call: CallArgs): (key: Option<Json>)
    ensures key.Some? <==> CacheKey(call).Some?
    ensures key.Some? ==> key.value == Fold(CacheKey(call).value)
  {
    match CacheKey(call)
    case Some(k) => Some(Fold(k))
    case None => None
  }

  /** The key as written agrees with the folded key on every positional call and on every
      non-string key; a keyword call with a string key gets the folded key exactly when that
      key is already in lower case. */
  lemma AsWrittenKeyIsFoldedIffLower(call: CallArgs)
    ensures call.Positional? ==> CacheKey(call) == CacheKeyFolded(call)
    ensures CacheKey(call).Some? && !CacheKey(call).value.JStr? ==> CacheKey(call) == CacheKeyFolded(call)
    ensures call.Keywords? && CacheKey(call).Some? && CacheKey(call).value.JStr? ==>
              (CacheKey(call) == CacheKeyFolded(call) <==> Lower(CacheKey(call).value.s) == CacheKey(call).value.s)
  {
    if call.Positional? && call.first.JStr? {
      LowerIdempotent(call.first.s);
    }
  }

  /** As written, the same username gives two different keys: `User("Alice")` is cached under
      `"alice"` but `User(username="Alice")` under `"Alice"`, so two instances both named
      `alice` can coexist. */
  lemma KeywordKeyNotFolded()
    ensures CacheKey(Positional(JStr("Alice"), [])) == Some(JStr("alice"))
    ensures CacheKey(Keywords([("username", JStr("Alice"))])) == Some(JStr("Alice"))
    ensures CacheKey(Keywords([("username", JStr("Alice"))])) != CacheKeyFolded(Keywords([("username", JStr("Alice"))]))
    ensures CacheKey(Positional(JStr("Alice"), [])) != CacheKey(Keywords([("username", JStr("Alice"))]))
  {
    assert Lower("Alice") == "alice" by {
      assert Lower("Alice")[0] == 'a';
    }
    assert Has([("username", JStr("Alice"))], "username") by {
      assert Keys([("username", JStr("Alice"))])[0] == "username";
    }
    AsWrittenKeyIsFoldedIffLower(Keywords([("username", JStr("Alice"))]));
  }

  /** With folded keys, naming a user by position or by keyword, in any letter case, reaches
      the same cache entry, and that entry is the lowercased name the instance stores. */
  lemma FoldedKeyIgnoresCallStyle(name: string, other: string, rest: Object)
    requires Lower(name) == Lower(other)
    ensures CacheKeyFolded(Positional(JStr(name), rest)) == Some(JStr(Lower(name)))
    ensures CacheKeyFolded(Keywords([("username", JStr(other))])) == Some(JStr(Lower(name)))
  {
    LowerIdempotent(name);
    assert Has([("username", JStr(other))], "username") by {
      assert Keys([("username", JStr(other))])[0] == "username";
    }
  }

  /** Folding is idempotent, so a folded key stays where it was registered. */
  lemma FoldIdempotent(key: Json)
    ensures Fold(Fold(key)) == Fold(key)
  {
    if key.JStr? {
      LowerIdempotent(key.s);
    }
  }

  /** One class's `_instances` table. */
  class Registry<T> {
    var instances: map<Json, T>

    constructor ()
      ensures instances == map[]
    {
      instances := map[];
    }

    /** The instance cached under `key`, if any. */
    function Find(key: Json): (r: Option<T>)
      reads this
      ensures r.Some? <==> key in instances
      ensures r.Some? ==> r.value == instances[key]
    {
      if key in instances then Some(instances[key]) else None
    }

    /** `cls._instances[key] = new`. */
    method Register(key: Json, t: T)
      requires key !in instances
      modifies this
      ensures instances == old(instances)[key := t]
      ensures Grew(old(instances), instances)
    {
      instances := instances[key := t];
    }

    /** The weak reference dropping an instance nobody holds any more. */
    method Evict(key: Json)
      modifies this
      ensures instances == old(instances) - {key}
    {
      instances := instances - {key};
    }
  }

  /** A registry only gains entries: every earlier key still maps to the same instance. */
  ghost predicate Grew<T>(before: map<Json, T>, after: map<Json, T>)
  {
    forall k :: k in before ==> k in after && after[k] == before[k]
  }
}
