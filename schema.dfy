/** The static field tables of src/wattpad/models.py and the helpers that read them:
    `get_fields` (both versions) and `convert_from_aliases`, plus model construction and
    `model_copy(update=...)` as plain record operations. */
module Schema {
  import opened Wrappers
  import opened Assoc
  import opened JsonValue

  /** One declared field: its attribute name, its wire alias if any, and its default
      (`None` for a required field). */
  datatype FieldDecl = FieldDecl(name: string, alias: Option<string>, default: Option<Json>)

  /** A model: its fields in declaration order. */
  type Model = seq<FieldDecl>

  /** A model instance: attribute name to value. */
  type Record = map<string, Json>

  function Req(name: string): FieldDecl { FieldDecl(name, None, None) }
  function ReqAlias(name: string, alias: string): FieldDecl { FieldDecl(name, Some(alias), None) }
  function Opt(name: string): FieldDecl { FieldDecl(name, None, Some(JNull)) }
  function OptAlias(name: string, alias: string): FieldDecl { FieldDecl(name, Some(alias), Some(JNull)) }

  // ---------------------------------------------------------------------------
  // get_fields

  /** `field.alias` is truthy. */
  predicate HasAlias(f: FieldDecl)
  {
    f.alias.Some? && f.alias.value != ""
  }

  /** The key under which the API sends, and the model accepts, the field. */
  function WireName(f: FieldDecl): string
  {
    if HasAlias(f) then f.alias.value else f.name
  }

  /** src/wattpad/utils.py `get_fields`: one entry per field in declaration order, the alias
      when there is one and `prefer_alias` is set, the attribute name otherwise. */
  function GetFields(model: Model, preferAlias: bool): (names: seq<string>)
    ensures |names| == |model|
    ensures forall i :: 0 <= i < |model| ==>
              names[i] == if preferAlias then WireName(model[i]) else model[i].name
  {
    if model == [] then []
    else
      var f := model[|model| - 1];
      GetFields(model[..|model| - 1], preferAlias) + [if HasAlias(f) && preferAlias then f.alias.value else f.name]
  }

  /** The loop of src/wattpad/utils.py `get_fields`. */
  method GetFieldsLoop(model: Model, preferAlias: bool) returns (attribs: seq<string>)
    ensures attribs == GetFields(model, preferAlias)
  {
    attribs := [];
    for i := 0 to |model|
      invariant attribs == GetFields(model[..i], preferAlias)
    {
      var f := model[i];
      if HasAlias(f) && preferAlias {
        attribs := attribs + [f.alias.value];
      } else {
        attribs := attribs + [f.name];
      }
      assert model[..i + 1][..i] == model[..i];
    }
    assert model[..|model|] == model;
  }

  /** src/utils.py `get_fields`: the older version, with no way to turn the alias off. */
  function LegacyGetFields(model: Model): seq<string>
  {
    if model == [] then []
    else LegacyGetFields(model[..|model| - 1]) + [WireName(model[|model| - 1])]
  }

  /** The loop of src/utils.py `get_fields`. */
  method LegacyGetFieldsLoop(model: Model) returns (attribs: seq<string>)
    ensures attribs == LegacyGetFields(model)
  {
    attribs := [];
    for i := 0 to |model|
      invariant attribs == LegacyGetFields(model[..i])
    {
      if HasAlias(model[i]) {
        attribs := attribs + [model[i].alias.value];
      } else {
        attribs := attribs + [model[i].name];
      }
      assert model[..i + 1][..i] == model[..i];
    }
    assert model[..|model| - 0] == model;
  }

  /** The older `get_fields` lists one entry per field, in declaration order, always the
      alias when present: exactly the newer one with `prefer_alias=True`. */
  lemma {:induction false} LegacyGetFieldsPrefersAlias(model: Model)
    ensures LegacyGetFields(model) == GetFields(model, true)
    ensures |LegacyGetFields(model)| == |model|
  {
    if model != [] {
      LegacyGetFieldsPrefersAlias(model[..|model| - 1]);
    }
  }

  // ---------------------------------------------------------------------------
  // convert_from_aliases

  /** The `alias_to_original` table built by zipping the aliased and the plain field lists,
      skipping the pairs that are equal; a later pair overwrites an earlier one. */
  function AliasTable(aliased: seq<string>, plain: seq<string>): map<string, string>
    requires |aliased| == |plain|
  {
    if aliased == [] then map[]
    else
      var n := |aliased| - 1;
      var m := AliasTable(aliased[..n], plain[..n]);
      if aliased[n] == plain[n] then m else m[aliased[n] := plain[n]]
  }

  /** The table holds exactly the unequal pairs, each key mapped to the partner of its last
      unequal occurrence. */
  lemma AliasTableSpec(aliased: seq<string>, plain: seq<string>)
    requires |aliased| == |plain|
    ensures forall k :: k in AliasTable(aliased, plain) <==>
              exists i :: 0 <= i < |aliased| && aliased[i] == k && aliased[i] != plain[i]
    ensures forall i ::
              (0 <= i < |aliased| && aliased[i] != plain[i] &&
               forall j :: i < j < |aliased| ==> aliased[j] != aliased[i] || aliased[j] == plain[j]) ==>
              AliasTable(aliased, plain)[aliased[i]] == plain[i]
  {
    AliasTableDomain(aliased, plain);
    forall i | 0 <= i < |aliased| && aliased[i] != plain[i] &&
        (forall j :: i < j < |aliased| ==> aliased[j] != aliased[i] || aliased[j] == plain[j])
      ensures AliasTable(aliased, plain)[aliased[i]] == plain[i]
    {
      AliasTableLast(aliased, plain, i);
    }
  }

  lemma {:induction false} AliasTableDomain(aliased: seq<string>, plain: seq<string>)
    requires |aliased| == |plain|
    ensures forall k :: k in AliasTable(aliased, plain) <==>
              exists i :: 0 <= i < |aliased| && aliased[i] == k && aliased[i] != plain[i]
  {
    if aliased != [] {
      var n := |aliased| - 1;
      var a, p := aliased[..n], plain[..n];
      AliasTableDomain(a, p);
      forall k | k in AliasTable(a, p)
        ensures exists i :: 0 <= i < |aliased| && aliased[i] == k && aliased[i] != plain[i]
      {
        var i :| 0 <= i < n && a[i] == k && a[i] != p[i];
        assert aliased[i] == k && aliased[i] != plain[i];
      }
      forall k | exists i :: 0 <= i < |aliased| && aliased[i] == k && aliased[i] != plain[i]
        ensures k in AliasTable(aliased, plain)
      {
        var i :| 0 <= i < |aliased| && aliased[i] == k && aliased[i] != plain[i];
        if i < n {
          assert a[i] == k && a[i] != p[i];
        }
      }
    }
  }

  /** An unequal pair that no later unequal pair with the same key overrides is in the table. */
  lemma {:induction false} AliasTableLast(aliased: seq<string>, plain: seq<string>, i: int)
    requires |aliased| == |plain| && 0 <= i < |aliased| && aliased[i] != plain[i]
    requires forall j :: i < j < |aliased| ==> aliased[j] != aliased[i] || aliased[j] == plain[j]
    ensures aliased[i] in AliasTable(aliased, plain) && AliasTable(aliased, plain)[aliased[i]] == plain[i]
  {
    var n := |aliased| - 1;
    var a, p := aliased[..n], plain[..n];
    if i < n {
      assert a[i] == aliased[i] && p[i] == plain[i];
      forall j | i < j < n ensures a[j] != a[i] || a[j] == p[j] {
        assert a[j] == aliased[j] && p[j] == plain[j];
      }
      AliasTableLast(a, p, i);
    }
  }

  /** Every value of the table is the partner of an unequal pair with that key. */
  lemma {:induction false} AliasTableValues(aliased: seq<string>, plain: seq<string>, k: string)
    requires |aliased| == |plain| && k in AliasTable(aliased, plain)
    ensures exists i :: 0 <= i < |aliased| && aliased[i] == k && aliased[i] != plain[i] &&
                        AliasTable(aliased, plain)[k] == plain[i]
  {
    var n := |aliased| - 1;
    var a, p := aliased[..n], plain[..n];
    if !(aliased[n] != plain[n] && aliased[n] == k) {
      AliasTableValues(a, p, k);
      var i :| 0 <= i < |a| && a[i] == k && a[i] != p[i] && AliasTable(a, p)[k] == p[i];
      assert aliased[i] == a[i] && plain[i] == p[i];
    }
  }

  function AliasToOriginal(model: Model): map<string, string>
  {
    AliasTable(GetFields(model, true), GetFields(model, false))
  }

  function RenameKey(table: map<string, string>, key: string): string
  {
    if key in table then table[key] else key
  }

  /** The key a `convert_from_aliases` result uses for an incoming key. */
  function Rename(model: Model, key: string): string
  {
    RenameKey(AliasToOriginal(model), key)
  }

  /** Renaming inverts the aliases: the alias of the last field sending it becomes that
      field's attribute name, and a key that is the alias of no field is kept as it is. */
  lemma RenameInvertsAliases(model: Model, key: string)
    ensures forall i ::
              (0 <= i < |model| && HasAlias(model[i]) && model[i].alias.value != model[i].name &&
               forall j :: i < j < |model| ==> WireName(model[j]) != WireName(model[i])) ==>
              Rename(model, model[i].alias.value) == model[i].name
    ensures (forall i :: 0 <= i < |model| && HasAlias(model[i]) ==> model[i].alias.value != key) ==>
              Rename(model, key) == key
  {
    var a, p := GetFields(model, true), GetFields(model, false);
    AliasTableSpec(a, p);
    forall i | 0 <= i < |model| && HasAlias(model[i]) && model[i].alias.value != model[i].name &&
        (forall j :: i < j < |model| ==> WireName(model[j]) != WireName(model[i]))
      ensures Rename(model, model[i].alias.value) == model[i].name
    {
      assert a[i] == model[i].alias.value && p[i] == model[i].name;
      {
        assert forall j :: i < j < |a| ==> a[j] != a[i] || a[j] == p[j] by {
          forall j | i < j < |a| ensures a[j] != a[i] || a[j] == p[j] {
            assert a[j] == WireName(model[j]);
          }
        }
      }
    }
  }

  /** Every key renamed through `table`, later entries overwriting earlier ones. */
  function RenameKeys(data: Object, table: map<string, string>): map<string, Json>
  {
    if data == [] then map[]
    else
      var n := |data| - 1;
      RenameKeys(data[..n], table)[RenameKey(table, data[n].0) := data[n].1]
  }

  /** The renamed mapping has exactly the renamed keys. */
  lemma {:induction false} RenameKeysDomain(data: Object, table: map<string, string>)
    ensures RenameKeys(data, table).Keys == set i | 0 <= i < |data| :: RenameKey(table, data[i].0)
  {
    if data != [] {
      var n := |data| - 1;
      RenameKeysDomain(data[..n], table);
      var s := set i | 0 <= i < |data| :: RenameKey(table, data[i].0);
      var s' := set i | 0 <= i < n :: RenameKey(table, data[..n][i].0);
      assert s == s' + {RenameKey(table, data[n].0)} by {
        forall k | k in s ensures k in s' + {RenameKey(table, data[n].0)} {
          var i :| 0 <= i < |data| && RenameKey(table, data[i].0) == k;
          if i < n {
            assert data[..n][i] == data[i];
          }
        }
        forall k | k in s' ensures k in s {
          var i :| 0 <= i < n && RenameKey(table, data[..n][i].0) == k;
          assert data[..n][i] == data[i];
        }
      }
    }
  }

  /** Entry `i` is the last one renamed to its key. */
  predicate LastRenamed(data: Object, table: map<string, string>, i: nat)
    requires i < |data|
  {
    forall j :: i < j < |data| ==> RenameKey(table, data[j].0) != RenameKey(table, data[i].0)
  }

  /** Each renamed key carries the value of the last incoming entry renamed to it: values are
      passed through untouched. */
  lemma {:induction false} RenameKeysValue(data: Object, table: map<string, string>, i: nat)
    requires i < |data| && LastRenamed(data, table, i)
    ensures RenameKey(table, data[i].0) in RenameKeys(data, table)
    ensures RenameKeys(data, table)[RenameKey(table, data[i].0)] == data[i].1
  {
    var n := |data| - 1;
    if i < n {
      var d := data[..n];
      assert d[i] == data[i];
      assert LastRenamed(d, table, i) by {
        forall j | i < j < n ensures RenameKey(table, d[j].0) != RenameKey(table, d[i].0) {
          assert d[j] == data[j];
        }
      }
      RenameKeysValue(d, table, i);
    }
  }

  /** src/wattpad/utils.py `convert_from_aliases`: every incoming key that is an alias is
      replaced by its attribute name; values, and keys that are no alias, pass through. */
  function ConvertFromAliases(data: Object, model: Model): map<string, Json>
  {
    RenameKeys(data, AliasToOriginal(model))
  }

  /** src/wattpad/utils.py `convert_from_aliases`, as its two loops. */
  method ConvertFromAliasesLoop(data: Object, model: Model) returns (r: map<string, Json>)
    ensures r == ConvertFromAliases(data, model)
  {
    var fields := GetFieldsLoop(model, true);
    var plain := GetFieldsLoop(model, false);
    var table := AliasTableLoop(fields, plain);
    r := RenameKeysLoop(data, table);
  }

  /** The first loop: zip the aliased and the plain field lists into the alias table,
      skipping equal pairs. */
  method AliasTableLoop(fields: seq<string>, plain: seq<string>) returns (table: map<string, string>)
    requires |fields| == |plain|
    ensures table == AliasTable(fields, plain)
  {
    table := map[];
    for i := 0 to |fields|
      invariant table == AliasTable(fields[..i], plain[..i])
    {
      if fields[i] != plain[i] {
        table := table[fields[i] := plain[i]];
      }
      assert fields[..i + 1][..i] == fields[..i] && plain[..i + 1][..i] == plain[..i];
    }
    assert fields[..|fields|] == fields && plain[..|plain|] == plain;
  }

  /** The second loop: copy each item under its renamed key. */
  method RenameKeysLoop(data: Object, table: map<string, string>) returns (r: map<string, Json>)
    ensures r == RenameKeys(data, table)
  {
    r := map[];
    for i := 0 to |data|
      invariant r == RenameKeys(data[..i], table)
    {
      var key := data[i].0;
      if key in table {
        r := r[table[key] := data[i].1];
      } else {
        r := r[key := data[i].1];
      }
      assert data[..i + 1][..i] == data[..i];
    }
    assert data[..|data|] == data;
  }

  // ---------------------------------------------------------------------------
  // Construction (`Model(**kwargs)`) and `model_copy(update=...)`

  /** The value a new instance takes for `f`: the keyword argument under its wire name, or
      the field's default. */
  function FieldValue(f: FieldDecl, args: Object): Json
  {
    match Get(args, WireName(f))
    case Some(v) => v
    case None => if f.default.Some? then f.default.value else JNull
  }

  /** Wire names of the required fields that no keyword argument supplies. */
  function MissingRequired(model: Model, args: Object): seq<string>
  {
    if model == [] then []
    else
      var f := model[|model| - 1];
      MissingRequired(model[..|model| - 1], args)
        + (if f.default.None? && !Has(args, WireName(f)) then [WireName(f)] else [])
  }

  function Populate(model: Model, args: Object): Record
  {
    if model == [] then map[]
    else
      var f := model[|model| - 1];
      Populate(model[..|model| - 1], args)[f.name := FieldValue(f, args)]
  }

  /** `Model(**args)`: a validation error naming the missing required fields, or a record
      with every declared field. Keys that are not wire names of the model are ignored. */
  function Instantiate(model: Model, args: Object): Result<Record, seq<string>>
  {
    var missing := MissingRequired(model, args);
    if missing == [] then Success(Populate(model, args)) else Failure(missing)
  }

  /** A new record holds exactly the declared fields. */
  lemma {:induction false} PopulateDomain(model: Model, args: Object)
    ensures Populate(model, args).Keys == set i | 0 <= i < |model| :: model[i].name
  {
    if model != [] {
      var n := |model| - 1;
      PopulateDomain(model[..n], args);
      var s := set i | 0 <= i < |model| :: model[i].name;
      var s' := set i | 0 <= i < n :: model[..n][i].name;
      assert s == s' + {model[n].name} by {
        forall k | k in s ensures k in s' + {model[n].name} {
          var i :| 0 <= i < |model| && model[i].name == k;
          if i < n {
            assert model[..n][i] == model[i];
          }
        }
        forall k | k in s' ensures k in s {
          var i :| 0 <= i < n && model[..n][i].name == k;
          assert model[..n][i] == model[i];
        }
      }
    }
  }

  /** Field `i` is the last one declared under its name (pydantic keeps the last declaration). */
  predicate LastDeclared(model: Model, i: nat)
    requires i < |model|
  {
    forall j :: i < j < |model| ==> model[j].name != model[i].name
  }

  /** Each field of a new record takes the argument supplied under its wire name, or else
      its default. */
  lemma {:induction false} PopulateValue(model: Model, args: Object, i: nat)
    requires i < |model| && LastDeclared(model, i)
    ensures model[i].name in Populate(model, args)
    ensures Populate(model, args)[model[i].name] == FieldValue(model[i], args)
  {
    var n := |model| - 1;
    if i < n {
      var m := model[..n];
      assert m[i] == model[i];
      assert LastDeclared(m, i) by {
        forall j | i < j < n ensures m[j].name != m[i].name {
          assert m[j] == model[j];
        }
      }
      PopulateValue(m, args, i);
    }
  }

  /** Construction succeeds exactly when every required field is supplied under its wire
      name; otherwise the error lists a missing one. */
  lemma {:induction false} InstantiateSpec(model: Model, args: Object)
    ensures Instantiate(model, args).Success? <==>
              forall i :: 0 <= i < |model| && model[i].default.None? ==> Has(args, WireName(model[i]))
    ensures Instantiate(model, args).Success? ==> Instantiate(model, args).value == Populate(model, args)
  {
    if model != [] {
      var n := |model| - 1;
      InstantiateSpec(model[..n], args);
      assert forall i :: 0 <= i < n ==> model[..n][i] == model[i];
    }
  }

  /** `model_copy(update=convert_from_aliases(kwargs))`: the renamed arguments override the
      record field by field. */
  function UpdateRecord(data: Record, kwargs: Object, model: Model): Record
  {
    data + ConvertFromAliases(kwargs, model)
  }

  /** An update keeps every field no argument is renamed to, sets each field named by an
      argument to the last value given for it, and adds no field nobody named. */
  lemma UpdateRecordSpec(data: Record, kwargs: Object, model: Model)
    ensures UpdateRecord(data, kwargs, model).Keys ==
              data.Keys + set i | 0 <= i < |kwargs| :: Rename(model, kwargs[i].0)
    ensures forall k :: k in data && (forall i :: 0 <= i < |kwargs| ==> Rename(model, kwargs[i].0) != k) ==>
              UpdateRecord(data, kwargs, model)[k] == data[k]
    ensures forall i ::
              (0 <= i < |kwargs| &&
               forall j :: i < j < |kwargs| ==> Rename(model, kwargs[j].0) != Rename(model, kwargs[i].0)) ==>
              UpdateRecord(data, kwargs, model)[Rename(model, kwargs[i].0)] == kwargs[i].1
  {
    var table := AliasToOriginal(model);
    RenameKeysDomain(kwargs, table);
    forall i | 0 <= i < |kwargs| &&
        (forall j :: i < j < |kwargs| ==> Rename(model, kwargs[j].0) != Rename(model, kwargs[i].0))
      ensures UpdateRecord(data, kwargs, model)[Rename(model, kwargs[i].0)] == kwargs[i].1
    {
      RenameKeysValue(kwargs, table, i);
    }
  }

  lemma {:induction false} RenameKeysConcat(d1: Object, d2: Object, table: map<string, string>)
    ensures RenameKeys(d1 + d2, table) == RenameKeys(d1, table) + RenameKeys(d2, table)
  {
    if d2 != [] {
      var n := |d2| - 1;
      assert (d1 + d2)[..|d1| + n] == d1 + d2[..n];
      RenameKeysConcat(d1, d2[..n], table);
    } else {
      assert d1 + d2 == d1;
    }
  }

  /** Two successive updates amount to one update with both argument lists, the later one
      winning; in particular repeating an update changes nothing. */
  lemma UpdatesCompose(data: Record, k1: Object, k2: Object, model: Model)
    ensures UpdateRecord(UpdateRecord(data, k1, model), k2, model) == UpdateRecord(data, k1 + k2, model)
    ensures UpdateRecord(UpdateRecord(data, k1, model), k1, model) == UpdateRecord(data, k1, model)
  {
    RenameKeysConcat(k1, k2, AliasToOriginal(model));
  }
}
