/** Reading a model's partitioning configuration: the fail-fast validation of
    `PostgresSchemaEditor._partitioning_properties_for_model`. */
module Partitioning {
  import opened Python

  /** What the editor sees of a Django model: its class name, table, primary
      key field, the names `_meta.get_field` resolves, and the raw
      `partitioning_method` / `partitioning_key` attributes (`PyNone` when the
      attribute is absent). */
  datatype ModelMeta = ModelMeta(
    name: string,
    dbTable: string,
    pk: string,
    fields: set<string>,
    partitioningMethod: Value,
    partitioningKey: Value)

  /** The four `ImproperlyConfigured` cases, in the order they are checked. */
  datatype ConfigError = NotConfigured | UnknownMethod | KeyNotList | UnknownField

  /** A validated configuration: the method's value and the key's field names. */
  datatype Partitioning = Partitioning(methodName: string, key: seq<string>)

  /** `v in PostgresPartitioningMethod`, for an enumeration whose member values are `methods`. */
  predicate IsMember(methods: set<string>, v: Value) {
    v.PyStr? && v.s in methods
  }

  /** `model._meta.get_field(v)` returns instead of raising `FieldDoesNotExist`. */
  predicate IsField(model: ModelMeta, v: Value) {
    v.PyStr? && v.s in model.fields
  }

  function Names(items: seq<Value>): (r: seq<string>)
    requires forall i :: 0 <= i < |items| ==> items[i].PyStr?
    ensures |r| == |items|
  {
    seq(|items|, i requires 0 <= i < |items| => items[i].s)
  }

  function Strs(names: seq<string>): (r: seq<Value>)
    ensures |r| == |names|
  {
    seq(|names|, i requires 0 <= i < |names| => PyStr(names[i]))
  }

  /** The configuration the builders can rely on: a non-empty method that is a
      member of the enumeration and a non-empty list of field names of the model. */
  predicate ProperlyConfigured(model: ModelMeta, methods: set<string>) {
    var m := model.partitioningMethod;
    var k := model.partitioningKey;
    && m.PyStr? && m.s != "" && m.s in methods
    && k.PyList? && |k.items| > 0
    && forall i :: 0 <= i < |k.items| ==> IsField(model, k.items[i])
  }

  /** `_partitioning_properties_for_model`: the checks run in source order and
      the first one that fails decides the error; on success the method and
      key are handed back unchanged. */
  function Validate(model: ModelMeta, methods: set<string>): (r: Result<Partitioning, ConfigError>)
    ensures r.Ok? <==> ProperlyConfigured(model, methods)
    ensures r.Ok? ==>
              && model.partitioningMethod == PyStr(r.value.methodName)
              && model.partitioningKey == PyList(Strs(r.value.key))
  {
    var m := model.partitioningMethod;
    var k := model.partitioningKey;
    if !Truthy(m) || !Truthy(k) then Err(NotConfigured)
    else if !IsMember(methods, m) then Err(UnknownMethod)
    else if !k.PyList? then Err(KeyNotList)
    else if exists i :: 0 <= i < |k.items| && !IsField(model, k.items[i]) then Err(UnknownField)
    else
      var key := Names(k.items);
      assert Strs(key) == k.items;
      Ok(Partitioning(m.s, key))
  }

  /** Every check that the configuration fails, each judged on its own, in
      the order the source checks them. */
  function Violations(model: ModelMeta, methods: set<string>): seq<ConfigError> {
    var m := model.partitioningMethod;
    var k := model.partitioningKey;
    (if !Truthy(m) || !Truthy(k) then [NotConfigured] else [])
    + (if !IsMember(methods, m) then [UnknownMethod] else [])
    + (if !k.PyList? then [KeyNotList] else [])
    + (if k.PyList? && exists i :: 0 <= i < |k.items| && !IsField(model, k.items[i])
       then [UnknownField] else [])
  }

  /** Validation does not accumulate: it reports the first violated check, and
      succeeds exactly when no check is violated. */
  lemma ValidateReportsFirstViolation(model: ModelMeta, methods: set<string>)
    ensures Validate(model, methods).Ok? <==> Violations(model, methods) == []
    ensures Validate(model, methods).Err? ==>
              Validate(model, methods).error == Violations(model, methods)[0]
  {
  }

  /** The source's loop over the key: `get_field` on each name in order,
      stopping at the first that does not resolve. */
  method PartitioningPropertiesForModel(model: ModelMeta, methods: set<string>)
    returns (r: Result<Partitioning, ConfigError>)
    ensures r == Validate(model, methods)
  {
    var m := model.partitioningMethod;
    var k := model.partitioningKey;
    if !Truthy(m) || !Truthy(k) {
      return Err(NotConfigured);
    }
    if !IsMember(methods, m) {
      return Err(UnknownMethod);
    }
    if !k.PyList? {
      return Err(KeyNotList);
    }
    var names: seq<string> := [];
    var i := 0;
    while i < |k.items|
      invariant 0 <= i <= |k.items|
      invariant forall j :: 0 <= j < i ==> IsField(model, k.items[j])
      invariant names == Names(k.items[..i])
    {
      if !IsField(model, k.items[i]) {
        return Err(UnknownField);
      }
      names := names + [k.items[i].s];
      i := i + 1;
    }
    assert k.items[..i] == k.items;
    return Ok(Partitioning(m.s, names));
  }
}
