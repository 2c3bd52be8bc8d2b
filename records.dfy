/** The record: `Model`, a dict whose attribute reads and writes go to the
    dict itself, with default resolution and the `find`/`save` operations
    built on the registered schema.

    `Resolve` and `ResolveAll` say what `getValueOrDefault` and the argument
    list of `save` compute from a store; the methods of `Record` do it in
    place and are proved to agree with them. The database is not modelled:
    `find` receives the rows its query would return and `save` the
    affected-row count of its INSERT. */
module Records {
  import opened Data
  import opened SqlText
  import opened Executor
  import opened Registrar

  /** The result of `getValueOrDefault(key)` on a store: the value returned,
      the store afterwards, and whether a default callable was called. */
  datatype Resolution = Resolution(value: Value, store: map<string, Value>, invoked: bool)

  /** `getValueOrDefault(key)`: a present non-None value is returned as it
      is; otherwise the field's default, when it is not None, is resolved
      (called when it is a callable, `produce` giving what the call returns),
      written back under `key` and returned. Looking up the field of a key
      that is not a field raises KeyError. */
  function Resolve(mappings: map<string, Field>, store: map<string, Value>, key: string,
                   produce: nat -> Value): (r: Result<Resolution>)
    ensures r.Err? <==> Lookup(store, key) == Null && key !in mappings
    ensures r.Err? ==> r.error == KeyError(key)
    ensures r.Ok? ==> Lookup(r.value.store, key) == r.value.value
    ensures r.Ok? ==> forall k :: k != key ==> Lookup(r.value.store, k) == Lookup(store, k)
    ensures r.Ok? && Lookup(store, key) != Null ==> r.value == Resolution(Lookup(store, key), store, false)
    ensures r.Ok? && r.value.invoked ==>
      Lookup(store, key) == Null && key in mappings && mappings[key].default.Generator?
    ensures Lookup(store, key) == Null && key in mappings && mappings[key].default == Literal(Null) ==>
      r == Ok(Resolution(Null, store, false))
    ensures Lookup(store, key) == Null && key in mappings && mappings[key].default.Literal? &&
            mappings[key].default.value != Null ==>
      r == Ok(Resolution(mappings[key].default.value, store[key := mappings[key].default.value], false))
    ensures Lookup(store, key) == Null && key in mappings && mappings[key].default.Generator? ==>
      r == Ok(Resolution(produce(mappings[key].default.id), store[key := produce(mappings[key].default.id)], true))
  {
    var value := Lookup(store, key);
    if value != Null then Ok(Resolution(value, store, false))
    else if key !in mappings then Err(KeyError(key))
    else
      match mappings[key].default
      case Literal(v) =>
        if v == Null then Ok(Resolution(Null, store, false))
        else Ok(Resolution(v, store[key := v], false))
      case Generator(g) =>
        var v := produce(g);
        Ok(Resolution(v, store[key := v], true))
  }

  /** Resolving a sequence of keys one after another, each on the store the
      previous one left: `list(map(self.getValueOrDefault, keys))`. */
  datatype Batch = Batch(values: seq<Value>, store: map<string, Value>, invoked: seq<string>)

  function ResolveAll(mappings: map<string, Field>, store: map<string, Value>, keys: seq<string>,
                      produce: nat -> Value): Result<Batch>
  {
    if keys == [] then Ok(Batch([], store, []))
    else
      var key := keys[|keys| - 1];
      match ResolveAll(mappings, store, keys[..|keys| - 1], produce)
      case Err(e) => Err(e)
      case Ok(b) =>
        match Resolve(mappings, b.store, key, produce)
        case Err(e) => Err(e)
        case Ok(r) => Ok(Batch(b.values + [r.value], r.store, b.invoked + if r.invoked then [key] else []))
  }

  /** The columns of `__insert__`, in order: `__field__`, then the primary key. */
  function InsertColumns(schema: Schema): seq<string>
  {
    schema.fields + [schema.primaryKey]
  }

  /** The row that results from binding `values` to `columns` positionally. */
  function RowOf(columns: seq<string>, values: seq<Value>): Row
    requires |columns| == |values|
  {
    if columns == [] then map[]
    else RowOf(columns[..|columns| - 1], values[..|values| - 1])[columns[|columns| - 1] := values[|values| - 1]]
  }

  /** `'%s where `%s`=?' % (cls.__select__, cls.__primary_key__)`. */
  function FindStatement(schema: Schema): string
  {
    schema.select + " where `" + schema.primaryKey + "`=?"
  }

  /** What `save` hands to the driver and reports. */
  datatype SaveReport = SaveReport(call: DriverCall, affected: int, warned: bool)

  class Record {
    const schema: Schema                   // the class-level compiled schema
    var store: map<string, Value>          // the dict itself
    ghost var generatorCalls: seq<string>  // keys whose default callable was called, in order

    /** `Model.__init__(**kw)`. */
    constructor (schema: Schema, kw: map<string, Value>)
      ensures this.schema == schema && store == kw && generatorCalls == []
    {
      this.schema := schema;
      store := kw;
      generatorCalls := [];
    }

    /** `Model.__getattr__(key)`: the stored value, or AttributeError. */
    function GetAttr(key: string): (r: Result<Value>)
      reads this
      ensures r.Ok? <==> key in store
      ensures r.Ok? ==> r.value == store[key]
      ensures r.Err? ==> r.error == AttributeError(key)
    {
      if key in store then Ok(store[key]) else Err(AttributeError(key))
    }

    /** `Model.__setattr__(key, value)`: writes into the dict. */
    method SetAttr(key: string, value: Value)
      modifies this
      ensures store == old(store)[key := value]
      ensures GetAttr(key) == Ok(value)
      ensures generatorCalls == old(generatorCalls)
    {
      store := store[key := value];
    }

    /** `getValue(key)` = `getattr(self, key, None)`: AttributeError turns
        into None. Only the dict is read; the class attributes `getattr`
        would find first are not modelled. */
    function GetValue(key: string): (v: Value)
      reads this
      ensures GetAttr(key).Ok? ==> v == GetAttr(key).value
      ensures GetAttr(key).Err? ==> v == Null
    {
      Lookup(store, key)
    }

    /** `getValueOrDefault(key)`. */
    method GetValueOrDefault(key: string, produce: nat -> Value) returns (r: Result<Value>)
      modifies this
      ensures var res := Resolve(schema.mappings, old(store), key, produce);
        && (res.Err? ==> r == Err(res.error) && store == old(store) && generatorCalls == old(generatorCalls))
        && (res.Ok? ==>
              && r == Ok(res.value.value)
              && store == res.value.store
              && generatorCalls == old(generatorCalls) + if res.value.invoked then [key] else [])
    {
      var value := GetValue(key);
      if value == Null {
        if key !in schema.mappings {
          return Err(KeyError(key));
        }
        var field := schema.mappings[key];
        if field.default != Literal(Null) {
          match field.default {
            case Literal(v) =>
              value := v;
            case Generator(g) =>
              value := produce(g);
              generatorCalls := generatorCalls + [key];
          }
          SetAttr(key, value);
        }
      }
      return Ok(value);
    }

    /** `save()`: the INSERT arguments are `getValueOrDefault` over
        `__field__` in order, then over the primary key; they go to the
        driver with `__insert__`; an affected-row count other than 1 is only
        logged as a warning. */
    method Save(produce: nat -> Value, affected: int) returns (r: Result<SaveReport>)
      modifies this
      ensures var res := ResolveAll(schema.mappings, old(store), InsertColumns(schema), produce);
        && (res.Err? <==> r.Err?)
        && (res.Err? ==> r.error == res.error)
        && (res.Ok? ==>
              && r.value == SaveReport(Bind(schema.insert, res.value.values), affected, affected != 1)
              && store == res.value.store
              && generatorCalls == old(generatorCalls) + res.value.invoked)
    {
      ghost var store0, calls0 := store, generatorCalls;
      var fields := schema.fields;
      var args: seq<Value> := [];
      ghost var invoked: seq<string> := [];
      for i := 0 to |fields|
        invariant ResolveAll(schema.mappings, store0, fields[..i], produce) == Ok(Batch(args, store, invoked))
        invariant generatorCalls == calls0 + invoked
      {
        ghost var step := Resolve(schema.mappings, store, fields[i], produce);
        ResolveAllStep(schema.mappings, store0, fields, i, produce);
        var v := GetValueOrDefault(fields[i], produce);
        if v.Err? {
          ClosedOnError(schema.mappings, store0, fields, i + 1, [schema.primaryKey], produce);
          return Err(v.error);
        }
        args := args + [v.value];
        invoked := invoked + if step.value.invoked then [fields[i]] else [];
      }
      assert fields[..|fields|] == fields;
      var pk := GetValueOrDefault(schema.primaryKey, produce);
      ghost var keys := InsertColumns(schema);
      assert keys[..|keys| - 1] == fields;
      if pk.Err? {
        return Err(pk.error);
      }
      args := args + [pk.value];
      r := Ok(SaveReport(Bind(schema.insert, args), affected, affected != 1));
    }

    /** `find(pk)`, a class method: the SELECT with a primary-key filter,
        `rows` being all rows it matches; the first becomes a record, none
        gives None. */
    static method Find(schema: Schema, pk: Value, rows: seq<Row>) returns (call: DriverCall, r: Record?)
      ensures call == Bind(FindStatement(schema), [pk])
      ensures rows == [] <==> r == null
      ensures r != null ==> fresh(r) && r.schema == schema && r.store == rows[0]
    {
      call := Bind(FindStatement(schema), [pk]);
      var rs := Fetch(rows, Some(1));
      if |rs| == 0 {
        return call, null;
      }
      r := new Record(schema, rs[0]);
    }
  }

  /** Resolving one more key extends the batch of the keys before it. */
  lemma ResolveAllStep(mappings: map<string, Field>, store: map<string, Value>, keys: seq<string>, i: nat,
                       produce: nat -> Value)
    requires i < |keys|
    ensures ResolveAll(mappings, store, keys[..i + 1], produce) ==
      match ResolveAll(mappings, store, keys[..i], produce)
      case Err(e) => Err(e)
      case Ok(b) =>
        match Resolve(mappings, b.store, keys[i], produce)
        case Err(e) => Err(e)
        case Ok(r) => Ok(Batch(b.values + [r.value], r.store, b.invoked + if r.invoked then [keys[i]] else []))
  {
    assert keys[..i + 1][..i] == keys[..i];
  }

  /** A key that fails to resolve stops the whole argument list. */
  lemma {:induction false} ClosedOnError(mappings: map<string, Field>, store: map<string, Value>,
                                         keys: seq<string>, j: nat, more: seq<string>, produce: nat -> Value)
    requires j <= |keys|
    requires ResolveAll(mappings, store, keys[..j], produce).Err?
    ensures ResolveAll(mappings, store, keys + more, produce) == ResolveAll(mappings, store, keys[..j], produce)
    decreases |keys| + |more| - j
  {
    var all := keys + more;
    assert all[..j] == keys[..j];
    if j < |all| {
      assert all[..j + 1][..j] == all[..j];
      if j < |keys| {
        assert keys[..j + 1][..j] == keys[..j];
        ClosedOnError(mappings, store, keys, j + 1, more, produce);
      } else {
        ClosedOnError(mappings, store, all, j + 1, [], produce);
        assert all + [] == all;
      }
    } else {
      assert all[..j] == all;
    }
  }
}
