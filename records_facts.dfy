/** What the record operations promise: defaults are resolved once and then
    read back from the record, `save` sends one resolved value per INSERT
    placeholder and stores a row that holds every field of the record, and
    `find` binds the one value its statement asks for. */
module RecordFacts {
  import opened Data
  import opened SqlText
  import opened Registrar
  import opened RegistrarFacts
  import opened TemplateFacts
  import opened Records

  predicate Distinct(keys: seq<string>)
  {
    forall i, j :: 0 <= i < j < |keys| ==> keys[i] != keys[j]
  }

  /** A resolved default is written back, so resolving the same key again
      returns the same value, changes nothing and calls no callable, whatever
      a new call would have produced. */
  lemma ResolveIsCached(mappings: map<string, Field>, store: map<string, Value>, key: string,
                        produce: nat -> Value, again: nat -> Value)
    requires Resolve(mappings, store, key, produce).Ok?
    requires Resolve(mappings, store, key, produce).value.value != Null
    ensures var first := Resolve(mappings, store, key, produce).value;
      Resolve(mappings, first.store, key, again) == Ok(Resolution(first.value, first.store, false))
  {
  }

  /** Only the value stored under `key` decides what resolving `key` yields. */
  lemma ResolveReadsOnlyKey(mappings: map<string, Field>, s1: map<string, Value>, s2: map<string, Value>,
                            key: string, produce: nat -> Value)
    requires Lookup(s1, key) == Lookup(s2, key)
    ensures Resolve(mappings, s1, key, produce).Ok? == Resolve(mappings, s2, key, produce).Ok?
    ensures Resolve(mappings, s1, key, produce).Ok? ==>
      Resolve(mappings, s1, key, produce).value.value == Resolve(mappings, s2, key, produce).value.value &&
      Resolve(mappings, s1, key, produce).value.invoked == Resolve(mappings, s2, key, produce).value.invoked
  {
  }

  /** Resolving distinct mapped keys one after another yields, for each key,
      what resolving it alone on the original store yields; afterwards the
      store holds each resolved value under its key and is unchanged
      elsewhere. */
  lemma {:induction false} ResolveAllPointwise(mappings: map<string, Field>, store: map<string, Value>,
                                               keys: seq<string>, produce: nat -> Value)
    requires Distinct(keys)
    requires forall i :: 0 <= i < |keys| ==> keys[i] in mappings
    ensures ResolveAll(mappings, store, keys, produce).Ok?
    ensures var b := ResolveAll(mappings, store, keys, produce).value;
      && |b.values| == |keys|
      && (forall i :: 0 <= i < |keys| ==>
            Resolve(mappings, store, keys[i], produce).Ok? &&
            b.values[i] == Resolve(mappings, store, keys[i], produce).value.value)
      && (forall i :: 0 <= i < |keys| ==> Lookup(b.store, keys[i]) == b.values[i])
      && (forall k :: k !in keys ==> Lookup(b.store, k) == Lookup(store, k))
  {
    if keys != [] {
      var n := |keys| - 1;
      var pre, key := keys[..n], keys[n];
      assert forall i :: 0 <= i < n ==> pre[i] == keys[i];
      ResolveAllPointwise(mappings, store, pre, produce);
      var b := ResolveAll(mappings, store, pre, produce).value;
      assert key !in pre by {
        forall i | 0 <= i < n ensures pre[i] != key {
          assert pre[i] == keys[i];
        }
      }
      ResolveReadsOnlyKey(mappings, b.store, store, key, produce);
      var r := Resolve(mappings, b.store, key, produce).value;
      var values := b.values + [r.value];
      assert ResolveAll(mappings, store, keys, produce).value.values == values;
      assert ResolveAll(mappings, store, keys, produce).value.store == r.store;
      forall i | 0 <= i < |keys|
        ensures Resolve(mappings, store, keys[i], produce).Ok?
        ensures values[i] == Resolve(mappings, store, keys[i], produce).value.value
        ensures Lookup(r.store, keys[i]) == values[i]
      {
        if i < n {
          assert keys[i] == pre[i] && keys[i] != key;
        }
      }
      forall k | k !in keys ensures Lookup(r.store, k) == Lookup(store, k) {
        assert k !in pre && k != key;
      }
    }
  }

  /** Keys whose stored values are all set resolve to those values, leaving
      the store as it is and calling no default callable. */
  lemma {:induction false} StoredKeysResolveToThemselves(mappings: map<string, Field>, store: map<string, Value>,
                                                          keys: seq<string>, values: seq<Value>, produce: nat -> Value)
    requires |keys| == |values|
    requires forall i :: 0 <= i < |keys| ==> Lookup(store, keys[i]) == values[i] != Null
    ensures ResolveAll(mappings, store, keys, produce) == Ok(Batch(values, store, []))
  {
    if keys != [] {
      var n := |keys| - 1;
      StoredKeysResolveToThemselves(mappings, store, keys[..n], values[..n], produce);
      assert Lookup(store, keys[n]) == values[n] != Null;
      assert Resolve(mappings, store, keys[n], produce) == Ok(Resolution(values[n], store, false));
      var none: seq<string> := [];
      assert none + [] == none;
      assert values[..n] + [values[n]] == values;
      assert ResolveAll(mappings, store, keys, produce) == Ok(Batch(values[..n] + [values[n]], store, none + []));
    } else {
      assert values == [];
    }
  }

  /** A registered schema names every mapped field once among the INSERT
      columns, and nothing else. */
  lemma InsertColumnsAreTheFields(className: string, attrs: Namespace, s: Schema)
    requires WellFormed(attrs) && Compile(className, attrs) == Compiled(s)
    ensures Distinct(InsertColumns(s))
    ensures forall k :: k in InsertColumns(s) <==> k in s.mappings
  {
    CompiledFields(className, attrs, s);
    CompiledMappings(className, attrs, s);
    RegistrationSucceeds(className, attrs);
    var cols := InsertColumns(s);
    forall k | k in s.mappings ensures k in cols {
      var i :| 0 <= i < |attrs| && attrs[i].0 == k && attrs[i].1.FieldAttr?;
      if !IsPrimaryKey(attrs[i].1) {
        assert IsOrdinary(attrs[i].1);
      }
    }
    forall i, j | 0 <= i < j < |cols| ensures cols[i] != cols[j] {
      if j == |cols| - 1 {
        assert cols[i] in s.fields;
      }
    }
  }

  /** `save` on a record of a registered class always reaches the driver,
      with one argument per INSERT column: the column's value as
      `getValueOrDefault` resolves it on the record as it was. Afterwards the
      record holds each of those values. */
  lemma SaveSendsResolvedValues(className: string, attrs: Namespace, s: Schema,
                                store: map<string, Value>, produce: nat -> Value)
    requires WellFormed(attrs) && Compile(className, attrs) == Compiled(s)
    ensures var cols := InsertColumns(s);
      var res := ResolveAll(s.mappings, store, cols, produce);
      && res.Ok?
      && |res.value.values| == |cols|
      && (forall i :: 0 <= i < |cols| ==>
            Resolve(s.mappings, store, cols[i], produce).Ok? &&
            res.value.values[i] == Resolve(s.mappings, store, cols[i], produce).value.value)
      && (forall i :: 0 <= i < |cols| ==> Lookup(res.value.store, cols[i]) == res.value.values[i])
  {
    InsertColumnsAreTheFields(className, attrs, s);
    ResolveAllPointwise(s.mappings, store, InsertColumns(s), produce);
  }

  /** The argument list of `save` fills the placeholders of `__insert__`
      exactly. */
  lemma SaveFillsInsertPlaceholders(className: string, attrs: Namespace, s: Schema,
                                    store: map<string, Value>, produce: nat -> Value)
    requires WellFormed(attrs) && PlaceholderFree(className, attrs)
    requires Compile(className, attrs) == Compiled(s)
    ensures ResolveAll(s.mappings, store, InsertColumns(s), produce).Ok?
    ensures |ResolveAll(s.mappings, store, InsertColumns(s), produce).value.values| == Occurrences('?', s.insert)
  {
    SaveSendsResolvedValues(className, attrs, s, store, produce);
    CompiledTemplates(className, attrs, s);
  }

  /** Once a save has resolved every column to a set value, saving again
      sends the same arguments, leaves the record as it is and calls no
      default callable. */
  lemma SaveAgainIsStable(className: string, attrs: Namespace, s: Schema,
                          store: map<string, Value>, produce: nat -> Value, again: nat -> Value)
    requires WellFormed(attrs) && Compile(className, attrs) == Compiled(s)
    requires ResolveAll(s.mappings, store, InsertColumns(s), produce).Ok?
    requires forall v :: v in ResolveAll(s.mappings, store, InsertColumns(s), produce).value.values ==> v != Null
    ensures var first := ResolveAll(s.mappings, store, InsertColumns(s), produce).value;
      ResolveAll(s.mappings, first.store, InsertColumns(s), again) == Ok(Batch(first.values, first.store, []))
  {
    var cols := InsertColumns(s);
    var first := ResolveAll(s.mappings, store, cols, produce).value;
    SaveSendsResolvedValues(className, attrs, s, store, produce);
    forall i | 0 <= i < |cols| ensures Lookup(first.store, cols[i]) != Null {
      assert first.values[i] in first.values;
    }
    StoredKeysResolveToThemselves(s.mappings, first.store, cols, first.values, again);
  }

  /** Binding `values` positionally to `columns` gives a row whose keys are
      the columns. */
  lemma {:induction false} RowOfKeys(columns: seq<string>, values: seq<Value>)
    requires |columns| == |values|
    ensures forall k :: k in RowOf(columns, values) <==> k in columns
  {
    if columns != [] {
      var n := |columns| - 1;
      RowOfKeys(columns[..n], values[..n]);
      assert columns == columns[..n] + [columns[n]];
    }
  }

  /** With distinct columns, each value is stored under its own column. */
  lemma {:induction false} RowOfAt(columns: seq<string>, values: seq<Value>)
    requires |columns| == |values| && Distinct(columns)
    ensures forall i :: 0 <= i < |columns| ==>
      columns[i] in RowOf(columns, values) && RowOf(columns, values)[columns[i]] == values[i]
  {
    RowOfKeys(columns, values);
    if columns != [] {
      var n := |columns| - 1;
      var pre, vs := columns[..n], values[..n];
      assert Distinct(pre) by {
        assert forall i :: 0 <= i < n ==> pre[i] == columns[i];
      }
      RowOfKeys(pre, vs);
      RowOfAt(pre, vs);
      forall i | 0 <= i < |columns|
        ensures columns[i] in RowOf(columns, values) && RowOf(columns, values)[columns[i]] == values[i]
      {
        if i < n {
          assert pre[i] == columns[i] && vs[i] == values[i];
        }
      }
    }
  }

  /** The row `save` inserts holds exactly the record's fields, each with the
      value the record holds after the save; so `find` by the same key, whose
      first row that is, rebuilds a record whose fields read back the same. */
  lemma SaveThenFind(className: string, attrs: Namespace, s: Schema,
                     store: map<string, Value>, produce: nat -> Value)
    requires WellFormed(attrs) && Compile(className, attrs) == Compiled(s)
    ensures var b := ResolveAll(s.mappings, store, InsertColumns(s), produce);
      && b.Ok?
      && |b.value.values| == |InsertColumns(s)|
      && var row := RowOf(InsertColumns(s), b.value.values);
      && row.Keys == s.mappings.Keys
      && forall k :: k in s.mappings ==> row[k] == Lookup(b.value.store, k)
  {
    var cols := InsertColumns(s);
    InsertColumnsAreTheFields(className, attrs, s);
    SaveSendsResolvedValues(className, attrs, s, store, produce);
    var b := ResolveAll(s.mappings, store, cols, produce).value;
    RowOfKeys(cols, b.values);
    RowOfAt(cols, b.values);
    var row := RowOf(cols, b.values);
    forall k | k in s.mappings ensures row[k] == Lookup(b.store, k) {
      var i :| 0 <= i < |cols| && cols[i] == k;
    }
  }

  /** The statement `find` sends asks for exactly the one value it binds. */
  lemma FindBindsOneValue(className: string, attrs: Namespace, s: Schema)
    requires WellFormed(attrs) && PlaceholderFree(className, attrs)
    requires Compile(className, attrs) == Compiled(s)
    ensures Occurrences('?', FindStatement(s)) == 1
  {
    CompiledTemplates(className, attrs, s);
    CompiledNamesPlaceholderFree(className, attrs, s);
    var head := s.select + " where `" + s.primaryKey + "`";
    assert '?' !in head;
    OccurrencesAbsent('?', head);
    OccurrencesAppend('?', head, "=?");
    assert FindStatement(s) == head + "=?";
  }
}
