/** The schema registrar: `ModelMetaclass.__new__`, which runs once for every
    class derived from `Model`. It walks the class namespace in declaration
    order, collects the `Field` attributes, finds the single primary key,
    removes the field attributes from the class and stores the table name,
    the field list and four statement templates on it instead.

    `Compile` says what one registration yields; `Register` is the loop of
    the source, proved to yield exactly that. */
module Registrar {
  import opened Data
  import opened SqlText

  /** A field's `default`: a literal value or a zero-argument callable. The
      callable is named by an identifier; what it returns is supplied by the
      caller of the record operations, one value per identifier. Each
      field's callable gets its own identifier, because Python calls the
      callable once per field and may get a new value each time.
      `Literal(Null)` is `default=None`, which means "no default". */
  datatype Default = Literal(value: Value) | Generator(id: nat)

  /** `Field(name, column_type, primary_key, default)`. */
  datatype Field = Field(name: Option<string>, columnType: string, primaryKey: bool, default: Default)

  /** `StringField(name=None, primary_key=False, default=None, ddl='varchar(100)')`. */
  function StringField(name: Option<string> := None, primaryKey: bool := false,
                       default: Default := Literal(Null), ddl: string := "varchar(100)"): Field
  {
    Field(name, ddl, primaryKey, default)
  }

  /** A class attribute: a field descriptor, or any other value, kept by its
      text (the only other attribute the registrar reads is `__table__`). */
  datatype Attr = FieldAttr(field: Field) | Text(text: string)

  /** The class namespace `attrs`, in declaration order. */
  type Namespace = seq<(string, Attr)>

  predicate IsPrimaryKey(a: Attr)
  {
    a.FieldAttr? && a.field.primaryKey
  }

  predicate IsOrdinary(a: Attr)
  {
    a.FieldAttr? && !a.field.primaryKey
  }

  /** The compiled schema: what the registrar stores on the class. */
  datatype Schema = Schema(
    table: string,                   // __table__
    mappings: map<string, Field>,    // __mappings__
    primaryKey: string,              // __primary_key__
    fields: seq<string>,             // __field__
    select: string,                  // __select__
    insert: string,                  // __insert__
    update: string,                  // __update__
    delete: string,                  // __delete__
    classAttrs: Namespace)           // what is left of attrs after the pops

  datatype RegistrationError =
    | DuplicatePrimaryKey(field: string)    // RuntimeError('Duplicate primary key for field: ...')
    | PrimaryKeyNotFound                    // RuntimeError('Primary key not found.')
    | NameError(identifier: string)         // a global name that is not defined

  datatype Registration =
    | BaseClass(attrs: Namespace)           // the class `Model` itself, left untouched
    | Compiled(schema: Schema)
    | Failed(error: RegistrationError)

  /** Names, in declaration order, of the attributes `pick` accepts. */
  function Selected(attrs: Namespace, pick: Attr -> bool): seq<string>
  {
    if attrs == [] then []
    else
      var last := attrs[|attrs| - 1];
      Selected(attrs[..|attrs| - 1], pick) + if pick(last.1) then [last.0] else []
  }

  /** Positions, in increasing order, of the attributes `pick` accepts. */
  function SelectedIndices(attrs: Namespace, pick: Attr -> bool): seq<nat>
  {
    if attrs == [] then []
    else
      SelectedIndices(attrs[..|attrs| - 1], pick) +
        if pick(attrs[|attrs| - 1].1) then [|attrs| - 1] else []
  }

  function PrimaryKeyNames(attrs: Namespace): seq<string>
  {
    Selected(attrs, IsPrimaryKey)
  }

  /** The `fields` list of the loop. */
  function OrdinaryNames(attrs: Namespace): seq<string>
  {
    Selected(attrs, IsOrdinary)
  }

  /** The `mappings` dict of the loop: every field attribute by name. */
  function FieldMappings(attrs: Namespace): map<string, Field>
  {
    if attrs == [] then map[]
    else
      var last := attrs[|attrs| - 1];
      var m := FieldMappings(attrs[..|attrs| - 1]);
      if last.1.FieldAttr? then m[last.0 := last.1.field] else m
  }

  /** State of the loop's `primaryKey` variable after meeting the primary-key
      attributes `pks` in order: `Clash(k)` once the loop has raised at `k`.
      The test is Python truthiness, `if primaryKey:`. */
  datatype PrimaryKeyScan = Seen(primaryKey: Option<string>) | Clash(field: string)

  function ScanPrimaryKeys(pks: seq<string>): PrimaryKeyScan
  {
    if pks == [] then Seen(None)
    else
      match ScanPrimaryKeys(pks[..|pks| - 1])
      case Clash(k) => Clash(k)
      case Seen(p) => if Truthy(p) then Clash(pks[|pks| - 1]) else Seen(Some(pks[|pks| - 1]))
  }

  /** `attrs.get(key, None)`. */
  function NamespaceGet(attrs: Namespace, key: string): Option<Attr>
  {
    if attrs == [] then None
    else if attrs[0].0 == key then Some(attrs[0].1)
    else NamespaceGet(attrs[1..], key)
  }

  /** `attrs.get('__table__', None) or name`. */
  function TableName(className: string, attrs: Namespace): string
  {
    match NamespaceGet(attrs, "__table__")
    case Some(Text(t)) => if t != "" then t else className
    case _ => className
  }

  /** What remains of `attrs` once every key of `keys` is popped. */
  function Unmapped(attrs: Namespace, keys: set<string>): Namespace
  {
    if attrs == [] then []
    else
      var last := attrs[|attrs| - 1];
      Unmapped(attrs[..|attrs| - 1], keys) + if last.0 in keys then [] else [last]
  }

  /** `field.name or attrName`: the column the UPDATE template assigns. */
  function ColumnName(mappings: map<string, Field>, attr: string): string
  {
    if attr in mappings && Truthy(mappings[attr].name) then mappings[attr].name.value else attr
  }

  function SelectTemplate(table: string, pk: string, fields: seq<string>): string
  {
    "select `" + pk + "`, " + Join(", ", QuoteAll(fields)) + " from `" + table + "`"
  }

  function InsertTemplate(table: string, pk: string, fields: seq<string>): string
  {
    "insert into `" + table + "` (" + ColumnList(fields, pk) + ") values (" + ArgsString(|fields| + 1) + ")"
  }

  /** The column list of INSERT: `', '.join(escaped_fields)`, then the
      quoted primary key. */
  function ColumnList(fields: seq<string>, pk: string): string
  {
    Join(", ", QuoteAll(fields)) + ", `" + pk + "`"
  }

  /** The SET clause items, one `` `col`=? `` per ordinary field. */
  function Assignments(mappings: map<string, Field>, fields: seq<string>): seq<string>
  {
    seq(|fields|, i requires 0 <= i < |fields| => "`" + ColumnName(mappings, fields[i]) + "`=?")
  }

  function UpdateTemplate(table: string, pk: string, fields: seq<string>, mappings: map<string, Field>): string
  {
    "update `" + table + "` set " + Join(", ", Assignments(mappings, fields)) + " where `" + pk + "`=?"
  }

  function DeleteTemplate(table: string, pk: string): string
  {
    "delete from `" + table + "` where `" + pk + "`=?"
  }

  function Build(table: string, mappings: map<string, Field>, pk: string, fields: seq<string>,
                 rest: Namespace): Schema
  {
    Schema(table, mappings, pk, fields,
           SelectTemplate(table, pk, fields),
           InsertTemplate(table, pk, fields),
           UpdateTemplate(table, pk, fields, mappings),
           DeleteTemplate(table, pk),
           rest)
  }

  /** What registering the class `className` with namespace `attrs` yields. */
  function Compile(className: string, attrs: Namespace): Registration
  {
    if className == "Model" then BaseClass(attrs)
    else
      match ScanPrimaryKeys(PrimaryKeyNames(attrs))
      case Clash(k) => Failed(DuplicatePrimaryKey(k))
      case Seen(p) =>
        if !Truthy(p) then Failed(PrimaryKeyNotFound)
        else
          var mappings := FieldMappings(attrs);
          Compiled(Build(TableName(className, attrs), mappings, p.value, OrdinaryNames(attrs),
                         Unmapped(attrs, mappings.Keys)))
  }

  /** Once the loop has raised, the rest of the namespace does not matter. */
  lemma {:induction false} ClashIsFinal(attrs: Namespace, j: nat)
    requires j <= |attrs|
    requires ScanPrimaryKeys(PrimaryKeyNames(attrs[..j])).Clash?
    ensures ScanPrimaryKeys(PrimaryKeyNames(attrs)) == ScanPrimaryKeys(PrimaryKeyNames(attrs[..j]))
    decreases |attrs| - j
  {
    if j == |attrs| {
      assert attrs[..j] == attrs;
    } else {
      var pre := attrs[..j + 1];
      assert pre[..j] == attrs[..j];
      var pks := PrimaryKeyNames(pre);
      if pks != PrimaryKeyNames(attrs[..j]) {
        assert pks[..|pks| - 1] == PrimaryKeyNames(attrs[..j]);
      }
      ClashIsFinal(attrs, j + 1);
    }
  }

  /** Popping keys one set after another pops their union. */
  lemma {:induction false} UnmappedTwice(attrs: Namespace, keys: set<string>, more: set<string>)
    ensures Unmapped(Unmapped(attrs, keys), more) == Unmapped(attrs, keys + more)
  {
    if attrs != [] {
      var last := attrs[|attrs| - 1];
      var pre := Unmapped(attrs[..|attrs| - 1], keys);
      UnmappedTwice(attrs[..|attrs| - 1], keys, more);
      if last.0 !in keys {
        var u := pre + [last];
        assert Unmapped(attrs, keys) == u;
        assert u[..|u| - 1] == pre && u[|u| - 1] == last;
        assert Unmapped(attrs, keys + more) ==
          Unmapped(attrs[..|attrs| - 1], keys + more) + if last.0 in more then [] else [last];
        assert Unmapped(u, more) == Unmapped(pre, more) + if last.0 in more then [] else [last];
      } else {
        assert Unmapped(attrs, keys) == pre;
        assert Unmapped(attrs, keys + more) == Unmapped(attrs[..|attrs| - 1], keys + more);
      }
    }
  }

  lemma {:induction false} UnmappedNothing(attrs: Namespace)
    ensures Unmapped(attrs, {}) == attrs
  {
    if attrs != [] {
      UnmappedNothing(attrs[..|attrs| - 1]);
    }
  }

  /** The `for k, v in attrs.items()` loop of `ModelMetaclass.__new__`:
      fills `mappings` and `fields` and tracks `primaryKey`, raising at a
      second primary key. */
  method ScanAttributes(attrs: Namespace) returns (mappings: map<string, Field>, fields: seq<string>,
                                                   scan: PrimaryKeyScan)
    ensures scan == ScanPrimaryKeys(PrimaryKeyNames(attrs))
    ensures scan.Seen? ==> mappings == FieldMappings(attrs) && fields == OrdinaryNames(attrs)
  {
    mappings, fields := map[], [];
    var primaryKey: Option<string> := None;
    var i := 0;
    while i < |attrs|
      invariant 0 <= i <= |attrs|
      invariant mappings == FieldMappings(attrs[..i])
      invariant fields == OrdinaryNames(attrs[..i])
      invariant ScanPrimaryKeys(PrimaryKeyNames(attrs[..i])) == Seen(primaryKey)
    {
      var (k, v) := attrs[i];
      ScanStep(attrs, i);
      if v.FieldAttr? {
        mappings := mappings[k := v.field];
        if v.field.primaryKey {
          if Truthy(primaryKey) {
            ClashIsFinal(attrs, i + 1);
            return mappings, fields, Clash(k);
          }
          primaryKey := Some(k);
        } else {
          fields := fields + [k];
        }
      }
      i := i + 1;
    }
    assert attrs[..i] == attrs;
    scan := Seen(primaryKey);
  }

  /** What one more attribute does to the loop's state. */
  lemma ScanStep(attrs: Namespace, i: nat)
    requires i < |attrs|
    ensures FieldMappings(attrs[..i + 1]) ==
      if attrs[i].1.FieldAttr? then FieldMappings(attrs[..i])[attrs[i].0 := attrs[i].1.field]
      else FieldMappings(attrs[..i])
    ensures OrdinaryNames(attrs[..i + 1]) ==
      OrdinaryNames(attrs[..i]) + if IsOrdinary(attrs[i].1) then [attrs[i].0] else []
    ensures !IsPrimaryKey(attrs[i].1) ==>
      ScanPrimaryKeys(PrimaryKeyNames(attrs[..i + 1])) == ScanPrimaryKeys(PrimaryKeyNames(attrs[..i]))
    ensures IsPrimaryKey(attrs[i].1) ==>
      ScanPrimaryKeys(PrimaryKeyNames(attrs[..i + 1])) ==
        match ScanPrimaryKeys(PrimaryKeyNames(attrs[..i]))
        case Clash(c) => Clash(c)
        case Seen(p) => if Truthy(p) then Clash(attrs[i].0) else Seen(Some(attrs[i].0))
  {
    var pre := attrs[..i + 1];
    assert pre[..i] == attrs[..i];
    assert pre[|pre| - 1] == attrs[i];
    var seen := PrimaryKeyNames(attrs[..i]);
    if IsPrimaryKey(attrs[i].1) {
      assert PrimaryKeyNames(pre) == seen + [attrs[i].0];
      assert (seen + [attrs[i].0])[..|seen|] == seen;
    } else {
      assert PrimaryKeyNames(pre) == seen;
    }
  }

  /** `for k in mappings.keys(): attrs.pop(k)`. */
  method PopFields(attrs: Namespace, keys: set<string>) returns (namespace: Namespace)
    ensures namespace == Unmapped(attrs, keys)
  {
    namespace := attrs;
    var remaining := keys;
    UnmappedNothing(attrs);
    assert keys - remaining == {};
    while remaining != {}
      invariant remaining <= keys
      invariant namespace == Unmapped(attrs, keys - remaining)
      decreases remaining
    {
      var k :| k in remaining;
      UnmappedTwice(attrs, keys - remaining, {k});
      assert keys - remaining + {k} == keys - (remaining - {k});
      namespace := Unmapped(namespace, {k});   // attrs.pop(k)
      remaining := remaining - {k};
    }
    assert keys - remaining == keys;
  }

  /** `ModelMetaclass.__new__`. */
  method Register(className: string, attrs: Namespace) returns (r: Registration)
    ensures r == Compile(className, attrs)
  {
    if className == "Model" {
      return BaseClass(attrs);
    }
    var table := TableName(className, attrs);
    var mappings, fields, scan := ScanAttributes(attrs);
    if scan.Clash? {
      return Failed(DuplicatePrimaryKey(scan.field));
    }
    if !Truthy(scan.primaryKey) {
      return Failed(PrimaryKeyNotFound);
    }
    var namespace := PopFields(attrs, mappings.Keys);
    r := Compiled(Build(table, mappings, scan.primaryKey.value, fields, namespace));
  }
}
