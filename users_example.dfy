/** Worked examples on concrete classes: the `users` table with a generated
    primary key and a defaulted `name`, a column renamed through
    `Field.name`, and a class with nothing but a primary key. */
module UsersExample {
  import opened Data
  import opened SqlText
  import opened Registrar
  import opened RegistrarFacts
  import opened Records
  import opened Findings
  import opened TemplateFacts

  lemma OneColumn(n: string)
    ensures Join(", ", QuoteAll([n])) == "`" + n + "`"
  {
    var q := QuoteAll([n]);
    assert |q| == 1 && q[0] == Quote(n);
  }

  lemma TwoArgs()
    ensures ArgsString(2) == "?, ?"
  {
    assert Repeat("?", 2) == ["?", "?"];
  }

  /** The statements of a class with one ordinary field `f`. */
  lemma OneFieldSelect(table: string, pk: string, f: string)
    ensures SelectTemplate(table, pk, [f]) == "select `" + pk + "`, `" + f + "` from `" + table + "`"
  {
    var cols := Join(", ", QuoteAll([f]));
    OneColumn(f);
    assert cols == "`" + f + "`";
    calc {
      SelectTemplate(table, pk, [f]);
      "select `" + pk + "`, " + cols + " from `" + table + "`";
      "select `" + pk + "`, " + ("`" + f + "`") + " from `" + table + "`";
    }
  }

  lemma OneFieldInsert(table: string, pk: string, f: string)
    ensures InsertTemplate(table, pk, [f]) ==
      "insert into `" + table + "` (`" + f + "`, `" + pk + "`) values (?, ?)"
  {
    var cols := Join(", ", QuoteAll([f]));
    OneColumn(f);
    TwoArgs();
    assert |[f]| + 1 == 2;
    calc {
      InsertTemplate(table, pk, [f]);
      "insert into `" + table + "` (" + (cols + ", `" + pk + "`") + ") values (" + ArgsString(2) + ")";
      "insert into `" + table + "` (" + ("`" + f + "`, `" + pk + "`") + ") values (" + "?, ?" + ")";
    }
  }

  lemma OneFieldUpdate(table: string, pk: string, f: string, m: map<string, Field>)
    ensures UpdateTemplate(table, pk, [f], m) ==
      "update `" + table + "` set `" + ColumnName(m, f) + "`=? where `" + pk + "`=?"
  {
    var asg := Assignments(m, [f]);
    assert |asg| == 1 && asg[0] == "`" + ColumnName(m, f) + "`=?";
    assert Join(", ", asg) == "`" + ColumnName(m, f) + "`=?";
    calc {
      UpdateTemplate(table, pk, [f], m);
      "update `" + table + "` set " + Join(", ", asg) + " where `" + pk + "`=?";
      "update `" + table + "` set " + ("`" + ColumnName(m, f) + "`=?") + " where `" + pk + "`=?";
    }
  }

  /** The statements of a class with no ordinary field. */
  lemma NoFieldStatements(table: string, pk: string, m: map<string, Field>)
    ensures SelectTemplate(table, pk, []) == "select `" + pk + "`,  from `" + table + "`"
    ensures InsertTemplate(table, pk, []) == "insert into `" + table + "` (, `" + pk + "`) values (?)"
    ensures UpdateTemplate(table, pk, [], m) == "update `" + table + "` set  where `" + pk + "`=?"
  {
    assert QuoteAll([]) == [];
    assert Join(", ", []) == "";
    assert Repeat("?", 1) == ["?"];
    assert Assignments(m, []) == [];
    assert ColumnList([], pk) == ", `" + pk + "`";
  }

  /** class User(Model): __table__ = 'users'; id = StringField(primary_key=True, default=next_id);
      name = StringField(default='anon') */
  const UserAttrs: Namespace := [
    ("__table__", Text("users")),
    ("id", FieldAttr(StringField(primaryKey := true, default := Generator(0)))),
    ("name", FieldAttr(StringField(default := Literal(Str("anon")))))
  ]

  lemma UserNames()
    ensures WellFormed(UserAttrs)
    ensures PrimaryKeyNames(UserAttrs) == ["id"]
    ensures OrdinaryNames(UserAttrs) == ["name"]
    ensures FieldMappings(UserAttrs) == map["id" := UserAttrs[1].1.field, "name" := UserAttrs[2].1.field]
    ensures TableName("User", UserAttrs) == "users"
  {
    var a := UserAttrs;
    var a2 := a[..2];
    var a1 := a2[..1];
    assert a2 == [a[0], a[1]];
    assert a1 == [a[0]];
    assert a1[..0] == [];
    assert !IsPrimaryKey(a[0].1) && !IsOrdinary(a[0].1);
    assert IsPrimaryKey(a[1].1) && !IsOrdinary(a[1].1);
    assert !IsPrimaryKey(a[2].1) && IsOrdinary(a[2].1);
    assert Selected(a1, IsPrimaryKey) == [];
    assert Selected(a1, IsOrdinary) == [];
    assert Selected(a2, IsPrimaryKey) == ["id"];
    assert Selected(a2, IsOrdinary) == [];
    assert FieldMappings(a1) == map[];
    assert NamespaceGet(a, "__table__") == Some(Text("users"));
  }

  lemma UsersSelect()
    ensures SelectTemplate("users", "id", ["name"]) == "select `id`, `name` from `users`"
  {
    OneFieldSelect("users", "id", "name");
  }

  lemma UsersInsert()
    ensures InsertTemplate("users", "id", ["name"]) == "insert into `users` (`name`, `id`) values (?, ?)"
  {
    OneFieldInsert("users", "id", "name");
  }

  lemma UsersUpdate(m: map<string, Field>)
    requires ColumnName(m, "name") == "name"
    ensures UpdateTemplate("users", "id", ["name"], m) == "update `users` set `name`=? where `id`=?"
  {
    OneFieldUpdate("users", "id", "name", m);
  }

  /** The `users` schema and its four statements. */
  lemma UsersSchema()
    ensures Compile("User", UserAttrs).Compiled?
    ensures var s := Compile("User", UserAttrs).schema;
      && s.table == "users" && s.primaryKey == "id" && s.fields == ["name"]
      && s.select == "select `id`, `name` from `users`"
      && s.insert == "insert into `users` (`name`, `id`) values (?, ?)"
      && s.update == "update `users` set `name`=? where `id`=?"
      && s.delete == "delete from `users` where `id`=?"
  {
    UserNames();
    CompileByPrimaryKeys("User", UserAttrs);
    var m := FieldMappings(UserAttrs);
    assert ColumnName(m, "name") == "name";
    UsersSelect();
    UsersInsert();
    UsersUpdate(m);
  }

  /** As written, defining the `User` class raises NameError. */
  lemma UsersAsWritten()
    ensures CompileAsWritten("User", UserAttrs) == Failed(NameError("create_args_string"))
  {
    UserNames();
    RegistrationAsWrittenRaises("User", UserAttrs);
    CompileByPrimaryKeys("User", UserAttrs);
  }

  /** Saving a new `User` whose `name` is unset sends `["anon", <id>]`,
      calls the id generator once, and leaves both values on the record; the
      row it inserts reads back `name == "anon"`. */
  lemma UsersSave(produce: nat -> Value)
    ensures Compile("User", UserAttrs).Compiled?
    ensures var s := Compile("User", UserAttrs).schema;
      && InsertColumns(s) == ["name", "id"]
      && ResolveAll(s.mappings, map[], InsertColumns(s), produce) ==
           Ok(Batch([Str("anon"), produce(0)], map["name" := Str("anon"), "id" := produce(0)], ["id"]))
    ensures var row := RowOf(["name", "id"], [Str("anon"), produce(0)]);
      "name" in row && row["name"] == Str("anon")
  {
    UsersSchema();
    UserNames();
    CompileByPrimaryKeys("User", UserAttrs);
    var s := Compile("User", UserAttrs).schema;
    assert InsertColumns(s) == ["name", "id"];
    UsersResolve(s.mappings, produce);
    UsersRow(produce);
  }

  lemma UsersResolve(m: map<string, Field>, produce: nat -> Value)
    requires m == map["id" := UserAttrs[1].1.field, "name" := UserAttrs[2].1.field]
    ensures ResolveAll(m, map[], ["name", "id"], produce) ==
      Ok(Batch([Str("anon"), produce(0)], map["name" := Str("anon"), "id" := produce(0)], ["id"]))
  {
    var cols := ["name", "id"];
    var store1 := map["name" := Str("anon")];
    var none: seq<string> := [];
    var first := ResolveAll(m, map[], cols[..1], produce);
    assert first == Ok(Batch([Str("anon")], store1, none)) by {
      assert cols[..1] == ["name"] && cols[..1][..0] == [];
      assert ResolveAll(m, map[], [], produce) == Ok(Batch([], map[], none));
      assert Resolve(m, map[], "name", produce) == Ok(Resolution(Str("anon"), store1, false));
      assert [] + [Str("anon")] == [Str("anon")] && none + [] == none;
    }
    assert Resolve(m, store1, "id", produce) == Ok(Resolution(produce(0), store1["id" := produce(0)], true));
    assert none + ["id"] == ["id"];
    assert [Str("anon")] + [produce(0)] == [Str("anon"), produce(0)];
  }

  lemma UsersRow(produce: nat -> Value)
    ensures var row := RowOf(["name", "id"], [Str("anon"), produce(0)]);
      "name" in row && row["name"] == Str("anon")
  {
    var cols, values := ["name", "id"], [Str("anon"), produce(0)];
    assert RowOf(cols, values) == RowOf(["name"], [Str("anon")])["id" := produce(0)] by {
      assert values[..1] == [Str("anon")] && cols[..1] == ["name"];
    }
    assert RowOf(["name"], [Str("anon")]) == map["name" := Str("anon")] by {
      assert ["name"][..0] == [] && [Str("anon")][..0] == [];
    }
  }

  /** class Account(Model): uid = StringField(primary_key=True);
      name = StringField(name='user_name') */
  const RenamedAttrs: Namespace := [
    ("uid", FieldAttr(StringField(primaryKey := true))),
    ("name", FieldAttr(StringField(name := Some("user_name"))))
  ]

  lemma RenamedNames()
    ensures WellFormed(RenamedAttrs)
    ensures PrimaryKeyNames(RenamedAttrs) == ["uid"]
    ensures OrdinaryNames(RenamedAttrs) == ["name"]
    ensures FieldMappings(RenamedAttrs) == map["uid" := RenamedAttrs[0].1.field, "name" := RenamedAttrs[1].1.field]
    ensures TableName("Account", RenamedAttrs) == "Account"
  {
    var a := RenamedAttrs;
    var a1 := a[..1];
    assert a1 == [a[0]];
    assert a1[..0] == [];
    assert IsPrimaryKey(a[0].1) && !IsPrimaryKey(a[1].1) && IsOrdinary(a[1].1);
    assert Selected(a1, IsPrimaryKey) == ["uid"];
    assert Selected(a1, IsOrdinary) == [];
    NamespaceGetMissing(a, "__table__");
  }

  lemma RenamedSelect()
    ensures SelectTemplate("Account", "uid", ["name"]) == "select `uid`, `name` from `Account`"
  {
    OneFieldSelect("Account", "uid", "name");
  }

  lemma RenamedInsert()
    ensures InsertTemplate("Account", "uid", ["name"]) == "insert into `Account` (`name`, `uid`) values (?, ?)"
  {
    OneFieldInsert("Account", "uid", "name");
  }

  lemma RenamedUpdate(m: map<string, Field>)
    requires ColumnName(m, "name") == "user_name"
    ensures UpdateTemplate("Account", "uid", ["name"], m) == "update `Account` set `user_name`=? where `uid`=?"
  {
    OneFieldUpdate("Account", "uid", "name", m);
  }

  /** SELECT and INSERT name the column by its attribute, UPDATE by the
      declared column name: the statements disagree on the column. */
  lemma RenamedColumn()
    ensures Compile("Account", RenamedAttrs).Compiled?
    ensures var s := Compile("Account", RenamedAttrs).schema;
      && s.select == "select `uid`, `name` from `Account`"
      && s.insert == "insert into `Account` (`name`, `uid`) values (?, ?)"
      && s.update == "update `Account` set `user_name`=? where `uid`=?"
  {
    RenamedNames();
    CompileByPrimaryKeys("Account", RenamedAttrs);
    var m := FieldMappings(RenamedAttrs);
    assert ColumnName(m, "name") == "user_name";
    RenamedSelect();
    RenamedInsert();
    RenamedUpdate(m);
  }

  /** class Tag(Model): id = StringField(primary_key=True) */
  const TagAttrs: Namespace := [("id", FieldAttr(StringField(primaryKey := true)))]

  lemma TagNames()
    ensures WellFormed(TagAttrs)
    ensures PrimaryKeyNames(TagAttrs) == ["id"]
    ensures OrdinaryNames(TagAttrs) == []
    ensures TableName("Tag", TagAttrs) == "Tag"
  {
    assert TagAttrs[..0] == [];
    assert IsPrimaryKey(TagAttrs[0].1);
    NamespaceGetMissing(TagAttrs, "__table__");
  }

  lemma TagSelect()
    ensures SelectTemplate("Tag", "id", []) == "select `id`,  from `Tag`"
  {
    NoFieldStatements("Tag", "id", map[]);
  }

  lemma TagInsert()
    ensures InsertTemplate("Tag", "id", []) == "insert into `Tag` (, `id`) values (?)"
  {
    NoFieldStatements("Tag", "id", map[]);
  }

  lemma TagUpdate(m: map<string, Field>)
    ensures UpdateTemplate("Tag", "id", [], m) == "update `Tag` set  where `id`=?"
  {
    NoFieldStatements("Tag", "id", m);
  }

  /** A class with only a primary key registers, and its SELECT, INSERT and
      UPDATE keep the text around the (empty) ordinary column list. */
  lemma PrimaryKeyOnly()
    ensures Compile("Tag", TagAttrs).Compiled?
    ensures var s := Compile("Tag", TagAttrs).schema;
      && s.fields == []
      && s.select == "select `id`,  from `Tag`"
      && s.insert == "insert into `Tag` (, `id`) values (?)"
      && s.update == "update `Tag` set  where `id`=?"
  {
    TagNames();
    CompileByPrimaryKeys("Tag", TagAttrs);
    TagSelect();
    TagInsert();
    TagUpdate(FieldMappings(TagAttrs));
  }

  /** class Note(Model): """Who wrote this?""" ; id = StringField(primary_key=True) */
  const NoteAttrs: Namespace := [
    ("__doc__", Text("Who wrote this?")),
    ("id", FieldAttr(StringField(primaryKey := true)))
  ]

  /** A `?` in a docstring reaches no template: the class still registers,
      and its INSERT and DELETE take the arguments `save` and `find` pass. */
  lemma DocstringWithPlaceholder()
    ensures WellFormed(NoteAttrs) && PlaceholderFree("Note", NoteAttrs)
    ensures Compile("Note", NoteAttrs).Compiled?
    ensures var s := Compile("Note", NoteAttrs).schema;
      && Occurrences('?', s.insert) == |s.fields| + 1
      && Occurrences('?', s.update) == |s.fields| + 1
      && Occurrences('?', s.delete) == 1
  {
    var a := NoteAttrs;
    var a1 := a[..1];
    assert a1 == [a[0]];
    assert a1[..0] == [];
    assert !IsPrimaryKey(a[0].1) && IsPrimaryKey(a[1].1);
    assert Selected(a1, IsPrimaryKey) == [];
    assert PrimaryKeyNames(a) == ["id"];
    CompileByPrimaryKeys("Note", a);
    CompiledTemplates("Note", a, Compile("Note", a).schema);
  }
}
