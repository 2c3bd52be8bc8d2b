/** The statement templates the registrar builds: their column order and
    their placeholder counts. The counts hold when no name the templates
    are built from holds a `?`. */
module TemplateFacts {
  import opened Data
  import opened SqlText
  import opened Registrar
  import opened RegistrarFacts

  /** INSERT names the ordinary columns in `__field__` order and then the
      primary key, and gives as many placeholders as it names columns. */
  lemma InsertColumnOrder(table: string, pk: string, fields: seq<string>)
    requires |fields| > 0
    ensures InsertTemplate(table, pk, fields) ==
      "insert into `" + table + "` (" + Join(", ", QuoteAll(fields + [pk])) + ") values ("
        + ArgsString(|fields + [pk]|) + ")"
  {
    var cols := QuoteAll(fields);
    assert QuoteAll(fields + [pk]) == cols + [Quote(pk)];
    JoinSnoc(", ", cols, Quote(pk));
    assert ColumnList(fields, pk) == Join(", ", cols) + ", " + Quote(pk);
    assert |fields + [pk]| == |fields| + 1;
  }

  /** INSERT holds one `?` per ordinary field and one for the primary key. */
  lemma InsertPlaceholders(table: string, pk: string, fields: seq<string>)
    requires '?' !in table && '?' !in pk
    requires forall i :: 0 <= i < |fields| ==> '?' !in fields[i]
    ensures Occurrences('?', InsertTemplate(table, pk, fields)) == |fields| + 1
  {
    QuotedNamesHaveNoPlaceholder(fields);
    ArgsStringCount(|fields| + 1);
    var head := "insert into `" + table + "` (" + ColumnList(fields, pk) + ") values (";
    assert '?' !in head;
    OccurrencesAbsent('?', head);
    OccurrencesAppend('?', head, ArgsString(|fields| + 1));
    OccurrencesAppend('?', head + ArgsString(|fields| + 1), ")");
  }

  /** UPDATE holds one `` `col`=? `` per ordinary field and one final `?`
      for the primary key. */
  lemma UpdatePlaceholders(table: string, pk: string, fields: seq<string>, mappings: map<string, Field>)
    requires '?' !in table && '?' !in pk
    requires forall i :: 0 <= i < |fields| ==> '?' !in ColumnName(mappings, fields[i])
    ensures Occurrences('?', UpdateTemplate(table, pk, fields, mappings)) == |fields| + 1
  {
    var items := Assignments(mappings, fields);
    forall i | 0 <= i < |items| ensures Occurrences('?', items[i]) == 1 {
      var col := ColumnName(mappings, fields[i]);
      OccurrencesAbsent('?', col);
      var q1 := "`" + col;
      OccurrencesAppend('?', "`", col);
      OccurrencesAppend('?', q1, "`=?");
    }
    JoinOccurrences('?', ", ", items, 1);
    var head := "update `" + table + "` set ";
    var tail := " where `" + pk + "`";
    assert '?' !in head && '?' !in tail;
    OccurrencesAbsent('?', head);
    OccurrencesAbsent('?', tail);
    OccurrencesAppend('?', head, Join(", ", items));
    OccurrencesAppend('?', head + Join(", ", items), tail);
    OccurrencesAppend('?', head + Join(", ", items) + tail, "=?");
    assert UpdateTemplate(table, pk, fields, mappings) == head + Join(", ", items) + tail + "=?";
  }

  /** DELETE holds exactly the one `?` of the primary-key equality. */
  lemma DeletePlaceholders(table: string, pk: string)
    requires '?' !in table && '?' !in pk
    ensures Occurrences('?', DeleteTemplate(table, pk)) == 1
  {
    OccurrencesAbsent('?', table);
    OccurrencesAbsent('?', pk);
    var s1 := "delete from `" + table;
    OccurrencesAppend('?', "delete from `", table);
    var s2 := s1 + "` where `";
    OccurrencesAppend('?', s1, "` where `");
    var s3 := s2 + pk;
    OccurrencesAppend('?', s2, pk);
    OccurrencesAppend('?', s3, "`=?");
  }

  /** SELECT holds no placeholder: the caller appends the WHERE clause. */
  lemma SelectPlaceholders(table: string, pk: string, fields: seq<string>)
    requires '?' !in table && '?' !in pk
    requires forall i :: 0 <= i < |fields| ==> '?' !in fields[i]
    ensures '?' !in SelectTemplate(table, pk, fields)
  {
    QuotedNamesHaveNoPlaceholder(fields);
  }

  /** The table name a registration picks is the class name or a `__table__`
      string of the namespace. */
  lemma CompiledTableSource(className: string, attrs: Namespace, s: Schema)
    requires WellFormed(attrs) && Compile(className, attrs) == Compiled(s)
    ensures s.table == className ||
      exists i :: 0 <= i < |attrs| && attrs[i].0 == "__table__" && attrs[i].1 == Text(s.table)
  {
    if s.table != className {
      if forall i :: 0 <= i < |attrs| ==> attrs[i].0 != "__table__" {
        NamespaceGetMissing(attrs, "__table__");
      }
      var i :| 0 <= i < |attrs| && attrs[i].0 == "__table__";
      NamespaceGetFinds(attrs, i);
    }
  }

  /** Every name a registered schema's templates are built from comes from
      the class, so it holds no `?` when the class's names hold none. */
  lemma CompiledNamesPlaceholderFree(className: string, attrs: Namespace, s: Schema)
    requires WellFormed(attrs) && PlaceholderFree(className, attrs)
    requires Compile(className, attrs) == Compiled(s)
    ensures '?' !in s.table && '?' !in s.primaryKey
    ensures forall i :: 0 <= i < |s.fields| ==> '?' !in s.fields[i]
    ensures forall i :: 0 <= i < |s.fields| ==> '?' !in ColumnName(s.mappings, s.fields[i])
  {
    CompiledTableSource(className, attrs, s);
    RegistrationSucceeds(className, attrs);
    CompiledFields(className, attrs, s);
    CompiledMappings(className, attrs, s);
    var p :| 0 <= p < |attrs| && IsPrimaryKey(attrs[p].1);
    assert attrs[p].0 == s.primaryKey;
    forall i | 0 <= i < |s.fields|
      ensures '?' !in s.fields[i] && '?' !in ColumnName(s.mappings, s.fields[i])
    {
      assert s.fields[i] in s.fields;
      var j :| 0 <= j < |attrs| && attrs[j].0 == s.fields[i] && IsOrdinary(attrs[j].1);
      assert s.mappings[s.fields[i]] == attrs[j].1.field;
    }
  }

  /** A registered schema's INSERT and UPDATE take one argument per column of
      `__field__` plus the primary key, DELETE takes one, and SELECT none:
      exactly the argument lists `save` and `find` pass. */
  lemma CompiledTemplates(className: string, attrs: Namespace, s: Schema)
    requires WellFormed(attrs) && PlaceholderFree(className, attrs)
    requires Compile(className, attrs) == Compiled(s)
    ensures Occurrences('?', s.insert) == |s.fields| + 1
    ensures Occurrences('?', s.update) == |s.fields| + 1
    ensures Occurrences('?', s.delete) == 1
    ensures '?' !in s.select
  {
    CompiledNamesPlaceholderFree(className, attrs, s);
    CompileByPrimaryKeys(className, attrs);
    InsertPlaceholders(s.table, s.primaryKey, s.fields);
    UpdatePlaceholders(s.table, s.primaryKey, s.fields, s.mappings);
    DeletePlaceholders(s.table, s.primaryKey);
    SelectPlaceholders(s.table, s.primaryKey, s.fields);
  }
}
