/** What a registration promises. A class namespace is a Python dict whose
    keys are identifiers, so its names are distinct and non-empty; the
    lemmas below rely on that much (`WellFormed`). */
module RegistrarFacts {
  import opened Data
  import opened SqlText
  import opened Registrar

  predicate WellFormed(attrs: Namespace)
  {
    && (forall i :: 0 <= i < |attrs| ==> attrs[i].0 != "")
    && (forall i, j :: 0 <= i < j < |attrs| ==> attrs[i].0 != attrs[j].0)
  }

  /** No name the templates are built from holds a `?`: the class name, the
      names of the field attributes, the declared column names of the
      ordinary fields, and the text of `__table__`. Nothing else in the
      namespace (docstrings, other constants) is constrained. */
  predicate PlaceholderFree(className: string, attrs: Namespace)
  {
    && '?' !in className
    && (forall i :: 0 <= i < |attrs| && attrs[i].1.FieldAttr? ==> '?' !in attrs[i].0)
    && (forall i :: 0 <= i < |attrs| && attrs[i].0 == "__table__" && attrs[i].1.Text? ==>
          '?' !in attrs[i].1.text)
    && (forall i :: 0 <= i < |attrs| && IsOrdinary(attrs[i].1) && attrs[i].1.field.name.Some? ==>
          '?' !in attrs[i].1.field.name.value)
  }

  /** `Selected` lists, in order, exactly the names at the positions
      `SelectedIndices` lists, and those are, increasing, exactly the
      positions `pick` accepts. */
  lemma {:induction false} SelectedIndexed(attrs: Namespace, pick: Attr -> bool)
    ensures |Selected(attrs, pick)| == |SelectedIndices(attrs, pick)|
    ensures forall t :: 0 <= t < |SelectedIndices(attrs, pick)| ==>
      var m := SelectedIndices(attrs, pick)[t];
      m < |attrs| && pick(attrs[m].1) && Selected(attrs, pick)[t] == attrs[m].0
    ensures forall t, u :: 0 <= t < u < |SelectedIndices(attrs, pick)| ==>
      SelectedIndices(attrs, pick)[t] < SelectedIndices(attrs, pick)[u]
    ensures forall m :: 0 <= m < |attrs| && pick(attrs[m].1) ==> m in SelectedIndices(attrs, pick)
  {
    if attrs != [] {
      var n := |attrs| - 1;
      var pre := attrs[..n];
      SelectedIndexed(pre, pick);
      var names, indices := Selected(pre, pick), SelectedIndices(pre, pick);
      var extra := pick(attrs[n].1);
      assert Selected(attrs, pick) == names + if extra then [attrs[n].0] else [];
      assert SelectedIndices(attrs, pick) == indices + if extra then [n] else [];
      forall t | 0 <= t < |indices|
        ensures indices[t] < n && attrs[indices[t]] == pre[indices[t]]
      {
      }
      forall m | 0 <= m < |attrs| && pick(attrs[m].1)
        ensures m in SelectedIndices(attrs, pick)
      {
        if m < n {
          assert pre[m] == attrs[m];
        }
      }
    }
  }

  /** Position of the first attribute named `key`; `|attrs|` when none is. */
  function IndexOf(attrs: Namespace, key: string): nat
  {
    if attrs == [] then 0
    else if attrs[0].0 == key then 0
    else 1 + IndexOf(attrs[1..], key)
  }

  lemma {:induction false} IndexOfName(attrs: Namespace, i: nat)
    requires WellFormed(attrs) && i < |attrs|
    ensures IndexOf(attrs, attrs[i].0) == i
  {
    if i > 0 {
      assert attrs[1..][i - 1] == attrs[i];
      IndexOfName(attrs[1..], i - 1);
    }
  }

  lemma {:induction false} NamespaceGetFinds(attrs: Namespace, i: nat)
    requires WellFormed(attrs) && i < |attrs|
    ensures NamespaceGet(attrs, attrs[i].0) == Some(attrs[i].1)
  {
    if i > 0 {
      assert attrs[1..][i - 1] == attrs[i];
      NamespaceGetFinds(attrs[1..], i - 1);
    }
  }

  lemma {:induction false} NamespaceGetMissing(attrs: Namespace, key: string)
    requires forall i :: 0 <= i < |attrs| ==> attrs[i].0 != key
    ensures NamespaceGet(attrs, key) == None
  {
    if attrs != [] {
      assert attrs[0].0 != key;
      NamespaceGetMissing(attrs[1..], key);
    }
  }

  /** With non-empty names the loop's `primaryKey` test `if primaryKey:` is
      "a primary key was already met": the scan raises exactly at the
      second primary key. */
  lemma {:induction false} ScanOfNamed(pks: seq<string>)
    requires forall t :: 0 <= t < |pks| ==> pks[t] != ""
    ensures ScanPrimaryKeys(pks) ==
      if |pks| == 0 then Seen(None)
      else if |pks| == 1 then Seen(Some(pks[0]))
      else Clash(pks[1])
  {
    if pks != [] {
      var pre := pks[..|pks| - 1];
      ScanOfNamed(pre);
    }
  }

  /** The outcome of a registration, by the positions of the primary-key
      fields. */
  lemma CompileByPrimaryKeys(className: string, attrs: Namespace)
    requires WellFormed(attrs)
    ensures var pks := PrimaryKeyNames(attrs);
      Compile(className, attrs) ==
        if className == "Model" then BaseClass(attrs)
        else if |pks| == 0 then Failed(PrimaryKeyNotFound)
        else if |pks| >= 2 then Failed(DuplicatePrimaryKey(pks[1]))
        else
          var mappings := FieldMappings(attrs);
          Compiled(Build(TableName(className, attrs), mappings, pks[0],
                         OrdinaryNames(attrs), Unmapped(attrs, mappings.Keys)))
  {
    SelectedIndexed(attrs, IsPrimaryKey);
    ScanOfNamed(PrimaryKeyNames(attrs));
  }

  /** The registrar raises "Primary key not found" exactly for a class
      (other than `Model`) none of whose attributes is a primary-key field. */
  lemma RegistrationFailsWithoutPrimaryKey(className: string, attrs: Namespace)
    requires WellFormed(attrs)
    ensures Compile(className, attrs) == Failed(PrimaryKeyNotFound) <==>
      className != "Model" && forall i :: 0 <= i < |attrs| ==> !IsPrimaryKey(attrs[i].1)
  {
    CompileByPrimaryKeys(className, attrs);
    SelectedIndexed(attrs, IsPrimaryKey);
  }

  /** A predicate on positions: `j` holds the second primary-key field
      in declaration order and `i` the first. */
  predicate SecondPrimaryKeyAt(attrs: Namespace, i: int, j: int)
  {
    && 0 <= i < j < |attrs|
    && IsPrimaryKey(attrs[i].1) && IsPrimaryKey(attrs[j].1)
    && forall m :: 0 <= m < j && m != i ==> !IsPrimaryKey(attrs[m].1)
  }

  lemma SecondPrimaryKeyFound(attrs: Namespace)
    requires |PrimaryKeyNames(attrs)| >= 2
    ensures exists i, j :: SecondPrimaryKeyAt(attrs, i, j) && attrs[j].0 == PrimaryKeyNames(attrs)[1]
  {
    var idx := SelectedIndices(attrs, IsPrimaryKey);
    SelectedIndexed(attrs, IsPrimaryKey);
    var i, j := idx[0], idx[1];
    forall m | 0 <= m < j && m != i ensures !IsPrimaryKey(attrs[m].1) {
      if IsPrimaryKey(attrs[m].1) {
        var t :| 0 <= t < |idx| && idx[t] == m;
      }
    }
    assert SecondPrimaryKeyAt(attrs, i, j);
  }

  lemma SecondPrimaryKeyNamed(attrs: Namespace, i: int, j: int)
    requires SecondPrimaryKeyAt(attrs, i, j)
    ensures |PrimaryKeyNames(attrs)| >= 2 && PrimaryKeyNames(attrs)[1] == attrs[j].0
  {
    var idx := SelectedIndices(attrs, IsPrimaryKey);
    SelectedIndexed(attrs, IsPrimaryKey);
    var t :| 0 <= t < |idx| && idx[t] == i;
    var u :| 0 <= u < |idx| && idx[u] == j;
    assert t < u;
  }

  /** The registrar raises "Duplicate primary key for field: k" exactly when
      `k` is the second primary-key field in declaration order. */
  lemma RegistrationRejectsSecondPrimaryKey(className: string, attrs: Namespace, k: string)
    requires WellFormed(attrs)
    ensures Compile(className, attrs) == Failed(DuplicatePrimaryKey(k)) <==>
      className != "Model" && exists i, j :: SecondPrimaryKeyAt(attrs, i, j) && attrs[j].0 == k
  {
    CompileByPrimaryKeys(className, attrs);
    if |PrimaryKeyNames(attrs)| >= 2 {
      SecondPrimaryKeyFound(attrs);
    }
    if exists i, j :: SecondPrimaryKeyAt(attrs, i, j) && attrs[j].0 == k {
      var i, j :| SecondPrimaryKeyAt(attrs, i, j) && attrs[j].0 == k;
      SecondPrimaryKeyNamed(attrs, i, j);
    }
  }

  /** A class other than `Model` is registered exactly when one attribute is
      a primary-key field, and that attribute is `__primary_key__`. */
  lemma RegistrationSucceeds(className: string, attrs: Namespace)
    requires WellFormed(attrs)
    ensures Compile(className, attrs).Compiled? <==>
      className != "Model" &&
      exists p :: 0 <= p < |attrs| && IsPrimaryKey(attrs[p].1) &&
        forall m :: 0 <= m < |attrs| && IsPrimaryKey(attrs[m].1) ==> m == p
    ensures Compile(className, attrs).Compiled? ==>
      forall m :: 0 <= m < |attrs| && IsPrimaryKey(attrs[m].1) ==>
        attrs[m].0 == Compile(className, attrs).schema.primaryKey
  {
    var idx := SelectedIndices(attrs, IsPrimaryKey);
    CompileByPrimaryKeys(className, attrs);
    SelectedIndexed(attrs, IsPrimaryKey);
    if |idx| >= 2 {
      assert IsPrimaryKey(attrs[idx[0]].1) && IsPrimaryKey(attrs[idx[1]].1) && idx[0] != idx[1];
    }
    if |idx| == 1 {
      forall m | 0 <= m < |attrs| && IsPrimaryKey(attrs[m].1) ensures m == idx[0] {
        assert m in idx;
      }
    }
  }

  lemma {:induction false} SelectedMembers(attrs: Namespace, pick: Attr -> bool)
    ensures forall k :: k in Selected(attrs, pick) <==>
      exists i :: 0 <= i < |attrs| && attrs[i].0 == k && pick(attrs[i].1)
  {
    if attrs != [] {
      var pre := attrs[..|attrs| - 1];
      SelectedMembers(pre, pick);
      assert forall i :: 0 <= i < |pre| ==> pre[i] == attrs[i];
    }
  }

  lemma SelectedInOrder(attrs: Namespace, pick: Attr -> bool)
    requires WellFormed(attrs)
    ensures forall t, u :: 0 <= t < u < |Selected(attrs, pick)| ==>
      IndexOf(attrs, Selected(attrs, pick)[t]) < IndexOf(attrs, Selected(attrs, pick)[u])
  {
    var idx := SelectedIndices(attrs, pick);
    SelectedIndexed(attrs, pick);
    forall t, u | 0 <= t < u < |Selected(attrs, pick)|
      ensures IndexOf(attrs, Selected(attrs, pick)[t]) < IndexOf(attrs, Selected(attrs, pick)[u])
    {
      IndexOfName(attrs, idx[t]);
      IndexOfName(attrs, idx[u]);
    }
  }

  /** `__field__` lists exactly the non-primary-key fields, in declaration
      order, each once, and never the primary key. */
  lemma CompiledFields(className: string, attrs: Namespace, s: Schema)
    requires WellFormed(attrs) && Compile(className, attrs) == Compiled(s)
    ensures forall k :: k in s.fields <==>
      exists i :: 0 <= i < |attrs| && attrs[i].0 == k && IsOrdinary(attrs[i].1)
    ensures forall t, u :: 0 <= t < u < |s.fields| ==>
      IndexOf(attrs, s.fields[t]) < IndexOf(attrs, s.fields[u])
    ensures forall t, u :: 0 <= t < u < |s.fields| ==> s.fields[t] != s.fields[u]
    ensures s.primaryKey !in s.fields
  {
    CompileByPrimaryKeys(className, attrs);
    SelectedMembers(attrs, IsOrdinary);
    SelectedMembers(attrs, IsPrimaryKey);
    SelectedInOrder(attrs, IsOrdinary);
    assert s.primaryKey in PrimaryKeyNames(attrs);
  }

  lemma {:induction false} FieldMappingsContents(attrs: Namespace)
    requires WellFormed(attrs)
    ensures forall k :: k in FieldMappings(attrs) <==>
      exists i :: 0 <= i < |attrs| && attrs[i].0 == k && attrs[i].1.FieldAttr?
    ensures forall i :: 0 <= i < |attrs| && attrs[i].1.FieldAttr? ==>
      FieldMappings(attrs)[attrs[i].0] == attrs[i].1.field
  {
    if attrs != [] {
      var pre := attrs[..|attrs| - 1];
      FieldMappingsContents(pre);
      assert forall i :: 0 <= i < |pre| ==> pre[i] == attrs[i];
    }
  }

  /** `__mappings__` holds every field attribute, the primary key included,
      under its attribute name, and nothing else. */
  lemma CompiledMappings(className: string, attrs: Namespace, s: Schema)
    requires WellFormed(attrs) && Compile(className, attrs) == Compiled(s)
    ensures forall k :: k in s.mappings <==>
      exists i :: 0 <= i < |attrs| && attrs[i].0 == k && attrs[i].1.FieldAttr?
    ensures forall i :: 0 <= i < |attrs| && attrs[i].1.FieldAttr? ==>
      s.mappings[attrs[i].0] == attrs[i].1.field
    ensures s.primaryKey in s.mappings && s.mappings[s.primaryKey].primaryKey
    ensures forall f :: f in s.fields ==> f in s.mappings && !s.mappings[f].primaryKey
  {
    FieldMappingsContents(attrs);
    RegistrationSucceeds(className, attrs);
    CompiledFields(className, attrs, s);
    var p :| 0 <= p < |attrs| && IsPrimaryKey(attrs[p].1);
    assert attrs[p].0 == s.primaryKey;
    forall f | f in s.fields ensures f in s.mappings && !s.mappings[f].primaryKey {
      var i :| 0 <= i < |attrs| && attrs[i].0 == f && IsOrdinary(attrs[i].1);
    }
  }

  lemma {:induction false} UnmappedContents(attrs: Namespace, keys: set<string>)
    ensures forall e :: e in Unmapped(attrs, keys) <==> e in attrs && e.0 !in keys
  {
    if attrs != [] {
      var pre := attrs[..|attrs| - 1];
      UnmappedContents(pre, keys);
      assert attrs == pre + [attrs[|attrs| - 1]];
    }
  }

  /** The fields are popped from the class: what is left of the namespace is
      exactly its attributes that are not fields, so reading a field on a
      record falls through to the record's own store. */
  lemma CompiledClassAttrs(className: string, attrs: Namespace, s: Schema)
    requires WellFormed(attrs) && Compile(className, attrs) == Compiled(s)
    ensures forall e :: e in s.classAttrs <==> e in attrs && !e.1.FieldAttr?
    ensures forall k :: k in s.mappings ==> forall e :: e in s.classAttrs ==> e.0 != k
  {
    FieldMappingsContents(attrs);
    UnmappedContents(attrs, FieldMappings(attrs).Keys);
    forall e | e in attrs
      ensures e.0 in FieldMappings(attrs) <==> e.1.FieldAttr?
    {
      var i :| 0 <= i < |attrs| && attrs[i] == e;
    }
  }

  /** The table is the class's `__table__` when it is a non-empty string,
      otherwise the class name. */
  lemma CompiledTable(className: string, attrs: Namespace, s: Schema)
    requires WellFormed(attrs) && Compile(className, attrs) == Compiled(s)
    ensures forall i :: 0 <= i < |attrs| && attrs[i].0 == "__table__" && attrs[i].1.Text? ==>
      s.table == if attrs[i].1.text != "" then attrs[i].1.text else className
    ensures (forall i :: 0 <= i < |attrs| ==> attrs[i].0 != "__table__") ==> s.table == className
  {
    forall i | 0 <= i < |attrs| && attrs[i].0 == "__table__" && attrs[i].1.Text?
      ensures s.table == if attrs[i].1.text != "" then attrs[i].1.text else className
    {
      NamespaceGetFinds(attrs, i);
    }
    if forall i :: 0 <= i < |attrs| ==> attrs[i].0 != "__table__" {
      NamespaceGetMissing(attrs, "__table__");
    }
  }
}
