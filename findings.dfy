/** Three places where `www/ORM.py` as written cannot do what the rest of
    the file evidently means, each modelled as written next to the
    corrected behaviour the rest of the model uses:

      - line 123 calls `create_args_string`, which is defined nowhere, so
        every registration that gets that far raises NameError;
      - line 156 reads `cls.primary_key__`, while the registrar stores
        `__primary_key__` (line 119);
      - line 162 reads `self.__fields__`, while the registrar stores
        `__field__` (line 120).

    Lookups on the class see what the registrar stored plus the class's
    own non-field attributes; the attributes `Model`, `dict` and `object`
    contribute are not modelled (none of them is named `primary_key__` or
    `__fields__`). */
module Findings {
  import opened Data
  import opened Registrar
  import opened RegistrarFacts
  import opened Records
  import opened RecordFacts

  /** `ModelMetaclass.__new__` as written: the loop and its checks run as in
      `Compile`, then evaluating line 123 raises NameError. */
  function CompileAsWritten(className: string, attrs: Namespace): Registration
  {
    if className == "Model" then BaseClass(attrs)
    else
      match ScanPrimaryKeys(PrimaryKeyNames(attrs))
      case Clash(k) => Failed(DuplicatePrimaryKey(k))
      case Seen(p) =>
        if !Truthy(p) then Failed(PrimaryKeyNotFound)
        else Failed(NameError("create_args_string"))
  }

  /** As written, no class derived from `Model` can be defined: exactly the
      classes the corrected registrar accepts (one primary-key field) raise
      NameError instead, and every other outcome is unchanged. */
  lemma RegistrationAsWrittenRaises(className: string, attrs: Namespace)
    requires WellFormed(attrs)
    ensures CompileAsWritten(className, attrs) == Failed(NameError("create_args_string")) <==>
      className != "Model" &&
      exists p :: 0 <= p < |attrs| && IsPrimaryKey(attrs[p].1) &&
        forall m :: 0 <= m < |attrs| && IsPrimaryKey(attrs[m].1) ==> m == p
    ensures !CompileAsWritten(className, attrs).Compiled?
    ensures !Compile(className, attrs).Compiled? ==> CompileAsWritten(className, attrs) == Compile(className, attrs)
  {
    RegistrationSucceeds(className, attrs);
  }

  /** The string value of a class attribute of a registered class: what the
      registrar stored, else a non-field attribute of the class body, else
      AttributeError. (`__mappings__` and `__field__` hold a dict and a
      list, not strings.) */
  function ClassAttribute(s: Schema, name: string): Result<string>
    requires name != "__mappings__" && name != "__field__"
  {
    if name == "__table__" then Ok(s.table)
    else if name == "__primary_key__" then Ok(s.primaryKey)
    else if name == "__select__" then Ok(s.select)
    else if name == "__insert__" then Ok(s.insert)
    else if name == "__update__" then Ok(s.update)
    else if name == "__delete__" then Ok(s.delete)
    else
      match NamespaceGet(s.classAttrs, name)
      case Some(Text(t)) => Ok(t)
      case _ => Err(AttributeError(name))
  }

  /** A class attribute the class body does not declare and the registrar
      does not set is missing. */
  lemma {:induction false} UndeclaredClassAttribute(className: string, attrs: Namespace, s: Schema, name: string)
    requires WellFormed(attrs) && Compile(className, attrs) == Compiled(s)
    requires name !in {"__table__", "__primary_key__", "__select__", "__insert__", "__update__", "__delete__",
                       "__mappings__", "__field__"}
    requires forall i :: 0 <= i < |attrs| ==> attrs[i].0 != name
    ensures ClassAttribute(s, name) == Err(AttributeError(name))
  {
    CompiledClassAttrs(className, attrs, s);
    forall i | 0 <= i < |s.classAttrs| ensures s.classAttrs[i].0 != name {
      assert s.classAttrs[i] in s.classAttrs;
    }
    NamespaceGetMissing(s.classAttrs, name);
  }

  /** The statement `find` builds as written, from `cls.primary_key__`. */
  function FindStatementAsWritten(s: Schema): Result<string>
  {
    match ClassAttribute(s, "primary_key__")
    case Err(e) => Err(e)
    case Ok(k) => Ok(s.select + " where `" + k + "`=?")
  }

  /** As written, `find` raises AttributeError on every registered class that
      does not itself declare `primary_key__`, before any statement reaches
      the driver; reading `__primary_key__`, as the registrar stores it,
      gives the statement `Records.FindStatement` builds. */
  lemma FindAsWrittenRaises(className: string, attrs: Namespace, s: Schema)
    requires WellFormed(attrs) && Compile(className, attrs) == Compiled(s)
    requires forall i :: 0 <= i < |attrs| ==> attrs[i].0 != "primary_key__"
    ensures FindStatementAsWritten(s) == Err(AttributeError("primary_key__"))
    ensures ClassAttribute(s, "__primary_key__") == Ok(s.primaryKey)
    ensures FindStatement(s) == s.select + " where `" + ClassAttribute(s, "__primary_key__").value + "`=?"
  {
    UndeclaredClassAttribute(className, attrs, s, "primary_key__");
  }

  /** Iterating a string yields its one-character strings. */
  function Chars(t: string): seq<string>
  {
    seq(|t|, i requires 0 <= i < |t| => [t[i]])
  }

  /** The argument list `save` builds as written: `self.__fields__` is looked
      up on the class and then, through `__getattr__`, in the record; only a
      string found there could be iterated, one character per key. */
  function SaveArgumentsAsWritten(s: Schema, store: map<string, Value>, produce: nat -> Value): Result<Batch>
  {
    var pk := [s.primaryKey];
    match ClassAttribute(s, "__fields__")
    case Ok(t) => ResolveAll(s.mappings, store, Chars(t) + pk, produce)
    case Err(_) =>
      if "__fields__" !in store then Err(AttributeError("__fields__"))
      else
        match store["__fields__"]
        case Str(t) => ResolveAll(s.mappings, store, Chars(t) + pk, produce)
        case _ => Err(TypeError("__fields__"))
  }

  /** As written, `save` raises AttributeError on every record that holds no
      `__fields__` key, of every registered class that does not declare
      `__fields__`, before any statement reaches the driver; reading
      `__field__`, as the registrar stores it, always reaches the driver. */
  lemma SaveAsWrittenRaises(className: string, attrs: Namespace, s: Schema,
                            store: map<string, Value>, produce: nat -> Value)
    requires WellFormed(attrs) && Compile(className, attrs) == Compiled(s)
    requires forall i :: 0 <= i < |attrs| ==> attrs[i].0 != "__fields__"
    requires "__fields__" !in store
    ensures SaveArgumentsAsWritten(s, store, produce) == Err(AttributeError("__fields__"))
    ensures ResolveAll(s.mappings, store, InsertColumns(s), produce).Ok?
  {
    UndeclaredClassAttribute(className, attrs, s, "__fields__");
    SaveSendsResolvedValues(className, attrs, s, store, produce);
  }
}
