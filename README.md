# A verified model of the webapp ORM (`www/ORM.py`)

The repository's ORM maps Python classes onto MySQL tables. This project
models its core in Dafny and proves what the code promises.

- **Schema registrar.** `ModelMetaclass.__new__` runs once for every class
  derived from `Model`. It walks the class body in declaration order. It
  collects the `Field` attributes, finds the single primary key, picks the
  table name, pops the fields from the class, and stores four statement
  templates (SELECT, INSERT, UPDATE, DELETE) with `?` placeholders.
  `Registrar.Compile` says what one registration yields.
  `Registrar.Register` is the loop itself, proved to yield exactly that.
- **Record.** `Model` is a dict whose attribute reads and writes go to the
  dict. `Records.Record` is a class over a `map<string, Value>` store:
  - `__getattr__`, `__setattr__`, `getValue` and `getValueOrDefault` are
    its members;
  - `save` builds the INSERT argument list;
  - `find` turns the first row of its SELECT into a record.

  `Records.Resolve` and `Records.ResolveAll` are the functions these
  methods are proved against.
- **Statement boundary.** `select` and `execute` hand the driver the
  template with `?` replaced by `%s`, plus the argument list (`Executor.Bind`).
  `select` truncates the driver's rows to `size` when `size` is truthy
  (`Executor.Fetch`).

A field default is `Literal(v)` (`default=None` is `Literal(Null)`, meaning
no default) or `Generator(g)`, a zero-argument callable. What the callable
returns is the caller-supplied `produce(g)`. The record keeps a ghost log of
the keys whose callable was called, so "resolved once, then cached" can be
stated. The database is not modelled:
- `find` receives the rows its statement matches;
- `save` receives the affected-row count of its INSERT.

The lemmas about registration rely on `RegistrarFacts.WellFormed`: attribute
names are distinct and non-empty, as the keys of a Python class namespace
are. The placeholder counts also rely on `RegistrarFacts.PlaceholderFree`:
none of the class name, the field attribute names, the declared column
names of the ordinary fields and the text of `__table__` contains a `?`.
Nothing else in the class body is constrained: a docstring holding a `?`
is fine (`UsersExample.DocstringWithPlaceholder`).

In these places the model follows the code as written:
- The table override is used only when `__table__` is truthy. An empty
  string falls back to the class name.
- `__getattr__` raises AttributeError for any key missing from the record,
  a declared field or not.
- `getValueOrDefault` raises KeyError for a key that is unset and is not
  a field (when no class attribute of that name is found first; see
  "## Left out").
- The column name in UPDATE is `field.name or attribute`, while SELECT and
  INSERT always use the attribute name (`UsersExample.RenamedColumn`).

## Model

| member | source | states |
|---|---|---|
| SqlText.ToDriver | www/ORM.py:43 | `sql.replace('?','%s')` leaves no `?`, lengthens the text by one per `?`, and adds exactly one `%` per `?` |
| SqlText.DriverRoundTrip | www/ORM.py:63 | for a template with no `%` of its own, the `?` template is recovered from what the driver receives |
| SqlText.ToDriverAppend | www/ORM.py:43 | the translation distributes over concatenation |
| SqlText.ToDriverIdentity | www/ORM.py:63 | text with no `?` is passed to the driver unchanged |
| SqlText.JoinSnoc | www/ORM.py:116-123 | `', '.join` of one more part appends the separator and that part |
| SqlText.JoinOccurrences | www/ORM.py:124 | joining parts that hold `each` copies of a character (absent from the separator) holds `each` copies per part |
| SqlText.ArgsStringCount | www/ORM.py:123 | the `create_args_string(n)` placeholder list holds exactly n `?` |
| SqlText.QuotedNamesHaveNoPlaceholder | www/ORM.py:116 | backtick-quoting and joining names that hold no `?` introduces none |
| Executor.Bind | www/ORM.py:56-73 | `execute`/`select` pass the argument list unchanged and a translated statement with no `?`; with no `%` in the template, one `%` per `?` and the template recoverable |
| Executor.Fetch | www/ORM.py:45-48 | `fetchmany(size)` for truthy `size` yields the first `min(size, rows)` rows; None or 0 yields all rows; the result is always a prefix |
| Registrar.StringField | www/ORM.py:85-87 | `StringField(name=None, primary_key=False, default=None, ddl='varchar(100)')`: a `Field` whose column type is `ddl`, with the same four defaults |
| Registrar.Compile | www/ORM.py:89-126 | what one registration yields; its outcomes are characterised by `RegistrarFacts.CompileByPrimaryKeys`, `RegistrationSucceeds`, `CompiledFields`, `CompiledMappings` and `CompiledClassAttrs`, and `Registrar.Register` is proved equal to it |
| Registrar.TableName | www/ORM.py:95 | `attrs.get('__table__', None) or name`; its properties are `RegistrarFacts.CompiledTable` and `TemplateFacts.CompiledTableSource` |
| Registrar.SelectTemplate | www/ORM.py:122 | the SELECT text; `TemplateFacts.SelectPlaceholders` shows it takes no argument |
| Registrar.ColumnList | www/ORM.py:116-123 | the INSERT column list; `TemplateFacts.InsertColumnOrder` shows it quotes `__field__` and then the primary key |
| Registrar.InsertTemplate | www/ORM.py:123 | the INSERT text; `TemplateFacts.InsertColumnOrder` and `InsertPlaceholders` show one `?` per listed column |
| Registrar.ColumnName | www/ORM.py:124 | `mappings.get(f).name or f`; `UsersExample.RenamedColumn` shows UPDATE then disagrees with SELECT and INSERT |
| Registrar.UpdateTemplate | www/ORM.py:124 | the UPDATE text; `TemplateFacts.UpdatePlaceholders` shows one `?` per ordinary field plus the primary key |
| Registrar.DeleteTemplate | www/ORM.py:125 | the DELETE text; `TemplateFacts.DeletePlaceholders` shows it takes one argument |
| SqlText.ArgsString | www/ORM.py:123 | the intended `create_args_string(n)`; `SqlText.ArgsStringCount` shows it holds exactly n `?` |
| Records.ResolveAll | www/ORM.py:162-163 | `getValueOrDefault` over a key list, each on the store the previous one left; `RecordFacts.ResolveAllPointwise` reduces it to `Resolve` key by key and `Records.ClosedOnError` stops it at the first KeyError |
| Records.FindStatement | www/ORM.py:156 | the statement `find` sends, as intended; `RecordFacts.FindBindsOneValue` shows it takes one argument |
| Findings.CompileAsWritten | www/ORM.py:89-126 | registration as written; `Findings.RegistrationAsWrittenRaises` compares it with `Registrar.Compile` |
| Findings.ClassAttribute | www/ORM.py:114-125 | a string attribute looked up on a registered class: what the registrar set, else a non-field attribute of the class body, else AttributeError; used by `Findings.UndeclaredClassAttribute` |
| Findings.FindStatementAsWritten | www/ORM.py:156 | the statement `find` builds as written; `Findings.FindAsWrittenRaises` shows it raises |
| Findings.SaveArgumentsAsWritten | www/ORM.py:162 | the argument list `save` builds as written; `Findings.SaveAsWrittenRaises` shows it raises |
| Registrar.ScanAttributes | www/ORM.py:101-111 | the attribute loop ends in the primary-key scan of the attributes in order (a second primary key stops it), and when it completes holds exactly the field mappings and the ordinary field names in declaration order |
| Registrar.PopFields | www/ORM.py:114-115 | popping every mapped key one by one leaves exactly the attributes whose names are not mapped, in order |
| Registrar.Register | www/ORM.py:89-126 | the metaclass loop and its pops yield exactly `Compile`: base class untouched, duplicate or missing primary key raised, otherwise the compiled schema |
| Registrar.ClashIsFinal | www/ORM.py:105-108 | once the loop has raised on a second primary key, the rest of the namespace does not change the outcome |
| Registrar.UnmappedTwice | www/ORM.py:114-115 | popping one set of keys after another pops their union |
| RegistrarFacts.CompileByPrimaryKeys | www/ORM.py:101-113 | the outcome by the primary-key attribute names: none raises "not found", two or more raise on the second, one compiles |
| RegistrarFacts.RegistrationFailsWithoutPrimaryKey | www/ORM.py:112-113 | "Primary key not found" is raised exactly when no attribute is a primary-key `Field` (both directions) |
| RegistrarFacts.RegistrationRejectsSecondPrimaryKey | www/ORM.py:105-108 | "Duplicate primary key for field: k" is raised exactly when k is the second primary-key field in declaration order |
| RegistrarFacts.RegistrationSucceeds | www/ORM.py:101-113 | a class other than `Model` registers exactly when one attribute is a primary-key field, and `__primary_key__` names it |
| RegistrarFacts.CompiledFields | www/ORM.py:101-120 | `__field__` holds exactly the non-primary-key field names, in declaration order, each once, never the primary key |
| RegistrarFacts.CompiledMappings | www/ORM.py:101-117 | `__mappings__` holds every field attribute under its name, the primary key included, and nothing else |
| RegistrarFacts.CompiledClassAttrs | www/ORM.py:114-115 | after the pops, the class keeps exactly its non-field attributes, so no field name is a class attribute |
| RegistrarFacts.CompiledTable | www/ORM.py:95 | the table is a non-empty string `__table__` when declared, otherwise the class name |
| TemplateFacts.InsertColumnOrder | www/ORM.py:123 | for a class with at least one ordinary field, INSERT lists the `__field__` columns in order, then the primary key, with one placeholder per listed column |
| TemplateFacts.InsertPlaceholders | www/ORM.py:123 | INSERT holds exactly `len(fields) + 1` placeholders |
| TemplateFacts.UpdatePlaceholders | www/ORM.py:124 | UPDATE holds one `` `col`=? `` per ordinary field and one final `?` for the primary key |
| TemplateFacts.DeletePlaceholders | www/ORM.py:125 | DELETE holds exactly one `?`, in the primary-key equality |
| TemplateFacts.SelectPlaceholders | www/ORM.py:122 | SELECT holds no placeholder; the caller appends the WHERE clause |
| TemplateFacts.CompiledTableSource | www/ORM.py:95 | the compiled table name is the class name or the text of the class's `__table__` attribute |
| TemplateFacts.CompiledNamesPlaceholderFree | www/ORM.py:116-125 | every name the templates are built from comes from the class, so none holds a `?` when the class's names hold none |
| TemplateFacts.CompiledTemplates | www/ORM.py:122-125 | a registered schema's INSERT and UPDATE take `len(__field__) + 1` arguments, DELETE one, SELECT none |
| Records.Resolve | www/ORM.py:143-151 | KeyError exactly for an unset key that is not a field; a set value is returned untouched; an unset field with no default gives None and changes nothing; an unset field with a literal default returns and stores that literal; an unset field with a callable default calls it once and returns and stores its result; the callable is called in no other case; no other key changes |
| Records.Record.constructor | www/ORM.py:129-130 | `Model(**kw)` holds exactly `kw` |
| Records.Record.GetAttr | www/ORM.py:131-135 | attribute read: the stored value when the key is present, AttributeError naming the key otherwise |
| Records.Record.SetAttr | www/ORM.py:137-138 | attribute write stores under the key, changes no other key, and reads back |
| Records.Record.GetValue | www/ORM.py:140-141 | `getattr(self, key, None)` on a key that is not a class attribute: the attribute read's value, None where it raises |
| Records.Record.GetValueOrDefault | www/ORM.py:143-151 | returns, stores and logs callable calls exactly as `Resolve` on the record's store |
| Records.Record.Save | www/ORM.py:161-166 | resolves `__field__` in order then the primary key exactly as `ResolveAll`, sends `__insert__` with those values, and flags an affected-row count other than 1 |
| Records.Record.Find | www/ORM.py:153-159 | sends the SELECT with the primary-key filter and `[pk]`; no row gives None, otherwise a fresh record equal to the first row |
| Records.ClosedOnError | www/ORM.py:162 | a key that fails to resolve stops the whole argument list with its error |
| RecordFacts.ResolveIsCached | www/ORM.py:143-151 | a resolved non-None default is stored, so resolving the key again returns it, changes nothing and calls no callable |
| RecordFacts.ResolveReadsOnlyKey | www/ORM.py:144-148 | only the value stored under the key decides what resolving it yields |
| RecordFacts.ResolveAllPointwise | www/ORM.py:162 | `map(getValueOrDefault, keys)` over distinct fields yields each key's own resolution on the original record, and the record then holds each value |
| RecordFacts.StoredKeysResolveToThemselves | www/ORM.py:144-145 | keys whose values are all set resolve to those values, with no write and no callable called |
| RecordFacts.InsertColumnsAreTheFields | www/ORM.py:162-163 | the keys `save` resolves are every mapped field, each once |
| RecordFacts.SaveSendsResolvedValues | www/ORM.py:161-164 | `save` on a registered class always reaches the driver with one argument per INSERT column, each the column's resolved value, and the record then holds them |
| RecordFacts.SaveFillsInsertPlaceholders | www/ORM.py:162-164 | the `save` argument list is exactly as long as `__insert__` has placeholders |
| RecordFacts.SaveAgainIsStable | www/ORM.py:161-164 | once every column resolved to a set value, saving again sends the same arguments, writes nothing and calls no callable |
| RecordFacts.RowOfKeys | www/ORM.py:164 | the row an INSERT stores has exactly its columns as keys |
| RecordFacts.RowOfAt | www/ORM.py:164 | with distinct columns each value lands under its own column |
| RecordFacts.SaveThenFind | www/ORM.py:154-164 | the row `save` inserts holds exactly the record's fields with the values the record holds after the save, which is what `find` rebuilds |
| RecordFacts.FindBindsOneValue | www/ORM.py:156 | the statement `find` sends holds exactly one `?`, for its one argument |
| Findings.RegistrationAsWrittenRaises | www/ORM.py:123 | as written, exactly the classes that would register raise NameError instead; every other outcome is unchanged |
| Findings.UndeclaredClassAttribute | www/ORM.py:114-126 | a name neither declared in the class body nor set by the registrar is missing on the class |
| Findings.FindAsWrittenRaises | www/ORM.py:156 | as written, `find` raises AttributeError on `primary_key__`; `__primary_key__` gives the statement `Records.FindStatement` builds |
| Findings.SaveAsWrittenRaises | www/ORM.py:162 | as written, `save` raises AttributeError on `__fields__`; with `__field__` it reaches the driver |
| UsersExample.UsersSchema | www/ORM.py:89-126 | the `users` class compiles to ``select `id`, `name` from `users` ``, ``insert into `users` (`name`, `id`) values (?, ?)`` and the matching UPDATE and DELETE |
| UsersExample.UsersAsWritten | www/ORM.py:123 | as written, defining the `users` class raises NameError |
| UsersExample.UsersSave | www/ORM.py:143-164 | saving a `users` record with `name` unset sends `["anon", <generated id>]`, calls the id generator once, and the stored row has `name == "anon"` |
| UsersExample.RenamedColumn | www/ORM.py:122-124 | with `name='user_name'`, SELECT and INSERT use the attribute name `name` and UPDATE uses `user_name` |
| UsersExample.PrimaryKeyOnly | www/ORM.py:122-124 | a class with only a primary key registers; its SELECT is ``select `id`,  from `Tag` `` and its INSERT ``insert into `Tag` (, `id`) values (?)`` |
| UsersExample.DocstringWithPlaceholder | www/ORM.py:116-125 | a class whose docstring holds a `?` registers, and its INSERT, UPDATE and DELETE still take `len(__field__) + 1`, `len(__field__) + 1` and one argument |

## Left out

- `create_pool`, the global pool, connections, cursors, `begin`/`commit`/`rollback` and `rowcount` (www/ORM.py:15-30, 37-42, 58-72). These are driver I/O. The rows a statement returns and the affected-row count are inputs.
- The `autocommit` flag of `execute` and its transaction handling. The model states only what is sent to the driver.
- All `logging` calls and `Field.__str__`. `save`'s warning is kept only as the `warned` flag of its report.
- `www/app.py`, the aiohttp server bootstrap.
- Line 128 of `www/ORM.py` starts with a space, and line 167 is a stray `user['id']`. As written, the module would not even load. The model reads `class Model` as starting in column 0 and ignores line 167.
- What the database does with a statement (filtering, storing, type coercion). `RecordFacts.SaveThenFind` stops at the row the INSERT carries.
- Registrar.TableName: a `__table__` that is neither a string nor absent is not modelled. A non-string attribute other than a `Field` is kept only by its text. A `Field` under `__table__` makes the model use the class name, whereas Python would use the `Field` object itself.
- Records.Record.GetValue: reads the record's dict only. `getattr(self, key, None)` first finds class attributes: the strings the registrar sets (www/ORM.py:117-125), the class body's non-field attributes, and the methods of `Model`, `dict` and `object`. For such a key Python returns the class attribute, where the model returns the stored value or None. A field named like one of them (`items`, `get`, `save`, `__table__`, ...) is affected.
- Records.Resolve: the same lookup order applies to `getValueOrDefault` (www/ORM.py:144). For a key that is a class attribute Python returns that attribute, where the model returns the stored value, resolves a default, or raises KeyError. The contract is exact for keys that are not class attributes.
- Records.Record.GetValueOrDefault: proved equal to `Records.Resolve`, so it shares that limitation.
- Values other than None, strings, integers and booleans. Side effects of a default callable beyond the value it returns.
- Records.Record.constructor: `Model(**kw)` raises TypeError when `kw` has a `self` key, because it collides with the `self` parameter of `__init__` (www/ORM.py:129). The model stores that key like any other.
- Records.Record.Find: `cls(**rs[0])` raises the same TypeError when the first row has a `self` column, for example a class that declares a field named `self` (www/ORM.py:159). The model returns a record holding that row.
- Records.ResolveAll: a default callable is modelled by its id, and `produce` gives one value per id, so two fields whose defaults share an id would receive equal values. Python calls the callable once per field (www/ORM.py:148), and a callable such as `next_id` or `time.time` returns a different value on each call. The model therefore gives each field's default callable its own id. The per-key statements of `RecordFacts.ResolveAllPointwise` and `RecordFacts.SaveSendsResolvedValues` rely on this convention when two fields share one callable.
- A `%` inside an identifier. `Executor.Bind` proves the round trip only for templates with no `%`.
- Records.Record.Save: on a KeyError part-way through the list, the contract does not state which defaults were already written back. By `RecordFacts.SaveSendsResolvedValues` this cannot happen for a registered class. Like `getValueOrDefault`, it reads a column that is also a class attribute from the dict, not from the class.
- Findings.SaveArgumentsAsWritten: a `__fields__` string is iterated character by character as Python would. No lemma covers that case.

## Findings

| source | as written | input that shows it | evidently intended | confidence | as-written member | corrected member |
|---|---|---|---|---|---|---|
| www/ORM.py:123 | calls `create_args_string`, which is defined nowhere in the module, so every class with one primary key raises NameError | the `users` class (`UsersExample.UsersAsWritten`) | n `?` joined by `, ` (`SqlText.ArgsString`) | not executed; certain from the text | Findings.RegistrationAsWrittenRaises | TemplateFacts.InsertPlaceholders |
| www/ORM.py:156 | `find` reads `cls.primary_key__`, which no class defines | any registered class that does not declare `primary_key__` | `cls.__primary_key__`, set at www/ORM.py:119 | not executed; certain from the text | Findings.FindAsWrittenRaises | RecordFacts.FindBindsOneValue |
| www/ORM.py:162 | `save` reads `self.__fields__`, which falls through to the record and raises AttributeError | any record of a registered class with no `__fields__` key | `self.__field__`, set at www/ORM.py:120 | not executed; certain from the text | Findings.SaveAsWrittenRaises | RecordFacts.SaveFillsInsertPlaceholders |
