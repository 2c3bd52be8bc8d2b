/** The string building blocks of the statement templates: backtick quoting,
    `', '.join(...)`, the `?` argument list, and the translation of `?`
    placeholders to the MySQL driver's `%s`. */
module SqlText {

  /** Number of occurrences of character `c` in `s`. */
  function Occurrences(c: char, s: string): nat
  {
    if s == [] then 0 else (if s[0] == c then 1 else 0) + Occurrences(c, s[1..])
  }

  lemma {:induction false} OccurrencesAppend(c: char, a: string, b: string)
    ensures Occurrences(c, a + b) == Occurrences(c, a) + Occurrences(c, b)
  {
    if a == [] {
      assert a + b == b;
    } else {
      assert (a + b)[1..] == a[1..] + b;
      OccurrencesAppend(c, a[1..], b);
    }
  }

  lemma {:induction false} OccurrencesAbsent(c: char, s: string)
    requires c !in s
    ensures Occurrences(c, s) == 0
  {
    if s != [] {
      OccurrencesAbsent(c, s[1..]);
    }
  }

  /** `'`%s`' % name` */
  function Quote(name: string): string
  {
    "`" + name + "`"
  }

  /** `list(map(lambda f: '`%s`' % f, names))` */
  function QuoteAll(names: seq<string>): seq<string>
  {
    seq(|names|, i requires 0 <= i < |names| => Quote(names[i]))
  }

  /** `sep.join(parts)` */
  function Join(sep: string, parts: seq<string>): string
  {
    if |parts| == 0 then ""
    else if |parts| == 1 then parts[0]
    else parts[0] + sep + Join(sep, parts[1..])
  }

  /** `[item] * n` */
  function Repeat(item: string, n: nat): (r: seq<string>)
    ensures |r| == n
    ensures forall i :: 0 <= i < n ==> r[i] == item
  {
    if n == 0 then [] else [item] + Repeat(item, n - 1)
  }

  /** `create_args_string(n)`: n placeholders separated by ", ". The source
      calls this helper without defining it; this is its evident meaning. */
  function ArgsString(n: nat): string
  {
    Join(", ", Repeat("?", n))
  }

  /** `sql.replace('?', '%s')`: every `?` becomes the driver's `%s`. */
  function ToDriver(sql: string): (r: string)
    ensures '?' !in r
    ensures |r| == |sql| + Occurrences('?', sql)
    ensures Occurrences('%', r) == Occurrences('%', sql) + Occurrences('?', sql)
  {
    if sql == [] then []
    else
      var head := if sql[0] == '?' then "%s" else [sql[0]];
      OccurrencesAppend('%', head, ToDriver(sql[1..]));
      head + ToDriver(sql[1..])
  }

  /** The inverse translation: every `%s` back to `?`. */
  function FromDriver(sql: string): string
  {
    if sql == [] then []
    else if |sql| >= 2 && sql[0] == '%' && sql[1] == 's' then "?" + FromDriver(sql[2..])
    else [sql[0]] + FromDriver(sql[1..])
  }

  /** A template without `%` of its own is recovered from its driver form, so
      the translation loses nothing and adds no placeholder of its own. */
  lemma {:induction false} DriverRoundTrip(sql: string)
    requires '%' !in sql
    ensures FromDriver(ToDriver(sql)) == sql
  {
    if sql != [] {
      DriverRoundTrip(sql[1..]);
      var rest := ToDriver(sql[1..]);
      if sql[0] == '?' {
        assert ToDriver(sql) == "%s" + rest;
        assert ("%s" + rest)[2..] == rest;
      } else {
        assert ToDriver(sql) == [sql[0]] + rest;
        assert ([sql[0]] + rest)[1..] == rest;
      }
    }
  }

  /** The translation works character by character, so it distributes over
      concatenation: translating a template piece by piece is the same as
      translating the whole. */
  lemma {:induction false} ToDriverAppend(a: string, b: string)
    ensures ToDriver(a + b) == ToDriver(a) + ToDriver(b)
  {
    if a != [] {
      var head := if a[0] == '?' then "%s" else [a[0]];
      assert (a + b)[1..] == a[1..] + b;
      calc {
        ToDriver(a + b);
        head + ToDriver(a[1..] + b);
        { ToDriverAppend(a[1..], b); }
        head + (ToDriver(a[1..]) + ToDriver(b));
        (head + ToDriver(a[1..])) + ToDriver(b);
      }
    } else {
      assert a + b == b;
    }
  }

  /** A string without `?` is left as it is. */
  lemma {:induction false} ToDriverIdentity(s: string)
    requires '?' !in s
    ensures ToDriver(s) == s
  {
    if s != [] {
      ToDriverIdentity(s[1..]);
      assert s == [s[0]] + s[1..];
    }
  }

  /** Joining with one more part appends the separator and that part. */
  lemma {:induction false} JoinSnoc(sep: string, parts: seq<string>, last: string)
    requires |parts| > 0
    ensures Join(sep, parts + [last]) == Join(sep, parts) + sep + last
  {
    if |parts| == 1 {
      assert (parts + [last])[1..] == [last];
    } else {
      assert (parts + [last])[1..] == parts[1..] + [last];
      JoinSnoc(sep, parts[1..], last);
    }
  }

  /** A character absent from the separator and from every part is absent
      from the joined string. */
  lemma {:induction false} JoinAvoids(c: char, sep: string, parts: seq<string>)
    requires c !in sep
    requires forall i :: 0 <= i < |parts| ==> c !in parts[i]
    ensures c !in Join(sep, parts)
  {
    if |parts| > 1 {
      JoinAvoids(c, sep, parts[1..]);
    }
  }

  /** When the separator lacks `c` and every part holds `each` copies of it,
      the joined string holds `each` copies per part. */
  lemma {:induction false} JoinOccurrences(c: char, sep: string, parts: seq<string>, each: nat)
    requires c !in sep
    requires forall i :: 0 <= i < |parts| ==> Occurrences(c, parts[i]) == each
    ensures Occurrences(c, Join(sep, parts)) == |parts| * each
  {
    if |parts| > 1 {
      JoinOccurrences(c, sep, parts[1..], each);
      OccurrencesAbsent(c, sep);
      OccurrencesAppend(c, parts[0], sep);
      OccurrencesAppend(c, parts[0] + sep, Join(sep, parts[1..]));
    }
  }

  /** `create_args_string(n)` holds exactly n placeholders. */
  lemma ArgsStringCount(n: nat)
    ensures Occurrences('?', ArgsString(n)) == n
  {
    JoinOccurrences('?', ", ", Repeat("?", n), 1);
  }

  /** Quoting names that have no `?` adds no placeholder. */
  lemma QuotedNamesHaveNoPlaceholder(names: seq<string>)
    requires forall i :: 0 <= i < |names| ==> '?' !in names[i]
    ensures '?' !in Join(", ", QuoteAll(names))
  {
    var quoted := QuoteAll(names);
    forall i | 0 <= i < |quoted| ensures '?' !in quoted[i] {
      assert quoted[i] == "`" + names[i] + "`";
    }
    JoinAvoids('?', ", ", quoted);
  }
}
