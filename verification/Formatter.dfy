/**
  The placeholder rewriter of the unprepared queries: every unescaped '?' becomes "{}", and the
  result is a format string for the converted arguments.
 */
module Formatter {
  import opened Options
  import MysqlTime

  // ---------- arguments ----------

  datatype Arg = Number(text: string) | Text(text: string) | CString(chars: Option<string>)
               | Time(t: MysqlTime.TimeFields)

  predicate ArgOk(a: Arg) {
    a.Time? ==> MysqlTime.Fits(a.t)
  }

  // The argument's text is quoted but not escaped.
  function SpecialConvert(a: Arg): string
    requires ArgOk(a)
  {
    match a
    case Number(text) => text
    case Text(text) => "'" + text + "'"
    case CString(None) => "NULL"
    case CString(Some(chars)) => "'" + chars + "'"
    case Time(t) => "'" + MysqlTime.Text(t) + "'"
  }

  function ConvertAll(args: seq<Arg>): (r: seq<string>)
    requires forall a :: a in args ==> ArgOk(a)
    ensures |r| == |args| && forall i :: 0 <= i < |args| ==> r[i] == SpecialConvert(args[i])
  {
    if args == [] then [] else [SpecialConvert(args[0])] + ConvertAll(args[1..])
  }

  // ---------- the two stages ----------

  // escaped: the character before sql is a backslash.
  predicate Hole(sql: string, escaped: bool) {
    sql != "" && sql[0] == '?' && !escaped
  }

  function Converted(sql: string, escaped: bool): string {
    if sql == "" then ""
    else (if Hole(sql, escaped) then "{}" else [sql[0]]) + Converted(sql[1..], sql[0] == '\\')
  }

  predicate EscapedAt(sql: string, i: nat)
    requires i <= |sql|
  {
    i > 0 && sql[i - 1] == '\\'
  }

  // What the source appends for position i.
  function Piece(sql: string, i: nat): string
    requires i < |sql|
  {
    if sql[i] == '?' && !EscapedAt(sql, i) then "{}" else [sql[i]]
  }

  lemma ConvertedAt(sql: string, i: nat, done: string)
    requires i < |sql|
    ensures done + Converted(sql[i..], EscapedAt(sql, i))
         == (done + Piece(sql, i)) + Converted(sql[i + 1..], EscapedAt(sql, i + 1))
  {
    var rest := Converted(sql[i + 1..], EscapedAt(sql, i + 1));
    assert sql[i..][1..] == sql[i + 1..];
    assert Converted(sql[i..], EscapedAt(sql, i)) == Piece(sql, i) + rest;
    assert done + (Piece(sql, i) + rest) == (done + Piece(sql, i)) + rest;
  }

  method ConvertPlaceHolder(sql: string) returns (result: string)
    ensures result == Converted(sql, false)
  {
    result := "";
    for i := 0 to |sql|
      invariant result + Converted(sql[i..], EscapedAt(sql, i)) == Converted(sql, false)
    {
      ConvertedAt(sql, i, result);
      if sql[i] == '?' && (i == 0 || sql[i - 1] != '\\') {
        result := result + "{}";
      } else {
        result := result + [sql[i]];
      }
    }
  }

  // OtherField: a replacement field with an index or a format specification.
  datatype Outcome = Formatted(text: string) | Failed | OtherField

  function Prepend(s: string, o: Outcome): Outcome {
    if o.Formatted? then Formatted(s + o.text) else o
  }

  // fmt's format on string arguments: "{}" takes the next one, "{{" and "}}" are escapes.
  function Format(s: string, args: seq<string>): Outcome {
    if s == "" then Formatted("")
    else if s[0] == '{' then
      if |s| == 1 then Failed
      else if s[1] == '{' then Prepend("{", Format(s[2..], args))
      else if s[1] != '}' then OtherField
      else if args == [] then Failed
      else Prepend(args[0], Format(s[2..], args[1..]))
    else if s[0] == '}' then
      if |s| > 1 && s[1] == '}' then Prepend("}", Format(s[2..], args)) else Failed
    else Prepend([s[0]], Format(s[1..], args))
  }

  function FormatQuery(query: string, args: seq<Arg>): Outcome
    requires forall a :: a in args ==> ArgOk(a)
  {
    Format(Converted(query, false), ConvertAll(args))
  }

  // ---------- direct substitution ----------

  function Holes(sql: string, escaped: bool): nat {
    if sql == "" then 0 else (if Hole(sql, escaped) then 1 else 0) + Holes(sql[1..], sql[0] == '\\')
  }

  // The i-th unescaped '?' replaced by the i-th argument, everything else kept.
  function Direct(sql: string, escaped: bool, args: seq<string>): string
    requires Holes(sql, escaped) <= |args|
  {
    if sql == "" then ""
    else if Hole(sql, escaped) then args[0] + Direct(sql[1..], false, args[1..])
    else [sql[0]] + Direct(sql[1..], sql[0] == '\\', args)
  }

  predicate IsBrace(c: char) {
    c == '{' || c == '}'
  }

  predicate BraceFree(s: string) {
    forall i :: 0 <= i < |s| ==> !IsBrace(s[i])
  }

  lemma {:induction false} TwoStagesFrom(sql: string, escaped: bool, args: seq<string>)
    requires BraceFree(sql)
    ensures Format(Converted(sql, escaped), args)
         == if Holes(sql, escaped) <= |args| then Formatted(Direct(sql, escaped, args)) else Failed
  {
    if sql != "" {
      var rest := Converted(sql[1..], sql[0] == '\\');
      if Hole(sql, escaped) {
        assert ("{}" + rest)[2..] == rest;
        if args != [] {
          TwoStagesFrom(sql[1..], false, args[1..]);
        }
      } else {
        assert !IsBrace(sql[0]);
        assert ([sql[0]] + rest)[1..] == rest;
        TwoStagesFrom(sql[1..], sql[0] == '\\', args);
      }
    }
  }

  /** For SQL without braces, rewriting and formatting is direct substitution, whatever the arguments
      contain; with too few arguments it fails. */
  lemma TwoStages(query: string, args: seq<Arg>)
    requires BraceFree(query) && forall a :: a in args ==> ArgOk(a)
    ensures FormatQuery(query, args)
         == if Holes(query, false) <= |args| then Formatted(Direct(query, false, ConvertAll(args))) else Failed
  {
    TwoStagesFrom(query, false, ConvertAll(args));
  }

  // ---------- the rewriting alone ----------

  /** The rewriting adds one character for each unescaped '?'. */
  lemma {:induction false} ConversionLength(sql: string, escaped: bool)
    ensures |Converted(sql, escaped)| == |sql| + Holes(sql, escaped)
  {
    if sql != "" {
      ConversionLength(sql[1..], sql[0] == '\\');
    }
  }

  // Every "{}" back to "?".
  function Restored(s: string): string {
    if s == "" then ""
    else if |s| > 1 && s[0] == '{' && s[1] == '}' then "?" + Restored(s[2..])
    else [s[0]] + Restored(s[1..])
  }

  // How often "{}" occurs.
  function EmptyFields(s: string): nat {
    if s == "" then 0
    else if |s| > 1 && s[0] == '{' && s[1] == '}' then 1 + EmptyFields(s[2..])
    else EmptyFields(s[1..])
  }

  lemma {:induction false} RestoredFrom(sql: string, escaped: bool)
    ensures |Restored(Converted(sql, escaped))| == |sql| - EmptyFields(sql)
    ensures EmptyFields(sql) == 0 ==> Restored(Converted(sql, escaped)) == sql
  {
    if sql != "" {
      var c, rest := Converted(sql, escaped), Converted(sql[1..], sql[0] == '\\');
      if Hole(sql, escaped) {
        assert c[2..] == rest;
        RestoredFrom(sql[1..], sql[0] == '\\');
      } else if |sql| > 1 && sql[0] == '{' && sql[1] == '}' {
        assert Converted(sql[1..], false) == "}" + Converted(sql[2..], false);
        assert c[2..] == Converted(sql[2..], false);
        RestoredFrom(sql[2..], false);
      } else {
        assert c[1..] == rest;
        assert |c| > 1 && c[0] == '{' ==> c[1] != '}';
        RestoredFrom(sql[1..], sql[0] == '\\');
      }
    }
  }

  /** Replacing "{}" by "?" undoes the rewriting exactly when the SQL contains no "{}" of its own. */
  lemma RestoreUndoesIff(sql: string)
    ensures Restored(Converted(sql, false)) == sql <==> EmptyFields(sql) == 0
  {
    RestoredFrom(sql, false);
  }

  // ---------- braces in the SQL ----------

  function Braces(s: string): nat {
    if s == "" then 0 else (if IsBrace(s[0]) then 1 else 0) + Braces(s[1..])
  }

  lemma {:induction false} NoBraces(s: string)
    ensures Braces(s) == 0 <==> BraceFree(s)
  {
    if s != "" {
      NoBraces(s[1..]);
      assert BraceFree(s) ==> !IsBrace(s[0]);
    }
  }

  lemma {:induction false} ConvertedBraces(sql: string, escaped: bool)
    ensures Braces(Converted(sql, escaped)) == Braces(sql) + 2 * Holes(sql, escaped)
  {
    if sql != "" {
      ConvertedBraces(sql[1..], sql[0] == '\\');
      var rest := Converted(sql[1..], sql[0] == '\\');
      if Hole(sql, escaped) {
        assert ("{}" + rest)[1..] == "}" + rest;
        assert ("}" + rest)[1..] == rest;
      } else {
        assert ([sql[0]] + rest)[1..] == rest;
      }
    }
  }

  // The same argument n times.
  function Copies(n: nat, a: string): (r: seq<string>)
    ensures |r| == n
  {
    seq(n, _ => a)
  }

  // The fields and the escapes the formatter meets.
  function Fields(s: string): nat {
    if |s| < 2 then 0
    else if s[0] == '{' && s[1] == '}' then 1 + Fields(s[2..])
    else if IsBrace(s[0]) then Fields(s[2..])
    else Fields(s[1..])
  }

  function Escapes(s: string): nat {
    if |s| < 2 then 0
    else if s[0] == '{' && s[1] == '}' then Escapes(s[2..])
    else if IsBrace(s[0]) then 1 + Escapes(s[2..])
    else Escapes(s[1..])
  }

  // With n copies of an argument of length 0 or 1, the length of the output gives the fields away.
  lemma {:induction false} FormattedLength(s: string, n: nat, a: string)
    requires |a| <= 1 && Format(s, Copies(n, a)).Formatted?
    ensures Braces(s) == 2 * Fields(s) + 2 * Escapes(s)
    ensures |Format(s, Copies(n, a)).text| == |s| - Braces(s) + Escapes(s) + if a == "" then 0 else Fields(s)
  {
    if s != "" {
      if IsBrace(s[0]) {
        assert s[1..][1..] == s[2..];
        if s[0] == '{' && s[1] == '}' {
          assert Copies(n, a)[1..] == Copies(n - 1, a);
          FormattedLength(s[2..], n - 1, a);
        } else {
          FormattedLength(s[2..], n, a);
        }
      } else {
        FormattedLength(s[1..], n, a);
      }
    }
  }

  lemma {:induction false} DirectLength(sql: string, escaped: bool, n: nat, a: string)
    requires |a| <= 1 && Holes(sql, escaped) <= n
    ensures |Direct(sql, escaped, Copies(n, a))|
          == |sql| - Holes(sql, escaped) + if a == "" then 0 else Holes(sql, escaped)
  {
    if sql != "" {
      if Hole(sql, escaped) {
        assert Copies(n, a)[1..] == Copies(n - 1, a);
        DirectLength(sql[1..], false, n - 1, a);
      } else {
        DirectLength(sql[1..], sql[0] == '\\', n, a);
      }
    }
  }

  // Formatting agrees with direct substitution for every list of enough converted arguments.
  ghost predicate SubstitutesDirectly(sql: string) {
    forall args: seq<string> :: Holes(sql, false) <= |args| ==>
      Format(Converted(sql, false), args) == Formatted(Direct(sql, false, args))
  }

  /** The two stages amount to direct substitution exactly for the SQL without braces. */
  lemma DirectIffBraceFree(sql: string)
    ensures SubstitutesDirectly(sql) <==> BraceFree(sql)
  {
    if BraceFree(sql) {
      forall args: seq<string> | Holes(sql, false) <= |args|
        ensures Format(Converted(sql, false), args) == Formatted(Direct(sql, false, args))
      {
        TwoStagesFrom(sql, false, args);
      }
    }
    if SubstitutesDirectly(sql) {
      var c, n := Converted(sql, false), Holes(sql, false);
      assert Format(c, Copies(n, "")) == Formatted(Direct(sql, false, Copies(n, "")));
      assert Format(c, Copies(n, "a")) == Formatted(Direct(sql, false, Copies(n, "a")));
      FormattedLength(c, n, "");
      FormattedLength(c, n, "a");
      DirectLength(sql, false, n, "");
      DirectLength(sql, false, n, "a");
      ConversionLength(sql, false);
      ConvertedBraces(sql, false);
      NoBraces(sql);
    }
  }
}
