/**
  What the server reads where a placeholder stood. The reader follows section 9.1.1 of the MySQL 8.0
  Reference Manual for strings in single quotes.
 */
module SqlLiterals {
  import opened Options
  import opened Decimal
  import opened Formatter
  import MysqlTime

  // ---------- the reader ----------

  // Token: a word that is no string and not NULL, possibly empty.
  datatype Literal = Str(chars: string) | Null | Token(word: string)

  // rest: the SQL behind the literal.
  datatype Reading = Read(value: Literal, rest: string) | Unclosed

  // What a backslash and this character stand for inside a string.
  function Unescaped(c: char): string {
    match c
    case '0' => "\0"
    case 'b' => "\U{8}"
    case 'n' => "\n"
    case 'r' => "\r"
    case 't' => "\t"
    case 'Z' => "\U{1A}"
    case '%' => "\\%"
    case '_' => "\\_"
    case _ => [c]
  }

  function Longer(front: string, r: Reading): Reading {
    if r.Read? && r.value.Str? then Read(Str(front + r.value.chars), r.rest) else r
  }

  // The string whose opening quote stands before s; a doubled quote stands for one.
  function Quoted(s: string): (r: Reading)
    ensures r.Read? ==> r.value.Str? && |r.value.chars| + 1 + |r.rest| <= |s|
  {
    if s == "" then Unclosed
    else if s[0] == '\'' then
      if |s| > 1 && s[1] == '\'' then Longer("'", Quoted(s[2..])) else Read(Str(""), s[1..])
    else if s[0] == '\\' then
      if |s| == 1 then Unclosed else Longer(Unescaped(s[1]), Quoted(s[2..]))
    else Longer([s[0]], Quoted(s[1..]))
  }

  predicate IsWord(c: char) {
    IsDigit(c) || 'a' <= c <= 'z' || 'A' <= c <= 'Z' || c == '_' || c == '$' || c >= '\U{80}'
  }

  function WordLength(s: string): (n: nat)
    ensures n <= |s|
  {
    if s == "" || !IsWord(s[0]) then 0 else 1 + WordLength(s[1..])
  }

  // NULL in any case.
  predicate IsNullWord(s: string) {
    |s| == 4 && s[0] in "Nn" && s[1] in "Uu" && s[2] in "Ll" && s[3] in "Ll"
  }

  function ReadLiteral(s: string): Reading {
    if s != "" && s[0] == '\'' then Quoted(s[1..])
    else
      var n := WordLength(s);
      Read(if IsNullWord(s[..n]) then Null else Token(s[..n]), s[n..])
  }

  // ---------- strings ----------

  // A character that stands for itself between quotes: no quote, and a backslash only before % or _.
  predicate PlainAt(chars: string, i: nat)
    requires i < |chars|
  {
    chars[i] != '\'' && (chars[i] == '\\' ==> i + 1 < |chars| && chars[i + 1] in "%_")
  }

  predicate Plain(chars: string) {
    forall i :: 0 <= i < |chars| ==> PlainAt(chars, i)
  }

  predicate StartsWithQuote(s: string) {
    s != "" && s[0] == '\''
  }

  predicate StartsWithWord(s: string) {
    s != "" && IsWord(s[0])
  }

  lemma PlainRest(chars: string, n: nat)
    requires n <= |chars| && forall i :: 0 <= i < n ==> PlainAt(chars, i)
    ensures Plain(chars) <==> Plain(chars[n..])
  {
    var rest := chars[n..];
    forall i | n <= i < |chars|
      ensures PlainAt(chars, i) == PlainAt(rest, i - n)
    {
    }
    forall i | 0 <= i < |rest|
      ensures PlainAt(rest, i) == PlainAt(chars, i + n)
    {
    }
  }

  // A string closed by the quote behind it reads as its own characters exactly when they are plain.
  lemma {:induction false} QuotedIff(chars: string, post: string)
    ensures Quoted(chars + "'" + post) == Read(Str(chars), post) <==> Plain(chars) && !StartsWithQuote(post)
  {
    var s := chars + "'" + post;
    if chars == "" {
      assert s[1..] == post;
    } else if chars[0] == '\'' {
      assert !PlainAt(chars, 0);
    } else if chars[0] == '\\' {
      if |chars| > 1 && chars[1] in "%_" {
        assert s[2..] == chars[2..] + "'" + post;
        assert chars == Unescaped(chars[1]) + chars[2..];
        QuotedIff(chars[2..], post);
        PlainRest(chars, 2);
      } else {
        assert !PlainAt(chars, 0);
        assert s[1] == (if |chars| > 1 then chars[1] else '\'');
      }
    } else {
      assert s[1..] == chars[1..] + "'" + post;
      assert chars == [chars[0]] + chars[1..];
      QuotedIff(chars[1..], post);
      PlainRest(chars, 1);
    }
  }

  // For a text without the pairs \% and \_, plain means: no quote and no backslash.
  lemma TextReadsBackIff(chars: string, post: string)
    ensures ReadLiteral("'" + chars + "'" + post) == Read(Str(chars), post)
       <==> Plain(chars) && !StartsWithQuote(post)
    ensures (forall i :: 0 <= i < |chars| - 1 && chars[i] == '\\' ==> chars[i + 1] !in "%_") ==>
              (Plain(chars) <==> Clean(chars))
  {
    assert ("'" + chars + "'" + post)[1..] == chars + "'" + post;
    QuotedIff(chars, post);
    if i :| 0 <= i < |chars| && (chars[i] == '\'' || chars[i] == '\\') {
      assert PlainAt(chars, i) ==> chars[i + 1] in "%_";
    }
  }

  predicate Clean(s: string) {
    '\'' !in s && '\\' !in s
  }

  // ---------- times ----------

  lemma PaddedClean(v: int, w: nat)
    ensures Clean(MysqlTime.Padded(v, w))
  {
    MysqlTime.PadKeepsValue(if v >= 0 then v else -v, w);
    MysqlTime.PadKeepsValue(if v >= 0 then v else -v, if w > 0 then w - 1 else 0);
  }

  lemma ClockClean(t: MysqlTime.TimeFields)
    requires MysqlTime.Fits(t)
    ensures Clean(MysqlTime.ClockText(t))
  {
    PaddedClean(MysqlTime.AsInt(t.hour), 2);
    PaddedClean(MysqlTime.AsInt(t.minute), 2);
    PaddedClean(MysqlTime.AsInt(t.second), 2);
  }

  lemma TimeClean(t: MysqlTime.TimeFields)
    requires MysqlTime.Fits(t)
    ensures Clean(MysqlTime.Text(t))
  {
    PaddedClean(MysqlTime.AsInt(t.year), 4);
    PaddedClean(MysqlTime.AsInt(t.month), 2);
    PaddedClean(MysqlTime.AsInt(t.day), 2);
    ClockClean(t);
  }

  // ---------- arguments ----------

  // What the server reads where an argument stands before this SQL. A number is inserted as it is.
  predicate Meant(a: Arg, literal: string, post: string)
    requires ArgOk(a)
  {
    var r := ReadLiteral(literal + post);
    match a
    case Number(text) => literal == text
    case Text(chars) => r == Read(Str(chars), post) <==> Plain(chars) && !StartsWithQuote(post)
    case CString(Some(chars)) => r == Read(Str(chars), post) <==> Plain(chars) && !StartsWithQuote(post)
    case CString(None) => r == Read(Null, post) <==> !StartsWithWord(post)
    case Time(t) => r == Read(Str(MysqlTime.Text(t)), post) <==> !StartsWithQuote(post)
  }

  lemma NullReads(post: string)
    ensures ReadLiteral("NULL" + post) == Read(Null, post) <==> !StartsWithWord(post)
    ensures ReadLiteral("NULL" + post).value.Null? <==> !StartsWithWord(post)
  {
    var s := "NULL" + post;
    assert ("L" + post)[1..] == post && ("LL" + post)[1..] == "L" + post;
    assert ("ULL" + post)[1..] == "LL" + post && s[1..] == "ULL" + post;
    assert WordLength("L" + post) == 1 + WordLength(post);
    assert WordLength("LL" + post) == 1 + WordLength("L" + post);
    assert WordLength("ULL" + post) == 1 + WordLength("LL" + post);
    assert s[..4] == "NULL" && s[4..] == post;
  }

  lemma ConvertedIsMeant(a: Arg, post: string)
    requires ArgOk(a)
    ensures Meant(a, SpecialConvert(a), post)
  {
    match a
    case Number(_) =>
    case Text(chars) => TextReadsBackIff(chars, post);
    case CString(None) => NullReads(post);
    case CString(Some(chars)) => TextReadsBackIff(chars, post);
    case Time(t) =>
      TimeClean(t);
      TextReadsBackIff(MysqlTime.Text(t), post);
  }

  // The last character is no backslash, so that a question mark behind it is a placeholder.
  predicate OpenEnd(front: string) {
    front == "" || front[|front| - 1] != '\\'
  }

  lemma {:induction false} HolesSplit(front: string, escaped: bool, back: string)
    requires if front == "" then !escaped else OpenEnd(front)
    ensures Holes(front + "?" + back, escaped) == Holes(front, escaped) + 1 + Holes(back, false)
  {
    if front == "" {
      assert (front + "?" + back)[1..] == back;
    } else {
      assert (front + "?" + back)[1..] == front[1..] + "?" + back;
      HolesSplit(front[1..], front[0] == '\\', back);
    }
  }

  // The SQL with its placeholder behind front replaced by that placeholder's argument.
  function Filled(front: string, escaped: bool, back: string, args: seq<string>): string
    requires Holes(front, escaped) + 1 + Holes(back, false) <= |args|
  {
    var n := Holes(front, escaped);
    Direct(front, escaped, args[..n]) + args[n] + Direct(back, false, args[n + 1..])
  }

  lemma Regrouped(a: string, b: string, c: string, d: string)
    ensures (a + b) + c + d == a + (b + c + d)
  {
  }

  // The first character of front, or its argument, comes first.
  lemma FilledFirst(front: string, escaped: bool, back: string, args: seq<string>)
    requires front != "" && Holes(front, escaped) + 1 + Holes(back, false) <= |args|
    ensures Hole(front, escaped) ==>
              Filled(front, escaped, back, args) == args[0] + Filled(front[1..], false, back, args[1..])
    ensures !Hole(front, escaped) ==>
              Filled(front, escaped, back, args) == [front[0]] + Filled(front[1..], front[0] == '\\', back, args)
  {
    var n := Holes(front, escaped);
    var after := Direct(back, false, args[n + 1..]);
    if Hole(front, escaped) {
      assert args[..n][0] == args[0] && args[..n][1..] == args[1..][..n - 1] && args[n + 1..] == args[1..][n..];
      Regrouped(args[0], Direct(front[1..], false, args[1..][..n - 1]), args[n], after);
    } else {
      Regrouped([front[0]], Direct(front[1..], front[0] == '\\', args[..n]), args[n], after);
    }
  }

  lemma {:induction false} DirectSplits(front: string, escaped: bool, back: string, args: seq<string>)
    requires if front == "" then !escaped else OpenEnd(front)
    requires Holes(front, escaped) + 1 + Holes(back, false) <= |args|
    ensures Holes(front + "?" + back, escaped) <= |args|
    ensures Direct(front + "?" + back, escaped, args) == Filled(front, escaped, back, args)
  {
    var sql := front + "?" + back;
    HolesSplit(front, escaped, back);
    if front == "" {
      assert sql[1..] == back;
    } else {
      assert sql[1..] == front[1..] + "?" + back && sql[0] == front[0];
      FilledFirst(front, escaped, back, args);
      if Hole(front, escaped) {
        DirectSplits(front[1..], false, back, args[1..]);
      } else {
        DirectSplits(front[1..], front[0] == '\\', back, args);
      }
    }
  }

  // SQL in which every question mark is escaped stays as it is.
  lemma {:induction false} NoHoleKept(sql: string, escaped: bool, args: seq<string>)
    ensures Holes(sql, escaped) == 0 ==> Direct(sql, escaped, args) == sql
  {
    if sql != "" && Holes(sql, escaped) == 0 {
      NoHoleKept(sql[1..], sql[0] == '\\', args);
    }
  }

  lemma FormatFills(front: string, back: string, args: seq<Arg>)
    requires BraceFree(front) && BraceFree(back) && OpenEnd(front)
    requires Holes(front, false) + 1 + Holes(back, false) <= |args| && forall a :: a in args ==> ArgOk(a)
    ensures FormatQuery(front + "?" + back, args) == Formatted(Filled(front, false, back, ConvertAll(args)))
  {
    assert BraceFree(front + "?" + back);
    DirectSplits(front, false, back, ConvertAll(args));
    TwoStages(front + "?" + back, args);
  }

  function AfterHole(back: string, texts: seq<string>, n: nat): string
    requires n + 1 + Holes(back, false) <= |texts|
  {
    Direct(back, false, texts[n + 1..])
  }

  // Between front and back as they are filled stands a literal that means a.
  predicate Replaced(result: Outcome, front: string, back: string, texts: seq<string>, n: nat, a: Arg)
    requires n == Holes(front, false) && n + 1 + Holes(back, false) <= |texts| && ArgOk(a)
  {
    var before, after := Direct(front, false, texts[..n]), AfterHole(back, texts, n);
    result == Formatted(before + texts[n] + after)
    && Meant(a, texts[n], after)
    && (Holes(front, false) == 0 ==> before == front)
    && (Holes(back, false) == 0 ==> after == back)
  }

  lemma ReplacedBy(front: string, back: string, texts: seq<string>, n: nat)
    requires n == Holes(front, false) && n + 1 + Holes(back, false) <= |texts|
    ensures forall a :: ArgOk(a) && Meant(a, texts[n], AfterHole(back, texts, n)) ==>
              Replaced(Formatted(Filled(front, false, back, texts)), front, back, texts, n, a)
  {
    NoHoleKept(front, false, texts[..n]);
    NoHoleKept(back, false, texts[n + 1..]);
  }

  /** In SQL without braces the placeholder behind front gives way to a literal that means its argument:
      a text reads as its own characters, and the SQL resumes where it should, exactly when the text is
      plain and no quote follows; a null pointer reads as NULL; a time reads as what it prints. What lies
      between the placeholders is kept. */
  lemma ArgumentMeant(front: string, back: string, args: seq<Arg>)
    requires BraceFree(front) && BraceFree(back) && OpenEnd(front)
    requires Holes(front, false) + 1 + Holes(back, false) <= |args| && forall a :: a in args ==> ArgOk(a)
    ensures var n := Holes(front, false);
            Replaced(FormatQuery(front + "?" + back, args), front, back, ConvertAll(args), n, args[n])
  {
    var n := Holes(front, false);
    var after := AfterHole(back, ConvertAll(args), n);
    FormatFills(front, back, args);
    ReplacedBy(front, back, ConvertAll(args), n);
    ConvertedIsMeant(args[n], after);
  }

  // How the text of a number or a bool begins: with a digit or a sign, or as true, false, inf or nan.
  predicate Numeral(s: string) {
    s != "" && (IsDigit(s[0]) || s[0] in "-tfi" || "nan" <= s)
  }

  /** Only the null pointer reads as NULL, and a text converts alike in both of its types. */
  lemma OnlyNullIsNull(a: Arg, post: string)
    requires ArgOk(a) && (a.Number? ==> Numeral(a.text))
    ensures var r := ReadLiteral(SpecialConvert(a) + post);
            r.Read? && r.value.Null? <==> a == CString(None) && !StartsWithWord(post)
    ensures a.Text? ==> SpecialConvert(a) == SpecialConvert(CString(Some(a.text)))
  {
    if a.Number? {
      var s := a.text + post;
      assert WordLength(s) > 0 ==> s[..WordLength(s)][0] == a.text[0];
      assert "nan" <= a.text && WordLength(s) > 1 ==> s[..WordLength(s)][1] == a.text[1] == 'a';
    } else if a == CString(None) {
      NullReads(post);
    } else {
      assert (SpecialConvert(a) + post)[0] == '\'';
    }
  }
}
