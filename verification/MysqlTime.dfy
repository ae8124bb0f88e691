/** MysqlTime: the setters, ToString and FromString. */
module MysqlTime {
  import opened PoolRules
  import opened Decimal

  // The members of MYSQL_TIME that the class reads or writes.
  datatype TimeFields = TimeFields(year: nat, month: nat, day: nat, hour: nat, minute: nat, second: nat,
                                   secondPart: nat, timeType: int, neg: bool)

  const DATETIME: int := 1  // MYSQL_TIMESTAMP_DATETIME

  // Every field is an unsigned int.
  predicate Fits(t: TimeFields) {
    t.year < U32 && t.month < U32 && t.day < U32 && t.hour < U32 && t.minute < U32 && t.second < U32
  }

  // ---------- printing ----------

  // An unsigned int passed to %d.
  function AsInt(u: nat): int
    requires u < U32
  {
    if u < U32 / 2 then u else u - U32
  }

  function ZeroPad(s: string, w: nat): string {
    if |s| >= w then s else seq(w - |s|, _ => '0') + s
  }

  // %0wd
  function Padded(v: int, w: nat): string {
    if v >= 0 then ZeroPad(Digits(v), w) else "-" + ZeroPad(Digits(-v), if w > 0 then w - 1 else 0)
  }

  // hh:mm:ss and the delimiters before it, right to left as the parser meets them.
  function ClockText(t: TimeFields): string
    requires Fits(t)
  {
    Padded(AsInt(t.hour), 2) + (":" + (Padded(AsInt(t.minute), 2) + (":" + Padded(AsInt(t.second), 2))))
  }

  // "%04d-%02d-%02d"
  function DateText(t: TimeFields, rest: string): string
    requires Fits(t)
  {
    Padded(AsInt(t.year), 4) + ("-" + (Padded(AsInt(t.month), 2) + ("-" + (Padded(AsInt(t.day), 2) + rest))))
  }

  // "%04d-%02d-%02d %02d:%02d:%02d"
  function Text(t: TimeFields): string
    requires Fits(t)
  {
    DateText(t, " " + ClockText(t))
  }

  // ---------- reading ----------

  // An istringstream: what is left, eofbit, failbit.
  datatype Stream = Stream(rest: string, eof: bool, fail: bool)

  predicate IsSpace(c: char) {
    c == ' ' || '\t' <= c <= '\r'
  }

  function SkipSpace(s: string): string {
    if s != "" && IsSpace(s[0]) then SkipSpace(s[1..]) else s
  }

  // The length of the run of digits at the front.
  function Run(s: string): (n: nat)
    ensures n <= |s| && AllDigits(s[..n])
    ensures n == |s| || !IsDigit(s[n])
  {
    if s == "" || !IsDigit(s[0]) then 0 else 1 + Run(s[1..])
  }

  // stream >> c
  function ReadChar(st: Stream): Stream {
    if st.eof || st.fail then st.(fail := true)
    else
      var r := SkipSpace(st.rest);
      if r == "" then Stream("", true, true) else Stream(r[1..], false, false)
  }

  // stream >> u for an unsigned int u that held before. A minus sign negates modulo 2^32; a
  // number too large gives the maximum, no number gives 0, and both set failbit. A stream that
  // is not good leaves u alone.
  function ReadUInt(st: Stream, before: nat): (r: (Stream, nat))
    ensures before < U32 ==> r.1 < U32
  {
    if st.eof || st.fail then (st.(fail := true), before)
    else
      var r := SkipSpace(st.rest);
      if r == "" then (Stream("", true, true), before)
      else
        var unsign := if r[0] == '-' || r[0] == '+' then r[1..] else r;
        var n := Run(unsign);
        var left := unsign[n..];
        if n == 0 then (Stream(left, left == "", true), 0)
        else
          var v := Value(unsign[..n]);
          if v >= U32 then (Stream(left, left == "", true), U32 - 1)
          else (Stream(left, left == "", false), if r[0] == '-' then Negated(v) else v)
  }

  // -v in an unsigned int.
  function Negated(v: nat): nat
    requires v < U32
  {
    if v == 0 then 0 else U32 - v
  }

  // iss >> year >> delimiter >> month >> delimiter >> day
  function ReadDate(st: Stream, t: TimeFields): (Stream, TimeFields) {
    var (s1, year) := ReadUInt(st, t.year);
    var (s2, month) := ReadUInt(ReadChar(s1), t.month);
    var (s3, day) := ReadUInt(ReadChar(s2), t.day);
    (s3, t.(year := year, month := month, day := day))
  }

  // >> hour >> delimiter >> minute >> delimiter >> second
  function ReadClock(st: Stream, t: TimeFields): TimeFields {
    var (s1, hour) := ReadUInt(st, t.hour);
    var (s2, minute) := ReadUInt(ReadChar(s1), t.minute);
    var (_, second) := ReadUInt(ReadChar(s2), t.second);
    t.(hour := hour, minute := minute, second := second)
  }

  function Parsed(s: string, t: TimeFields): TimeFields {
    var (st, t') := ReadDate(Stream(s, false, false), t);
    ReadClock(st, t')
  }

  // ---------- the class ----------

  predicate InRange(t: TimeFields) {
    1 <= t.month <= 12 && t.hour <= 24 && t.minute <= 60 && t.second <= 60
  }

  class MysqlTime {
    var mt: TimeFields

    constructor ()
      ensures mt == TimeFields(2024, 1, 1, 0, 0, 0, 0, DATETIME, false) && InRange(mt)
    {
      mt := TimeFields(2024, 1, 1, 0, 0, 0, 0, DATETIME, false);
    }

    method SetYear(year: nat)
      modifies this
      ensures mt == old(mt).(year := year)
    {
      mt := mt.(year := year);
    }

    // A value out of range is logged and dropped.
    method SetMonth(month: nat)
      modifies this
      ensures mt == if 1 <= month <= 12 then old(mt).(month := month) else old(mt)
      ensures InRange(old(mt)) ==> InRange(mt)
    {
      if month > 0 && month <= 12 {
        mt := mt.(month := month);
      }
    }

    method SetDay(day: nat)
      modifies this
      ensures mt == old(mt).(day := day)
    {
      mt := mt.(day := day);
    }

    method SetHour(hour: nat)
      modifies this
      ensures mt == if hour <= 24 then old(mt).(hour := hour) else old(mt)
      ensures InRange(old(mt)) ==> InRange(mt)
    {
      if hour <= 24 {
        mt := mt.(hour := hour);
      }
    }

    method SetMinute(minute: nat)
      modifies this
      ensures mt == if minute <= 60 then old(mt).(minute := minute) else old(mt)
      ensures InRange(old(mt)) ==> InRange(mt)
    {
      if minute <= 60 {
        mt := mt.(minute := minute);
      }
    }

    method SetSecond(second: nat)
      modifies this
      ensures mt == if second <= 60 then old(mt).(second := second) else old(mt)
      ensures InRange(old(mt)) ==> InRange(mt)
    {
      if second <= 60 {
        mt := mt.(second := second);
      }
    }

    method SetSecondPart(secondPart: nat)
      modifies this
      ensures mt == old(mt).(secondPart := secondPart)
    {
      mt := mt.(secondPart := secondPart);
    }

    method SetTimeType(timeType: int)
      modifies this
      ensures mt == old(mt).(timeType := timeType)
    {
      mt := mt.(timeType := timeType);
    }

    method ToString() returns (s: string)
      requires Fits(mt)
      ensures s == Text(mt)
    {
      s := Padded(AsInt(mt.year), 4) + "-" + Padded(AsInt(mt.month), 2) + "-" + Padded(AsInt(mt.day), 2) + " "
           + Padded(AsInt(mt.hour), 2) + ":" + Padded(AsInt(mt.minute), 2) + ":" + Padded(AsInt(mt.second), 2);
    }

    method FromString(timeStr: string)
      modifies this
      ensures mt == Parsed(timeStr, old(mt))
      ensures Fits(old(mt)) ==> Fits(mt)
    {
      var iss := Stream(timeStr, false, false);
      var x: nat;
      iss, x := ReadUInt(iss, mt.year).0, ReadUInt(iss, mt.year).1;
      mt := mt.(year := x);
      iss := ReadChar(iss);
      iss, x := ReadUInt(iss, mt.month).0, ReadUInt(iss, mt.month).1;
      mt := mt.(month := x);
      iss := ReadChar(iss);
      iss, x := ReadUInt(iss, mt.day).0, ReadUInt(iss, mt.day).1;
      mt := mt.(day := x);
      iss, x := ReadUInt(iss, mt.hour).0, ReadUInt(iss, mt.hour).1;
      mt := mt.(hour := x);
      iss := ReadChar(iss);
      iss, x := ReadUInt(iss, mt.minute).0, ReadUInt(iss, mt.minute).1;
      mt := mt.(minute := x);
      iss := ReadChar(iss);
      iss, x := ReadUInt(iss, mt.second).0, ReadUInt(iss, mt.second).1;
      mt := mt.(second := x);
    }
  }

  // ---------- reading back what was printed ----------

  lemma {:induction false} LeadingZeros(k: nat, s: string)
    requires AllDigits(s)
    ensures AllDigits(seq(k, _ => '0') + s)
    ensures Value(seq(k, _ => '0') + s) == Value(s)
  {
    var z := seq(k, _ => '0');
    if s != "" {
      LeadingZeros(k, s[..|s| - 1]);
      assert (z + s)[..|z + s| - 1] == z + s[..|s| - 1];
    } else if k > 0 {
      LeadingZeros(k - 1, "");
      assert (z + s)[..k - 1] == seq(k - 1, _ => '0') + "";
      assert (z + s)[k - 1] == '0' && DigitValue('0') == 0;
    }
  }

  lemma PadKeepsValue(n: nat, w: nat)
    ensures var s := ZeroPad(Digits(n), w); s != "" && AllDigits(s) && Value(s) == n
  {
    ValueOfDigits(n);
    if |Digits(n)| < w {
      LeadingZeros(w - |Digits(n)|, Digits(n));
    }
  }

  lemma {:induction false} RunOf(d: string, tail: string)
    requires AllDigits(d) && (tail == "" || !IsDigit(tail[0]))
    ensures Run(d + tail) == |d|
  {
    if d != "" {
      RunOf(d[1..], tail);
      assert (d + tail)[1..] == d[1..] + tail;
    } else {
      assert d + tail == tail;
    }
  }

  // The extractor on a text whose part after the sign, if any, is unsign.
  lemma ReadsRun(all: string, unsign: string, before: nat)
    requires all != "" && !IsSpace(all[0])
    requires unsign == if all[0] == '-' || all[0] == '+' then all[1..] else all
    requires Run(unsign) > 0 && Value(unsign[..Run(unsign)]) < U32
    ensures var n, left := Run(unsign), unsign[Run(unsign)..];
            ReadUInt(Stream(all, false, false), before)
            == (Stream(left, left == "", false),
                if all[0] == '-' then Negated(Value(unsign[..n])) else Value(unsign[..n]))
  {
    assert SkipSpace(all) == all;
  }

  lemma ReadsDigits(d: string, tail: string, before: nat)
    requires d != "" && AllDigits(d) && Value(d) < U32 && (tail == "" || !IsDigit(tail[0]))
    ensures ReadUInt(Stream(d + tail, false, false), before) == (Stream(tail, tail == "", false), Value(d))
  {
    RunOf(d, tail);
    assert IsDigit(d[0]);
    assert (d + tail)[0] == d[0] && (d + tail)[..|d|] == d && (d + tail)[|d|..] == tail;
    ReadsRun(d + tail, d + tail, before);
  }

  lemma ReadsNegative(d: string, tail: string, before: nat)
    requires d != "" && AllDigits(d) && Value(d) < U32 && (tail == "" || !IsDigit(tail[0]))
    ensures ReadUInt(Stream("-" + d + tail, false, false), before)
         == (Stream(tail, tail == "", false), Negated(Value(d)))
  {
    RunOf(d, tail);
    assert ("-" + d + tail)[1..] == d + tail;
    assert (d + tail)[..|d|] == d && (d + tail)[|d|..] == tail;
    ReadsRun("-" + d + tail, d + tail, before);
  }

  lemma BlankSkipped(s: string, before: nat)
    ensures ReadUInt(Stream(" " + s, false, false), before) == ReadUInt(Stream(s, false, false), before)
  {
    assert (" " + s)[1..] == s;
  }

  lemma ReadsPositive(n: nat, w: nat, tail: string, before: nat)
    requires n < U32 && (tail == "" || !IsDigit(tail[0]))
    ensures ReadUInt(Stream(Padded(n, w) + tail, false, false), before) == (Stream(tail, tail == "", false), n)
  {
    PadKeepsValue(n, w);
    ReadsDigits(ZeroPad(Digits(n), w), tail, before);
  }

  lemma ReadsMinus(n: int, w: nat, tail: string, before: nat)
    requires 0 < n < U32 && (tail == "" || !IsDigit(tail[0]))
    ensures ReadUInt(Stream(Padded(-n, w) + tail, false, false), before) == (Stream(tail, tail == "", false), U32 - n)
  {
    var d := ZeroPad(Digits(n), if w > 0 then w - 1 else 0);
    PadKeepsValue(n, if w > 0 then w - 1 else 0);
    assert Padded(-n, w) == "-" + d;
    ReadsNegative(d, tail, before);
  }

  // The extractor undoes %0wd on every 32-bit value.
  lemma ReadsPrinted(v: nat, w: nat, tail: string, before: nat)
    requires v < U32 && (tail == "" || !IsDigit(tail[0]))
    ensures ReadUInt(Stream(Padded(AsInt(v), w) + tail, false, false), before) == (Stream(tail, tail == "", false), v)
  {
    if v < U32 / 2 {
      ReadsPositive(v, w, tail, before);
    } else {
      ReadsMinus(U32 - v, w, tail, before);
    }
  }

  lemma ReadsDelimiter(c: char, tail: string)
    requires !IsSpace(c)
    ensures ReadChar(Stream([c] + tail, false, false)) == Stream(tail, false, false)
  {
  }

  lemma ReadsDate(t: TimeFields, u: TimeFields, rest: string)
    requires Fits(t) && (rest == "" || !IsDigit(rest[0]))
    ensures ReadDate(Stream(DateText(t, rest), false, false), u)
         == (Stream(rest, rest == "", false), u.(year := t.year, month := t.month, day := t.day))
  {
    var a := Padded(AsInt(t.day), 2) + rest;
    var b := Padded(AsInt(t.month), 2) + ("-" + a);
    ReadsPrinted(t.year, 4, "-" + b, u.year);
    ReadsDelimiter('-', b);
    ReadsPrinted(t.month, 2, "-" + a, u.month);
    ReadsDelimiter('-', a);
    ReadsPrinted(t.day, 2, rest, u.day);
  }

  lemma ReadsClock(t: TimeFields, u: TimeFields)
    requires Fits(t)
    ensures ReadClock(Stream(" " + ClockText(t), false, false), u)
         == u.(hour := t.hour, minute := t.minute, second := t.second)
  {
    var a := Padded(AsInt(t.second), 2);
    var b := Padded(AsInt(t.minute), 2) + (":" + a);
    ReadsPrinted(t.hour, 2, ":" + b, u.hour);
    BlankSkipped(ClockText(t), u.hour);
    ReadsDelimiter(':', b);
    ReadsPrinted(t.minute, 2, ":" + a, u.minute);
    ReadsDelimiter(':', a);
    ReadsPrinted(t.second, 2, "", u.second);
    assert a == a + "";
  }

  /** FromString(ToString(t)) restores year through second, for every 32-bit value of each, and leaves
      the other fields of the receiver alone. */
  lemma RoundTrip(t: TimeFields, u: TimeFields)
    requires Fits(t)
    ensures Parsed(Text(t), u)
         == u.(year := t.year, month := t.month, day := t.day, hour := t.hour, minute := t.minute, second := t.second)
  {
    var rest := " " + ClockText(t);
    ReadsDate(t, u, rest);
    ReadsClock(t, u.(year := t.year, month := t.month, day := t.day));
  }

  /** A date without a time of day sets the date and leaves the time of day as it was. */
  lemma DateAlone(t: TimeFields, u: TimeFields)
    requires Fits(t)
    ensures Parsed(DateText(t, ""), u) == u.(year := t.year, month := t.month, day := t.day)
  {
    ReadsDate(t, u, "");
  }

  /** Two times print alike only if they agree from year to second. */
  lemma TextInjective(t: TimeFields, u: TimeFields)
    requires Fits(t) && Fits(u) && Text(t) == Text(u)
    ensures t.year == u.year && t.month == u.month && t.day == u.day
    ensures t.hour == u.hour && t.minute == u.minute && t.second == u.second
  {
    RoundTrip(t, t);
    RoundTrip(u, t);
  }

  // ---------- printing back what was read ----------

  lemma PadAppend(front: string, v: nat, d: char)
    requires front != "" && ZeroPad(Digits(v), |front|) == front && IsDigit(d)
    ensures ZeroPad(Digits(10 * v + DigitValue(d)), |front| + 1) == front + [d]
  {
    var n := 10 * v + DigitValue(d);
    if v == 0 {
      DigitsOfDigit(d);
      assert front == seq(|front| - 1, _ => '0') + "0" by {
        assert Digits(0) == "0";
      }
    } else {
      assert n / 10 == v && n % 10 == DigitValue(d);
      assert Digits(n) == Digits(v) + [d];
    }
  }

  // A string of w digits is what %0wd prints for its value.
  lemma {:induction false} PrintsRead(s: string)
    requires s != "" && AllDigits(s)
    ensures ZeroPad(Digits(Value(s)), |s|) == s
  {
    var front, d := s[..|s| - 1], s[|s| - 1];
    assert s == front + [d];
    if front == "" {
      assert Value(front) == 0;
      DigitsOfDigit(d);
    } else {
      PrintsRead(front);
      PadAppend(front, Value(front), d);
    }
  }

  lemma DigitsOfDigit(d: char)
    requires IsDigit(d)
    ensures Digits(DigitValue(d)) == [d]
  {
  }

  lemma {:induction false} ValueBelow(s: string)
    requires AllDigits(s)
    ensures |s| <= 1 ==> Value(s) < 10
    ensures |s| <= 2 ==> Value(s) < 100
    ensures |s| <= 3 ==> Value(s) < 1000
    ensures |s| <= 4 ==> Value(s) < 10000
  {
    if s != "" {
      ValueBelow(s[..|s| - 1]);
    }
  }

  // "YYYY-MM-DD HH:MM:SS" for any digits.
  function Stamp(year: string, month: string, day: string, hour: string, minute: string, second: string): string {
    year + ("-" + (month + ("-" + (day + (" " + (hour + (":" + (minute + (":" + second)))))))))
  }

  predicate IsNumber(s: string, w: nat) {
    |s| == w && AllDigits(s)
  }

  /** For every zero-padded "YYYY-MM-DD HH:MM:SS" digit string, FromString sets the six fields to the
      numbers written, and ToString then gives the same string, whatever the receiver held. */
  lemma StampRoundTrip(year: string, month: string, day: string, hour: string, minute: string, second: string,
                       u: TimeFields)
    requires IsNumber(year, 4) && IsNumber(month, 2) && IsNumber(day, 2)
    requires IsNumber(hour, 2) && IsNumber(minute, 2) && IsNumber(second, 2)
    ensures var t := Parsed(Stamp(year, month, day, hour, minute, second), u);
            Fits(t) && Text(t) == Stamp(year, month, day, hour, minute, second)
            && t == u.(year := Value(year), month := Value(month), day := Value(day),
                       hour := Value(hour), minute := Value(minute), second := Value(second))
  {
    ValueBelow(year);
    ValueBelow(month);
    ValueBelow(day);
    ValueBelow(hour);
    ValueBelow(minute);
    ValueBelow(second);
    var t := u.(year := Value(year), month := Value(month), day := Value(day),
                hour := Value(hour), minute := Value(minute), second := Value(second));
    PrintsRead(year);
    PrintsRead(month);
    PrintsRead(day);
    PrintsRead(hour);
    PrintsRead(minute);
    PrintsRead(second);
    assert Text(t) == Stamp(year, month, day, hour, minute, second);
    RoundTrip(t, u);
  }
}
