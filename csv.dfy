/** The CSV field and record rendering of the Power BI exporter
    (`objectToCSVLine`), and a reader for the record format of section 2 of
    RFC 4180 that serves as its inverse. */
module Csv {
  import opened Wrappers
  import Text

  /** A value as it reaches `objectToCSVLine`. `Null` stands for both `null`
      and `undefined`. `Date` carries the text `toISOString()` gives and `Id`
      the text of a value the ObjectId validity test accepts: both are
      emitted verbatim. `Str` is any value whose `String(...)` form is `s`;
      `Num` is an integer. */
  datatype Value =
    | Null
    | Date(iso: string)
    | Id(hex: string)
    | Str(s: string)
    | Num(n: int)

  /** The characters that force a field into double quotes. A bare carriage
      return is deliberately not among them. */
  predicate Special(s: string)
  {
    ',' in s || '\n' in s || '"' in s
  }

  /** `replace(/"/g, '""')`: every double quote is doubled. */
  function Escape(s: string): string
    decreases |s|
  {
    if |s| == 0 then ""
    else (if s[0] == '"' then "\"\"" else [s[0]]) + Escape(s[1..])
  }

  /** The string path of `objectToCSVLine`: escape, then wrap in double
      quotes when the escaped text contains a comma, a newline or a quote. */
  function StringField(s: string): string
  {
    var e := Escape(s);
    if Special(e) then "\"" + e + "\"" else e
  }

  /** The decimal text `String(n)` gives for an integer. */
  function NumText(n: int): string
  {
    if n < 0 then "-" + Digits(-n) else Digits(n)
  }

  function Digits(n: nat): (r: string)
    ensures |r| >= 1
    ensures forall k :: 0 <= k < |r| ==> '0' <= r[k] <= '9'
    decreases n
  {
    if n < 10 then [DigitChar(n)] else Digits(n / 10) + [DigitChar(n % 10)]
  }

  function DigitChar(d: nat): (c: char)
    requires d < 10
    ensures '0' <= c <= '9'
  {
    "0123456789"[d]
  }

  /** The field `objectToCSVLine` renders for one value. */
  function Render(v: Value): string
  {
    match v
    case Null => ""
    case Date(iso) => iso
    case Id(hex) => hex
    case Str(s) => StringField(s)
    case Num(n) => StringField(NumText(n))
  }

  /** `obj[header]`, with a missing key read as `undefined`. */
  function Get(row: map<string, Value>, header: string): Value
  {
    if header in row then row[header] else Null
  }

  /** The rendered fields of a row, one per header, in header order. */
  function RowFields(row: map<string, Value>, headers: seq<string>): (fs: seq<string>)
    ensures |fs| == |headers|
  {
    seq(|headers|, k requires 0 <= k < |headers| => Render(Get(row, headers[k])))
  }

  /** `objectToCSVLine(obj, headers)`: the rendered fields joined by commas. */
  function CsvLine(row: map<string, Value>, headers: seq<string>): string
  {
    Text.Join(RowFields(row, headers), ',')
  }

  // ---------------------------------------------------------------------
  // Reading a record back (section 2 of RFC 4180, rules 4 to 7)
  // ---------------------------------------------------------------------

  /** Reads the rest of a quoted field, after its opening quote: returns the
      field's content with each `""` read as one quote, and what follows the
      closing quote; None when the closing quote is missing. */
  function ReadQuoted(s: string): (r: Option<(string, string)>)
    ensures r.Some? ==> |r.value.1| < |s|
    decreases |s|
  {
    if |s| == 0 then None
    else if s[0] == '"' then
      if |s| >= 2 && s[1] == '"' then
        match ReadQuoted(s[2..])
        case None => None
        case Some((c, rest)) => Some(("\"" + c, rest))
      else Some(("", s[1..]))
    else
      match ReadQuoted(s[1..])
      case None => None
      case Some((c, rest)) => Some(([s[0]] + c, rest))
  }

  /** Reads an unquoted field: everything up to the next comma. */
  function ReadPlain(s: string): (r: (string, string))
    ensures r.0 + r.1 == s
    ensures ',' !in r.0
    ensures r.1 == [] || r.1[0] == ','
    decreases |s|
  {
    if |s| == 0 || s[0] == ',' then ("", s)
    else
      var r := ReadPlain(s[1..]);
      var head := [s[0]] + r.0;
      assert head + r.1 == [s[0]] + (r.0 + r.1) == s;
      assert forall k :: 1 <= k < |head| ==> head[k] == r.0[k - 1];
      (head, r.1)
  }

  /** Reads one field from the start of `s`. */
  function ReadField(s: string): (r: Option<(string, string)>)
    ensures r.Some? ==> |r.value.1| <= |s|
  {
    if |s| > 0 && s[0] == '"' then ReadQuoted(s[1..]) else Some(ReadPlain(s))
  }

  /** Reads a whole record: fields separated by commas. */
  function ParseRecord(s: string): (r: Option<seq<string>>)
    ensures r.Some? ==> |r.value| >= 1
    decreases |s|
  {
    match ReadField(s)
    case None => None
    case Some((f, rest)) =>
      if |rest| == 0 then Some([f])
      else if rest[0] != ',' then None
      else
        match ParseRecord(rest[1..])
        case None => None
        case Some(fs) => Some([f] + fs)
  }

  /** The text a field is meant to carry. */
  function TextOf(v: Value): string
  {
    match v
    case Null => ""
    case Date(iso) => iso
    case Id(hex) => hex
    case Str(s) => s
    case Num(n) => NumText(n)
  }

  /** Values emitted verbatim are readable back only when their text has no
      comma and no quote; ISO timestamps and hexadecimal ids have neither. */
  predicate Readable(v: Value)
  {
    match v
    case Date(iso) => ',' !in iso && '"' !in iso
    case Id(hex) => ',' !in hex && '"' !in hex
    case _ => true
  }

  // ---------------------------------------------------------------------
  // Lemmas
  // ---------------------------------------------------------------------

  /** Escaping adds or removes no character other than quotes, and keeps a
      quote present exactly when the original had one. */
  lemma {:induction false} EscapeMembers(s: string, c: char)
    ensures c in Escape(s) <==> c in s
    decreases |s|
  {
    if |s| > 0 {
      EscapeMembers(s[1..], c);
      assert c in s <==> c == s[0] || c in s[1..];
    }
  }

  /** A quote-free string is its own escape. */
  lemma {:induction false} EscapeQuoteFree(s: string)
    requires '"' !in s
    ensures Escape(s) == s
    decreases |s|
  {
    if |s| > 0 {
      assert '"' !in s[1..];
      EscapeQuoteFree(s[1..]);
      assert [s[0]] + s[1..] == s;
    }
  }

  /** Escaping doubles exactly the quotes: the escape is as long as the
      original plus one for each quote. */
  lemma {:induction false} EscapeLength(s: string)
    ensures |Escape(s)| == |s| + multiset(s)['"']
    decreases |s|
  {
    if |s| > 0 {
      EscapeLength(s[1..]);
      assert s == [s[0]] + s[1..];
      assert multiset(s) == multiset([s[0]]) + multiset(s[1..]);
    }
  }

  /** A string field is wrapped in quotes iff the ORIGINAL string contains a
      comma, a newline or a quote; otherwise it is emitted unchanged. */
  lemma StringFieldShape(s: string)
    ensures Special(s) ==> StringField(s) == "\"" + Escape(s) + "\""
    ensures !Special(s) ==> StringField(s) == s
  {
    EscapeMembers(s, ',');
    EscapeMembers(s, '\n');
    EscapeMembers(s, '"');
    if !Special(s) {
      EscapeQuoteFree(s);
    }
  }

  /** A number is always emitted as its plain decimal text, never quoted. */
  lemma NumberFieldVerbatim(n: int)
    ensures Render(Num(n)) == NumText(n)
    ensures !Special(NumText(n))
  {
    var t := NumText(n);
    var d := Digits(if n < 0 then -n else n);
    assert t == (if n < 0 then "-" + d else d);
    assert forall k :: 0 <= k < |t| ==> t[k] != ',' && t[k] != '\n' && t[k] != '"';
    StringFieldShape(t);
  }

  /** Reading a quoted field whose content is `Escape(s)` gives back `s`. */
  lemma {:induction false} ReadQuotedEscaped(s: string, rest: string)
    requires rest == [] || rest[0] != '"'
    ensures ReadQuoted(Escape(s) + "\"" + rest) == Some((s, rest))
    decreases |s|
  {
    var input := Escape(s) + "\"" + rest;
    if |s| == 0 {
      assert input == "\"" + rest;
      assert input[1..] == rest;
    } else if s[0] == '"' {
      ReadQuotedEscaped(s[1..], rest);
      assert input == "\"\"" + (Escape(s[1..]) + "\"" + rest);
      assert input[2..] == Escape(s[1..]) + "\"" + rest;
      assert "\"" + s[1..] == s;
    } else {
      ReadQuotedEscaped(s[1..], rest);
      assert input == [s[0]] + (Escape(s[1..]) + "\"" + rest);
      assert input[1..] == Escape(s[1..]) + "\"" + rest;
      assert [s[0]] + s[1..] == s;
    }
  }

  /** An unquoted field ends at the first comma. */
  lemma {:induction false} ReadPlainFree(t: string, rest: string)
    requires ',' !in t
    requires rest == [] || rest[0] == ','
    ensures ReadPlain(t + rest) == (t, rest)
    decreases |t|
  {
    if |t| == 0 {
      assert t + rest == rest;
    } else {
      assert (t + rest)[1..] == t[1..] + rest;
      assert ',' !in t[1..];
      ReadPlainFree(t[1..], rest);
      assert [t[0]] + t[1..] == t;
    }
  }

  /** A field emitted without quotes reads back as itself. */
  lemma ReadUnquoted(t: string, rest: string)
    requires ',' !in t && (|t| > 0 ==> t[0] != '"')
    requires rest == [] || rest[0] == ','
    ensures ReadField(t + rest) == Some((t, rest))
  {
    ReadPlainFree(t, rest);
    assert |t + rest| > 0 ==> (t + rest)[0] != '"';
  }

  /** A field emitted with quotes reads back as the unescaped content. */
  lemma ReadQuotedField(s: string, rest: string)
    requires rest == [] || rest[0] == ','
    ensures ReadField("\"" + Escape(s) + "\"" + rest) == Some((s, rest))
  {
    var input := "\"" + Escape(s) + "\"" + rest;
    var tail := Escape(s) + "\"" + rest;
    assert input == "\"" + tail;
    assert input[0] == '"' && input[1..] == tail;
    assert ReadField(input) == ReadQuoted(tail);
    ReadQuotedEscaped(s, rest);
  }

  /** Field round trip: reading a rendered field, followed by either the end
      of the record or a comma, gives back the field's text. */
  lemma ReadRendered(v: Value, rest: string)
    requires Readable(v)
    requires rest == [] || rest[0] == ','
    ensures ReadField(Render(v) + rest) == Some((TextOf(v), rest))
  {
    match v
    case Null =>
      ReadUnquoted("", rest);
    case Date(iso) =>
      ReadUnquoted(iso, rest);
    case Id(hex) =>
      ReadUnquoted(hex, rest);
    case Str(s) =>
      StringFieldShape(s);
      if Special(s) {
        ReadQuotedField(s, rest);
      } else {
        ReadUnquoted(s, rest);
      }
    case Num(n) =>
      NumberFieldVerbatim(n);
      var t := NumText(n);
      assert ',' !in t && '"' !in t;
      ReadUnquoted(t, rest);
  }

  /** Round trip for one string value (rules 6 and 7 of section 2 of
      RFC 4180): undoing the quoting recovers the original string. */
  lemma StringRoundTrip(s: string)
    ensures ReadField(Render(Str(s))) == Some((s, ""))
  {
    ReadRendered(Str(s), "");
    assert Render(Str(s)) + "" == Render(Str(s));
  }

  /** Record round trip: the comma-join of rendered values reads back as
      exactly one field per value, in order, each holding the value's text. */
  lemma {:induction false} RecordRoundTrip(vs: seq<Value>)
    requires |vs| >= 1
    requires forall k :: 0 <= k < |vs| ==> Readable(vs[k])
    ensures ParseRecord(Text.Join(Rendered(vs), ',')) == Some(Texts(vs))
    decreases |vs|
  {
    var fs := Rendered(vs);
    if |vs| == 1 {
      ReadRendered(vs[0], "");
      assert Text.Join(fs, ',') == Render(vs[0]) + "";
      assert Texts(vs) == [TextOf(vs[0])];
    } else {
      var tail := Text.Join(Rendered(vs[1..]), ',');
      assert fs[1..] == Rendered(vs[1..]);
      assert Text.Join(fs, ',') == Render(vs[0]) + ([','] + tail);
      ReadRendered(vs[0], [','] + tail);
      assert ([','] + tail)[1..] == tail;
      RecordRoundTrip(vs[1..]);
      assert Texts(vs) == [TextOf(vs[0])] + Texts(vs[1..]);
    }
  }

  function Rendered(vs: seq<Value>): (fs: seq<string>)
    ensures |fs| == |vs|
  {
    seq(|vs|, k requires 0 <= k < |vs| => Render(vs[k]))
  }

  function Texts(vs: seq<Value>): (ts: seq<string>)
    ensures |ts| == |vs|
  {
    seq(|vs|, k requires 0 <= k < |vs| => TextOf(vs[k]))
  }

  /** The values of a row, one per header, in header order. */
  function RowValues(row: map<string, Value>, headers: seq<string>): (vs: seq<Value>)
    ensures |vs| == |headers|
  {
    seq(|headers|, k requires 0 <= k < |headers| => Get(row, headers[k]))
  }

  /** `objectToCSVLine` reads back as one field per header, in header order;
      a header missing from the row (null or undefined) reads back empty. */
  lemma CsvLineRoundTrip(row: map<string, Value>, headers: seq<string>)
    requires |headers| >= 1
    requires forall h :: h in row ==> Readable(row[h])
    ensures ParseRecord(CsvLine(row, headers)) == Some(Texts(RowValues(row, headers)))
    ensures forall k :: 0 <= k < |headers| && headers[k] !in row ==>
      Texts(RowValues(row, headers))[k] == ""
  {
    var vs := RowValues(row, headers);
    assert RowFields(row, headers) == Rendered(vs);
    RecordRoundTrip(vs);
  }
}
