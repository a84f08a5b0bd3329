/** The row projection and file emission of `exportToCSV` in the Power BI
    exporter: each stored document is flattened into one row holding exactly
    the requested fields, dotted paths resolved by successive key lookup,
    and written after a header line. */
module Export {
  import opened Wrappers
  import Text
  import Csv

  /** A stored document as the exporter reads it: a scalar, or an object
      with named members. */
  datatype Doc = Leaf(v: Csv.Value) | Object(members: map<string, Doc>)

  /** `obj?.[key]`: a member of an object; undefined for anything else. */
  function Step(d: Option<Doc>, key: string): Option<Doc>
  {
    match d
    case Some(Object(m)) => if key in m then Some(m[key]) else None
    case _ => None
  }

  /** `parts.reduce((obj, key) => obj?.[key], start)`. */
  function Resolve(d: Option<Doc>, path: seq<string>): Option<Doc>
    decreases |path|
  {
    if |path| == 0 then d else Resolve(Step(d, path[0]), path[1..])
  }

  /** What the row receives for a resolved member: undefined becomes `Null`,
      and a nested object goes through `String(...)`. */
  function AsValue(d: Option<Doc>): Csv.Value
  {
    match d
    case None => Csv.Null
    case Some(Leaf(v)) => v
    case Some(Object(_)) => Csv.Str("[object Object]")
  }

  /** The value of column `field` for document `item`: a dotted field is
      split on '.' and resolved step by step, any other field is looked up
      directly. */
  function Project(item: map<string, Doc>, field: string): Csv.Value
  {
    if '.' in field then AsValue(Resolve(Some(Object(item)), Text.Split(field, '.')))
    else AsValue(if field in item then Some(item[field]) else None)
  }

  /** The row object built for `item`: exactly the requested fields. */
  function Row(item: map<string, Doc>, fields: seq<string>): map<string, Csv.Value>
  {
    map f | f in fields :: Project(item, f)
  }

  /** The header line: the field names joined by commas, unescaped. */
  function Header(fields: seq<string>): string
  {
    Text.Join(fields, ',')
  }

  /** The line written for one document. */
  function RowLine(item: map<string, Doc>, fields: seq<string>): string
  {
    Csv.CsvLine(Row(item, fields), fields)
  }

  /** The row lines written for a run of documents, each ending in a newline. */
  function RowLines(data: seq<map<string, Doc>>, fields: seq<string>): (ls: seq<string>)
    ensures |ls| == |data|
  {
    seq(|data|, k requires 0 <= k < |data| => RowLine(data[k], fields) + "\n")
  }

  /** What one export produces: nothing for an empty collection, otherwise
      the writes made to the file, in order, and the reported row count. */
  datatype Outcome = NoData | Exported(writes: seq<string>, count: nat)

  /** The inner loop of `exportToCSV`: the row object for one document,
      filled field by field. */
  method BuildRow(item: map<string, Doc>, fields: seq<string>) returns (row: map<string, Csv.Value>)
    ensures row == Row(item, fields)
  {
    row := map[];
    var f := 0;
    while f < |fields|
      invariant 0 <= f <= |fields|
      invariant forall x :: x in row <==> x in fields[..f]
      invariant forall x :: x in row ==> row[x] == Project(item, x)
    {
      row := row[fields[f] := Project(item, fields[f])];
      assert fields[..f + 1] == fields[..f] + [fields[f]];
      f := f + 1;
    }
    assert fields[..f] == fields;
  }

  /** `exportToCSV` for one collection, whose documents are `data`. */
  method ExportToCsv(data: seq<map<string, Doc>>, fields: seq<string>) returns (out: Outcome)
    ensures |data| == 0 <==> out == NoData
    ensures |data| > 0 ==> out == Exported([Header(fields) + "\n"] + RowLines(data, fields), |data|)
  {
    if |data| == 0 {
      return NoData;
    }
    var writes := [Header(fields) + "\n"];
    var count := 0;
    var i := 0;
    while i < |data|
      invariant 0 <= i <= |data|
      invariant count == i
      invariant writes == [Header(fields) + "\n"] + RowLines(data[..i], fields)
    {
      var row := BuildRow(data[i], fields);
      writes := writes + [Csv.CsvLine(row, fields) + "\n"];
      count := count + 1;
      RowLinesPush(data, i, fields);
      i := i + 1;
    }
    assert data[..i] == data;
    out := Exported(writes, count);
  }

  /** One more document adds its line to the row lines. */
  lemma RowLinesPush(data: seq<map<string, Doc>>, i: nat, fields: seq<string>)
    requires i < |data|
    ensures RowLines(data[..i + 1], fields) == RowLines(data[..i], fields) + [RowLine(data[i], fields) + "\n"]
  {
    var longer := RowLines(data[..i + 1], fields);
    var shorter := RowLines(data[..i], fields);
    assert forall k :: 0 <= k < i ==> longer[k] == shorter[k];
  }

  // ---------------------------------------------------------------------
  // Lemmas
  // ---------------------------------------------------------------------

  /** Resolving a path in two parts is resolving the second part from where
      the first one ends (the fold of `reduce`). */
  lemma {:induction false} ResolveAppend(d: Option<Doc>, p: seq<string>, q: seq<string>)
    ensures Resolve(d, p + q) == Resolve(Resolve(d, p), q)
    decreases |p|
  {
    if |p| > 0 {
      assert (p + q)[0] == p[0];
      assert (p + q)[1..] == p[1..] + q;
      ResolveAppend(Step(d, p[0]), p[1..], q);
    } else {
      assert p + q == q;
    }
  }

  /** Once a step is undefined, every further step is undefined. */
  lemma {:induction false} ResolveUndefined(path: seq<string>)
    ensures Resolve(None, path) == None
    decreases |path|
  {
    if |path| > 0 {
      ResolveUndefined(path[1..]);
    }
  }

  /** A dotted field whose path is missing at some intermediate step renders
      as the empty field. */
  lemma MissingIntermediate(item: map<string, Doc>, field: string, k: nat)
    requires '.' in field
    requires k <= |Text.Split(field, '.')|
    requires Resolve(Some(Object(item)), Text.Split(field, '.')[..k]) == None
    ensures Project(item, field) == Csv.Null
    ensures Csv.Render(Project(item, field)) == ""
  {
    var parts := Text.Split(field, '.');
    assert parts == parts[..k] + parts[k..];
    ResolveAppend(Some(Object(item)), parts[..k], parts[k..]);
    ResolveUndefined(parts[k..]);
  }

  /** The direct lookup of an undotted field is what resolving its one-piece
      path would give, so the `includes('.')` test is only a shortcut: every
      column is the resolution of its dot-separated path. */
  lemma ProjectResolves(item: map<string, Doc>, field: string)
    ensures Project(item, field) == AsValue(Resolve(Some(Object(item)), Text.Split(field, '.')))
  {
    if '.' !in field {
      Text.SplitFree(field, '.');
      assert Text.Split(field, '.')[1..] == [];
    }
  }

  /** Every column of a written row reads back, in header order, as the text
      of its projected value (section 2 of RFC 4180). */
  lemma RowLineRoundTrip(item: map<string, Doc>, fields: seq<string>)
    requires |fields| >= 1
    requires forall f :: f in fields ==> Csv.Readable(Project(item, f))
    ensures Csv.ParseRecord(RowLine(item, fields)) ==
      Some(seq(|fields|, k requires 0 <= k < |fields| => Csv.TextOf(Project(item, fields[k]))))
  {
    var row := Row(item, fields);
    Csv.CsvLineRoundTrip(row, fields);
    assert Csv.Texts(Csv.RowValues(row, fields)) ==
      seq(|fields|, k requires 0 <= k < |fields| => Csv.TextOf(Project(item, fields[k])));
  }

  /** The header line splits back into the field names when none of them
      contains a comma. */
  lemma HeaderRoundTrip(fields: seq<string>)
    requires |fields| >= 1
    requires forall k :: 0 <= k < |fields| ==> ',' !in fields[k]
    ensures Text.Split(Header(fields), ',') == fields
  {
    Text.SplitJoin(fields, ',');
  }
}
