/** `convertToCSV` (backend/csvConverter.js): the input guard and the fixed
    ordered field list. The converter passes the raw array and the field list to
    the `json2csv` parser; the model splits the parser's work into the column
    selection, assumed to behave as `Project`, and the text rendering of the
    selected table, which is a parameter of the model. */
module CsvConverter {
  import opened Wrappers

  /** A property value of an exported object: a date string or a number. */
  datatype Value = Text(text: string) | Number(number: int)

  /** A plain JavaScript object: property name -> value. */
  type JsObject = map<string, Value>

  /** What `convertToCSV` may be called with: a falsy value (`null`,
      `undefined`, ...), something truthy that is not an array, or an array of
      objects. */
  datatype CsvInput = Absent | NotAnArray | Array(items: seq<JsObject>)

  /** One cell of the table: the value of the column's property, `None` when
      the object lacks it. */
  type Cell = Option<Value>

  /** The CSV document before it is rendered as text: a header of field names
      and one row of cells per input object. */
  datatype Table = Table(header: seq<string>, rows: seq<seq<Cell>>)

  /** The columns of the export, in order. */
  const Fields: seq<string> := [
    "day",
    "sleep_total",
    "sleep_deep",
    "sleep_rem",
    "sleep_efficiency",
    "sleep_latency",
    "sleep_restfulness",
    "sleep_score",
    "readiness_score",
    "activity_score",
    "cardiovascular_age",
    "stress_seconds"
  ]

  const InvalidInputError: string := "Invalid or empty data provided for CSV conversion."
  const ConversionError: string := "CSV conversion failed."

  /** No name occurs twice in `header`. */
  predicate Distinct(header: seq<string>)
  {
    forall i, j :: 0 <= i < j < |header| ==> header[i] != header[j]
  }

  /** The twelve column names are pairwise different. */
  lemma FieldsDistinct()
    ensures |Fields| == 12 && Distinct(Fields)
  {
  }

  /** The row of one object, as the parser is assumed to select it: for each
      column, in order, the object's property of that name, an empty cell when the
      object lacks it. Properties of the object that are not columns are dropped. */
  function Project(header: seq<string>, o: JsObject): (row: seq<Cell>)
    ensures |row| == |header|
    ensures forall j :: 0 <= j < |header| ==>
              (row[j].Some? <==> header[j] in o) && (row[j].Some? ==> row[j].value == o[header[j]])
  {
    if header == [] then []
    else [if header[0] in o then Some(o[header[0]]) else None] + Project(header[1..], o)
  }

  /** The table for an array of objects: the fixed header and one projected row
      per object. */
  function Tabulate(items: seq<JsObject>): Table
  {
    Table(Fields, seq(|items|, i requires 0 <= i < |items| => Project(Fields, items[i])))
  }

  /** `convertToCSV`: the guard throws for a falsy value, a non-array and an empty
      array; past the guard, the projected table is rendered, and a failure of the
      renderer is reported as the one generic conversion error. */
  function ConvertToCsv(input: CsvInput, render: Table -> Option<string>): (r: Result<string>)
    ensures (r.Err? && r.message == InvalidInputError) <==> !(input.Array? && |input.items| > 0)
    ensures r.Err? ==> r.message == InvalidInputError || r.message == ConversionError
    ensures r.Ok? ==> input.Array? && |input.items| > 0 && render(Tabulate(input.items)) == Some(r.value)
    ensures input.Array? && |input.items| > 0 && render(Tabulate(input.items)).None? ==> r == Err(ConversionError)
    ensures input.Array? && |input.items| > 0 && render(Tabulate(input.items)).Some? ==>
              r == Ok(render(Tabulate(input.items)).value)
  {
    if input.Absent? || input.NotAnArray? || |input.items| == 0 then
      Err(InvalidInputError)
    else
      match render(Tabulate(input.items))
      case None => Err(ConversionError)
      case Some(text) => Ok(text)
  }

  /** The table has the twelve column names as its header, whatever the objects
      hold, one row per object in input order, and each row holds exactly the
      twelve column values of its object, in header order. */
  lemma TabulateShape(items: seq<JsObject>)
    ensures Tabulate(items).header == Fields
    ensures |Tabulate(items).rows| == |items|
    ensures forall i, j :: 0 <= i < |items| && 0 <= j < |Fields| ==>
              |Tabulate(items).rows[i]| == |Fields| &&
              Tabulate(items).rows[i][j] == (if Fields[j] in items[i] then Some(items[i][Fields[j]]) else None)
  {
  }

  /** Two objects that agree on the columns give the same row: properties that
      are not columns never reach the output. */
  lemma ExtraPropertiesDropped(header: seq<string>, o: JsObject, o': JsObject)
    requires forall k :: k in header ==> (k in o <==> k in o') && (k in o ==> o[k] == o'[k])
    ensures Project(header, o) == Project(header, o')
  {
  }

  // ---------------------------------------------------------------------------
  // Reading a row back against its header
  // ---------------------------------------------------------------------------

  /** The object described by a row under a header: each non-empty cell gives the
      property named by its column; for a repeated column name the first cell wins. */
  function ObjectOf(header: seq<string>, row: seq<Cell>): JsObject
    requires |row| == |header|
  {
    if header == [] then map[]
    else
      var rest := ObjectOf(header[1..], row[1..]);
      if row[0].Some? then rest[header[0] := row[0].value] else rest - {header[0]}
  }

  /** The properties of `o` whose names are in `names`. */
  function Restrict(o: JsObject, names: set<string>): JsObject
  {
    map k | k in o && k in names :: o[k]
  }

  /** Reading a projected row back gives the object restricted to the header's
      names: projection loses exactly the properties that are not columns. */
  lemma {:induction false} ObjectOfProject(header: seq<string>, o: JsObject)
    ensures ObjectOf(header, Project(header, o)) == Restrict(o, set k | k in header)
  {
    if header != [] {
      var row := Project(header, o);
      assert row[1..] == Project(header[1..], o);
      ObjectOfProject(header[1..], o);
      var rest := Restrict(o, set k | k in header[1..]);
      if header[0] in o {
        assert ObjectOf(header, row) == rest[header[0] := o[header[0]]];
      } else {
        assert ObjectOf(header, row) == rest - {header[0]};
      }
    }
  }

  /** With distinct column names, projecting the object a row describes gives
      the row back. */
  lemma {:induction false} ProjectObjectOf(header: seq<string>, row: seq<Cell>)
    requires Distinct(header) && |row| == |header|
    ensures Project(header, ObjectOf(header, row)) == row
  {
    if header != [] {
      var rest := ObjectOf(header[1..], row[1..]);
      var o := ObjectOf(header, row);
      assert Distinct(header[1..]);
      ProjectObjectOf(header[1..], row[1..]);
      forall k | k in header[1..] ensures (k in o <==> k in rest) && (k in o ==> o[k] == rest[k]) {
        assert k != header[0];
      }
      ExtraPropertiesDropped(header[1..], o, rest);
      assert row == [row[0]] + row[1..];
    }
  }
}
