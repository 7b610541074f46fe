/** How the records of the join reach the CSV converter: each DailyRecord is the
    object literal built in `fetchAndOrganizeData`, with one property per column. */
module CsvExport {
  import opened Wrappers
  import opened OuraDataFetcher
  import opened CsvConverter

  /** The values of a record in column order. */
  function Cells(r: DailyRecord): seq<Cell>
  {
    [Some(Text(r.day)),
     Some(Number(r.sleepTotal)), Some(Number(r.sleepDeep)), Some(Number(r.sleepRem)),
     Some(Number(r.sleepEfficiency)), Some(Number(r.sleepLatency)), Some(Number(r.sleepRestfulness)),
     Some(Number(r.sleepScore)), Some(Number(r.readinessScore)), Some(Number(r.activityScore)),
     Some(Number(r.cardiovascularAge)), Some(Number(r.stressSeconds))]
  }

  /** The JavaScript object of a record: the properties of the object literal
      built in `fetchAndOrganizeData`, under its own names. */
  function AsObject(r: DailyRecord): JsObject
  {
    ObjectOf(RecordKeys, Cells(r))
  }

  /** The object literal of the join names its properties exactly as the
      converter's column list does, in the same order. */
  lemma RecordKeysAreFields()
    ensures RecordKeys == Fields
  {
  }

  function NumberIn(c: Cell): Option<int>
  {
    if c.Some? && c.value.Number? then Some(c.value.number) else None
  }

  /** The record a CSV row describes, when it has twelve cells: a date string
      under `day` and a number in every other column. */
  function RecordOfRow(row: seq<Cell>): Option<DailyRecord>
  {
    if |row| == |Fields| && row[0].Some? && row[0].value.Text?
       && forall j :: 1 <= j < |Fields| ==> NumberIn(row[j]).Some?
    then
      Some(DailyRecord(
        row[0].value.text,
        NumberIn(row[1]).value, NumberIn(row[2]).value, NumberIn(row[3]).value,
        NumberIn(row[4]).value, NumberIn(row[5]).value, NumberIn(row[6]).value,
        NumberIn(row[7]).value, NumberIn(row[8]).value, NumberIn(row[9]).value,
        NumberIn(row[10]).value, NumberIn(row[11]).value))
    else None
  }

  /** The CSV row of a record has a value in every one of the twelve columns,
      and reading it back gives the record again: the export loses nothing. */
  lemma ExportRowRoundTrip(r: DailyRecord)
    ensures |Project(Fields, AsObject(r))| == |Fields|
    ensures forall j :: 0 <= j < |Fields| ==> Project(Fields, AsObject(r))[j].Some?
    ensures RecordOfRow(Project(Fields, AsObject(r))) == Some(r)
  {
    RecordKeysAreFields();
    FieldsDistinct();
    ProjectObjectOf(Fields, Cells(r));
  }

  /** The records of a successful organize step, as the array handed to the
      converter. */
  function ExportInput(records: seq<DailyRecord>): CsvInput
  {
    Array(seq(|records|, i requires 0 <= i < |records| => AsObject(records[i])))
  }

  /** Exporting the result of the organize step: the converter's guard rejects it
      exactly when the sleep data was empty (a failed sleep request included);
      otherwise the result is the rendered table, or the conversion error when
      rendering fails, and the table has one complete row per sleep day, in order, that
      reads back as that day's record. */
  lemma ExportOfOrganize(sleep: seq<Entry>, readiness: Payload, activity: Payload,
                         cardiovascular: Payload, stress: Payload, render: Table -> Option<string>)
    requires Organize(Data(sleep), readiness, activity, cardiovascular, stress).Ok?
    ensures var records := Organize(Data(sleep), readiness, activity, cardiovascular, stress).value;
            var r := ConvertToCsv(ExportInput(records), render);
            && ((r.Err? && r.message == InvalidInputError) <==> sleep == [])
            && (sleep != [] && render(Tabulate(ExportInput(records).items)).Some? ==>
                  r == Ok(render(Tabulate(ExportInput(records).items)).value))
            && (sleep != [] && render(Tabulate(ExportInput(records).items)).None? ==>
                  r == Err(ConversionError))
            && |Tabulate(ExportInput(records).items).rows| == |sleep|
            && forall i :: 0 <= i < |sleep| ==>
                 RecordOfRow(Tabulate(ExportInput(records).items).rows[i]) == Some(records[i])
                 && records[i].day == sleep[i].day
  {
    var records := Organize(Data(sleep), readiness, activity, cardiovascular, stress).value;
    var items := ExportInput(records).items;
    forall i | 0 <= i < |sleep|
      ensures RecordOfRow(Tabulate(items).rows[i]) == Some(records[i])
    {
      ExportRowRoundTrip(records[i]);
    }
  }
}
