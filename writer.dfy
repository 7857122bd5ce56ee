/** The writer of src/main.js: the daily roll-over to a new set of
    spreadsheets, the Solcast forecast update, the periodic flush of the
    reconciled measurements and the derived values computed from them, and
    the schedule that runs the three. The module-level `SETUP`, `TODAY` and
    `totalIrradiance` are the fields of an `App`; the Google, disk, forecast
    and log collaborators answer through parameters and are called through
    the returned trace. */
module Writer {
  import opened Common
  import opened Ordering
  import Utils
  import TaskQueue
  import opened PusherData
  import Helpers

  // ---------------------------------------------------------------------
  // Draining the ready buffer

  /** Rows left behind by every drain, so that late rows can still be
      sorted in among them by the next one. */
  const Reserve := 10

  function TsOf(r: Row): int { r.ts }

  /** `clamp(length - 10, [0])`: the number of rows a drain removes. */
  function DrainCount(n: nat): (k: nat)
    ensures k <= n
    ensures n - k == Min(n, Reserve)
  {
    Utils.Clamp(n - Reserve, 0)
  }

  /** The drained rows, `splice(0, k).sort(compare)` with `compare` ordering
      by timestamp. */
  function Drained(ready: seq<Row>): (values: seq<Row>)
    ensures |values| == DrainCount(|ready|)
    ensures SortedBy(values, TsOf)
  {
    SortBy(ready[..DrainCount(|ready|)], TsOf)
  }

  /** The drain neither loses nor invents a row: the values are the removed
      prefix rearranged, and rows with the same timestamp keep their
      arrival order. */
  lemma DrainedIsSortedPrefix(ready: seq<Row>, t: int)
    ensures multiset(Drained(ready)) == multiset(ready[..DrainCount(|ready|)])
    ensures WithKey(Drained(ready), t, TsOf) == WithKey(ready[..DrainCount(|ready|)], t, TsOf)
  {
    SortByPermutation(ready[..DrainCount(|ready|)], TsOf);
    SortByStable(ready[..DrainCount(|ready|)], t, TsOf);
  }

  /** A buffer of at most ten rows is left alone and nothing is written. */
  lemma DrainKeepsReserve(ready: seq<Row>)
    ensures |ready| <= Reserve ==> Drained(ready) == [] && ready[DrainCount(|ready|)..] == ready
    ensures |ready| > Reserve ==> |ready[DrainCount(|ready|)..]| == Reserve
  {
  }

  /** `spliceAndSort`: the drain as it acts on the reconciler's ready buffer. */
  method Drain(r: Reconciler) returns (values: seq<Row>)
    modifies r
    ensures r.ready == old(r.ready)[DrainCount(|old(r.ready)|)..]
    ensures values == Drained(old(r.ready))
    ensures r.staging == old(r.staging)
    ensures old(r.Valid()) ==> r.Valid()
  {
    var k := Utils.Clamp(|r.ready| - Reserve, 0);
    values := r.ready[..k];
    r.ready := r.ready[k..];
    values := SortBy(values, TsOf);
  }

  /** A slot of a spread sample: a hole reads as `undefined`. */
  function SlotCell(x: Option<real>): Cell {
    match x
    case Some(v) => Number(v)
    case None => Undefined
  }

  /** The row `[ts, localTime, ...sample]` as it is appended to the
      measurements sheet. */
  function MeasurementCells(row: Row): (c: seq<Cell>)
    ensures |c| == 2 + |row.values|
    ensures c[0] == Number(row.ts as real) && c[1] == Text(row.localTime)
    ensures forall i :: 0 <= i < |row.values| ==> c[2 + i] == SlotCell(row.values[i])
  {
    [Number(row.ts as real), Text(row.localTime)] + seq(|row.values|, i requires 0 <= i < |row.values| => SlotCell(row.values[i]))
  }

  function MeasurementRows(values: seq<Row>): (rows: seq<seq<Cell>>)
    ensures |rows| == |values|
    ensures forall i :: 0 <= i < |values| ==> rows[i] == MeasurementCells(values[i])
  {
    seq(|values|, i requires 0 <= i < |values| => MeasurementCells(values[i]))
  }

  // ---------------------------------------------------------------------
  // Derived values

  const TimestampField := "Timestamp"
  const LocalTimeField := "Local Time"
  const MpptPowerField := "MPPT Power (W)"
  const MpptEnergyField := "MPPT Energy Accumulated (Wh)"
  const LoadPowerField := "Load-Only Power (W)"
  const LoadEnergyField := "Load-Only Energy Accumulated (Wh)"
  const IrradianceField := "Total Irradiance (W/m^2)"
  const TheoreticalPowerField := "Theoretical Power (W)"
  const TheoreticalEnergyField := "Theoretical Energy Accumulated (Wh)"

  const EmptyDerived := "`updateDerived` got an empty array as input."

  /** `a * b` of two sample values: `NaN` unless both are numbers. */
  function Product(a: Option<real>, b: Option<real>): (c: Cell)
    ensures a.Some? && b.Some? <==> c.Number?
    ensures c.Number? ==> c.n == a.value * b.value
    ensures !c.Number? ==> c == NaN
  {
    if a.Some? && b.Some? then Number(a.value * b.value) else NaN
  }

  /** A row number, possibly `NaN`, plus an offset. */
  function Plus(n: Option<int>, d: int): Option<int> {
    match n
    case Some(v) => Some(v + d)
    case None => None
  }

  /** A row number in a template literal: `NaN` prints as "NaN". */
  function RowText(n: Option<int>): string {
    match n
    case Some(v) => IntToString(v)
    case None => "NaN"
  }

  /** The accumulated-energy formula `=<acc>j+<power>k*(Ak-Aj)/3600e3`: the
      total on row `j` plus the power on row `k` times the time between the
      two rows' timestamps, in hours. */
  function EnergyFormula(acc: char, power: char, j: Option<int>, k: Option<int>): string {
    ['=', acc] + RowText(j) + ['+', power] + RowText(k) + "*(A" + RowText(k) + "-A" + RowText(j) + ")/3600e3"
  }

  /** `zeroOnFirst`: on a sheet whose first data row is row 2, every
      accumulated energy of the batch is 0. */
  function ZeroOnFirst(rowNum: Option<int>, x: Cell): Cell {
    if rowNum == Some(2) then Number(0.0) else x
  }

  /** Field `field` of the derived record of measurement `i` of a batch
      that starts on sheet row `rowNum` (`row[field]`, `undefined` for a
      field the record does not have). The sample holds MPPT voltage, MPPT
      current, load-only voltage and load-only current, in that order.
      `irr` is `totalIrradiance`, `None` when it is `NaN`. */
  function DerivedField(m: Row, rowNum: Option<int>, i: nat, irr: Option<real>, panelArea: real,
                        field: string): Cell {
    var j, k := Plus(rowNum, i - 1), Plus(rowNum, i);
    var v := m.values;
    if field == TimestampField then Number(m.ts as real)
    else if field == LocalTimeField then Text(m.localTime)
    else if field == MpptPowerField then Product(Slot(v, 1), Slot(v, 0))
    else if field == MpptEnergyField then ZeroOnFirst(rowNum, Text(EnergyFormula('D', 'C', j, k)))
    else if field == LoadPowerField then Product(Slot(v, 3), Slot(v, 2))
    else if field == LoadEnergyField then ZeroOnFirst(rowNum, Text(EnergyFormula('F', 'E', j, k)))
    else if field == IrradianceField then (match irr case Some(x) => Number(x) case None => Number(0.0))
    else if field == TheoreticalPowerField then (match irr case Some(x) => Number(x * panelArea) case None => NaN)
    else if field == TheoreticalEnergyField then ZeroOnFirst(rowNum, Text(EnergyFormula('I', 'H', j, k)))
    else Undefined
  }

  /** `row[field]`: a field the record does not have is `undefined`. */
  function FieldOf(record: map<string, Cell>, field: string): Cell {
    if field in record then record[field] else Undefined
  }

  /** `fields.map(field => row[field])`. */
  function Project(record: map<string, Cell>, fields: seq<string>): (row: seq<Cell>)
    ensures |row| == |fields|
    ensures forall p :: 0 <= p < |fields| ==> row[p] == FieldOf(record, fields[p])
  {
    seq(|fields|, p requires 0 <= p < |fields| => FieldOf(record, fields[p]))
  }

  /** `updateDerived` from the row count on: the derived rows of a batch,
      one per measurement in batch order, or the error for an empty batch. */
  function DerivedRows(values: seq<Row>, rowNum: Option<int>, irr: Option<real>, panelArea: real,
                       fields: seq<string>): (r: Result<seq<seq<Cell>>>)
    ensures r.Err? <==> values == []
    ensures r.Err? ==> r.message == EmptyDerived
    ensures r.Ok? ==> |r.value| == |values| && forall i :: 0 <= i < |values| ==> |r.value[i]| == |fields|
  {
    if values == [] then Err(EmptyDerived)
    else Ok(seq(|values|, i requires 0 <= i < |values| => seq(|fields|, p requires 0 <= p < |fields| => DerivedField(values[i], rowNum, i, irr, panelArea, fields[p]))))
  }

  /** The cell of field `fields[p]` in derived row `i`. */
  lemma DerivedCell(values: seq<Row>, rowNum: Option<int>, irr: Option<real>, panelArea: real,
                    fields: seq<string>, i: nat, p: nat)
    requires i < |values| && p < |fields|
    ensures DerivedRows(values, rowNum, irr, panelArea, fields).value[i][p]
         == DerivedField(values[i], rowNum, i, irr, panelArea, fields[p])
  {
  }

  /** Row `i` of a batch sits on sheet row `n + i`; its three energy
      formulas accumulate onto sheet row `n + i - 1`, so each row of the
      batch builds on the one before it and the first on the last row
      already on the sheet. */
  lemma DerivedFormulas(values: seq<Row>, n: int, irr: Option<real>, panelArea: real,
                        fields: seq<string>, i: nat, p: nat)
    requires i < |values| && p < |fields| && n != 2
    ensures var cell := DerivedRows(values, Some(n), irr, panelArea, fields).value[i][p];
            var j, k := IntToString(n + i - 1), IntToString(n + i);
            && (fields[p] == MpptEnergyField ==> cell == Text("=D" + j + "+C" + k + "*(A" + k + "-A" + j + ")/3600e3"))
            && (fields[p] == LoadEnergyField ==> cell == Text("=F" + j + "+E" + k + "*(A" + k + "-A" + j + ")/3600e3"))
            && (fields[p] == TheoreticalEnergyField ==> cell == Text("=I" + j + "+H" + k + "*(A" + k + "-A" + j + ")/3600e3"))
  {
    DerivedCell(values, Some(n), irr, panelArea, fields, i, p);
  }

  /** When the batch starts on row 2, the accumulated energies of EVERY row
      of the batch are 0, not only those of the first. */
  lemma ZeroOnFirstWholeBatch(values: seq<Row>, irr: Option<real>, panelArea: real,
                              fields: seq<string>, i: nat, p: nat)
    requires i < |values| && p < |fields|
    requires fields[p] in {MpptEnergyField, LoadEnergyField, TheoreticalEnergyField}
    ensures DerivedRows(values, Some(2), irr, panelArea, fields).value[i][p] == Number(0.0)
  {
    DerivedCell(values, Some(2), irr, panelArea, fields, i, p);
  }

  /** Power is current times voltage, `NaN` when either was not reported;
      the irradiance falls back to 0 and the theoretical power is `NaN`
      while the irradiance is unknown; a field the record lacks is empty. */
  lemma DerivedPowers(values: seq<Row>, rowNum: Option<int>, irr: Option<real>, panelArea: real,
                      fields: seq<string>, i: nat, p: nat)
    requires i < |values| && p < |fields|
    ensures var cell := DerivedRows(values, rowNum, irr, panelArea, fields).value[i][p];
            var v := values[i].values;
            && (fields[p] == MpptPowerField ==>
                  cell == if |v| >= 2 && v[0].Some? && v[1].Some? then Number(v[1].value * v[0].value) else NaN)
            && (fields[p] == LoadPowerField ==>
                  cell == if |v| >= 4 && v[2].Some? && v[3].Some? then Number(v[3].value * v[2].value) else NaN)
            && (fields[p] == IrradianceField ==> cell == Number(if irr.Some? then irr.value else 0.0))
            && (fields[p] == TheoreticalPowerField ==> (cell == NaN <==> irr.None?))
            && (fields[p] == TimestampField ==> cell == Number(values[i].ts as real))
            && (fields[p] !in {TimestampField, LocalTimeField, MpptPowerField, MpptEnergyField, LoadPowerField,
                               LoadEnergyField, IrradianceField, TheoreticalPowerField, TheoreticalEnergyField}
                ==> cell == Undefined)
  {
    DerivedCell(values, rowNum, irr, panelArea, fields, i, p);
  }

  /** `numberOfRows(derivedFile) + 1`: the row the probe landed on. */
  function FirstRow(updatedRange: string): Option<int> {
    Plus(Helpers.NumberOfRows(updatedRange), 1)
  }

  lemma FirstRowOfProbe(n: nat)
    ensures FirstRow("Sheet1!A" + NatToString(n)) == Some(n)
  {
    Helpers.NumberOfRowsOfProbe(n);
  }

  // ---------------------------------------------------------------------
  // Solcast forecasts

  const HalfHour := 1_800_000
  const SlotsPerDay := 48

  /** One forecast: the end of its half-hour period and its fields. */
  datatype Forecast = Forecast(periodEnd: int, fields: map<string, Cell>)

  const NoSolcastFile := "Expected Solcast sheet file ID for today but got undefined"
  /** What reading `forecasts[0].dhi` of an empty list throws. */
  const NoForecast := "Cannot read properties of undefined"

  /** `Math.round(msUntilMidnight(start) / 1800e3)`: the half hours left in
      the day, rounded to the nearest, halves up. */
  function Remaining(periodEnd: int): (n: nat)
    ensures n <= SlotsPerDay
    ensures 2 * n * HalfHour <= 2 * Utils.MsUntilMidnight(periodEnd) + HalfHour < 2 * n * HalfHour + 2 * HalfHour
  {
    (Utils.MsUntilMidnight(periodEnd) + HalfHour / 2) / HalfHour
  }

  /** `48 - remaining`: the half-hour slot of the day the first forecast
      is written to. */
  function StartIdx(periodEnd: int): (s: nat)
    ensures s + Remaining(periodEnd) == SlotsPerDay
  {
    SlotsPerDay - Remaining(periodEnd)
  }

  /** `A${2 + startIdx}`: row 1 is the header, slot 0 is row 2. */
  function SolcastRange(periodEnd: int): string {
    "A" + NatToString(2 + StartIdx(periodEnd))
  }

  /** `forecasts.slice(0, remaining).map(row => fields.map(f => row[f]))`. */
  function SolcastValues(forecasts: seq<Forecast>, remaining: nat, fields: seq<string>): (rows: seq<seq<Cell>>)
    ensures |rows| == Min(remaining, |forecasts|)
    ensures forall i :: 0 <= i < |rows| ==> rows[i] == Project(forecasts[i].fields, fields)
  {
    seq(Min(remaining, |forecasts|), i requires 0 <= i < Min(remaining, |forecasts|) => Project(forecasts[i].fields, fields))
  }

  /** A first forecast ending `m` half hours into its day is written from
      slot `m`, sheet row `m + 2`. */
  lemma SolcastSlot(periodEnd: int, m: nat)
    requires m < SlotsPerDay && periodEnd % Utils.Day == m * HalfHour
    ensures StartIdx(periodEnd) == m
    ensures SolcastRange(periodEnd) == "A" + NatToString(m + 2)
  {
    var ms := Utils.MsUntilMidnight(periodEnd);
    assert periodEnd - Utils.StartOfDay(periodEnd) == m * HalfHour;
    assert ms == (SlotsPerDay - m) * HalfHour;
    assert ms + HalfHour / 2 == (SlotsPerDay - m) * HalfHour + HalfHour / 2;
  }

  /** The rows written stay within the day's 48 slots: they start at row 2
      or later and end at row 49 or earlier, whatever the forecast list. */
  lemma SolcastWithinDay(forecasts: seq<Forecast>, fields: seq<string>)
    requires forecasts != []
    ensures var start := 2 + StartIdx(forecasts[0].periodEnd);
            var values := SolcastValues(forecasts, Remaining(forecasts[0].periodEnd), fields);
            2 <= start && start + |values| <= 2 + SlotsPerDay
  {
  }

  // ---------------------------------------------------------------------
  // The daily roll-over

  /** The ids of the three sheets a roll-over creates. */
  datatype SheetIds = SheetIds(derived: string, measurements: string, solcast: string)

  /** Whether `daily` restores from the backup: it was read and parsed, it
      is from today, and it was made with the same account. */
  predicate Restores(backup: Option<Today>, token: string, date: Utils.Date) {
    backup.Some? && backup.value.date == Utils.DateString(date) && backup.value.token == token
  }

  function Texts(s: seq<string>): (cells: seq<Cell>)
    ensures |cells| == |s| && forall i :: 0 <= i < |s| ==> cells[i] == Text(s[i])
  {
    seq(|s|, i requires 0 <= i < |s| => Text(s[i]))
  }

  /** `make…File`: create the sheet, move it into its folder, write the
      header row and size the columns. */
  function MakeFileCalls(title: string, sheet: string, folder: string, header: seq<Cell>): seq<Call> {
    [CreateSheet(title), MoveFile(sheet, folder), AppendToSheet(sheet, [header]), AutoResize(sheet)]
  }

  /** The TODAY record a roll-over writes. */
  function FreshToday(ids: SheetIds, date: Utils.Date, token: string): (t: Today)
    ensures t.date == Utils.DateString(date) && t.token == token
    ensures [t.derivedFile, t.measurementsFile, t.solcastFile] == [ids.derived, ids.measurements, ids.solcast]
  {
    Today(ids.derived, ids.measurements, ids.solcast, Utils.DateString(date), token)
  }

  /** The titles of the sheets a trace creates. */
  function CreatedSheets(calls: seq<Call>): seq<string>
    decreases |calls|
  {
    if calls == [] then []
    else CreatedSheets(calls[..|calls| - 1]) + (if calls[|calls| - 1].CreateSheet? then [calls[|calls| - 1].title] else [])
  }

  lemma {:induction false} CreatedSheetsAppend(a: seq<Call>, b: seq<Call>)
    ensures CreatedSheets(a + b) == CreatedSheets(a) + CreatedSheets(b)
    decreases |b|
  {
    if b == [] {
      assert a + b == a;
    } else {
      assert (a + b)[..|a + b| - 1] == a + b[..|b| - 1];
      CreatedSheetsAppend(a, b[..|b| - 1]);
    }
  }

  // ---------------------------------------------------------------------
  // The program state

  class App {
    var setup: Setup
    var today: Today
    /** `totalIrradiance`; `None` is `NaN`. */
    var totalIrradiance: Option<real>
    /** derivedConfig.fields, solcastConfig.fields, pusherConfig.channelNames
        and derivedConfig.panelArea. */
    const derivedFields: seq<string>
    const solcastFields: seq<string>
    const channelNames: seq<string>
    const panelArea: real

    constructor (setup: Setup, derivedFields: seq<string>, solcastFields: seq<string>,
                 channelNames: seq<string>, panelArea: real)
      ensures this.setup == setup && today == NoToday && totalIrradiance == None
      ensures this.derivedFields == derivedFields && this.solcastFields == solcastFields
      ensures this.channelNames == channelNames && this.panelArea == panelArea
    {
      this.setup := setup;
      today := NoToday;
      totalIrradiance := None;
      this.derivedFields := derivedFields;
      this.solcastFields := solcastFields;
      this.channelNames := channelNames;
      this.panelArea := panelArea;
    }

    /** The calls of a roll-over that creates the three sheets, titled with
        today's date, in the three data folders. */
    function CreateCalls(ids: SheetIds, date: Utils.Date): seq<Call>
      reads this
    {
      var title := Utils.DateString(date);
      MakeFileCalls(title, ids.derived, setup.derived, Texts(derivedFields))
      + MakeFileCalls(title, ids.measurements, setup.measurements, Texts([TimestampField, LocalTimeField] + channelNames))
      + MakeFileCalls(title, ids.solcast, setup.solcast, Texts(solcastFields))
    }

    /** A roll-over creates exactly three sheets, each titled with the date. */
    lemma CreateCallsSheets(ids: SheetIds, date: Utils.Date)
      ensures var t := Utils.DateString(date);
              CreatedSheets(CreateCalls(ids, date)) == [t, t, t]
    {
      var t := Utils.DateString(date);
      var a := MakeFileCalls(t, ids.derived, setup.derived, Texts(derivedFields));
      var b := MakeFileCalls(t, ids.measurements, setup.measurements, Texts([TimestampField, LocalTimeField] + channelNames));
      var c := MakeFileCalls(t, ids.solcast, setup.solcast, Texts(solcastFields));
      MakeFileCreatesOne(t, ids.derived, setup.derived, Texts(derivedFields));
      MakeFileCreatesOne(t, ids.measurements, setup.measurements, Texts([TimestampField, LocalTimeField] + channelNames));
      MakeFileCreatesOne(t, ids.solcast, setup.solcast, Texts(solcastFields));
      CreatedSheetsAppend(a, b);
      CreatedSheetsAppend(a + b, c);
    }

    /** `daily(token)`. `backup` is what reading and parsing
        config/today.json gave (`None` when either failed), `ids` the sheets
        created and `saved` whether writing the backup succeeded. */
    method Daily(token: string, date: Utils.Date, backup: Option<Today>, ids: SheetIds, saved: bool)
      returns (calls: seq<Call>)
      modifies this
      ensures setup == old(setup) && totalIrradiance == old(totalIrradiance)
      ensures Restores(backup, token, date) ==> today == backup.value && calls == [ReadToday, Log(Info)]
      ensures !Restores(backup, token, date) ==>
        && today == FreshToday(ids, date, token)
        && calls == [ReadToday] + CreateCalls(ids, date)
                    + [SaveToday(today), Log(if saved then Info else Error)]
    {
      calls := [ReadToday];
      if backup.Some? && backup.value.date == Utils.DateString(date) && backup.value.token == token {
        calls := calls + [Log(Info)];
        // `Object.assign(TODAY, backup)` merges the backup into TODAY. A
        // backup this program writes holds all five fields, so the merge
        // replaces TODAY as a whole.
        today := backup.value;
        return;
      }
      var title := Utils.DateString(date);
      calls := calls + MakeFileCalls(title, ids.derived, setup.derived, Texts(derivedFields));
      calls := calls + MakeFileCalls(title, ids.measurements, setup.measurements,
                                     Texts([TimestampField, LocalTimeField] + channelNames));
      calls := calls + MakeFileCalls(title, ids.solcast, setup.solcast, Texts(solcastFields));
      today := Today(ids.derived, ids.measurements, ids.solcast, title, token);
      // A failed backup is logged, not thrown.
      calls := calls + [SaveToday(today), Log(if saved then Info else Error)];
    }

    /** The Solcast calls after the fetch: write the day's remaining
        forecasts, if any, from the first forecast's slot on. */
    function SolcastWrites(forecasts: seq<Forecast>): seq<Call>
      requires forecasts != []
      reads this
    {
      var values := SolcastValues(forecasts, Remaining(forecasts[0].periodEnd), solcastFields);
      if values == [] then []
      else [WriteToSheet(today.solcastFile, values, SolcastRange(forecasts[0].periodEnd)),
            AutoResize(today.solcastFile), Log(Info)]
    }

    /** `updateSolcast()`. `fetched` is the forecast list the service sent,
        or the error the request threw; `irradianceOf` is
        `calculateTotalIrradiance`; `writeError` is the error `writeToSheet`
        throws, `None` when the write succeeds. Every error inside the
        `try` is logged and rethrown, after the irradiance was updated. */
    method UpdateSolcast(fetched: Result<seq<Forecast>>, irradianceOf: Forecast -> Option<real>,
                         writeError: Option<string>)
      returns (result: Result<()>, calls: seq<Call>)
      modifies this
      ensures setup == old(setup) && today == old(today)
      ensures today.solcastFile == "" ==>
        result == Err(NoSolcastFile) && calls == [] && totalIrradiance == old(totalIrradiance)
      ensures today.solcastFile != "" && fetched.Err? ==>
        result == Err(fetched.message) && calls == [FetchForecasts, Log(Error)] && totalIrradiance == old(totalIrradiance)
      ensures today.solcastFile != "" && fetched == Ok([]) ==>
        result == Err(NoForecast) && calls == [FetchForecasts, Log(Error)] && totalIrradiance == old(totalIrradiance)
      ensures today.solcastFile != "" && fetched.Ok? && fetched.value != [] ==>
        var writes := SolcastWrites(fetched.value);
        && totalIrradiance == irradianceOf(fetched.value[0])
        && (writes == [] || writeError.None? ==> result == Ok(()) && calls == [FetchForecasts] + writes)
        && (writes != [] && writeError.Some? ==>
              result == Err(writeError.value) && calls == [FetchForecasts, writes[0], Log(Error)])
    {
      if today.solcastFile == "" {
        return Err(NoSolcastFile), [];
      }
      calls := [FetchForecasts];
      match fetched {
        case Err(m) =>
          calls := calls + [Log(Error)];
          result := Err(m);
        case Ok(forecasts) =>
          if forecasts == [] {
            calls := calls + [Log(Error)];
            result := Err(NoForecast);
          } else {
            totalIrradiance := irradianceOf(forecasts[0]);
            var start := forecasts[0].periodEnd;
            var remaining := (Utils.MsUntilMidnight(start) + HalfHour / 2) / HalfHour;
            var startIdx := SlotsPerDay - remaining;
            var values := SolcastValues(forecasts, remaining, solcastFields);
            var range := "A" + NatToString(2 + startIdx);
            result := Ok(());
            if |values| > 0 {
              calls := calls + [WriteToSheet(today.solcastFile, values, range)];
              if writeError.Some? {
                calls := calls + [Log(Error)];
                return Err(writeError.value), calls;
              }
              calls := calls + [AutoResize(today.solcastFile), Log(Info)];
            }
          }
      }
    }

    /** The calls of a measurement flush of `values` once the reserve is
        kept back: nothing but a log line when there is nothing to write;
        otherwise the row-count probe on the derived sheet, the measurements
        appended and sized, and the derived rows appended and sized. */
    function MeasurementCalls(values: seq<Row>, updatedRange: string): seq<Call>
      reads this
    {
      if values == [] then [Log(Info)]
      else
        var derived := DerivedRows(values, FirstRow(updatedRange), totalIrradiance, panelArea, derivedFields);
        [AppendToSheet(today.derivedFile, [[Text("")]]),
         AppendToSheet(today.measurementsFile, MeasurementRows(values)),
         AutoResize(today.measurementsFile),
         AppendToSheet(today.derivedFile, derived.value),
         AutoResize(today.derivedFile)]
    }

    /** An empty flush appends nothing; a non-empty one appends every
        drained row to the measurements sheet and as many derived rows,
        computed from the same sorted rows, to the derived sheet. */
    lemma MeasurementCallsShape(values: seq<Row>, updatedRange: string)
      ensures values == [] ==> forall c :: c in MeasurementCalls(values, updatedRange) ==> !c.AppendToSheet?
      ensures values != [] ==>
        var calls := MeasurementCalls(values, updatedRange);
        && calls[1] == AppendToSheet(today.measurementsFile, MeasurementRows(values))
        && calls[3].AppendToSheet? && calls[3].sheet == today.derivedFile && |calls[3].rows| == |values|
    {
    }

    /** `updateMeasurements()`: check that today's measurements sheet is
        known, drain the ready buffer and write. `updatedRange` is what the
        derived sheet's row-count probe returns. */
    method UpdateMeasurements(r: Reconciler, updatedRange: string) returns (result: Result<()>, calls: seq<Call>)
      modifies r
      ensures r.staging == old(r.staging)
      ensures today.measurementsFile == "" ==>
        result == Err(NoMeasurementsFile) && calls == [] && r.ready == old(r.ready)
      ensures today.measurementsFile != "" ==>
        && result == Ok(())
        && r.ready == old(r.ready)[DrainCount(|old(r.ready)|)..]
        && calls == MeasurementCalls(Drained(old(r.ready)), updatedRange)
    {
      if today.measurementsFile == "" {
        return Err(NoMeasurementsFile), [];
      }
      var values := Drain(r);
      if |values| > 0 {
        var rowNum := FirstRow(updatedRange);
        var derived := DerivedRows(values, rowNum, totalIrradiance, panelArea, derivedFields);
        calls := [AppendToSheet(today.derivedFile, [[Text("")]]),
                  AppendToSheet(today.measurementsFile, MeasurementRows(values)),
                  AutoResize(today.measurementsFile),
                  AppendToSheet(today.derivedFile, derived.value),
                  AutoResize(today.derivedFile)];
      } else {
        calls := [Log(Info)];
      }
      result := Ok(());
    }
  }

  /** `make…File` creates one sheet, with the given title. */
  lemma MakeFileCreatesOne(title: string, sheet: string, folder: string, header: seq<Cell>)
    ensures CreatedSheets(MakeFileCalls(title, sheet, folder, header)) == [title]
  {
    var c := MakeFileCalls(title, sheet, folder, header);
    assert c[..1][..0] == [];
    assert CreatedSheets(c[..1]) == [title];
    assert c[..2][..1] == c[..1];
    assert CreatedSheets(c[..2]) == [title];
    assert c[..3][..2] == c[..2];
    assert CreatedSheets(c[..3]) == [title];
    assert c[..|c| - 1] == c[..3];
  }

  const NoMeasurementsFile := "Expected Measurements sheet file ID for today but got undefined"

  /** A backup written by a roll-over is restored by any later run that
      day for the same account, and by no run on another valid date or for
      another account. */
  lemma BackupRestores(ids: SheetIds, date: Utils.Date, token: string, date': Utils.Date, token': string)
    requires Utils.ValidDate(date) && Utils.ValidDate(date')
    ensures Restores(Some(FreshToday(ids, date, token)), token', date') <==> date' == date && token' == token
  {
    if Utils.DateString(date') == Utils.DateString(date) {
      Utils.DateStringInjective(date', date);
    }
  }

  // ---------------------------------------------------------------------
  // The schedule

  /** The three periodic jobs of the program. */
  datatype Duty = RunDaily | RunSolcast | RunMeasurements

  const SolcastPeriod := 1_800_000
  const MeasurementsPeriod := 60_000

  /** The queue `main` sets up at `now`: a one-shot job due after
      `untilMidnight` that starts repeating the daily roll-over, and the
      Solcast and measurement updates repeating every 30 and 1 minutes.
      `untilMidnight` is the value of `msUntilMidnight()`, which reads the
      clock on its own (`Utils.MsUntilMidnight` of that moment). The
      one-shot job is the closure `() => tasks.repeat(daily, day)`, which
      behaves as a rescheduler of `daily`. */
  method Schedule(q: TaskQueue.TaskQueue<Duty>, now: int, untilMidnight: int)
    requires q.Valid() && q.tasks == [] && q.fired == []
    modifies q
    ensures q.Valid() && q.Monotone() && q.DelaysNonNegative()
    ensures q.tasks == ScheduleTasks(now, untilMidnight)
  {
    q.Once(TaskQueue.Repeater(RunDaily, Utils.Day), untilMidnight, now);
    ghost var t1 := q.tasks;
    assert t1 == DailyStart(now, untilMidnight);
    q.Repeat(RunSolcast, SolcastPeriod, now);
    ghost var t2 := q.tasks;
    q.Repeat(RunMeasurements, MeasurementsPeriod, now);
    ScheduleSteps(now, untilMidnight, t1, t2, q.tasks);
  }

  /** The queue after `Schedule`, built by the same insertions. */
  function ScheduleTasks(now: int, untilMidnight: int): seq<TaskQueue.Task<Duty>> {
    TaskQueue.Repeated(TaskQueue.Repeated(DailyStart(now, untilMidnight), RunSolcast, SolcastPeriod, now),
                       RunMeasurements, MeasurementsPeriod, now)
  }

  lemma ScheduleSteps(now: int, untilMidnight: int, t1: seq<TaskQueue.Task<Duty>>,
                      t2: seq<TaskQueue.Task<Duty>>, t3: seq<TaskQueue.Task<Duty>>)
    requires t1 == DailyStart(now, untilMidnight)
    requires t2 == TaskQueue.Repeated(t1, RunSolcast, SolcastPeriod, now)
    requires t3 == TaskQueue.Repeated(t2, RunMeasurements, MeasurementsPeriod, now)
    ensures t3 == ScheduleTasks(now, untilMidnight)
  {
  }

  /** The one-shot job that starts repeating the daily roll-over. */
  function DailyStart(now: int, untilMidnight: int): seq<TaskQueue.Task<Duty>> {
    [TaskQueue.Task(now + untilMidnight, TaskQueue.Repeater(RunDaily, Utils.Day))]
  }

  /** Away from midnight (more than half an hour before it), the first
      measurement update comes first, then its rescheduler, the Solcast
      update and its rescheduler, and the one-shot job that starts the
      daily repeat last. */
  lemma ScheduleOrder(now: int, untilMidnight: int)
    requires untilMidnight > SolcastPeriod
    ensures ScheduleTasks(now, untilMidnight) ==
      [TaskQueue.Task(now + MeasurementsPeriod, TaskQueue.Action(RunMeasurements)),
       TaskQueue.Task(now + MeasurementsPeriod, TaskQueue.Repeater(RunMeasurements, MeasurementsPeriod)),
       TaskQueue.Task(now + SolcastPeriod, TaskQueue.Action(RunSolcast)),
       TaskQueue.Task(now + SolcastPeriod, TaskQueue.Repeater(RunSolcast, SolcastPeriod)),
       TaskQueue.Task(now + untilMidnight, TaskQueue.Repeater(RunDaily, Utils.Day))]
  {
    var daily := TaskQueue.Task(now + untilMidnight, TaskQueue.Repeater(RunDaily, Utils.Day));
    var sa := TaskQueue.Task(now + SolcastPeriod, TaskQueue.Action(RunSolcast));
    var sr := TaskQueue.Task(now + SolcastPeriod, TaskQueue.Repeater(RunSolcast, SolcastPeriod));
    var ma := TaskQueue.Task(now + MeasurementsPeriod, TaskQueue.Action(RunMeasurements));
    var mr := TaskQueue.Task(now + MeasurementsPeriod, TaskQueue.Repeater(RunMeasurements, MeasurementsPeriod));
    assert DailyStart(now, untilMidnight) == [daily];
    TaskQueue.RepeatedInFront([daily], RunSolcast, SolcastPeriod, now);
    TaskQueue.RepeatedInFront([sa, sr] + [daily], RunMeasurements, MeasurementsPeriod, now);
    assert [ma, mr] + ([sa, sr] + [daily]) == [ma, mr, sa, sr, daily];
  }

  /** As written, no roll-over happens at the first midnight `m`: the
      one-shot job `main` queues for `m` (`DailyStart`) is the closure
      `() => tasks.repeat(daily, day)`, whose turn runs no action and only
      adds a run of `daily` and its rescheduler, both due at `m + day`,
      whatever else is queued. With `NoDailyRunQueued` no run of `daily`
      is due before `m + day`, so the sheets made at start-up receive the
      whole of the next day's data. */
  lemma AsWrittenNoMidnightRollOver(rest: seq<TaskQueue.Task<Duty>>, m: int)
    ensures TaskQueue.TurnRan(TaskQueue.Repeater(RunDaily, Utils.Day)) == None
    ensures multiset(TaskQueue.AfterTurn(rest, TaskQueue.Repeater(RunDaily, Utils.Day), m))
         == multiset(rest) + multiset{TaskQueue.Task(m + Utils.Day, TaskQueue.Action(RunDaily)),
                                      TaskQueue.Task(m + Utils.Day, TaskQueue.Repeater(RunDaily, Utils.Day))}
  {
    TaskQueue.RepeatedMultiset(rest, RunDaily, Utils.Day, m);
  }

  /** The queue `main` sets up holds no run of `daily`. */
  lemma NoDailyRunQueued(now: int, untilMidnight: int)
    ensures forall t :: t in ScheduleTasks(now, untilMidnight) ==> t.job != TaskQueue.Action(RunDaily)
  {
    var d := DailyStart(now, untilMidnight);
    var d2 := TaskQueue.Repeated(d, RunSolcast, SolcastPeriod, now);
    TaskQueue.RepeatedMultiset(d, RunSolcast, SolcastPeriod, now);
    TaskQueue.RepeatedMultiset(d2, RunMeasurements, MeasurementsPeriod, now);
    forall t | t in ScheduleTasks(now, untilMidnight)
      ensures t.job != TaskQueue.Action(RunDaily)
    {
      assert t in multiset(ScheduleTasks(now, untilMidnight));
    }
  }

  /** The start the roll-over evidently needs: `once(daily, msUntilMidnight())`
      next to the one-shot job that starts the repeat, both due at midnight. */
  function CorrectedDailyStart(now: int, untilMidnight: int): seq<TaskQueue.Task<Duty>> {
    var m := now + untilMidnight;
    InsertBy(InsertBy([], TaskQueue.Task(m, TaskQueue.Action(RunDaily)), TaskQueue.TimeOf),
             TaskQueue.Task(m, TaskQueue.Repeater(RunDaily, Utils.Day)), TaskQueue.TimeOf)
  }

  /** The corrected queue: the corrected start, then the two periodic updates. */
  function CorrectedScheduleTasks(now: int, untilMidnight: int): seq<TaskQueue.Task<Duty>> {
    TaskQueue.Repeated(TaskQueue.Repeated(CorrectedDailyStart(now, untilMidnight), RunSolcast, SolcastPeriod, now),
                       RunMeasurements, MeasurementsPeriod, now)
  }

  /** With the corrected start, a run of `daily` is due at the first
      midnight `m`, and the rescheduler due with it queues the next run for
      `m + day` (`TaskQueue.RescheduleQueuesNext`): the roll-over happens
      at every midnight. */
  lemma CorrectedMidnightRollsOver(now: int, untilMidnight: int)
    ensures var m := now + untilMidnight;
            && TaskQueue.Task(m, TaskQueue.Action(RunDaily)) in CorrectedScheduleTasks(now, untilMidnight)
            && TaskQueue.Task(m, TaskQueue.Repeater(RunDaily, Utils.Day)) in CorrectedScheduleTasks(now, untilMidnight)
  {
    var m := now + untilMidnight;
    var a := TaskQueue.Task(m, TaskQueue.Action(RunDaily));
    var r := TaskQueue.Task(m, TaskQueue.Repeater(RunDaily, Utils.Day));
    var d := CorrectedDailyStart(now, untilMidnight);
    CorrectedStartHoldsBoth(now, untilMidnight);
    var d2 := TaskQueue.Repeated(d, RunSolcast, SolcastPeriod, now);
    TaskQueue.RepeatedKeeps(d, RunSolcast, SolcastPeriod, now, a);
    TaskQueue.RepeatedKeeps(d, RunSolcast, SolcastPeriod, now, r);
    TaskQueue.RepeatedKeeps(d2, RunMeasurements, MeasurementsPeriod, now, a);
    TaskQueue.RepeatedKeeps(d2, RunMeasurements, MeasurementsPeriod, now, r);
  }

  /** The corrected start holds the run of `daily` and its rescheduler. */
  lemma CorrectedStartHoldsBoth(now: int, untilMidnight: int)
    ensures TaskQueue.Task(now + untilMidnight, TaskQueue.Action(RunDaily)) in CorrectedDailyStart(now, untilMidnight)
    ensures TaskQueue.Task(now + untilMidnight, TaskQueue.Repeater(RunDaily, Utils.Day)) in CorrectedDailyStart(now, untilMidnight)
  {
    var m := now + untilMidnight;
    var a := TaskQueue.Task(m, TaskQueue.Action(RunDaily));
    var r := TaskQueue.Task(m, TaskQueue.Repeater(RunDaily, Utils.Day));
    assert InsertBy([], a, TaskQueue.TimeOf) == [a];
    TaskQueue.InsertsAt([a], r, 1);
    assert CorrectedDailyStart(now, untilMidnight) == [a, r];
  }
}
