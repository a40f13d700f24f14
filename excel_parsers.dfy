/**
  The spreadsheet parsers of the import service: one filter per carrier
  layout (Gofo, Cainiao), a positional fallback, and the classifier that
  reads the header row and picks one of them. A sheet arrives already
  decoded, both as rows of cells and as records keyed by header text.
 */
module ExcelParsers {

  import opened Wrappers
  import opened Text
  import opened Seqs

  /** A cell value as the spreadsheet reader decodes it (integers only, no floating point) */
  datatype Cell = Blank | Str(s: string) | Num(n: int) | Bool(b: bool)

  /** JavaScript truthiness of a cell value */
  predicate Truthy(c: Cell) {
    match c
    case Blank => false
    case Str(s) => s != ""
    case Num(n) => n != 0
    case Bool(b) => b
  }

  /** `String(value)` */
  function CellString(c: Cell): string {
    match c
    case Blank => "undefined"
    case Str(s) => s
    case Num(n) => IntToString(n)
    case Bool(b) => if b then "true" else "false"
  }

  /** A data row in object form: header text to cell */
  type Record = map<string, Cell>

  /** `row[key]`, a missing key reading as undefined */
  function Field(row: Record, key: string): Cell {
    if key in row then row[key] else Blank
  }

  /** `row[k]` of a row in array form */
  function At(row: seq<Cell>, k: nat): Cell {
    if k < |row| then row[k] else Blank
  }

  /** The decoded sheet: its rows of cells, and its data rows keyed by header text */
  datatype Sheet = Sheet(grid: seq<seq<Cell>>, records: seq<Record>)

  datatype ParsedColis = ParsedColis(
    tracking: string,
    adresse: Option<string>,
    ville: Option<string>,
    codePostal: Option<string>,
    departement: Option<string>)

  /** `v ? String(v).trim() : null` */
  function OptText(c: Cell): Option<string> {
    if Truthy(c) then Some(Trim(CellString(c))) else None
  }

  /** A tracking code as every spreadsheet parser emits it */
  predicate IsCleanTracking(t: string) {
    |t| >= 5 && IsTrimmed(t) && IsUpperCased(t)
  }

  /**
    `String(tracking).trim().toUpperCase()`, kept only when the cell is truthy
    and the cleaned code has at least five characters.
   */
  function CleanTracking(c: Cell): (r: Option<string>)
    ensures r.Some? <==> Truthy(c) && |Trim(CellString(c))| >= 5
    ensures r.Some? ==> IsCleanTracking(r.value) && EqualsIgnoreCase(r.value, Trim(CellString(c)))
  {
    if !Truthy(c) then None
    else
      var t := Upper(Trim(CellString(c)));
      TrimProperties(CellString(c));
      UpperKeepsTrimmed(Trim(CellString(c)));
      UpperIsUpperCased(Trim(CellString(c)));
      if |t| < 5 then None else Some(t)
  }

  /** One Gofo row: `data.waybillNo`, `data.toStreet`, `data.toCity`, `data.toState`, no postcode */
  function GofoRow(row: Record): (r: Option<ParsedColis>)
    ensures r.Some? <==> CleanTracking(Field(row, "data.waybillNo")).Some?
    ensures r.Some? ==> IsCleanTracking(r.value.tracking) && r.value.codePostal == None
    ensures r.Some? ==> r.value.tracking == CleanTracking(Field(row, "data.waybillNo")).value
    ensures r.Some? ==> r.value.adresse == OptText(Field(row, "data.toStreet")) && r.value.ville == OptText(Field(row, "data.toCity"))
  {
    match CleanTracking(Field(row, "data.waybillNo"))
    case None => None
    case Some(t) =>
      Some(ParsedColis(
        t,
        OptText(Field(row, "data.toStreet")),
        OptText(Field(row, "data.toCity")),
        None,
        OptText(Field(row, "data.toState"))))
  }

  /** One Cainiao row: `Tracking No.`, `Sort Code` as postcode, receiver's region, city and address */
  function CainiaoRow(row: Record): (r: Option<ParsedColis>)
    ensures r.Some? <==> CleanTracking(Field(row, "Tracking No.")).Some?
    ensures r.Some? ==> IsCleanTracking(r.value.tracking)
    ensures r.Some? ==> r.value.codePostal == OptText(Field(row, "Sort Code"))
    ensures r.Some? ==> r.value.tracking == CleanTracking(Field(row, "Tracking No.")).value
    ensures r.Some? ==> r.value.adresse == OptText(Field(row, "Receiver's Detail Address")) && r.value.ville == OptText(Field(row, "Receiver's City"))
  {
    match CleanTracking(Field(row, "Tracking No."))
    case None => None
    case Some(t) =>
      Some(ParsedColis(
        t,
        OptText(Field(row, "Receiver's Detail Address")),
        OptText(Field(row, "Receiver's City")),
        OptText(Field(row, "Sort Code")),
        OptText(Field(row, "Receiver's Region/Province"))))
  }

  /** One row of the positional fallback: tracking, address, city and postcode in columns 0 to 3 */
  function GenericRow(row: seq<Cell>): (r: Option<ParsedColis>)
    ensures r.Some? <==> |row| > 0 && CleanTracking(row[0]).Some?
    ensures r.Some? ==> IsCleanTracking(r.value.tracking)
    ensures r.Some? ==> r.value.adresse == OptText(At(row, 1)) && r.value.ville == OptText(At(row, 2))
    ensures r.Some? ==> r.value.codePostal == OptText(At(row, 3))
  {
    if |row| == 0 then None
    else
      match CleanTracking(row[0])
      case None => None
      case Some(t) => Some(ParsedColis(t, OptText(At(row, 1)), OptText(At(row, 2)), OptText(At(row, 3)), None))
  }

  /** What the fallback parser emits: the kept rows after the header row */
  function GenericColis(grid: seq<seq<Cell>>): seq<ParsedColis> {
    if |grid| < 2 then [] else Collect(grid[1..], GenericRow)
  }

  predicate GofoShape(p: ParsedColis) {
    IsCleanTracking(p.tracking) && p.codePostal == None
  }

  predicate CleanShape(p: ParsedColis) {
    IsCleanTracking(p.tracking)
  }

  /** `parseGofoExcel` over the decoded records */
  method ParseGofoExcel(data: seq<Record>) returns (colis: seq<ParsedColis>)
    ensures colis == Collect(data, GofoRow)
    ensures forall p :: p in colis ==> IsCleanTracking(p.tracking) && p.codePostal == None
  {
    colis := [];
    if |data| == 0 {
      return;
    }
    for i := 0 to |data|
      invariant colis == Collect(data[0..i], GofoRow)
    {
      CollectStep(data, 0, i, GofoRow);
      var row := data[i];
      var tracking := Field(row, "data.waybillNo");
      if Truthy(tracking) {
        var trackingClean := Upper(Trim(CellString(tracking)));
        if |trackingClean| < 5 {
          continue;
        }
        colis := colis + [ParsedColis(
          trackingClean,
          OptText(Field(row, "data.toStreet")),
          OptText(Field(row, "data.toCity")),
          None,
          OptText(Field(row, "data.toState")))];
      }
    }
    assert data[0..|data|] == data;
    CollectAll(data, GofoRow, GofoShape);
  }

  /** `parseCainiaoExcel` over the decoded records */
  method ParseCainiaoExcel(data: seq<Record>) returns (colis: seq<ParsedColis>)
    ensures colis == Collect(data, CainiaoRow)
    ensures forall p :: p in colis ==> IsCleanTracking(p.tracking)
  {
    colis := [];
    if |data| == 0 {
      return;
    }
    for i := 0 to |data|
      invariant colis == Collect(data[0..i], CainiaoRow)
    {
      CollectStep(data, 0, i, CainiaoRow);
      var row := data[i];
      var tracking := Field(row, "Tracking No.");
      if Truthy(tracking) {
        var trackingClean := Upper(Trim(CellString(tracking)));
        if |trackingClean| < 5 {
          continue;
        }
        colis := colis + [ParsedColis(
          trackingClean,
          OptText(Field(row, "Receiver's Detail Address")),
          OptText(Field(row, "Receiver's City")),
          OptText(Field(row, "Sort Code")),
          OptText(Field(row, "Receiver's Region/Province")))];
      }
    }
    assert data[0..|data|] == data;
    CollectAll(data, CainiaoRow, CleanShape);
  }

  /** `parseGenericExcel` over the rows in array form; row 0 is the header and never emitted */
  method ParseGenericExcel(data: seq<seq<Cell>>) returns (colis: seq<ParsedColis>)
    ensures colis == GenericColis(data)
    ensures forall k :: 0 <= k < |colis| ==> IsCleanTracking(colis[k].tracking)
  {
    colis := [];
    if |data| < 2 {
      return;
    }
    for i := 1 to |data|
      invariant colis == Collect(data[1..i], GenericRow)
    {
      CollectStep(data, 1, i, GenericRow);
      var row := data[i];
      if |row| == 0 {
        continue;
      }
      var tracking := row[0];
      if Truthy(tracking) {
        var trackingClean := Upper(Trim(CellString(tracking)));
        if |trackingClean| < 5 {
          continue;
        }
        colis := colis + [ParsedColis(trackingClean, OptText(At(row, 1)), OptText(At(row, 2)), OptText(At(row, 3)), None)];
      }
    }
    assert data[1..|data|] == data[1..];
    GenericColisClean(data);
  }

  lemma GenericColisClean(data: seq<seq<Cell>>)
    ensures forall p :: p in GenericColis(data) ==> IsCleanTracking(p.tracking)
  {
    if |data| >= 2 {
      CollectAll(data[1..], GenericRow, CleanShape);
    }
  }

  /** Every record the fallback parser emits comes from a row after the header, and the rows keep their order */
  lemma GenericSkipsHeader(data: seq<seq<Cell>>) returns (idx: seq<nat>)
    ensures |idx| == |GenericColis(data)|
    ensures forall k :: 0 <= k < |idx| ==> 1 <= idx[k] < |data| && GenericRow(data[idx[k]]) == Some(GenericColis(data)[k])
    ensures forall k, l :: 0 <= k < l < |idx| ==> idx[k] < idx[l]
    ensures forall i :: 1 <= i < |data| && GenericRow(data[i]).Some? ==> i in idx
  {
    if |data| < 2 {
      idx := [];
    } else {
      idx := CollectIndicesFrom(data, 1, GenericRow);
    }
  }

  /** The file classification: gofo, cainiao, or the positional fallback tagged unknown */
  datatype SheetFormat = GofoFormat | CainiaoFormat | UnknownFormat

  /** `String(h || '').toLowerCase()` */
  function HeaderText(c: Cell): string {
    Lower(if Truthy(c) then CellString(c) else "")
  }

  predicate AnyHeaderContains(headers: seq<Cell>, marker: string) {
    exists i :: 0 <= i < |headers| && Contains(HeaderText(headers[i]), marker)
  }

  /** A header containing `data.waybillno` also contains `waybillno` */
  lemma WaybillMarker(h: string)
    requires Contains(h, "data.waybillno")
    ensures Contains(h, "waybillno")
  {
    assert "data.waybillno"[5..14] == "waybillno";
    ContainsTransitive(h, "data.waybillno", 5, "waybillno");
  }

  lemma WaybillMarkers(headers: seq<Cell>)
    ensures forall i :: 0 <= i < |headers| && Contains(HeaderText(headers[i]), "data.waybillno") ==>
      Contains(HeaderText(headers[i]), "waybillno")
  {
    forall i | 0 <= i < |headers| && Contains(HeaderText(headers[i]), "data.waybillno")
      ensures Contains(HeaderText(headers[i]), "waybillno")
    {
      WaybillMarker(HeaderText(headers[i]));
    }
  }

  /**
    The header test: any header containing `waybillno` means Gofo, even when
    `tracking no` is present too; otherwise `tracking no` means Cainiao.
   */
  function DetectFormat(headers: seq<Cell>): (f: SheetFormat)
    ensures f == GofoFormat <==> AnyHeaderContains(headers, "waybillno")
    ensures f == CainiaoFormat <==>
      !AnyHeaderContains(headers, "waybillno") && AnyHeaderContains(headers, "tracking no")
  {
    WaybillMarkers(headers);
    var isGofo := exists i :: 0 <= i < |headers| && (Contains(HeaderText(headers[i]), "waybillno") || Contains(HeaderText(headers[i]), "data.waybillno"));
    var isCainiao := exists i :: 0 <= i < |headers| && Contains(HeaderText(headers[i]), "tracking no");
    if isGofo then GofoFormat
    else if isCainiao then CainiaoFormat
    else UnknownFormat
  }

  /** `parseExcel`: fewer than two rows is an empty unknown file; otherwise dispatch on the header row */
  method ParseExcel(sheet: Sheet) returns (format: SheetFormat, colis: seq<ParsedColis>)
    ensures |sheet.grid| < 2 ==> format == UnknownFormat && colis == []
    ensures |sheet.grid| >= 2 ==> format == DetectFormat(sheet.grid[0])
    ensures |sheet.grid| >= 2 && format == GofoFormat ==> colis == Collect(sheet.records, GofoRow)
    ensures |sheet.grid| >= 2 && format == CainiaoFormat ==> colis == Collect(sheet.records, CainiaoRow)
    ensures |sheet.grid| >= 2 && format == UnknownFormat ==> colis == GenericColis(sheet.grid)
    ensures forall p :: p in colis ==> IsCleanTracking(p.tracking)
  {
    if |sheet.grid| < 2 {
      return UnknownFormat, [];
    }
    var headers := sheet.grid[0];
    var detected := DetectFormat(headers);
    if detected == GofoFormat {
      colis := ParseGofoExcel(sheet.records);
      format := GofoFormat;
    } else if detected == CainiaoFormat {
      colis := ParseCainiaoExcel(sheet.records);
      format := CainiaoFormat;
    } else {
      colis := ParseGenericExcel(sheet.grid);
      format := UnknownFormat;
    }
  }
}
