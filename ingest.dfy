/** Turning the first worksheet of an uploaded file into matches (app.js:372-476): header
    recognition by synonyms, per-row cleaning of team names, league, date and odds, and the
    rule that a row becomes a match only when both team names survive cleaning. */
module Ingest {
  import opened Common
  import opened Text
  import opened Types

  /** A cell of `sheet_to_json(worksheet, { header: 1 })`. A number carries its `String(n)`
      rendering, which the analyzer uses wherever it treats the cell as text. */
  datatype Cell = Blank | TextCell(text: string) | NumberCell(value: real, shown: string)

  /** An uploaded file: its name, its size, and its first worksheet, or `None` when the file
      cannot be read or parsed as a workbook. */
  datatype Upload = Upload(name: string, size: nat, sheet: Option<seq<seq<Cell>>>)

  /** JavaScript truthiness of a cell: the empty string, zero and a missing cell are falsy. */
  predicate Truthy(c: Cell) {
    match c
    case Blank => false
    case TextCell(t) => t != []
    case NumberCell(v, _) => v != 0.0
  }

  /** `String(value)` */
  function CellString(c: Cell): string {
    match c
    case Blank => "undefined"
    case TextCell(t) => t
    case NumberCell(_, shown) => shown
  }

  /** `row[i]`, which is `undefined` past the end of a short row. */
  function CellAt(row: seq<Cell>, i: nat): Cell {
    if i < |row| then row[i] else Blank
  }

  /** A header cell as `String(h || '').toLowerCase().trim()` normalises it. */
  function HeaderText(c: Cell): string {
    Trim(Lower(if Truthy(c) then CellString(c) else ""))
  }

  /** `data[0].map(h => String(h || '').toLowerCase().trim())`: one header per cell, empty
      for a falsy cell, otherwise the lower-cased cell text without outer whitespace. */
  function Headers(row: seq<Cell>): (r: seq<string>)
    ensures |r| == |row|
    ensures forall i :: 0 <= i < |row| && !Truthy(row[i]) ==> r[i] == []
    ensures forall i :: 0 <= i < |row| && Truthy(row[i]) ==> r[i] == Trim(Lower(CellString(row[i])))
    ensures forall i :: 0 <= i < |row| ==> r[i] == [] || (!IsSpace(r[i][0]) && !IsSpace(r[i][|r[i]| - 1]))
  {
    seq(|row|, i requires 0 <= i < |row| => HeaderText(row[i]))
  }

  /** `cleanTeamName`: null for a falsy cell, otherwise the trimmed text with each run of
      whitespace reduced to one space. */
  function CleanTeamName(c: Cell): (r: Option<string>)
    ensures r.None? <==> !Truthy(c)
    ensures r.Some? ==> Tidy(r.value) && (r.value == [] <==> Trim(CellString(c)) == [])
  {
    if !Truthy(c) then None else Some(CleanName(CellString(c)))
  }

  /** `cleanString`: null for a falsy cell, otherwise the trimmed text. */
  function CleanString(c: Cell): (r: Option<string>)
    ensures r.None? <==> !Truthy(c)
    ensures r.Some? ==> r.value == [] || (!IsSpace(r.value[0]) && !IsSpace(r.value[|r.value| - 1]))
  {
    if !Truthy(c) then None else Some(Trim(CellString(c)))
  }

  /** `parseDate`: null for a falsy cell; otherwise the `Date` conversion (an Excel serial
      number or a date string) rendered as YYYY-MM-DD, which is the parameter `isoDate`. */
  function ParseDate(c: Cell, isoDate: Cell -> Option<string>): (r: Option<string>)
    ensures !Truthy(c) ==> r.None?
    ensures Truthy(c) ==> r == isoDate(c)
  {
    if !Truthy(c) then None else isoDate(c)
  }

  /** `parseOdds`: null for a falsy cell; otherwise the first comma becomes a decimal point,
      the text goes through `parseFloat` (the parameter, `None` standing for NaN), and only a
      positive number is kept. */
  function ParseOdds(c: Cell, parseFloat: string -> Option<real>): (r: Option<real>)
    ensures r.Some? ==> r.value > 0.0
    ensures r.Some? <==> Truthy(c) && ParsesPositive(CellString(c), parseFloat)
  {
    if !Truthy(c) then None
    else match parseFloat(ReplaceFirst(CellString(c), ',', '.'))
      case Some(n) => if n > 0.0 then Some(n) else None
      case None => None
  }

  predicate ParsesPositive(s: string, parseFloat: string -> Option<real>) {
    var n := parseFloat(ReplaceFirst(s, ',', '.'));
    n.Some? && n.value > 0.0
  }

  /** The test `findIndex` applies: a non-empty header containing the lower-cased term. */
  predicate HeaderHit(header: string, term: string) {
    header != [] && Contains(header, Lower(term))
  }

  /** `headers.findIndex(h => h && h.includes(term.toLowerCase()))`: the first header that
      contains the term. */
  function FindIndex(headers: seq<string>, term: string): (r: Option<nat>)
    ensures r.Some? ==> r.value < |headers| && HeaderHit(headers[r.value], term)
    ensures r.Some? ==> forall j :: 0 <= j < r.value ==> !HeaderHit(headers[j], term)
    ensures r.None? ==> forall j :: 0 <= j < |headers| ==> !HeaderHit(headers[j], term)
  {
    if headers == [] then None
    else if HeaderHit(headers[0], term) then Some(0)
    else match FindIndex(headers[1..], term)
      case Some(i) => Some(i + 1)
      case None => None
  }

  /** What `findColumnIndex` computes: the terms are tried in order and the first one that
      hits any header decides the column. */
  function ColumnIndex(headers: seq<string>, terms: seq<string>): (r: Option<nat>)
    ensures r.Some? ==> r.value < |headers|
  {
    if terms == [] then None
    else match FindIndex(headers, terms[0])
      case Some(i) => Some(i)
      case None => ColumnIndex(headers, terms[1..])
  }

  /** Column `i` is chosen through term `k`: header `i` is the first one containing term
      `k`, and no earlier term hits any header. */
  predicate ChosenThrough(headers: seq<string>, terms: seq<string>, k: nat, i: nat) {
    && k < |terms| && i < |headers|
    && HeaderHit(headers[i], terms[k])
    && (forall j :: 0 <= j < i ==> !HeaderHit(headers[j], terms[k]))
    && (forall k', j :: 0 <= k' < k && 0 <= j < |headers| ==> !HeaderHit(headers[j], terms[k']))
  }

  /** The column search finds nothing exactly when no term hits any header, and otherwise
      it returns the first header hit by the earliest term that hits one. */
  lemma {:induction false} ColumnIndexIsFirstHit(headers: seq<string>, terms: seq<string>)
    ensures ColumnIndex(headers, terms).None? <==>
      forall k, j :: 0 <= k < |terms| && 0 <= j < |headers| ==> !HeaderHit(headers[j], terms[k])
    ensures ColumnIndex(headers, terms).Some? ==>
      exists k :: 0 <= k < |terms| && ChosenThrough(headers, terms, k, ColumnIndex(headers, terms).value)
  {
    if terms != [] {
      var r := ColumnIndex(headers, terms);
      match FindIndex(headers, terms[0])
      case Some(i) =>
        assert ChosenThrough(headers, terms, 0, i);
      case None =>
        ColumnIndexIsFirstHit(headers, terms[1..]);
        if r.Some? {
          var k :| 0 <= k < |terms[1..]| && ChosenThrough(headers, terms[1..], k, r.value);
          assert ChosenThrough(headers, terms, k + 1, r.value) by {
            forall k', j | 0 <= k' < k + 1 && 0 <= j < |headers|
              ensures !HeaderHit(headers[j], terms[k'])
            {
              if k' > 0 { assert terms[k'] == terms[1..][k' - 1]; }
            }
          }
        } else {
          forall k, j | 0 <= k < |terms| && 0 <= j < |headers|
            ensures !HeaderHit(headers[j], terms[k])
          {
            if k > 0 { assert terms[k] == terms[1..][k - 1]; }
          }
        }
    }
  }

  /** `findColumnIndex(headers, searchTerms)`, with `None` for the source's -1. */
  method FindColumnIndex(headers: seq<string>, terms: seq<string>) returns (r: Option<nat>)
    ensures r == ColumnIndex(headers, terms)
  {
    var t := 0;
    while t < |terms|
      invariant 0 <= t <= |terms|
      invariant ColumnIndex(headers, terms) == ColumnIndex(headers, terms[t..])
    {
      var term := Lower(terms[t]);
      var i := 0;
      while i < |headers|
        invariant 0 <= i <= |headers|
        invariant forall j :: 0 <= j < i ==> !HeaderHit(headers[j], terms[t])
      {
        if headers[i] != [] && Contains(headers[i], term) {
          assert FindIndex(headers, terms[t]) == Some(i);
          assert terms[t..][0] == terms[t];
          return Some(i);
        }
        i := i + 1;
      }
      assert FindIndex(headers, terms[t]) == None;
      assert terms[t..][0] == terms[t] && terms[t..][1..] == terms[t + 1..];
      t := t + 1;
    }
    return None;
  }

  /** The header synonyms of `extractMatchesFromData`, in the order they are tried. */
  const DateTerms: seq<string> := ["data", "date", "datum", "day"]
  const HomeTerms: seq<string> := ["home", "gospodarze", "team1", "dru\U{017C}yna1", "home team"]
  const AwayTerms: seq<string> := ["away", "go\U{015B}cie", "goscie", "team2", "dru\U{017C}yna2", "away team"]
  const LeagueTerms: seq<string> := ["league", "liga", "competition", "rozgrywki"]
  const Odds1Terms: seq<string> := ["1", "odds1", "kurs1", "home odds"]
  const OddsXTerms: seq<string> := ["x", "oddsx", "kursx", "draw odds"]
  const Odds2Terms: seq<string> := ["2", "odds2", "kurs2", "away odds"]

  /** The recognised columns; the two team columns are required. */
  datatype Columns = Columns(
    date: Option<nat>, home: nat, away: nat, league: Option<nat>,
    odds1: Option<nat>, oddsX: Option<nat>, odds2: Option<nat>)

  /** The column mapping of a header row, or `None` when a team column is missing. */
  function ColumnsOf(headers: seq<string>): (r: Option<Columns>)
    ensures r.None? <==> ColumnIndex(headers, HomeTerms).None? || ColumnIndex(headers, AwayTerms).None?
    ensures r.Some? ==>
      r.value.home == ColumnIndex(headers, HomeTerms).value && r.value.away == ColumnIndex(headers, AwayTerms).value
  {
    match (ColumnIndex(headers, HomeTerms), ColumnIndex(headers, AwayTerms))
    case (Some(h), Some(a)) =>
      Some(Columns(ColumnIndex(headers, DateTerms), h, a, ColumnIndex(headers, LeagueTerms),
                   ColumnIndex(headers, Odds1Terms), ColumnIndex(headers, OddsXTerms),
                   ColumnIndex(headers, Odds2Terms)))
    case _ => None
  }

  /** What every extracted match satisfies: tidy, non-empty team names and positive odds. */
  predicate WellFormed(m: Match) {
    && m.home != [] && Tidy(m.home)
    && m.away != [] && Tidy(m.away)
    && PositiveOdds(m.odds1) && PositiveOdds(m.oddsX) && PositiveOdds(m.odds2)
  }

  predicate PositiveOdds(o: Option<real>) {
    o.None? || o.value > 0.0
  }

  function OddsAt(row: seq<Cell>, col: Option<nat>, parseFloat: string -> Option<real>): (r: Option<real>)
    ensures PositiveOdds(r)
  {
    if col.Some? then ParseOdds(CellAt(row, col.value), parseFloat) else None
  }

  /** The body of the `rows.forEach` callback for the row at `index` (0-based, after the
      header): an empty row, or one whose home or away name is missing or blank after
      cleaning, gives no match. */
  function RowMatch(row: seq<Cell>, index: nat, cols: Columns, fileName: string,
                    isoDate: Cell -> Option<string>, parseFloat: string -> Option<real>): (r: Option<Match>)
    ensures r.Some? ==>
      && WellFormed(r.value) && r.value.fileName == fileName
      && r.value.rowIndex == index + 2
      && r.value.id == fileName + "_" + NatToString(index + 1)
    ensures r.Some? <==>
      row != [] && NameCell(CellAt(row, cols.home)) && NameCell(CellAt(row, cols.away))
  {
    if row == [] then None
    else
      var home := CleanTeamName(CellAt(row, cols.home));
      var away := CleanTeamName(CellAt(row, cols.away));
      if home.None? || home.value == [] || away.None? || away.value == [] then None
      else Some(Match(
        fileName + "_" + NatToString(index + 1),
        if cols.date.Some? then ParseDate(CellAt(row, cols.date.value), isoDate) else None,
        home.value,
        away.value,
        if cols.league.Some? then CleanString(CellAt(row, cols.league.value)) else Some("Unknown League"),
        OddsAt(row, cols.odds1, parseFloat),
        OddsAt(row, cols.oddsX, parseFloat),
        OddsAt(row, cols.odds2, parseFloat),
        fileName,
        index + 2))
  }

  /** A team-name cell that survives cleaning: truthy and not all whitespace. */
  predicate NameCell(c: Cell) {
    Truthy(c) && Trim(CellString(c)) != []
  }

  /** The values of the present entries, in order (the `push` of the `forEach` callback). */
  function Present<T>(xs: seq<Option<T>>): (r: seq<T>)
    ensures |r| <= |xs|
  {
    if xs == [] then []
    else Present(xs[..|xs| - 1]) + (if xs[|xs| - 1].Some? then [xs[|xs| - 1].value] else [])
  }

  /** A value is kept exactly when it is present somewhere in the input. */
  lemma {:induction false} PresentMembers<T>(xs: seq<Option<T>>, x: T)
    ensures x in Present(xs) <==> Some(x) in xs
  {
    if xs != [] {
      PresentMembers(xs[..|xs| - 1], x);
      assert xs == xs[..|xs| - 1] + [xs[|xs| - 1]];
    }
  }

  /** The outcome of each data row, in row order. */
  function RowOutcomes(rows: seq<seq<Cell>>, cols: Columns, fileName: string,
                       isoDate: Cell -> Option<string>, parseFloat: string -> Option<real>): (r: seq<Option<Match>>)
    ensures |r| == |rows|
    ensures forall i :: 0 <= i < |rows| ==> r[i] == RowMatch(rows[i], i, cols, fileName, isoDate, parseFloat)
  {
    seq(|rows|, i requires 0 <= i < |rows| => RowMatch(rows[i], i, cols, fileName, isoDate, parseFloat))
  }

  /** The matches of the data rows, in row order: each is well formed and records the file
      it came from, and a match is extracted exactly when some data row yields it. */
  function RowsToMatches(rows: seq<seq<Cell>>, cols: Columns, fileName: string,
                         isoDate: Cell -> Option<string>, parseFloat: string -> Option<real>): (r: seq<Match>)
    ensures |r| <= |rows|
    ensures forall m :: m in r <==>
      exists i :: 0 <= i < |rows| && RowMatch(rows[i], i, cols, fileName, isoDate, parseFloat) == Some(m)
    ensures forall m :: m in r ==> WellFormed(m) && m.fileName == fileName
  {
    var outcomes := RowOutcomes(rows, cols, fileName, isoDate, parseFloat);
    var r := Present(outcomes);
    assert forall m :: m in r <==> Some(m) in outcomes by {
      forall m ensures m in r <==> Some(m) in outcomes {
        PresentMembers(outcomes, m);
      }
    }
    r
  }

  /** What `extractMatchesFromData(data, fileName)` returns: nothing for a sheet with fewer
      than two rows or without both team columns, otherwise the matches of the data rows. */
  function SheetMatches(data: seq<seq<Cell>>, fileName: string,
                        isoDate: Cell -> Option<string>, parseFloat: string -> Option<real>): (r: seq<Match>)
    ensures |data| < 2 ==> r == []
    ensures ColumnsOf(Headers(if data == [] then [] else data[0])).None? ==> r == []
    ensures |r| < |data| || r == []
    ensures forall m :: m in r ==> WellFormed(m) && m.fileName == fileName
  {
    if |data| < 2 then []
    else match ColumnsOf(Headers(data[0]))
      case None => []
      case Some(cols) => RowsToMatches(data[1..], cols, fileName, isoDate, parseFloat)
  }

  /** `extractMatchesFromData`, with its `forEach` loop over the data rows. */
  method ExtractMatches(data: seq<seq<Cell>>, fileName: string,
                        isoDate: Cell -> Option<string>, parseFloat: string -> Option<real>)
    returns (matches: seq<Match>)
    ensures matches == SheetMatches(data, fileName, isoDate, parseFloat)
  {
    if |data| < 2 {
      return [];
    }
    var headers := Headers(data[0]);
    var homeIdx := FindColumnIndex(headers, HomeTerms);
    var awayIdx := FindColumnIndex(headers, AwayTerms);
    if homeIdx.None? || awayIdx.None? {
      return [];
    }
    var dateIdx := FindColumnIndex(headers, DateTerms);
    var leagueIdx := FindColumnIndex(headers, LeagueTerms);
    var odds1Idx := FindColumnIndex(headers, Odds1Terms);
    var oddsXIdx := FindColumnIndex(headers, OddsXTerms);
    var odds2Idx := FindColumnIndex(headers, Odds2Terms);
    var cols := Columns(dateIdx, homeIdx.value, awayIdx.value, leagueIdx, odds1Idx, oddsXIdx, odds2Idx);
    assert ColumnsOf(headers) == Some(cols);
    matches := CollectRows(data[1..], cols, fileName, isoDate, parseFloat);
  }

  /** The `rows.forEach` loop of `extractMatchesFromData`. */
  method CollectRows(rows: seq<seq<Cell>>, cols: Columns, fileName: string,
                     isoDate: Cell -> Option<string>, parseFloat: string -> Option<real>)
    returns (matches: seq<Match>)
    ensures matches == RowsToMatches(rows, cols, fileName, isoDate, parseFloat)
  {
    ghost var outcomes := RowOutcomes(rows, cols, fileName, isoDate, parseFloat);
    matches := [];
    var index := 0;
    while index < |rows|
      invariant 0 <= index <= |rows|
      invariant matches == Present(outcomes[..index])
    {
      assert outcomes[..index + 1][..index] == outcomes[..index];
      var m := RowMatch(rows[index], index, cols, fileName, isoDate, parseFloat);
      if m.Some? {
        matches := matches + [m.value];
      }
      index := index + 1;
    }
    assert outcomes[..|rows|] == outcomes;
  }

  /** The file filter of `handleFileUpload`: names ending in `.xlsx` or `.xls`, in any
      letter case. */
  predicate IsExcelName(name: string) {
    EndsWith(Lower(name), ".xlsx") || EndsWith(Lower(name), ".xls")
  }

  function ExcelUploads(files: seq<Upload>): (r: seq<Upload>)
    ensures |r| <= |files|
    ensures forall k :: 0 <= k < |r| ==> IsExcelName(r[k].name)
    ensures forall f :: f in r <==> f in files && IsExcelName(f.name)
  {
    if files == [] then []
    else
      var last := files[|files| - 1];
      ExcelUploads(files[..|files| - 1]) + (if IsExcelName(last.name) then [last] else [])
  }

  /** The filter keeps order and multiplicity: one more upload at the end adds itself at
      the end exactly when its name is an Excel name. */
  lemma ExcelUploadsPush(files: seq<Upload>, f: Upload)
    ensures ExcelUploads(files + [f]) == ExcelUploads(files) + (if IsExcelName(f.name) then [f] else [])
  {
    assert (files + [f])[..|files|] == files;
  }
}
