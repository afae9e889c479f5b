/** services/api/routers/groups.py, bulk_import. Address validation with normalisation and lower-casing
    is a library call: a function `check` from the stripped text to the accepted address, if any. */
module BulkImport {
  import opened Prelude
  import opened FieldKeys

  datatype Cell = Cell(header: string, value: string)

  ghost predicate UniqueHeaders(cells: seq<Cell>) {
    forall i, j :: 0 <= i < j < |cells| ==> cells[i].header != cells[j].header
  }

  /** A {header: value} dictionary in its own order. */
  type Row = cells: seq<Cell> | UniqueHeaders(cells) witness []

  datatype Request = Request(emailColumn: string, nameColumn: Option<string>, rows: seq<Row>)

  datatype Reason = MissingEmail | InvalidEmail(raw: string) | Ambiguous(key: string)

  datatype Parsed = Parsed(email: string, name: Option<string>, fields: map<string, string>)

  datatype RowResult = Skip(reason: Reason) | Take(row: Parsed)

  type Check = string -> Option<string>

  // ---- one row ----

  function Get(cells: seq<Cell>, header: string): string {
    if cells == [] then ""
    else if cells[|cells| - 1].header == header then cells[|cells| - 1].value
    else Get(cells[..|cells| - 1], header)
  }

  predicate Mapped(req: Request, header: string) {
    header == req.emailColumn || req.nameColumn == Some(header)
  }

  function Column(cell: Cell): Cell {
    Cell(Sanitize(cell.header), cell.value)
  }

  /** The cells that become contact fields, under their sanitised keys. */
  function Columns(req: Request, cells: seq<Cell>): seq<Cell> {
    if cells == [] then []
    else
      var last := cells[|cells| - 1];
      Columns(req, cells[..|cells| - 1]) + if Mapped(req, last.header) then [] else [Column(last)]
  }

  function Headers(cells: seq<Cell>): set<string> {
    set i | 0 <= i < |cells| :: cells[i].header
  }

  /** The first key that an earlier column already had. */
  function Collision(columns: seq<Cell>): Option<string> {
    if columns == [] then None
    else
      var init, last := columns[..|columns| - 1], columns[|columns| - 1];
      if Collision(init).Some? then Collision(init)
      else if last.header in Headers(init) then Some(last.header) else None
  }

  function Fields(columns: seq<Cell>): map<string, string> {
    if columns == [] then map[]
    else Fields(columns[..|columns| - 1])[columns[|columns| - 1].header := columns[|columns| - 1].value]
  }

  function NameOf(req: Request, row: Row): Option<string> {
    if req.nameColumn.Some? && req.nameColumn.value != "" then
      var name := Strip(Get(row, req.nameColumn.value), Spaces);
      if name == "" then None else Some(name)
    else None
  }

  function ParseRow(check: Check, req: Request, row: Row): RowResult {
    var raw := Strip(Get(row, req.emailColumn), Spaces);
    if raw == "" then Skip(MissingEmail)
    else if check(raw).None? then Skip(InvalidEmail(raw))
    else
      var columns := Columns(req, row);
      if Collision(columns).Some? then Skip(Ambiguous(Collision(columns).value))
      else Take(Parsed(check(raw).value, NameOf(req, row), Fields(columns)))
  }

  lemma {:induction false} CollisionIff(columns: seq<Cell>)
    ensures Collision(columns).None? <==> UniqueHeaders(columns)
  {
    if columns != [] {
      var init, last := columns[..|columns| - 1], columns[|columns| - 1];
      CollisionIff(init);
      assert forall i :: 0 <= i < |init| ==> columns[i] == init[i];
      if last.header in Headers(init) {
        var i :| 0 <= i < |init| && init[i].header == last.header;
      }
    }
  }

  lemma {:induction false} FieldsKeepEvery(columns: seq<Cell>)
    requires UniqueHeaders(columns)
    ensures Holds(Fields(columns), columns)
  {
    if columns != [] {
      var init, last := columns[..|columns| - 1], columns[|columns| - 1];
      assert forall i :: 0 <= i < |init| ==> columns[i] == init[i];
      FieldsKeepEvery(init);
      assert columns == init + [last];
      assert last.header !in Headers(init);
      AddField(Fields(init), init, last);
    }
  }

  /** One entry per column, under its header, with its value. */
  ghost predicate Holds(fields: map<string, string>, columns: seq<Cell>) {
    && |fields| == |columns| && fields.Keys == Headers(columns)
    && forall c :: c in columns ==> c.header in fields && fields[c.header] == c.value
  }

  lemma AddField(fields: map<string, string>, init: seq<Cell>, last: Cell)
    requires Holds(fields, init) && last.header !in Headers(init)
    ensures Holds(fields[last.header := last.value], init + [last])
  {
    OneMoreHeader(init, last);
    var more := fields[last.header := last.value];
    assert more.Keys == fields.Keys + {last.header};
    forall c | c in init + [last] ensures c.header in more && more[c.header] == c.value {
      if c in init {
        assert c.header in fields && fields[c.header] == c.value;
      }
    }
  }

  lemma OneMoreHeader(init: seq<Cell>, last: Cell)
    ensures Headers(init + [last]) == Headers(init) + {last.header}
  {
    var all := init + [last];
    assert all[|init|] == last && forall i :: 0 <= i < |init| ==> all[i] == init[i];
  }

  // ---- the verdict on a row, told by its cells ----

  /** text is the value under this header, and empty if no cell has it. */
  ghost predicate ValueUnder(row: seq<Cell>, header: string, text: string) {
    || (exists k :: 0 <= k < |row| && row[k].header == header && row[k].value == text)
    || (text == "" && forall k :: 0 <= k < |row| ==> row[k].header != header)
  }

  /** A dictionary lookup finds the one cell with the header. */
  lemma {:induction false} GetFinds(cells: seq<Cell>, header: string, text: string)
    requires UniqueHeaders(cells) && ValueUnder(cells, header, text)
    ensures Get(cells, header) == text
  {
    if cells != [] {
      var init, last := cells[..|cells| - 1], cells[|cells| - 1];
      assert forall k :: 0 <= k < |init| ==> cells[k] == init[k];
      if last.header != header {
        if k :| 0 <= k < |cells| && cells[k].header == header && cells[k].value == text {
          assert init[k].header == header && init[k].value == text;
        }
        GetFinds(init, header, text);
      } else {
        var k :| 0 <= k < |cells| && cells[k].header == header && cells[k].value == text;
        assert k == |cells| - 1;
      }
    }
  }

  /** The cells that are neither the e-mail nor the name. */
  ghost function Others(req: Request, row: seq<Cell>): set<nat> {
    set k: nat | k < |row| && row[k].header != req.emailColumn && req.nameColumn != Some(row[k].header)
  }

  lemma OneMoreOther(req: Request, init: seq<Cell>, last: Cell)
    ensures Others(req, init + [last]) == Others(req, init) + if Mapped(req, last.header) then {} else {|init|}
  {
    var row := init + [last];
    assert row[|init|] == last && forall k :: 0 <= k < |init| ==> row[k] == init[k];
  }

  lemma OneMoreCounts(some: set<nat>, n: nat)
    requires n !in some
    ensures |some + {n}| == |some| + 1 && some + {} == some
  {
  }

  lemma {:induction false} ColumnsCount(req: Request, row: seq<Cell>)
    ensures |Columns(req, row)| == |Others(req, row)|
  {
    if row == [] {
      assert Others(req, row) == {};
    } else {
      var init, n := row[..|row| - 1], |row| - 1;
      ColumnsCount(req, init);
      OneMoreOther(req, init, row[n]);
      assert row == init + [row[n]];
      OneMoreCounts(Others(req, init), n);
    }
  }

  /** Whether two of those cells share a sanitised header. */
  ghost predicate Clashes(req: Request, row: seq<Cell>) {
    exists i, k :: i in Others(req, row) && k in Others(req, row) && i != k
        && Sanitize(row[i].header) == Sanitize(row[k].header)
  }

  /** Where a cell went, if it became a column. */
  lemma {:induction false} ColumnAt(req: Request, row: seq<Cell>, k: nat) returns (n: nat)
    requires k in Others(req, row)
    ensures n < |Columns(req, row)| && Columns(req, row)[n] == Cell(Sanitize(row[k].header), row[k].value)
    ensures n == |Others(req, row[..k])|
  {
    var init := row[..|row| - 1];
    if k == |row| - 1 {
      ColumnsCount(req, init);
      n := |Columns(req, init)|;
    } else {
      assert k in Others(req, init);
      n := ColumnAt(req, init, k);
      assert init[..k] == row[..k];
    }
  }

  lemma {:induction false} ColumnFrom(req: Request, row: seq<Cell>, n: nat) returns (k: nat)
    requires n < |Columns(req, row)|
    ensures k in Others(req, row) && Columns(req, row)[n] == Cell(Sanitize(row[k].header), row[k].value)
    ensures n == |Others(req, row[..k])|
  {
    var init := row[..|row| - 1];
    ColumnsCount(req, init);
    if n == |Columns(req, init)| {
      k := |row| - 1;
      assert row[..k] == init;
    } else {
      k := ColumnFrom(req, init, n);
      assert init[..k] == row[..k];
    }
  }

  lemma EarlierColumn(req: Request, row: seq<Cell>, i: nat, k: nat)
    requires i < k <= |row| && i in Others(req, row)
    ensures |Others(req, row[..i])| < |Others(req, row[..k])|
  {
    assert i !in Others(req, row[..i]) && i in Others(req, row[..k]);
    SubsetSize(Others(req, row[..i]) + {i}, Others(req, row[..k]));
  }

  lemma ClashIsCollision(req: Request, row: seq<Cell>)
    ensures UniqueHeaders(Columns(req, row)) <==> !Clashes(req, row)
  {
    var columns := Columns(req, row);
    if Clashes(req, row) {
      var i, k :| i in Others(req, row) && k in Others(req, row) && i != k
          && Sanitize(row[i].header) == Sanitize(row[k].header);
      ClashCollides(req, row, if i < k then i else k, if i < k then k else i);
    }
    if !UniqueHeaders(columns) {
      var m, n :| 0 <= m < n < |columns| && columns[m].header == columns[n].header;
      var i := ColumnFrom(req, row, m);
      var k := ColumnFrom(req, row, n);
      assert i != k;
    }
  }

  lemma ClashCollides(req: Request, row: seq<Cell>, i: nat, k: nat)
    requires i in Others(req, row) && k in Others(req, row) && i < k
    requires Sanitize(row[i].header) == Sanitize(row[k].header)
    ensures !UniqueHeaders(Columns(req, row))
  {
    var m := ColumnAt(req, row, i);
    var n := ColumnAt(req, row, k);
    EarlierColumn(req, row, i, k);
    assert m < n && Columns(req, row)[m].header == Columns(req, row)[n].header;
  }

  /** The key reported is that of the first column whose header an earlier column has. */
  lemma {:induction false} CollisionIsFirst(columns: seq<Cell>) returns (n: nat)
    requires Collision(columns).Some?
    ensures n < |columns| && columns[n].header == Collision(columns).value && UniqueHeaders(columns[..n])
    ensures exists i :: 0 <= i < n && columns[i].header == columns[n].header
  {
    var init := columns[..|columns| - 1];
    if Collision(init).Some? {
      n := CollisionIsFirst(init);
      assert init[..n] == columns[..n];
    } else {
      n := |columns| - 1;
      CollisionIff(init);
      var i :| 0 <= i < |init| && init[i].header == columns[n].header;
      assert columns[i].header == columns[n].header;
    }
  }

  /** What becomes of a row, in the order of the checks: no text under the e-mail column, an address that is
      not accepted, two other columns with one name, and otherwise it is taken under the address accepted. */
  lemma RowVerdict(check: Check, req: Request, row: Row, email: string)
    requires ValueUnder(row, req.emailColumn, email)
    ensures var r, text := ParseRow(check, req, row), Strip(email, Spaces);
            && (r == Skip(MissingEmail) <==> text == "")
            && (r == Skip(InvalidEmail(text)) <==> text != "" && check(text).None?)
            && (r.Skip? && r.reason.Ambiguous? <==> text != "" && check(text).Some? && Clashes(req, row))
            && (r.Take? <==> text != "" && check(text).Some? && !Clashes(req, row))
            && (r.Take? ==> r.row.email == check(text).value)
  {
    GetFinds(row, req.emailColumn, email);
    CollisionIff(Columns(req, row));
    ClashIsCollision(req, row);
  }

  /** An import loses no column: a row that is taken has one field per cell other than the e-mail and the
      name, with its value, under its sanitised header, which the renderer accepts; and the stripped text
      under the name column is its name, if there is a name column and any text. */
  lemma AcceptedRowLosesNothing(check: Check, req: Request, row: Row, name: string)
    requires ParseRow(check, req, row).Take?
    requires req.nameColumn.Some? && req.nameColumn.value != "" ==> ValueUnder(row, req.nameColumn.value, name)
    ensures var r := ParseRow(check, req, row).row;
            && |r.fields| == |Others(req, row)|
            && (forall k :: k in Others(req, row) ==>
                  Sanitize(row[k].header) in r.fields && r.fields[Sanitize(row[k].header)] == row[k].value)
            && (forall key :: key in r.fields ==> IsVariableName(key))
            && r.name == if req.nameColumn.None? || req.nameColumn.value == "" || Strip(name, Spaces) == ""
                         then None else Some(Strip(name, Spaces))
  {
    var columns := Columns(req, row);
    CollisionIff(columns);
    FieldsKeepEvery(columns);
    ColumnsCount(req, row);
    if req.nameColumn.Some? && req.nameColumn.value != "" {
      GetFinds(row, req.nameColumn.value, name);
    }
    var fields := ParseRow(check, req, row).row.fields;
    forall k | k in Others(req, row)
      ensures Sanitize(row[k].header) in fields && fields[Sanitize(row[k].header)] == row[k].value
    {
      var n := ColumnAt(req, row, k);
      assert columns[n] in columns;
    }
    forall key | key in fields ensures IsVariableName(key) {
      assert key in Headers(columns);
      var n :| 0 <= n < |columns| && columns[n].header == key;
      var k := ColumnFrom(req, row, n);
      SanitizedIsVariableName(row[k].header);
    }
  }

  lemma ColumnsStep(req: Request, row: seq<Cell>, n: nat)
    requires n < |row|
    ensures Columns(req, row[..n + 1]) ==
            if Mapped(req, row[n].header) then Columns(req, row[..n]) else Columns(req, row[..n]) + [Column(row[n])]
    ensures Columns(req, row[..0]) == [] && row[..|row|] == row
  {
    assert row[..n + 1][..n] == row[..n];
    assert Columns(req, row[..n]) + [] == Columns(req, row[..n]);
  }

  lemma CollisionStep(before: seq<Cell>, column: Cell)
    ensures Collision(before + [column]) ==
            if Collision(before).Some? then Collision(before)
            else if column.header in Headers(before) then Some(column.header) else None
    ensures Fields(before + [column]) == Fields(before)[column.header := column.value]
  {
    assert (before + [column])[..|before|] == before;
  }

  lemma ScanStep(before: seq<Cell>, column: Cell)
    requires Collision(before).None?
    ensures Collision(before + [column]) == if column.header in Headers(before) then Some(column.header) else None
    ensures Headers(before + [column]) == Headers(before) + {column.header}
  {
    CollisionStep(before, column);
    OneMoreHeader(before, column);
  }

  lemma HeadersDiffer(row: Row, n: nat)
    requires n < |row|
    ensures row[n].header !in Headers(row[..n])
  {
    assert UniqueHeaders(row);
  }

  lemma HeadersGrow(row: seq<Cell>, n: nat)
    requires n < |row|
    ensures Headers(row[..n + 1]) == Headers(row[..n]) + {row[n].header}
  {
    assert row[..n + 1] == row[..n] + [row[n]];
    OneMoreHeader(row[..n], row[n]);
  }

  /** No collision among the columns so far; `seen` leads from their keys back to the headers met. */
  ghost predicate Scanned(columns: seq<Cell>, headers: set<string>, seen: map<string, string>) {
    Collision(columns).None? && seen.Keys == Headers(columns) && seen.Values <= headers
  }

  /** One more column under a header not met before: a key seen before came from another header. */
  lemma ScanKey(before: seq<Cell>, headers: set<string>, seen: map<string, string>, column: Cell, header: string)
    requires Scanned(before, headers, seen) && header !in headers
    ensures column.header in seen ==>
              seen[column.header] != header && Collision(before + [column]) == Some(column.header)
    ensures column.header !in seen ==> Scanned(before + [column], headers + {header}, seen[column.header := header])
  {
    ScanStep(before, column);
    if column.header in seen {
      assert seen[column.header] in seen.Values;
    } else {
      assert seen[column.header := header].Values <= seen.Values + {header};
    }
  }

  /** The collision scan of the endpoint. */
  method Scan(req: Request, row: Row) returns (collision: Option<string>)
    ensures collision == Collision(Columns(req, row))
  {
    var seen: map<string, string> := map[];
    for n := 0 to |row|
      invariant Scanned(Columns(req, row[..n]), Headers(row[..n]), seen)
    {
      ColumnsStep(req, row, n);
      HeadersGrow(row, n);
      if !Mapped(req, row[n].header) {
        var key := Sanitize(row[n].header);
        HeadersDiffer(row, n);
        ScanKey(Columns(req, row[..n]), Headers(row[..n]), seen, Column(row[n]), row[n].header);
        if key in seen && seen[key] != row[n].header {
          CollisionStays(req, row, n + 1);
          return Some(key);
        }
        seen := seen[key := row[n].header];
      }
    }
    assert row[..|row|] == row;
    return None;
  }

  method CollectFields(req: Request, row: Row) returns (fields: map<string, string>)
    ensures fields == Fields(Columns(req, row))
  {
    fields := map[];
    for n := 0 to |row|
      invariant fields == Fields(Columns(req, row[..n]))
    {
      ColumnsStep(req, row, n);
      if !Mapped(req, row[n].header) {
        var key := Sanitize(row[n].header);
        CollisionStep(Columns(req, row[..n]), Column(row[n]));
        fields := fields[key := row[n].value];
      }
    }
    assert row[..|row|] == row;
  }

  /** The body of the parsing loop on one row. */
  method ParseOne(check: Check, req: Request, row: Row) returns (r: RowResult)
    ensures r == ParseRow(check, req, row)
  {
    var raw := Strip(Get(row, req.emailColumn), Spaces);
    if raw == "" {
      return Skip(MissingEmail);
    }
    var email := check(raw);
    if email.None? {
      return Skip(InvalidEmail(raw));
    }
    var name := None;
    if req.nameColumn.Some? && req.nameColumn.value != "" {
      var text := Strip(Get(row, req.nameColumn.value), Spaces);
      name := if text == "" then None else Some(text);
    }
    var collision := Scan(req, row);
    if collision.Some? {
      return Skip(Ambiguous(collision.value));
    }
    var fields := CollectFields(req, row);
    return Take(Parsed(email.value, name, fields));
  }

  lemma {:induction false} CollisionStays(req: Request, row: seq<Cell>, n: nat)
    requires n <= |row| && Collision(Columns(req, row[..n])).Some?
    ensures Collision(Columns(req, row)) == Collision(Columns(req, row[..n]))
    decreases |row| - n
  {
    if n == |row| {
      assert row[..n] == row;
    } else {
      CollisionGrows(req, row, n);
      CollisionStays(req, row, n + 1);
    }
  }

  lemma CollisionGrows(req: Request, row: seq<Cell>, n: nat)
    requires n < |row| && Collision(Columns(req, row[..n])).Some?
    ensures Collision(Columns(req, row[..n + 1])) == Collision(Columns(req, row[..n]))
  {
    var before, after := Columns(req, row[..n]), Columns(req, row[..n + 1]);
    ColumnsStep(req, row, n);
    if before != after {
      CollisionStep(before, Column(row[n]));
    }
  }

  // ---- the batch ----

  datatype Skipped = Skipped(index: nat, reason: Reason)

  datatype Taken = Taken(index: nat, row: Parsed)

  function SkipOf(i: nat, r: RowResult): seq<Skipped> {
    if r.Skip? then [Skipped(i, r.reason)] else []
  }

  function TakeOf(i: nat, r: RowResult): seq<Taken> {
    if r.Take? then [Taken(i, r.row)] else []
  }

  function AllSkipped(rs: seq<RowResult>): seq<Skipped> {
    if rs == [] then [] else AllSkipped(rs[..|rs| - 1]) + SkipOf(|rs| - 1, rs[|rs| - 1])
  }

  function AllTaken(rs: seq<RowResult>): seq<Taken> {
    if rs == [] then [] else AllTaken(rs[..|rs| - 1]) + TakeOf(|rs| - 1, rs[|rs| - 1])
  }

  function ParseRows(check: Check, req: Request): (rs: seq<RowResult>)
    ensures |rs| == |req.rows|
  {
    seq(|req.rows|, i requires 0 <= i < |req.rows| => ParseRow(check, req, req.rows[i]))
  }

  predicate HasSkip(ss: seq<Skipped>, i: nat) {
    exists x :: x in ss && x.index == i
  }

  predicate HasTake(ts: seq<Taken>, i: nat) {
    exists y :: y in ts && y.index == i
  }

  lemma OneMoreSkip(ss: seq<Skipped>, r: RowResult, n: nat, i: nat)
    ensures HasSkip(ss + SkipOf(n, r), i) <==> HasSkip(ss, i) || (i == n && r.Skip?)
  {
    var more := ss + SkipOf(n, r);
    if r.Skip? {
      assert more[|ss|] == Skipped(n, r.reason);
    }
    assert forall x :: x in more <==> x in ss || x in SkipOf(n, r);
  }

  lemma OneMoreTake(ts: seq<Taken>, r: RowResult, n: nat, i: nat)
    ensures HasTake(ts + TakeOf(n, r), i) <==> HasTake(ts, i) || (i == n && r.Take?)
  {
    var more := ts + TakeOf(n, r);
    if r.Take? {
      assert more[|ts|] == Taken(n, r.row);
    }
    assert forall y :: y in more <==> y in ts || y in TakeOf(n, r);
  }

  lemma {:induction false} SkippedAre(rs: seq<RowResult>)
    ensures forall i: nat :: HasSkip(AllSkipped(rs), i) <==> i < |rs| && rs[i].Skip?
    ensures forall x :: x in AllSkipped(rs) ==> x.index < |rs| && rs[x.index] == Skip(x.reason)
  {
    if rs != [] {
      var init, last := rs[..|rs| - 1], rs[|rs| - 1];
      SkippedAre(init);
      forall i: nat ensures HasSkip(AllSkipped(rs), i) <==> i < |rs| && rs[i].Skip? {
        OneMoreSkip(AllSkipped(init), last, |init|, i);
      }
    }
  }

  lemma {:induction false} TakenAre(rs: seq<RowResult>)
    ensures forall i: nat :: HasTake(AllTaken(rs), i) <==> i < |rs| && rs[i].Take?
    ensures forall y :: y in AllTaken(rs) ==> y.index < |rs| && rs[y.index] == Take(y.row)
  {
    if rs != [] {
      var init, last := rs[..|rs| - 1], rs[|rs| - 1];
      TakenAre(init);
      forall i: nat ensures HasTake(AllTaken(rs), i) <==> i < |rs| && rs[i].Take? {
        OneMoreTake(AllTaken(init), last, |init|, i);
      }
    }
  }

  lemma {:induction false} SizesAddUp(rs: seq<RowResult>)
    ensures |AllSkipped(rs)| + |AllTaken(rs)| == |rs|
  {
    if rs != [] {
      SizesAddUp(rs[..|rs| - 1]);
    }
  }

  /** Indices below n, in ascending order. */
  ghost predicate SkipsAscend(xs: seq<Skipped>, n: nat) {
    && (forall i :: 0 <= i < |xs| ==> xs[i].index < n)
    && (forall i, k :: 0 <= i < k < |xs| ==> xs[i].index < xs[k].index)
  }

  lemma OneMoreSkipped(init: seq<Skipped>, n: nat, r: RowResult)
    requires SkipsAscend(init, n)
    ensures SkipsAscend(init + SkipOf(n, r), n + 1)
  {
  }

  lemma {:induction false} SkippedInOrder(rs: seq<RowResult>)
    ensures SkipsAscend(AllSkipped(rs), |rs|)
  {
    if rs != [] {
      SkippedInOrder(rs[..|rs| - 1]);
      OneMoreSkipped(AllSkipped(rs[..|rs| - 1]), |rs| - 1, rs[|rs| - 1]);
    }
  }

  /** Indices below n, in ascending order. */
  ghost predicate TakesAscend(xs: seq<Taken>, n: nat) {
    && (forall i :: 0 <= i < |xs| ==> xs[i].index < n)
    && (forall i, k :: 0 <= i < k < |xs| ==> xs[i].index < xs[k].index)
  }

  lemma OneMoreTaken(init: seq<Taken>, n: nat, r: RowResult)
    requires TakesAscend(init, n)
    ensures TakesAscend(init + TakeOf(n, r), n + 1)
  {
  }

  lemma {:induction false} TakenInOrder(rs: seq<RowResult>)
    ensures TakesAscend(AllTaken(rs), |rs|)
  {
    if rs != [] {
      TakenInOrder(rs[..|rs| - 1]);
      OneMoreTaken(AllTaken(rs[..|rs| - 1]), |rs| - 1, rs[|rs| - 1]);
    }
  }

  /** Every row ends up in exactly one of the two lists, at its own index, and both lists are in the order
      of the request. */
  lemma RowsAreConserved(rs: seq<RowResult>)
    ensures var ss := AllSkipped(rs); forall i, k :: 0 <= i < k < |ss| ==> ss[i].index < ss[k].index
    ensures var ts := AllTaken(rs); forall i, k :: 0 <= i < k < |ts| ==> ts[i].index < ts[k].index
    ensures |AllSkipped(rs)| + |AllTaken(rs)| == |rs|
    ensures forall i: nat :: HasSkip(AllSkipped(rs), i) <==> i < |rs| && rs[i].Skip?
    ensures forall i: nat :: HasTake(AllTaken(rs), i) <==> i < |rs| && rs[i].Take?
    ensures forall x :: x in AllSkipped(rs) ==> x.index < |rs| && rs[x.index] == Skip(x.reason)
    ensures forall y :: y in AllTaken(rs) ==> y.index < |rs| && rs[y.index] == Take(y.row)
  {
    SizesAddUp(rs);
    SkippedInOrder(rs);
    TakenInOrder(rs);
    SkippedAre(rs);
    TakenAre(rs);
  }

  lemma OneMoreRow(rs: seq<RowResult>, i: nat)
    requires i < |rs|
    ensures AllSkipped(rs[..i + 1]) == AllSkipped(rs[..i]) + SkipOf(i, rs[i])
    ensures AllTaken(rs[..i + 1]) == AllTaken(rs[..i]) + TakeOf(i, rs[i])
    ensures rs[..|rs|] == rs
  {
    assert rs[..i + 1][..i] == rs[..i];
  }

  /** The parsing loop. */
  method ParseAll(check: Check, req: Request) returns (skipped: seq<Skipped>, taken: seq<Taken>)
    ensures skipped == AllSkipped(ParseRows(check, req)) && taken == AllTaken(ParseRows(check, req))
    ensures |skipped| + |taken| == |req.rows|
  {
    skipped, taken := [], [];
    ghost var rs := ParseRows(check, req);
    for i := 0 to |req.rows|
      invariant skipped == AllSkipped(rs[..i]) && taken == AllTaken(rs[..i])
    {
      OneMoreRow(rs, i);
      var r := ParseOne(check, req, req.rows[i]);
      assert r == rs[i];
      match r {
        case Skip(reason) => skipped := skipped + [Skipped(i, reason)];
        case Take(row) => taken := taken + [Taken(i, row)];
      }
    }
    assert rs[..|req.rows|] == rs;
    RowsAreConserved(rs);
  }

  // ---- one entry per address: the last row wins ----

  /** A Python dictionary: its keys in order of first insertion, and its entries. */
  datatype Batch = Batch(order: seq<string>, last: map<string, Parsed>)

  function Merge(rows: seq<Taken>): Batch {
    if rows == [] then Batch([], map[])
    else
      var b, p := Merge(rows[..|rows| - 1]), rows[|rows| - 1].row;
      Batch(if p.email in b.last then b.order else b.order + [p.email], b.last[p.email := p])
  }

  ghost function Emails(rows: seq<Taken>): set<string> {
    set i | 0 <= i < |rows| :: rows[i].row.email
  }

  /** i is the last row for its address. */
  ghost predicate IsLast(rows: seq<Taken>, i: int) {
    0 <= i < |rows| && forall k :: i < k < |rows| ==> rows[k].row.email != rows[i].row.email
  }

  ghost predicate LastWins(rows: seq<Taken>, last: map<string, Parsed>) {
    && (forall i :: IsLast(rows, i) ==> rows[i].row.email in last && last[rows[i].row.email] == rows[i].row)
    && (forall e :: e in last ==> last[e].email == e && exists i :: IsLast(rows, i) && rows[i].row == last[e])
  }

  lemma {:induction false} MergeKeepsLast(rows: seq<Taken>)
    ensures LastWins(rows, Merge(rows).last)
  {
    if rows != [] {
      var init, p := rows[..|rows| - 1], rows[|rows| - 1].row;
      MergeKeepsLast(init);
      OneMoreLast(rows, Merge(init).last);
    }
  }

  lemma OneMoreLast(rows: seq<Taken>, last: map<string, Parsed>)
    requires rows != [] && LastWins(rows[..|rows| - 1], last)
    ensures LastWins(rows, last[rows[|rows| - 1].row.email := rows[|rows| - 1].row])
  {
    var init, p := rows[..|rows| - 1], rows[|rows| - 1].row;
    var last' := last[p.email := p];
    assert IsLast(rows, |rows| - 1);
    forall e | e in last' ensures last'[e].email == e && exists i :: IsLast(rows, i) && rows[i].row == last'[e] {
      if e != p.email {
        var i :| IsLast(init, i) && init[i].row == last[e];
        assert IsLast(rows, i);
      }
    }
    forall i | IsLast(rows, i) ensures rows[i].row.email in last' && last'[rows[i].row.email] == rows[i].row {
      if i < |init| {
        assert IsLast(init, i) && rows[|rows| - 1].row.email != rows[i].row.email;
      }
    }
  }

  lemma {:induction false} MergeOrder(rows: seq<Taken>)
    ensures var b := Merge(rows);
            && b.last.Keys == Emails(rows) && Elements(b.order) == Emails(rows)
            && (forall i, j :: 0 <= i < j < |b.order| ==> b.order[i] != b.order[j])
  {
    if rows != [] {
      var init, p := rows[..|rows| - 1], rows[|rows| - 1].row;
      MergeOrder(init);
      assert Emails(rows) == Emails(init) + {p.email} by {
        assert forall i :: 0 <= i < |init| ==> rows[i] == init[i];
        assert rows[|init|].row.email in Emails(rows);
      }
      var order := Merge(init).order;
      assert Elements(order + [p.email]) == Elements(order) + {p.email};
      assert p.email in Merge(init).last <==> p.email in order by {
        assert p.email in order <==> p.email in Elements(order);
      }
    }
  }
}
