/** One request as one SQLite transaction (src/Data/Sql/SqliteDriver.cpp and
    src/Data/Sql/SqliteStatement.cpp).

    A database is represented by the log of statements whose effects it holds.
    SQLite itself is the class Sqlite: its methods choose their outcome freely
    within the contracts, which are the assumptions made about the library. */
module SqlDriver {
  import opened Prelude
  import opened SqlRequests

  // ------------------------------------------------------------- authorization

  datatype Action =
    | Transaction | Savepoint | Attach | Detach | Pragma | CreateVtable | DropVtable
    | Function(name: Option<string>) | Other

  function Lower(c: char): char
  {
    if 'A' <= c <= 'Z' then (c as int - 'A' as int + 'a' as int) as char else c
  }

  function LowerAll(s: string): string
  {
    seq(|s|, i requires 0 <= i < |s| => Lower(s[i]))
  }

  predicate Authorize(action: Action, internalControl: bool)
  {
    match action
    case Transaction => internalControl
    case Savepoint => internalControl
    case Attach => false
    case Detach => false
    case Pragma => false
    case CreateVtable => false
    case DropVtable => false
    case Function(name) => !(name.Some? && LowerAll(name.value) == "load_extension")
    case Other => true
  }

  // A compiled statement and what compiling it asked leave for.
  datatype Compiled = Compiled(actions: seq<Action>, parameterCount: nat, columns: seq<Option<Bytes>>)
  {
    predicate EndsTransactions() { exists a <- actions :: a.Transaction? || a.Savepoint? }
  }

  // ------------------------------------------------------------------ SQLite

  datatype Code = Ok | Row | Done | TooBig | Interrupted | Failed

  datatype Cell = NullCell | IntegerCell(i: int) | FloatCell(r: real) | TextCell(text: Bytes) | BlobCell(blob: Bytes)
                | UnreadableCell | UnknownCell

  // An open transaction: the statements it holds, whether one is part-way
  // through its rows, and whether an abandoned one may have left traces.
  datatype Tx = Tx(log: seq<Statement>, active: bool, torn: bool)

  // One attempt to compile: the first statement of a text, if it has one, and the
  // text behind it.
  datatype Compilation = Compilation(text: Bytes, code: Code, compiled: Option<Compiled>, rest: Bytes)

  // A call that fails leaves its code behind.
  function Noted(failures: seq<Code>, code: Code): seq<Code>
  {
    if code in {Code.Ok, Row, Done} then failures else failures + [code]
  }

  class Sqlite {
    var durable: seq<Statement>
    var tx: Option<Tx>
    var bound: seq<Parameter>  // what the statement compiled last has been given
    // The record of what the library has done during a request: every row that
    // stepping returned, every failure, and every text that was to be compiled.
    ghost var yielded: seq<seq<Cell>>
    ghost var failures: seq<Code>
    ghost var compilations: seq<Compilation>

    constructor (durable: seq<Statement>)
      ensures this.durable == durable && tx == None && yielded == [] && failures == [] && compilations == []
    {
      this.durable := durable;
      tx, bound := None, [];
      yielded, failures, compilations := [], [], [];
    }

    ghost method StartRecord()
      modifies this`yielded, this`failures, this`compilations
      ensures yielded == [] && failures == [] && compilations == []
    {
      yielded, failures, compilations := [], [], [];
    }

    method Begin() returns (code: Code)
      modifies this`durable, this`tx, this`failures
      ensures durable == old(durable) && failures == Noted(old(failures), code)
      ensures code !in {Code.Row, Done}
      ensures code == Code.Ok ==> old(tx).None? && tx == Some(Tx([], false, false))
      ensures code != Code.Ok ==> tx == old(tx)
    {
      var works: bool := *;
      if works && tx.None? {
        tx := Some(Tx([], false, false));
        return Code.Ok;
      }
      code := AnyFailure();
    }

    // A failed COMMIT keeps the transaction, or has ended it and applied all or
    // nothing. Committing with an abandoned statement inside could make any
    // part of it durable.
    method Commit() returns (code: Code)
      modifies this`durable, this`tx, this`failures
      ensures code !in {Code.Row, Done} && failures == Noted(old(failures), code)
      ensures old(tx).None? ==> code != Code.Ok && tx.None? && durable == old(durable)
      ensures old(tx).Some? && !old(tx).value.active && !old(tx).value.torn ==>
                && (code == Code.Ok ==> tx.None? && durable == old(durable) + old(tx).value.log)
                && (code != Code.Ok && tx.Some? ==> tx == old(tx) && durable == old(durable))
                && (tx.None? ==> durable in {old(durable), old(durable) + old(tx).value.log})
    {
      if tx.None? {
        code := AnyFailure();
        return;
      }
      var works: bool := *;
      var ends: bool := *;
      var applies: bool := *;
      var torn := tx.value.active || tx.value.torn;
      if works || (ends && applies) {
        durable := durable + tx.value.log;
        if torn {
          durable := *;
        }
      }
      if works || ends {
        tx := None;
      }
      if works {
        return Code.Ok;
      }
      code := AnyFailure();
    }

    // A ROLLBACK that succeeds closes the transaction; none ever commits it.
    method Rollback() returns (code: Code)
      modifies this`durable, this`tx, this`failures
      ensures durable == old(durable) && code !in {Code.Row, Done} && failures == Noted(old(failures), code)
      ensures code == Code.Ok ==> tx.None?
      ensures tx.None? || tx == old(tx)
    {
      var ends: bool := *;
      var reports: bool := *;
      if ends {
        tx := None;
        if reports {
          return Code.Ok;
        }
      }
      code := AnyFailure();
    }

    // Compiling asks the authorizer about every action of the text. What is behind
    // the first statement is left over.
    method Prepare(text: Bytes, internalControl: bool) returns (code: Code, compiled: Option<Compiled>, rest: Bytes)
      modifies this`failures, this`compilations, this`bound
      ensures code !in {Code.Row, Done} && failures == Noted(old(failures), code) && bound == []
      ensures compilations == old(compilations) + [Compilation(text, code, compiled, rest)]
      ensures |rest| <= |text| && rest == text[|text| - |rest|..]
      ensures code == Code.Ok && compiled.Some? ==>
                forall i :: 0 <= i < |compiled.value.actions| ==> Authorize(compiled.value.actions[i], internalControl)
    {
      var actions: seq<Action> := *;
      var parameterCount: nat := *;
      var columns: seq<Option<Bytes>> := *;
      var at: nat := *;
      var blank: bool := *;
      var works: bool := *;
      compiled, bound := None, [];
      rest := if 0 <= at <= |text| then text[at..] else [];
      if works && forall a <- actions :: Authorize(a, internalControl) {
        code := Code.Ok;
        compiled := if blank then None else Some(Compiled(actions, parameterCount, columns));
      } else {
        code := AnyFailure();
      }
      compilations := compilations + [Compilation(text, code, compiled, rest)];
    }

    // The next placeholder is given its value.
    method Bind(value: Parameter) returns (code: Code)
      modifies this`failures, this`bound
      ensures code !in {Code.Row, Done} && failures == Noted(old(failures), code)
      ensures bound == old(bound) + if code == Code.Ok then [value] else []
    {
      var works: bool := *;
      if works && !value.kind.UnknownType? {
        bound := bound + [value];
        return Code.Ok;
      }
      code := AnyFailure();
    }

    // A statement that controls transactions may do anything to them. Any other
    // one keeps the transaction open while it yields rows and when it completes;
    // when it fails the transaction is open, possibly torn, or undone entirely.
    method Step(sql: Bytes, compiled: Compiled) returns (code: Code, row: seq<Cell>)
      modifies this`durable, this`tx, this`yielded, this`failures
      ensures failures == Noted(old(failures), code)
      ensures |row| == |compiled.columns|
      ensures yielded == if code == Code.Row then old(yielded) + [row] else old(yielded)
      ensures !compiled.EndsTransactions() && code == Code.Row ==> compiled.columns != []
      ensures !compiled.EndsTransactions() && old(tx).Some? ==>
                && durable == old(durable)
                && (code == Code.Row ==> tx == Some(old(tx).value.(active := true)))
                && (code == Code.Done ==>
                      tx == Some(old(tx).value.(log := old(tx).value.log + [Statement(sql, bound)], active := false)))
                && (tx.Some? ==> tx.value.torn == old(tx).value.torn || code !in {Code.Row, Code.Done})
                && (code !in {Code.Row, Code.Done} && tx.Some? ==>
                      tx.value.log == old(tx).value.log && !tx.value.active)
      ensures code != Code.Ok
    {
      row := seq(|compiled.columns|, _ => NullCell);
      var i := 0;
      while i < |row|
        invariant 0 <= i <= |row| == |compiled.columns|
      {
        var cell: Cell := *;
        row := row[i := cell];
        i := i + 1;
      }
      if compiled.EndsTransactions() {
        durable := *;
        tx := *;
      } else if tx.Some? {
        var hasRow: bool := *;
        var completes: bool := *;
        var undone: bool := *;
        var torn: bool := *;
        if hasRow && compiled.columns != [] {
          tx := Some(tx.value.(active := true));
          yielded := yielded + [row];
          return Code.Row, row;
        } else if completes {
          tx := Some(tx.value.(log := tx.value.log + [Statement(sql, bound)], active := false));
          return Code.Done, row;
        } else if undone {
          tx := None;
        } else {
          tx := Some(tx.value.(active := false, torn := torn || tx.value.torn));
        }
      }
      code := AnyFailure();
    }

    // Destroying a prepared statement abandons one that still had rows to give.
    method Finalize()
      modifies this`durable, this`tx
      ensures durable == old(durable)
      ensures tx == if old(tx).Some? && old(tx).value.active
                    then Some(old(tx).value.(active := false, torn := true)) else old(tx)
    {
      if tx.Some? && tx.value.active {
        tx := Some(tx.value.(active := false, torn := true));
      }
    }

    method AnyFailure() returns (code: Code)
      modifies this`failures
      ensures code !in {Code.Ok, Code.Row, Code.Done} && failures == old(failures) + [code]
    {
      var tooBig: bool := *;
      var interrupted: bool := *;
      code := if tooBig then TooBig else if interrupted then Interrupted else Failed;
      failures := failures + [code];
    }
  }

  // ------------------------------------------------------------------- results

  datatype Value = Null | Integer(i: int) | Double(r: real) | Text(text: Bytes) | Blob(blob: Bytes)

  datatype Result = Result(status: Status, columns: seq<Bytes>, rows: seq<seq<Value>>)

  function Fresh(): Result { Result(Status.Ok, [], []) }

  function Failure(status: Status): Result { Result(status, [], []) }

  // What a cell is read as; none when SQLite cannot give its content.
  function ValueOf(cell: Cell): Option<Value>
  {
    match cell
    case NullCell => Some(Null)
    case IntegerCell(n) => Some(Integer(n))
    case FloatCell(r) => Some(Double(r))
    case TextCell(text) => Some(Text(text))
    case BlobCell(blob) => Some(Blob(blob))
    case _ => None
  }

  // The values of a row are its cells, column by column.
  ghost predicate RowReads(values: seq<Value>, cells: seq<Cell>)
  {
    |values| == |cells| && forall i :: 0 <= i < |values| ==> ValueOf(cells[i]) == Some(values[i])
  }

  ghost predicate RowsRead(rows: seq<seq<Value>>, cells: seq<seq<Cell>>)
  {
    |rows| == |cells| && forall i :: 0 <= i < |rows| ==> RowReads(rows[i], cells[i])
  }

  lemma RowReadsMore(values: seq<Value>, cells: seq<Cell>, i: nat, value: Value)
    requires i < |cells| && RowReads(values, cells[..i]) && ValueOf(cells[i]) == Some(value)
    ensures RowReads(values + [value], cells[..i + 1])
  {
    assert cells[..i + 1] == cells[..i] + [cells[i]];
  }

  lemma RowsReadMore(rows: seq<seq<Value>>, cells: seq<seq<Cell>>, values: seq<Value>, row: seq<Cell>)
    requires RowsRead(rows, cells) && RowReads(values, row)
    ensures RowsRead(rows + [values], cells + [row])
  {
  }

  // The rows kept are those returned, except one that has just been returned.
  ghost predicate Received(rows: seq<seq<Value>>, given: seq<seq<Cell>>, code: Code, row: seq<Cell>)
  {
    if code == Code.Row then given != [] && given[|given| - 1] == row && RowsRead(rows, given[..|given| - 1])
    else RowsRead(rows, given)
  }

  lemma ReceivedNext(rows: seq<seq<Value>>, grown: seq<seq<Value>>, given: seq<seq<Cell>>, row: seq<Cell>,
                     code: Code, next: seq<Cell>)
    requires Received(rows, given, Code.Row, row)
    requires |grown| == |rows| + 1 && grown[..|rows|] == rows && RowReads(grown[|rows|], row)
    ensures Received(grown, if code == Code.Row then given + [next] else given, code, next)
  {
    RowsReadMore(rows, given[..|given| - 1], grown[|rows|], row);
    assert grown == rows + [grown[|rows|]];
    assert given == given[..|given| - 1] + [row];
    assert (given + [next])[..|given|] == given;
  }

  ghost predicate NamesRead(names: seq<Bytes>, columns: seq<Option<Bytes>>)
  {
    |names| == |columns| && forall i :: 0 <= i < |names| ==> columns[i] == Some(names[i])
  }

  function ColumnCosts(columns: seq<Bytes>): nat
  {
    if columns == [] then 0
    else ColumnCosts(columns[..|columns| - 1]) + (|columns[|columns| - 1]| * 2 + 1)
  }

  function CellCost(value: Value): nat
  {
    match value
    case Text(text) => |text| * 2 + 1
    case Blob(blob) => |blob| * 2 + 1
    case _ => 0
  }

  function CellCosts(row: seq<Value>): nat
  {
    if row == [] then 0 else CellCosts(row[..|row| - 1]) + CellCost(row[|row| - 1])
  }

  function RowCosts(rowHeader: nat, rows: seq<seq<Value>>): nat
  {
    if rows == [] then 0
    else RowCosts(rowHeader, rows[..|rows| - 1]) + rowHeader + CellCosts(rows[|rows| - 1])
  }

  function RowHeader(sizes: Layout, columns: nat): nat { 2 * sizes.row + columns * sizes.value }

  function ColumnHeader(sizes: Layout, columns: nat): nat { columns * sizes.text }

  // The bytes a result is charged for, given its columns and rows.
  function Charge(sizes: Layout, columns: seq<Bytes>, rows: seq<seq<Value>>): nat
  {
    sizes.result + ColumnHeader(sizes, |columns|) + ColumnCosts(columns)
    + RowCosts(RowHeader(sizes, |columns|), rows)
  }

  // The same bytes counted on what SQLite gave.
  function NameSizes(columns: seq<Option<Bytes>>): nat
  {
    if columns == [] then 0
    else
      var last := columns[|columns| - 1];
      NameSizes(columns[..|columns| - 1]) + if last.Some? then |last.value| * 2 + 1 else 0
  }

  function CellSize(cell: Cell): nat
  {
    match cell
    case TextCell(text) => |text| * 2 + 1
    case BlobCell(blob) => |blob| * 2 + 1
    case _ => 0
  }

  function RowSize(row: seq<Cell>): nat
  {
    if row == [] then 0 else RowSize(row[..|row| - 1]) + CellSize(row[|row| - 1])
  }

  function RowSizes(rowHeader: nat, rows: seq<seq<Cell>>): nat
  {
    if rows == [] then 0
    else RowSizes(rowHeader, rows[..|rows| - 1]) + rowHeader + RowSize(rows[|rows| - 1])
  }

  function Volume(sizes: Layout, columns: seq<Option<Bytes>>, rows: seq<seq<Cell>>): nat
  {
    sizes.result + ColumnHeader(sizes, |columns|) + NameSizes(columns) + RowSizes(RowHeader(sizes, |columns|), rows)
  }

  // What SQLite gave is more than a result may hold.
  ghost predicate OverLimit(sizes: Layout, options: Options, columns: seq<Option<Bytes>>, rows: seq<seq<Cell>>)
  {
    || |columns| > options.maxColumns
    || |rows| > options.maxRows
    || Volume(sizes, columns, rows) > options.maxResultBytes
  }

  ghost predicate Garbled(row: seq<Cell>)
  {
    exists i :: 0 <= i < |row| && ValueOf(row[i]).None?
  }

  // SQLite could not give a name or the content of a cell.
  ghost predicate Unreadable(columns: seq<Option<Bytes>>, rows: seq<seq<Cell>>)
  {
    None in columns || exists i :: 0 <= i < |rows| && Garbled(rows[i])
  }

  lemma {:induction false} NameSizesGrow(columns: seq<Option<Bytes>>, i: nat)
    requires i <= |columns|
    ensures NameSizes(columns[..i]) <= NameSizes(columns)
  {
    if i < |columns| {
      NameSizesGrow(columns[..|columns| - 1], i);
      assert columns[..|columns| - 1][..i] == columns[..i];
    } else {
      assert columns[..i] == columns;
    }
  }

  lemma OneMoreName(names: seq<Bytes>, columns: seq<Option<Bytes>>, i: nat, name: Bytes)
    requires i < |columns| && NamesRead(names, columns[..i]) && columns[i] == Some(name)
    ensures NamesRead(names + [name], columns[..i + 1])
    ensures NameSizes(columns[..i + 1]) == NameSizes(columns[..i]) + (|name| * 2 + 1) <= NameSizes(columns)
    ensures ColumnCosts(names + [name]) == ColumnCosts(names) + (|name| * 2 + 1)
  {
    assert columns[..i + 1][..i] == columns[..i];
    assert (names + [name])[..i] == names;
    NameSizesGrow(columns, i + 1);
  }

  lemma {:induction false} RowSizeGrows(row: seq<Cell>, i: nat)
    requires i <= |row|
    ensures RowSize(row[..i]) <= RowSize(row)
  {
    if i < |row| {
      RowSizeGrows(row[..|row| - 1], i);
      assert row[..|row| - 1][..i] == row[..i];
    } else {
      assert row[..i] == row;
    }
  }

  lemma {:induction false} RowCostsItsSize(values: seq<Value>, row: seq<Cell>)
    requires RowReads(values, row)
    ensures CellCosts(values) == RowSize(row)
  {
    if values != [] {
      RowCostsItsSize(values[..|values| - 1], row[..|row| - 1]);
    }
  }

  lemma {:induction false} RowsCostTheirSizes(rowHeader: nat, rows: seq<seq<Value>>, cells: seq<seq<Cell>>)
    requires RowsRead(rows, cells)
    ensures RowCosts(rowHeader, rows) == RowSizes(rowHeader, cells)
  {
    if rows != [] {
      RowsCostTheirSizes(rowHeader, rows[..|rows| - 1], cells[..|cells| - 1]);
      RowCostsItsSize(rows[|rows| - 1], cells[|cells| - 1]);
    }
  }

  lemma {:induction false} NamesCostTheirSizes(names: seq<Bytes>, columns: seq<Option<Bytes>>)
    requires NamesRead(names, columns)
    ensures ColumnCosts(names) == NameSizes(columns)
  {
    if names != [] {
      NamesCostTheirSizes(names[..|names| - 1], columns[..|columns| - 1]);
    }
  }

  lemma ChargeIsVolume(sizes: Layout, names: seq<Bytes>, columns: seq<Option<Bytes>>, rows: seq<seq<Value>>,
                       cells: seq<seq<Cell>>)
    requires NamesRead(names, columns) && RowsRead(rows, cells)
    ensures Charge(sizes, names, rows) == Volume(sizes, columns, cells)
  {
    NamesCostTheirSizes(names, columns);
    RowsCostTheirSizes(RowHeader(sizes, |names|), rows, cells);
  }

  // A result that could be read within its limits is no reason to refuse it.
  lemma ReadableWithinLimits(sizes: Layout, options: Options, result: Result, columns: seq<Option<Bytes>>,
                             cells: seq<seq<Cell>>)
    requires NamesRead(result.columns, columns) && RowsRead(result.rows, cells) && Bounded(sizes, options, result)
    ensures !OverLimit(sizes, options, columns, cells) && !Unreadable(columns, cells)
  {
    ChargeIsVolume(sizes, result.columns, columns, result.rows, cells);
    forall i | 0 <= i < |cells|
      ensures !Garbled(cells[i])
    {
      assert RowReads(result.rows[i], cells[i]);
    }
  }

  // The row returned last does not fit behind those read before.
  lemma RowTooMuch(sizes: Layout, options: Options, names: seq<Bytes>, columns: seq<Option<Bytes>>,
                   rows: seq<seq<Value>>, given: seq<seq<Cell>>, row: seq<Cell>)
    requires NamesRead(names, columns) && Received(rows, given, Code.Row, row)
    requires || |rows| >= options.maxRows
             || Charge(sizes, names, rows) + RowHeader(sizes, |names|) + RowSize(row) > options.maxResultBytes
    ensures OverLimit(sizes, options, columns, given)
  {
    ChargeIsVolume(sizes, names, columns, rows, given[..|given| - 1]);
  }

  ghost predicate Rectangular(result: Result)
  {
    forall i :: 0 <= i < |result.rows| ==> |result.rows[i]| == |result.columns|
  }

  // What a caller may rely on when reading a delivered result.
  ghost predicate Bounded(sizes: Layout, options: Options, result: Result)
  {
    && Rectangular(result)
    && |result.rows| <= options.maxRows
    && |result.columns| <= options.maxColumns
    && Charge(sizes, result.columns, result.rows) <= options.maxResultBytes
    && (result.status != Status.Ok ==> result.columns == [] && result.rows == [])
  }

  // ---------------------------------------------------------- request outcomes

  // What executing a request came to: the reported status, whether its
  // statements became durable, and whether the connection is unusable from now.
  datatype Outcome = Outcome(status: Status, applied: bool, poisoned: bool)

  ghost predicate Legal(wasPoisoned: bool, o: Outcome)
  {
    if wasPoisoned then o == Outcome(InvalidState, false, true)
    else
      && (o.status == Status.Ok ==> o.applied)
      && (o.applied ==> o.status in {Status.Ok, OutcomeUnknown} && !o.poisoned)
      && (o.poisoned ==> o.status == OutcomeUnknown)
  }

  /** The cause each status has: the codes of the calls that failed, whether stop or
      the deadline was seen, and whether there was a text that cannot be accepted, a
      result beyond its limits or one that could not be read. */
  ghost predicate Caused(status: Status, failures: seq<Code>, seen: bool, unfit: bool, over: bool, unreadable: bool)
  {
    match status
    case Ok => failures == [] && !seen
    case Cancelled => seen
    case Timeout => seen
    case IoError => |failures| == 1 && failures[0] != TooBig && !seen
    case ResultTooLarge => !seen && (failures == [TooBig] || (failures == [] && over))
    case InvalidArgument => failures == [] && !seen && unfit
    case InternalError => failures == [] && !seen && unreadable
    case OutcomeUnknown => failures != []
    case _ => false
  }

  // The text itself is compiled, and then what is behind its first statement.
  ghost predicate OfText(input: Statement, tries: seq<Compilation>)
  {
    && (|tries| > 0 ==> tries[0].text == input.sql)
    && (|tries| > 1 ==> tries[1].text == tries[0].rest)
  }

  // A text is one statement with a placeholder for every parameter, and only the
  // last text of a request has columns.
  ghost predicate Fitting(input: Statement, final: bool, tries: seq<Compilation>)
  {
    && (|tries| > 0 ==> tries[0].compiled.Some?)
    && (|tries| > 1 ==> && tries[1].compiled.None?
                        && tries[0].compiled.value.parameterCount == |input.parameters|
                        && (!final ==> tries[0].compiled.value.columns == []))
  }

  // The two compilations made for the statement with the given index, as far as
  // they were made.
  function Tries(compilations: seq<Compilation>, i: nat): seq<Compilation>
  {
    if 2 * i + 2 <= |compilations| then compilations[2 * i..2 * i + 2]
    else if 2 * i <= |compilations| then compilations[2 * i..] else []
  }

  ghost predicate OfTexts(statements: seq<Statement>, tries: seq<Compilation>)
  {
    && |tries| <= 2 * |statements|
    && forall i :: 0 <= i < |statements| ==> OfText(statements[i], Tries(tries, i))
  }

  ghost predicate AllFitting(statements: seq<Statement>, tries: seq<Compilation>)
  {
    forall i :: 0 <= i < |statements| ==> Fitting(statements[i], i + 1 == |statements|, Tries(tries, i))
  }

  lemma OneMoreText(statements: seq<Statement>, tries: seq<Compilation>, i: nat, more: seq<Compilation>)
    requires OfTexts(statements, tries) && AllFitting(statements, tries) && |tries| == 2 * i && i < |statements|
    requires |more| <= 2 && OfText(statements[i], more)
    ensures OfTexts(statements, tries + more)
    ensures AllFitting(statements, tries + more) <==> Fitting(statements[i], i + 1 == |statements|, more)
  {
    forall j | 0 <= j < |statements|
      ensures Tries(tries + more, j) == if j == i then more else Tries(tries, j)
    {
      if j < i {
        assert (tries + more)[2 * j..2 * j + 2] == tries[2 * j..2 * j + 2];
      }
    }
    assert Tries(tries + more, i) == more;
  }

  // The columns of the text compiled last.
  function Columns(tries: seq<Compilation>): seq<Option<Bytes>>
  {
    if |tries| >= 2 && tries[|tries| - 2].compiled.Some? then tries[|tries| - 2].compiled.value.columns else []
  }

  // Every text was compiled and fits.
  ghost predicate AllCompiled(statements: seq<Statement>, tries: seq<Compilation>)
  {
    |tries| == 2 * |statements| && AllFitting(statements, tries)
  }

  // The cause of the status of a whole request.
  ghost predicate Explained(status: Status, failures: seq<Code>, seen: bool, statements: seq<Statement>,
                            tries: seq<Compilation>, over: bool, unreadable: bool)
  {
    Caused(status, failures, seen, !AllFitting(statements, tries), AllCompiled(statements, tries) && over,
           AllCompiled(statements, tries) && unreadable)
  }

  // -------------------------------------------------------------------- driver

  // What runs beside a request: stop() of the service and the passing of time.
  class Signals {
    var stopping: bool
    var expired: bool
    // How often a request has looked, and how often a flag was up.
    ghost var looks: nat
    ghost var sightings: nat

    constructor (stopping: bool)
      ensures this.stopping == stopping && !expired
    {
      this.stopping := stopping;
      expired := false;
    }

    // The deadline is set anew.
    method Start()
      modifies this
      ensures stopping == old(stopping) && !expired && looks == 0 && sightings == 0
    {
      expired := false;
      looks, sightings := 0, 0;
    }

    method Advance()
      modifies this`stopping, this`expired
      ensures old(stopping) ==> stopping
      ensures old(expired) ==> expired
    {
      var stop: bool := *;
      var expire: bool := *;
      stopping := stopping || stop;
      expired := expired || expire;
    }

    method Look() returns (up: bool)
      modifies this
      ensures old(stopping) ==> stopping
      ensures old(expired) ==> expired
      ensures up <==> stopping || expired
      ensures looks == old(looks) + 1 && sightings == old(sightings) + if up then 1 else 0
    {
      Advance();
      up := stopping || expired;
      looks, sightings := looks + 1, sightings + if up then 1 else 0;
    }
  }

  class SqliteDriver {
    const sizes: Layout
    const options: Options
    const database: Sqlite
    var watched: Signals?  // the stopping_ pointer, null outside execute
    var internalControl: bool
    var poisoned: bool

    // Between requests: no watcher, no control privilege, and either poisoned
    // or out of any transaction.
    ghost predicate Valid()
      reads this, database
    {
      && sizes.Valid() && options.maxResultBytes >= 1024
      && watched == null && !internalControl
      && (poisoned || database.tx.None?)
    }

    constructor (sizes: Layout, options: Options, database: Sqlite)
      requires sizes.Valid() && options.maxResultBytes >= 1024 && database.tx.None?
      ensures Valid() && !poisoned
      ensures this.sizes == sizes && this.options == options && this.database == database
    {
      this.sizes, this.options, this.database := sizes, options, database;
      watched, internalControl, poisoned := null, false, false;
    }

    // A stop that has been seen is not taken back.
    ghost predicate StillStopping(before: bool)
      reads this, watched
    {
      before && watched != null ==> watched.stopping
    }

    ghost function Sightings(): nat
      reads this, watched
    {
      if watched == null then 0 else watched.sightings
    }

    // The cause of an error during a request, or of there being none so far.
    ghost predicate Told(error: Option<Status>, unfit: bool, over: bool, unreadable: bool)
      reads this, database, watched
    {
      && error != Some(Status.Ok)
      && Caused(if error.None? then Status.Ok else error.value, database.failures, Sightings() > 0, unfit, over,
                unreadable)
    }

    method ShouldCancel() returns (cancel: bool)
      modifies watched
      ensures watched == null ==> !cancel
      ensures watched != null ==> (cancel <==> watched.stopping || watched.expired)
      ensures watched != null && old(watched.stopping || watched.expired) ==> cancel
      ensures watched != null ==> watched.looks == old(watched.looks) + 1
                                  && watched.sightings == old(watched.sightings) + if cancel then 1 else 0
      ensures StillStopping(old(watched != null && watched.stopping))
    {
      if watched == null {
        return false;
      }
      cancel := watched.Look();
    }

    // A request is reported cancelled or timed out only on what was observed.
    ghost predicate Justified(error: Option<Status>)
      reads this, watched
    {
      && (error == Some(Cancelled) ==> watched != null && (watched.stopping || watched.expired))
      && (error == Some(Timeout) ==> watched != null && watched.expired && !watched.stopping)
    }

    // The status a SQLite code is reported with; None when it is no error.
    method Check(code: Code) returns (error: Option<Status>)
      modifies watched
      ensures code in {Code.Ok, Done} <==> error.None?
      ensures error.None? && watched != null ==>
                watched.looks == old(watched.looks) && watched.sightings == old(watched.sightings)
      ensures old(Sightings()) <= Sightings()
      ensures error.Some? ==> Caused(error.value, [code], Sightings() > old(Sightings()), false, false, false)
      ensures error.Some? && watched != null && old(watched.stopping || watched.expired) ==>
                error.value in {Cancelled, Timeout}
      ensures error.Some? ==> error.value in {Cancelled, Timeout, ResultTooLarge, IoError}
      ensures error == Some(Cancelled) ==> watched != null && watched.stopping
      ensures StillStopping(old(watched != null && watched.stopping))
      ensures Justified(error)
    {
      if code == Code.Ok || code == Done {
        return None;
      }
      var cancel := ShouldCancel();
      if cancel {
        return Some(if watched.stopping then Cancelled else Timeout);
      }
      if code == TooBig {
        return Some(ResultTooLarge);
      }
      return Some(IoError);
    }

    method ControlBegin() returns (error: Option<Status>)
      requires !internalControl && watched != null && Told(None, false, false, false)
      modifies this`internalControl, database`durable, database`tx, database`failures, watched
      ensures !internalControl && database.durable == old(database.durable)
      ensures error.None? ==> database.tx == Some(Tx([], false, false)) && watched.looks == old(watched.looks)
      ensures error.Some? ==> database.tx == old(database.tx) && error.value != OutcomeUnknown
      ensures StillStopping(old(watched.stopping))
      ensures Justified(error) && Told(error, false, false, false)
    {
      internalControl := true;
      var code := database.Begin();
      internalControl := false;
      error := Check(code);
    }

    method ControlCommit() returns (error: Option<Status>)
      requires !internalControl && watched != null && Told(None, false, false, false)
      requires database.tx.Some? && !database.tx.value.active && !database.tx.value.torn
      modifies this`internalControl, database`durable, database`tx, database`failures, watched
      ensures !internalControl
      ensures error.None? ==> database.tx.None? && database.durable == old(database.durable + database.tx.value.log)
      ensures error.None? ==> watched.looks == old(watched.looks)
      ensures error == Some(OutcomeUnknown) ==>
                && database.tx.None?
                && database.durable in {old(database.durable), old(database.durable + database.tx.value.log)}
      ensures error.Some? && error.value != OutcomeUnknown ==>
                database.tx.Some? && database.durable == old(database.durable)
      ensures StillStopping(old(watched.stopping))
      ensures Justified(error) && Told(error, false, false, false)
    {
      internalControl := true;
      var code := database.Commit();
      internalControl := false;
      if code != Code.Ok && database.tx.None? {
        return Some(OutcomeUnknown);
      }
      error := Check(code);
    }

    method Account(bytes: nat, addition: nat) returns (error: Option<Status>, total: nat)
      requires bytes <= options.maxResultBytes
      ensures error.None? <==> bytes + addition <= options.maxResultBytes
      ensures error.None? ==> total == bytes + addition
      ensures error.Some? ==> error == Some(ResultTooLarge)
    {
      if addition > options.maxResultBytes || bytes > options.maxResultBytes - addition {
        return Some(ResultTooLarge), bytes;
      }
      return None, bytes + addition;
    }

    method ReadColumns(compiled: Compiled, start: nat) returns (error: Option<Status>, columns: seq<Bytes>, bytes: nat)
      requires start <= options.maxResultBytes
      ensures error.None? ==>
                && NamesRead(columns, compiled.columns) && |columns| <= options.maxColumns
                && bytes == start + ColumnHeader(sizes, |columns|) + ColumnCosts(columns) <= options.maxResultBytes
      ensures error.Some? ==> error.value in {ResultTooLarge, InternalError}
      ensures error == Some(InternalError) ==> None in compiled.columns
      ensures error == Some(ResultTooLarge) ==>
                var count := |compiled.columns|;
                || count > options.maxColumns
                || start + ColumnHeader(sizes, count) + NameSizes(compiled.columns) > options.maxResultBytes
    {
      columns, bytes := [], start;
      var count := |compiled.columns|;
      if count > options.maxColumns {
        return Some(ResultTooLarge), [], bytes;
      }
      error, bytes := Account(bytes, ColumnHeader(sizes, count));
      if error.Some? {
        return;
      }
      var i := 0;
      while i < count
        invariant 0 <= i <= count && |columns| == i && error.None?
        invariant NamesRead(columns, compiled.columns[..i])
        invariant ColumnCosts(columns) == NameSizes(compiled.columns[..i])
        invariant bytes == start + ColumnHeader(sizes, count) + ColumnCosts(columns) <= options.maxResultBytes
      {
        if compiled.columns[i].None? {
          return Some(InternalError), [], bytes;
        }
        var name := compiled.columns[i].value;
        OneMoreName(columns, compiled.columns, i, name);
        error, bytes := Account(bytes, |name| * 2 + 1);
        if error.Some? {
          return;
        }
        columns := columns + [name];
        i := i + 1;
      }
      assert compiled.columns[..i] == compiled.columns;
    }

    method ReadCell(cell: Cell, start: nat) returns (error: Option<Status>, value: Value, bytes: nat)
      requires start <= options.maxResultBytes
      ensures error.None? ==>
                ValueOf(cell) == Some(value) && bytes == start + CellSize(cell) <= options.maxResultBytes
      ensures error.Some? ==> error.value in {ResultTooLarge, InternalError}
      ensures error == Some(InternalError) ==> ValueOf(cell).None?
      ensures error == Some(ResultTooLarge) ==> start + CellSize(cell) > options.maxResultBytes
    {
      error, value, bytes := None, Null, start;
      match cell {
        case NullCell =>
        case IntegerCell(n) => value := Integer(n);
        case FloatCell(r) => value := Double(r);
        case TextCell(text) =>
          value := Text(text);
          error, bytes := Account(bytes, |text| * 2 + 1);
        case BlobCell(blob) =>
          value := Blob(blob);
          error, bytes := Account(bytes, |blob| * 2 + 1);
        case UnreadableCell => error := Some(InternalError);
        case UnknownCell => error := Some(InternalError);
      }
    }

    method ReadRow(row: seq<Cell>, result: Result, start: nat)
      returns (error: Option<Status>, grown: Result, bytes: nat)
      requires |row| == |result.columns| && start <= options.maxResultBytes
      ensures error.None? ==>
                && |result.rows| < options.maxRows
                && grown.status == result.status && grown.columns == result.columns
                && |grown.rows| == |result.rows| + 1 && grown.rows[..|result.rows|] == result.rows
                && RowReads(grown.rows[|result.rows|], row)
                && bytes == start + RowHeader(sizes, |result.columns|) + CellCosts(grown.rows[|result.rows|])
                && bytes <= options.maxResultBytes
      ensures error.Some? ==> error.value in {ResultTooLarge, InternalError}
      ensures error == Some(InternalError) ==> Garbled(row)
      ensures error == Some(ResultTooLarge) ==>
                || |result.rows| >= options.maxRows
                || start + RowHeader(sizes, |result.columns|) + RowSize(row) > options.maxResultBytes
    {
      grown, bytes := result, start;
      if |result.rows| >= options.maxRows {
        return Some(ResultTooLarge), result, bytes;
      }
      error, bytes := Account(bytes, RowHeader(sizes, |result.columns|));
      if error.Some? {
        return;
      }
      var values: seq<Value> := [];
      var i := 0;
      while i < |result.columns|
        invariant 0 <= i <= |result.columns| && error.None? && grown == result
        invariant RowReads(values, row[..i]) && CellCosts(values) == RowSize(row[..i])
        invariant bytes == start + RowHeader(sizes, |result.columns|) + CellCosts(values)
        invariant bytes <= options.maxResultBytes
      {
        ghost var part := row[..i + 1];
        assert part[..i] == row[..i];
        RowSizeGrows(row, i + 1);
        var value;
        error, value, bytes := ReadCell(row[i], bytes);
        if error.Some? {
          return;
        }
        assert (values + [value])[..i] == values;
        RowReadsMore(values, row, i, value);
        values := values + [value];
        i := i + 1;
      }
      assert row[..i] == row;
      grown := result.(rows := result.rows + [values]);
    }

    // One more row of a result that is accounted so far.
    method AddRow(row: seq<Cell>, result: Result, start: nat)
      returns (error: Option<Status>, grown: Result, bytes: nat)
      requires |row| == |result.columns| && Rectangular(result) && |result.rows| <= options.maxRows
      requires start == Charge(sizes, result.columns, result.rows) <= options.maxResultBytes
      ensures error.None? ==>
                && grown.status == result.status && grown.columns == result.columns && Rectangular(grown)
                && |grown.rows| == |result.rows| + 1 <= options.maxRows && grown.rows[..|result.rows|] == result.rows
                && RowReads(grown.rows[|result.rows|], row)
                && bytes == Charge(sizes, grown.columns, grown.rows) <= options.maxResultBytes
      ensures error.Some? ==> error.value in {ResultTooLarge, InternalError}
      ensures error == Some(InternalError) ==> Garbled(row)
      ensures error == Some(ResultTooLarge) ==>
                || |result.rows| >= options.maxRows
                || start + RowHeader(sizes, |result.columns|) + RowSize(row) > options.maxResultBytes
    {
      error, grown, bytes := ReadRow(row, result, start);
      if error.None? {
        assert grown.rows[..|grown.rows| - 1] == result.rows;
      }
    }

    // The text is compiled, it and what is behind it, and its parameters are bound.
    method Compile(input: Statement, final: bool)
      returns (error: Option<Status>, compiled: Option<Compiled>, ghost tries: seq<Compilation>)
      requires !internalControl && watched != null && Told(None, false, false, false)
      modifies database`failures, database`compilations, database`bound, watched
      ensures database.compilations == old(database.compilations) + tries && |tries| <= 2 && OfText(input, tries)
      ensures Told(error, !Fitting(input, final, tries), false, false)
      ensures error.None? ==>
                && |tries| == 2 && Fitting(input, final, tries) && compiled == tries[0].compiled
                && watched.looks == old(watched.looks) && database.bound == input.parameters
                && forall i :: 0 <= i < |compiled.value.actions| ==> Authorize(compiled.value.actions[i], false)
      ensures error.Some? ==> error.value != OutcomeUnknown
      ensures StillStopping(old(watched.stopping))
      ensures Justified(error)
    {
      var code, rest;
      code, compiled, rest := database.Prepare(input.sql, internalControl);
      tries := [Compilation(input.sql, code, compiled, rest)];
      error := Check(code);
      if error.Some? {
        return;
      }
      if compiled.None? {
        return Some(InvalidArgument), None, tries;
      }
      // The text after the first statement is compiled but never executed.
      var extraCode, extra, behind := database.Prepare(rest, internalControl);
      tries := tries + [Compilation(rest, extraCode, extra, behind)];
      error := Check(extraCode);
      if error.Some? {
        return;
      }
      if extra.Some? {
        return Some(InvalidArgument), None, tries;
      }
      if compiled.value.parameterCount != |input.parameters| {
        return Some(InvalidArgument), None, tries;
      }
      error := BindAll(input.parameters);
      if error.Some? {
        return;
      }
      if !final && compiled.value.columns != [] {
        return Some(InvalidArgument), None, tries;
      }
    }

    method BindAll(parameters: seq<Parameter>) returns (error: Option<Status>)
      requires watched != null && database.bound == [] && Told(None, false, false, false)
      modifies database`failures, database`bound, watched
      ensures error.None? ==> watched.looks == old(watched.looks) && database.bound == parameters
      ensures Told(error, false, false, false)
      ensures error.Some? ==> error.value != OutcomeUnknown
      ensures StillStopping(old(watched.stopping))
      ensures Justified(error)
    {
      error := None;
      var i := 0;
      while i < |parameters|
        invariant 0 <= i <= |parameters| && error.None?
        invariant database.bound == parameters[..i] && watched.looks == old(watched.looks)
        invariant Told(None, false, false, false)
        invariant StillStopping(old(watched.stopping))
      {
        var code := database.Bind(parameters[i]);
        error := Check(code);
        if error.Some? {
          return;
        }
        assert parameters[..i + 1] == parameters[..i] + [parameters[i]];
        i := i + 1;
      }
      assert parameters[..i] == parameters;
    }

    // Inside a clean transaction, a statement either completes and joins the
    // transaction's log or reports an error with nothing durable.
    method ExecuteStatement(input: Statement, final: bool, result: Result, start: nat)
      returns (error: Option<Status>, grown: Result, bytes: nat, ghost tries: seq<Compilation>)
      requires sizes.Valid() && !internalControl && watched != null && Told(None, false, false, false)
      requires database.tx.Some? && !database.tx.value.active && !database.tx.value.torn && database.yielded == []
      requires result == Fresh() && start == sizes.result <= options.maxResultBytes
      modifies database, watched
      ensures database.durable == old(database.durable)
      ensures database.compilations == old(database.compilations) + tries && |tries| <= 2 && OfText(input, tries)
      ensures
        var complete := final && |tries| == 2 && Fitting(input, final, tries);
        Told(error, !Fitting(input, final, tries),
             complete && OverLimit(sizes, options, Columns(tries), database.yielded),
             complete && Unreadable(Columns(tries), database.yielded))
      ensures error.None? ==>
                && |tries| == 2 && Fitting(input, final, tries)
                && watched.looks == old(watched.looks) + |database.yielded|
                && database.tx == Some(Tx(old(database.tx.value.log) + [input], false, false))
                && grown.status == Status.Ok && Bounded(sizes, options, grown)
                && (if final then NamesRead(grown.columns, Columns(tries)) && RowsRead(grown.rows, database.yielded)
                    else database.yielded == [] && grown == result && bytes == start)
      ensures error.Some? ==> error.value != OutcomeUnknown
      ensures StillStopping(old(watched.stopping))
      ensures Justified(error)
    {
      grown, bytes := result, start;
      var statement;
      error, statement, tries := Compile(input, final);
      if error.Some? {
        return;
      }
      var compiled := statement.value;
      if final {
        var columns;
        error, columns, bytes := ReadColumns(compiled, bytes);
        if error.Some? {
          return;
        }
        grown := grown.(columns := columns);
      }
      error, grown, bytes := StepRows(input, compiled, grown, bytes);
      database.Finalize();
    }

    // The row loop of a statement compiled without leave to end transactions.
    method StepRows(input: Statement, compiled: Compiled, result: Result, start: nat)
      returns (error: Option<Status>, grown: Result, bytes: nat)
      requires sizes.Valid() && watched != null && Told(None, false, false, false)
      requires database.bound == input.parameters && database.yielded == []
      requires forall i :: 0 <= i < |compiled.actions| ==> Authorize(compiled.actions[i], false)
      requires database.tx.Some? && !database.tx.value.active && !database.tx.value.torn
      requires result.status == Status.Ok && result.rows == [] && NamesRead(result.columns, compiled.columns)
      requires |result.columns| <= options.maxColumns
      requires start == Charge(sizes, result.columns, []) <= options.maxResultBytes
      modifies database`durable, database`tx, database`yielded, database`failures, watched
      ensures database.durable == old(database.durable)
      ensures Told(error, false, OverLimit(sizes, options, compiled.columns, database.yielded),
                   Unreadable(compiled.columns, database.yielded))
      ensures compiled.columns == [] ==> database.yielded == [] && (error.None? ==> grown == result && bytes == start)
      ensures error.None? ==>
                && watched.looks == old(watched.looks) + |database.yielded|
                && database.tx == Some(Tx(old(database.tx.value.log) + [input], false, false))
                && grown.status == Status.Ok && grown.columns == result.columns && Bounded(sizes, options, grown)
                && RowsRead(grown.rows, database.yielded)
      ensures error.Some? ==> error.value != OutcomeUnknown
      ensures StillStopping(old(watched.stopping))
      ensures Justified(error)
    {
      grown, bytes := result, start;
      error := None;
      var code, row := database.Step(input.sql, compiled);
      while code == Code.Row
        invariant code != Code.Ok && |row| == |compiled.columns|
        invariant database.durable == old(database.durable)
        invariant code == Code.Row ==> database.tx == Some(old(database.tx.value).(active := true))
        invariant code == Done ==> database.tx == Some(Tx(old(database.tx.value.log) + [input], false, false))
        invariant grown.status == Status.Ok && grown.columns == result.columns && Rectangular(grown)
        invariant Received(grown.rows, database.yielded, code, row)
        invariant database.failures == Noted([], code) && watched.sightings == 0
        invariant watched.looks == old(watched.looks) + |grown.rows|
        invariant |grown.rows| <= options.maxRows
        invariant compiled.columns == [] ==> code != Code.Row && grown == result && database.yielded == []
        invariant StillStopping(old(watched.stopping))
        invariant bytes == Charge(sizes, grown.columns, grown.rows) <= options.maxResultBytes
        decreases options.maxRows - |grown.rows|
      {
        var cancel := ShouldCancel();
        if cancel {
          error := Check(Interrupted);
          return;
        }
        ghost var before := grown;
        error, grown, bytes := AddRow(row, grown, bytes);
        if error.Some? {
          if error == Some(ResultTooLarge) {
            RowTooMuch(sizes, options, before.columns, compiled.columns, before.rows, database.yielded, row);
          }
          return;
        }
        ghost var kept, given := row, database.yielded;
        code, row := database.Step(input.sql, compiled);
        ReceivedNext(before.rows, grown.rows, given, kept, code, row);
      }
      error := Check(code);
    }

    /** One request, one transaction. The reported status says what became
        durable: Ok means every statement in order, an unknown outcome means
        all of them or none, anything else means none. Afterwards the
        connection is out of any transaction or marked unusable, and a result
        that is returned is rectangular and within every limit.

        Every status has its cause, and a request that nothing stands in the way of
        ends Ok and is applied: no call failed, neither stop nor the deadline was seen,
        every text compiled to one statement that fits, and what SQLite gave could be
        read and is within the limits. */
    method Execute(statements: seq<Statement>, signals: Signals) returns (result: Result, ghost outcome: Outcome)
      requires Valid()
      modifies this, database, signals
      ensures Valid()
      ensures Legal(old(poisoned), outcome)
      ensures result.status == outcome.status && poisoned == outcome.poisoned
      ensures database.durable == old(database.durable) + (if outcome.applied then statements else [])
      ensures Bounded(sizes, options, result)
      ensures
        var over := OverLimit(sizes, options, Columns(database.compilations), database.yielded);
        var unreadable := Unreadable(Columns(database.compilations), database.yielded);
        !old(poisoned) ==>
          && OfTexts(statements, database.compilations)
          && Explained(result.status, database.failures, signals.sightings > 0, statements, database.compilations,
                       over, unreadable)
          && (result.status == Status.Ok <==>
                && database.failures == [] && signals.sightings == 0
                && AllFitting(statements, database.compilations) && !over && !unreadable)
      ensures result.status == Status.Ok ==>
                && outcome.applied && AllCompiled(statements, database.compilations)
                && signals.looks == |statements| + 2 + |database.yielded|
                && NamesRead(result.columns, Columns(database.compilations))
                && RowsRead(result.rows, database.yielded)
      ensures old(signals.stopping) ==> signals.stopping
      ensures old(signals.stopping) && !old(poisoned) ==> outcome == Outcome(Cancelled, false, false)
      ensures result.status == Cancelled ==> signals.stopping || signals.expired
      ensures result.status == Timeout ==> signals.expired && !signals.stopping
    {
      if poisoned {
        result := Failure(InvalidState);
        outcome := Outcome(InvalidState, false, true);
        assert database.durable + [] == database.durable;
        return;
      }
      watched := signals;
      signals.Start();
      database.StartRecord();
      var error;
      error, result := RunTransaction(statements);
      ghost var applied := database.durable != old(database.durable);
      if error.Some? {
        result := Failure(error.value);
      } else {
        ReadableWithinLimits(sizes, options, result, Columns(database.compilations), database.yielded);
      }
      watched := null;
      var undone := LeaveTransaction();
      if !undone {
        result := Failure(OutcomeUnknown);
      }
      outcome := Outcome(result.status, applied || result.status == Status.Ok, poisoned);
      assert database.durable + [] == database.durable;
    }

    // A transaction that is still open is rolled back; a connection that stays in one
    // is not used again.
    method LeaveTransaction() returns (undone: bool)
      requires !internalControl && !poisoned
      modifies this`internalControl, this`poisoned, database`durable, database`tx, database`failures
      ensures !internalControl && poisoned == !undone && database.durable == old(database.durable)
      ensures undone ==> database.tx.None? && database.failures == old(database.failures)
      ensures !undone ==> old(database.tx).Some? && |database.failures| == |old(database.failures)| + 1
    {
      if database.tx.Some? {
        internalControl := true;
        var code := database.Rollback();
        internalControl := false;
        poisoned := code != Code.Ok || database.tx.Some?;
      }
      return !poisoned;
    }

    // The guarded part of execute: an error is what would have been thrown.
    method RunTransaction(statements: seq<Statement>) returns (error: Option<Status>, result: Result)
      requires sizes.Valid() && options.maxResultBytes >= 1024
      requires !internalControl && watched != null && database.tx.None?
      requires database.yielded == [] && database.failures == [] && database.compilations == []
      requires watched.looks == 0 && watched.sightings == 0
      modifies this`internalControl, database, watched
      ensures !internalControl
      ensures error.None? ==> database.tx.None? && database.durable == old(database.durable) + statements
      ensures error == Some(OutcomeUnknown) ==>
                database.tx.None? && database.durable in {old(database.durable), old(database.durable) + statements}
      ensures error.Some? && error.value != OutcomeUnknown ==> database.durable == old(database.durable)
      ensures OfTexts(statements, database.compilations) && error != Some(Status.Ok)
      ensures Explained(if error.None? then Status.Ok else error.value, database.failures, watched.sightings > 0,
                        statements, database.compilations,
                        OverLimit(sizes, options, Columns(database.compilations), database.yielded),
                        Unreadable(Columns(database.compilations), database.yielded))
      ensures error.None? ==>
                && AllCompiled(statements, database.compilations)
                && watched.looks == |statements| + 2 + |database.yielded|
                && result.status == Status.Ok && Bounded(sizes, options, result)
                && NamesRead(result.columns, Columns(database.compilations))
                && RowsRead(result.rows, database.yielded)
      ensures old(watched.stopping) ==> error == Some(Cancelled) && database.tx == old(database.tx)
      ensures StillStopping(old(watched.stopping))
      ensures Justified(error)
    {
      result := Fresh();
      var cancel := ShouldCancel();
      if cancel {
        return Some(Cancelled), result;
      }
      error := ControlBegin();
      if error.Some? {
        return;
      }
      error, result := RunStatements(statements);
      if error.Some? {
        return;
      }
      cancel := ShouldCancel();
      if cancel {
        error := Check(Interrupted);
        return;
      }
      error := ControlCommit();
    }

    // The statements one after the other, inside a transaction that is open.
    method RunStatements(statements: seq<Statement>) returns (error: Option<Status>, result: Result)
      requires sizes.Valid() && options.maxResultBytes >= 1024 && !internalControl && watched != null
      requires database.tx == Some(Tx([], false, false)) && database.yielded == [] && database.compilations == []
      requires Told(None, false, false, false)
      modifies database, watched
      ensures database.durable == old(database.durable)
      ensures OfTexts(statements, database.compilations)
      ensures Told(error, !AllFitting(statements, database.compilations),
                   AllCompiled(statements, database.compilations)
                   && OverLimit(sizes, options, Columns(database.compilations), database.yielded),
                   AllCompiled(statements, database.compilations)
                   && Unreadable(Columns(database.compilations), database.yielded))
      ensures error.None? ==>
                && database.tx == Some(Tx(statements, false, false))
                && AllCompiled(statements, database.compilations)
                && watched.looks == old(watched.looks) + |statements| + |database.yielded|
                && result.status == Status.Ok && Bounded(sizes, options, result)
                && NamesRead(result.columns, Columns(database.compilations))
                && RowsRead(result.rows, database.yielded)
      ensures error.Some? ==> error.value != OutcomeUnknown
      ensures StillStopping(old(watched.stopping))
      ensures Justified(error)
    {
      error, result := None, Fresh();
      var bytes := sizes.result;
      var i := 0;
      while i < |statements|
        invariant 0 <= i <= |statements| && error.None?
        invariant database.tx == Some(Tx(statements[..i], false, false))
        invariant database.durable == old(database.durable)
        invariant Told(None, false, false, false) && watched.looks == old(watched.looks) + i + |database.yielded|
        invariant OfTexts(statements, database.compilations) && AllFitting(statements, database.compilations)
        invariant |database.compilations| == 2 * i
        invariant i < |statements| ==> result == Fresh() && bytes == sizes.result && database.yielded == []
        invariant result.status == Status.Ok && Bounded(sizes, options, result)
        invariant i == |statements| ==>
                    && NamesRead(result.columns, Columns(database.compilations))
                    && RowsRead(result.rows, database.yielded)
        invariant StillStopping(old(watched.stopping))
      {
        var cancel := ShouldCancel();
        if cancel {
          error := Check(Interrupted);
          return;
        }
        ghost var before, tries := database.compilations, [];
        error, result, bytes, tries := ExecuteStatement(statements[i], i + 1 == |statements|, result, bytes);
        OneMoreText(statements, before, i, tries);
        if error.Some? {
          return;
        }
        assert statements[..i + 1] == statements[..i] + [statements[i]];
        i := i + 1;
      }
      assert statements[..i] == statements;
    }
  }
}
