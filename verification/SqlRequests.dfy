/** Options and request copying of the SQL service (src/Data/Sql/Request.cpp,
    src/Data/Sql/Types.h): which inputs are accepted and what they reserve. */
module SqlRequests {
  import opened Prelude

  datatype Status =
    | Ok | InvalidArgument | NotSupported | Stopped | Backpressure | InvalidState | InvalidHandle
    | Cancelled | Timeout | ResultTooLarge | IoError | InternalError | OutcomeUnknown

  // sizeof values of the C++ structures. Only their bounds matter.
  datatype Layout = Layout(request: nat, statement: nat, value: nat, result: nat, text: nat, row: nat)
  {
    ghost predicate Valid()
    {
      && 1 <= request <= 1024 && 1 <= statement <= 1024 && 1 <= value <= 1024
      && 1 <= result <= 1024 && 1 <= text <= 1024 && 1 <= row <= 1024
    }
  }

  datatype Options = Options(maxOutstanding: nat, maxRequestBytes: nat, maxResultBytes: nat,
                             maxRows: nat, maxColumns: nat, queryTimeoutMs: nat, busyTimeoutMs: nat,
                             memoryBudget: nat)

  datatype OptionsInput = OptionsInput(layoutMatches: bool, sqliteProvider: bool, connection: Option<Bytes>,
                                       numbers: Options)

  const MIB := 1024 * 1024

  function DecodeOptions(source: OptionsInput): (Status, Options)
  {
    var n := source.numbers;
    if !source.layoutMatches then (InvalidArgument, n)
    else if !source.sqliteProvider then (NotSupported, n)
    else if source.connection.None? || source.connection.value == [] then (InvalidArgument, n)
    else if |source.connection.value| > 32768 then (InvalidArgument, n)
    else if n.maxOutstanding < 1 || n.maxOutstanding > 4096
            || n.maxRequestBytes < 256 || n.maxRequestBytes > 16 * MIB
            || n.maxResultBytes < 1024 || n.maxResultBytes > 16 * MIB
            || n.maxRows < 1 || n.maxRows > 1000000
            || n.maxColumns < 1 || n.maxColumns > 1024
            || n.queryTimeoutMs < 1 || n.queryTimeoutMs > 300000
            || n.busyTimeoutMs > 30000
            || n.memoryBudget < n.maxResultBytes + n.maxRequestBytes + 1024
            || n.memoryBudget > 1024 * MIB
    then (InvalidArgument, n)
    else (Ok, n)
  }

  // ------------------------------------------------------------ request copies

  datatype ValueType = NullType | Int64Type | DoubleType | TextType | BlobType | UnknownType

  datatype Parameter = Parameter(kind: ValueType, integer: int, finite: bool, size: nat, data: Option<Bytes>)

  datatype StatementInput = StatementInput(sql: Option<Bytes>, parameterCount: nat,
                                           parameters: Option<seq<Parameter>>)

  datatype Statement = Statement(sql: Bytes, parameters: seq<Parameter>)

  // What C promises about memory: arrays are as long as their counts say.
  predicate Readable(input: StatementInput)
  {
    && (input.sql.Some? ==> |input.sql.value| < 0x1_0000_0000)
    && (input.parameters.Some? ==> |input.parameters.value| == input.parameterCount)
    && (input.parameters.Some? ==> forall p <- input.parameters.value ::
          p.size < 0x1_0000_0000 && (p.data.Some? ==> |p.data.value| == p.size))
  }

  predicate AcceptableParameter(p: Parameter)
  {
    && !p.kind.UnknownType?
    && (p.kind.DoubleType? ==> p.finite)
    && (!p.kind.TextType? && !p.kind.BlobType? ==> p.size == 0 && p.data.None?)
    && (p.kind.TextType? || p.kind.BlobType? ==> p.size == 0 || p.data.Some?)
  }

  predicate AcceptableStatement(input: StatementInput)
  {
    && input.sql.Some? && input.sql.value != [] && 0 !in input.sql.value
    && input.parameterCount <= 1024
    && (input.parameterCount > 0 ==> input.parameters.Some?)
    && (input.parameters.Some? ==>
          forall i :: 0 <= i < |input.parameters.value| ==> AcceptableParameter(input.parameters.value[i]))
  }

  function Parameters(input: StatementInput): seq<Parameter>
  {
    if input.parameters.Some? then input.parameters.value else []
  }

  function DataBytes(parameters: seq<Parameter>): nat
  {
    if parameters == [] then 0
    else DataBytes(parameters[..|parameters| - 1]) + parameters[|parameters| - 1].size
  }

  function ParameterTable(sizes: Layout, count: nat): nat { count * sizes.value }

  function StatementCost(sizes: Layout, input: StatementInput): nat
  {
    (if input.sql.Some? then |input.sql.value| else 0) + ParameterTable(sizes, input.parameterCount)
    + DataBytes(Parameters(input))
  }

  function StatementCosts(sizes: Layout, inputs: seq<StatementInput>): nat
  {
    if inputs == [] then 0
    else StatementCosts(sizes, inputs[..|inputs| - 1]) + StatementCost(sizes, inputs[|inputs| - 1])
  }

  function StatementTable(sizes: Layout, count: nat): nat { count * sizes.statement }

  // Bytes a copied request occupies, its metadata included.
  function Footprint(sizes: Layout, inputs: seq<StatementInput>): nat
  {
    sizes.request + StatementTable(sizes, |inputs|) + StatementCosts(sizes, inputs)
  }

  ghost predicate Accepts(sizes: Layout, options: Options, inputs: seq<StatementInput>)
  {
    && 1 <= |inputs| <= 64
    && (forall i :: 0 <= i < |inputs| ==> AcceptableStatement(inputs[i]))
    && Footprint(sizes, inputs) <= options.maxRequestBytes
  }

  function Copied(input: StatementInput): Statement
  {
    Statement(if input.sql.Some? then input.sql.value else [], Parameters(input))
  }

  function CopiedAll(inputs: seq<StatementInput>): seq<Statement>
  {
    if inputs == [] then [] else CopiedAll(inputs[..|inputs| - 1]) + [Copied(inputs[|inputs| - 1])]
  }

  // The 64-bit running total.
  function Add64(a: nat, b: nat): nat { (a + b) % 0x1_0000_0000_0000_0000 }

  lemma NoWrap(a: nat, b: nat)
    requires a + b < 0x1_0000_0000_0000_0000
    ensures Add64(a, b) == a + b
  {
  }

  lemma TableBound(sizes: Layout, count: nat)
    requires sizes.Valid() && count <= 1024
    ensures ParameterTable(sizes, count) <= 1024 * 1024
  {
    assert (1024 - count) * sizes.value >= 0;
  }

  lemma {:induction false} DataBytesPrefix(parameters: seq<Parameter>, n: nat)
    requires n <= |parameters|
    ensures DataBytes(parameters[..n]) <= DataBytes(parameters)
    decreases |parameters|
  {
    if n < |parameters| {
      var front := parameters[..|parameters| - 1];
      DataBytesPrefix(front, n);
      assert front[..n] == parameters[..n];
    } else {
      assert parameters[..n] == parameters;
    }
  }

  lemma {:induction false} StatementCostsPrefix(sizes: Layout, inputs: seq<StatementInput>, n: nat)
    requires n <= |inputs|
    ensures StatementCosts(sizes, inputs[..n]) <= StatementCosts(sizes, inputs)
    decreases |inputs|
  {
    if n < |inputs| {
      var front := inputs[..|inputs| - 1];
      StatementCostsPrefix(sizes, front, n);
      assert front[..n] == inputs[..n];
    } else {
      assert inputs[..n] == inputs;
    }
  }

  // The parameter loop of one statement, from the bytes already counted.
  method CopyParameters(options: Options, parameters: seq<Parameter>, start: nat) returns (ok: bool, bytes: nat)
    requires options.maxRequestBytes <= 16 * MIB && start <= options.maxRequestBytes
    requires forall i :: 0 <= i < |parameters| ==> parameters[i].size < 0x1_0000_0000
    ensures ok <==> && (forall i :: 0 <= i < |parameters| ==> AcceptableParameter(parameters[i]))
                    && start + DataBytes(parameters) <= options.maxRequestBytes
    ensures ok ==> bytes == start + DataBytes(parameters)
  {
    bytes := start;
    var p := 0;
    while p < |parameters|
      invariant 0 <= p <= |parameters|
      invariant forall i :: 0 <= i < p ==> AcceptableParameter(parameters[i])
      invariant bytes == start + DataBytes(parameters[..p])
      invariant bytes <= options.maxRequestBytes
    {
      if !AcceptableParameter(parameters[p]) {
        return false, bytes;
      }
      assert parameters[..p + 1][..p] == parameters[..p];
      bytes := Add64(bytes, parameters[p].size);
      if bytes > options.maxRequestBytes {
        DataBytesPrefix(parameters, p + 1);
        return false, bytes;
      }
      p := p + 1;
    }
    assert parameters[..p] == parameters;
    return true, bytes;
  }

  // One round of the statement loop, from the bytes already counted.
  method CopyStatement(sizes: Layout, options: Options, input: StatementInput, start: nat)
    returns (ok: bool, statement: Statement, bytes: nat)
    requires sizes.Valid() && options.maxRequestBytes <= 16 * MIB && start <= options.maxRequestBytes
    requires Readable(input)
    ensures ok <==> AcceptableStatement(input) && start + StatementCost(sizes, input) <= options.maxRequestBytes
    ensures ok ==> statement == Copied(input) && bytes == start + StatementCost(sizes, input)
  {
    statement, bytes := Statement([], []), start;
    if input.sql.None? || input.sql.value == [] || |input.sql.value| > options.maxRequestBytes
       || input.parameterCount > 1024 || (input.parameterCount > 0 && input.parameters.None?) {
      return false, statement, bytes;
    }
    var table := ParameterTable(sizes, input.parameterCount);
    TableBound(sizes, input.parameterCount);
    NoWrap(bytes, |input.sql.value| + table);
    bytes := Add64(bytes, |input.sql.value| + table);
    if bytes > options.maxRequestBytes {
      return false, statement, bytes;
    }
    if 0 in input.sql.value {
      return false, statement, bytes;
    }
    ok, bytes := CopyParameters(options, Parameters(input), bytes);
    statement := Statement(input.sql.value, Parameters(input));
  }

  /** Copies a request exactly when its shape is acceptable and its whole
      footprint fits the limit; the reservation adds the largest completion. */
  method CopyRequest(sizes: Layout, options: Options, source: Option<seq<StatementInput>>)
    returns (ok: bool, statements: seq<Statement>, reserved: nat)
    requires sizes.Valid() && options.maxRequestBytes <= 16 * MIB
    requires source.Some? ==> forall i :: 0 <= i < |source.value| ==> Readable(source.value[i])
    ensures ok <==> source.Some? && Accepts(sizes, options, source.value)
    ensures ok ==> statements == CopiedAll(source.value)
    ensures ok ==> reserved == Footprint(sizes, source.value) + options.maxResultBytes + 1024
  {
    statements, reserved := [], 0;
    if source.None? || |source.value| < 1 || |source.value| > 64 {
      return false, [], 0;
    }
    ok, statements, reserved := CopyStatements(sizes, options, source.value);
  }

  method CopyStatements(sizes: Layout, options: Options, inputs: seq<StatementInput>)
    returns (ok: bool, statements: seq<Statement>, reserved: nat)
    requires sizes.Valid() && options.maxRequestBytes <= 16 * MIB && 1 <= |inputs| <= 64
    requires forall i :: 0 <= i < |inputs| ==> Readable(inputs[i])
    ensures ok <==> Accepts(sizes, options, inputs)
    ensures ok ==> statements == CopiedAll(inputs)
    ensures ok ==> reserved == Footprint(sizes, inputs) + options.maxResultBytes + 1024
  {
    statements, reserved := [], 0;
    var bytes := sizes.request + StatementTable(sizes, |inputs|);
    ghost var header := bytes;
    if bytes > options.maxRequestBytes {
      return false, [], 0;
    }
    var i := 0;
    while i < |inputs|
      invariant 0 <= i <= |inputs|
      invariant forall k :: 0 <= k < i ==> AcceptableStatement(inputs[k])
      invariant bytes == header + StatementCosts(sizes, inputs[..i])
      invariant bytes <= options.maxRequestBytes
      invariant statements == CopiedAll(inputs[..i])
    {
      assert inputs[..i + 1][..i] == inputs[..i];
      StatementCostsPrefix(sizes, inputs, i + 1);
      var copied, statement, total := CopyStatement(sizes, options, inputs[i], bytes);
      if !copied {
        return false, [], 0;
      }
      bytes := total;
      statements := statements + [statement];
      i := i + 1;
    }
    assert inputs[..i] == inputs;
    return true, statements, bytes + options.maxResultBytes + 1024;
  }

  /** From decoded options, any request that is copied fits the empty budget. */
  lemma IdleBudgetSuffices(sizes: Layout, source: OptionsInput, inputs: seq<StatementInput>)
    requires DecodeOptions(source).0 == Ok
    requires Accepts(sizes, source.numbers, inputs)
    ensures Footprint(sizes, inputs) + source.numbers.maxResultBytes + 1024 <= source.numbers.memoryBudget
    ensures source.numbers.maxOutstanding > 0
  {
  }
}
