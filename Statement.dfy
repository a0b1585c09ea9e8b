/**
 * The Starlark statement layer of the generator: the quoting rule for string
 * values, the indentation prefix, the statement accumulator that the code
 * generators fill, and the rendering of a statement list into one string.
 *
 * How a particular statement prints itself (`write(level, writer)`) is left
 * abstract: rendering takes a function from a statement and a nesting level
 * to the text the statement prints. A writer is modelled by the text written
 * to it so far.
 */
module Starlark {
  import opened Wrappers

  // ---------------------------------------------------------------------------
  // Kotlin `Int`
  // ---------------------------------------------------------------------------

  const INT_MIN: int := -0x8000_0000
  const INT_MAX: int := 0x7FFF_FFFF
  const INT_RANGE: int := 0x1_0000_0000

  /** A Kotlin `Int`: a 32-bit two's complement integer. */
  type Int32 = x: int | INT_MIN <= x <= INT_MAX

  /** The `Int` that an exact integer wraps around to (JVM `int` arithmetic). */
  function Wrap32(x: int): (r: Int32)
    ensures INT_MIN <= x <= INT_MAX ==> r == x
    ensures INT_MAX < x <= INT_MAX + INT_RANGE ==> r == x - INT_RANGE
    ensures INT_MIN - INT_RANGE <= x < INT_MIN ==> r == x + INT_RANGE
  {
    (x - INT_MIN) % INT_RANGE + INT_MIN
  }

  // ---------------------------------------------------------------------------
  // Quoting
  // ---------------------------------------------------------------------------

  /** A string is quoted when it starts with `"` and ends with `"`; the
      one-character string `"` is quoted by this rule. */
  predicate IsQuoted(s: string) {
    |s| > 0 && s[0] == '"' && s[|s| - 1] == '"'
  }

  /**
   * `quote()` of a value whose `toString()` is `s`: wraps `s` in double
   * quotes unless it is already quoted.
   */
  function Quote(s: string): (r: string)
    ensures IsQuoted(r)
    ensures r == s <==> IsQuoted(s)
    ensures !IsQuoted(s) ==> |r| == |s| + 2 && r[1..|r| - 1] == s
  {
    if !IsQuoted(s) then "\"" + s + "\"" else s
  }

  /** `Collection<T>.quote`: every element's `toString()`, quoted, in iteration order. */
  function QuoteAll<T>(xs: seq<T>, toString: T -> string): (r: seq<string>)
    ensures |r| == |xs|
    ensures forall i :: 0 <= i < |xs| ==> r[i] == Quote(toString(xs[i]))
  {
    if xs == [] then [] else [Quote(toString(xs[0]))] + QuoteAll(xs[1..], toString)
  }

  /** Quoting twice is quoting once. */
  lemma QuoteIdempotent(s: string)
    ensures Quote(Quote(s)) == Quote(s)
  {
  }

  /** A string that is not already quoted gets exactly one quote on each side. */
  lemma QuoteWrapsUnquoted(s: string)
    requires !IsQuoted(s)
    ensures Quote(s) == "\"" + s + "\""
  {
  }

  /** The lone quote character counts as already quoted and is left alone. */
  lemma QuoteOfLoneQuote()
    ensures IsQuoted("\"") && Quote("\"") == "\""
  {
  }

  /** Every element of a quoted collection is quoted. */
  lemma QuoteAllQuoted<T>(xs: seq<T>, toString: T -> string)
    ensures forall i :: 0 <= i < |xs| ==> IsQuoted(QuoteAll(xs, toString)[i])
  {
  }

  /** Quoting an already quoted collection changes nothing. */
  lemma QuoteAllIdempotent<T>(xs: seq<T>, toString: T -> string)
    ensures QuoteAll(QuoteAll(xs, toString), (s: string) => s) == QuoteAll(xs, toString)
  {
    var once := QuoteAll(xs, toString);
    var twice := QuoteAll(once, (s: string) => s);
    forall i | 0 <= i < |xs|
      ensures twice[i] == once[i]
    {
      QuoteIdempotent(toString(xs[i]));
    }
  }

  // ---------------------------------------------------------------------------
  // Indentation
  // ---------------------------------------------------------------------------

  /** Spaces per nesting level. */
  const INDENT: Int32 := 2

  /** `" ".repeat(n)` for a non-negative count. */
  function Spaces(n: nat): (r: string)
    ensures |r| == n
    ensures forall i :: 0 <= i < |r| ==> r[i] == ' '
  {
    if n == 0 then "" else Spaces(n - 1) + " "
  }

  /**
   * `Statement.indent(level, writer)`: prints `level * INDENT` spaces, the
   * product computed in `Int` arithmetic. `None` stands for the
   * `IllegalArgumentException` that `repeat` throws on a negative count.
   */
  function Indent(level: Int32, written: string): (r: Option<string>)
    ensures r.Some? <==> Wrap32(level * INDENT) >= 0
    ensures r.Some? ==> |r.value| == |written| + Wrap32(level * INDENT)
    ensures r.Some? ==> r.value[..|written|] == written
    ensures r.Some? ==> forall i :: |written| <= i < |r.value| ==> r.value[i] == ' '
  {
    var count := Wrap32(level * INDENT);
    if count < 0 then None else Some(written + Spaces(count))
  }

  /** For every level up to the overflow bound, the prefix is exactly two spaces per level. */
  lemma IndentTwoSpacesPerLevel(level: Int32, written: string)
    requires 0 <= level < 0x4000_0000
    ensures Indent(level, written) == Some(written + Spaces(2 * level))
  {
  }

  /**
   * The count is negative, and `indent` throws, exactly for the negative
   * levels whose doubling does not overflow and for the positive levels whose
   * doubling does.
   */
  lemma IndentFailsExactly(level: Int32, written: string)
    ensures Indent(level, written).None? <==> (-0x4000_0000 <= level < 0 || 0x4000_0000 <= level)
  {
  }

  // ---------------------------------------------------------------------------
  // Statements
  // ---------------------------------------------------------------------------

  /** A dependency label as it is handed to a target; its structure is not part of this model. */
  datatype BazelDependency = BazelDependency(reference: string)

  /** A prebuilt right-hand side of an assignment; its rendering is not part of this model. */
  datatype Assignee = Assignee(expression: string)

  /** The right-hand sides `eq` accepts: a string, a prebuilt assignee, or a list of strings. */
  datatype AssignmentValue =
    | StringValue(value: string)
    | AssigneeValue(assignee: Assignee)
    | StringListValue(strings: seq<string>)

  /**
   * The statements the builder produces. `OtherStatement` stands for any other
   * implementation of the `Statement` interface.
   */
  datatype Statement =
    | NewLineStatement
    | StringStatement(text: string)
    | AssignmentsStatement(key: string, value: AssignmentValue)
    | OtherStatement(description: string)

  /** The text one statement prints at a given nesting level. */
  type Writer = (Statement, Int32) -> string

  /** What a statement list prints when each statement is written at level 0, in order. */
  function Rendered(statements: seq<Statement>, write: Writer): string
  {
    if statements == [] then ""
    else Rendered(statements[..|statements| - 1], write) + write(statements[|statements| - 1], 0)
  }

  /** `List<Statement>.asString()`: writes every statement at level 0 into one string writer. */
  method AsString(statements: seq<Statement>, write: Writer) returns (s: string)
    ensures s == Rendered(statements, write)
  {
    s := "";
    for i := 0 to |statements|
      invariant s == Rendered(statements[..i], write)
    {
      assert statements[..i + 1][..i] == statements[..i];
      s := s + write(statements[i], 0);
    }
    assert statements[..|statements|] == statements;
  }

  /** `Statement.asString()`: the statement written at level 0. */
  function StatementAsString(statement: Statement, write: Writer): string
  {
    write(statement, 0)
  }

  /** Rendering one statement as a list is rendering that statement alone. */
  lemma RenderedSingleton(statement: Statement, write: Writer)
    ensures Rendered([statement], write) == StatementAsString(statement, write)
  {
  }

  /** Rendering distributes over concatenation: output order is statement order. */
  lemma {:induction false} RenderedAppend(a: seq<Statement>, b: seq<Statement>, write: Writer)
    ensures Rendered(a + b, write) == Rendered(a, write) + Rendered(b, write)
  {
    if b == [] {
      assert a + b == a;
    } else {
      var last := |b| - 1;
      assert (a + b)[..|a + b| - 1] == a + b[..last];
      RenderedAppend(a, b[..last], write);
    }
  }

  // ---------------------------------------------------------------------------
  // StatementsBuilder
  // ---------------------------------------------------------------------------

  /**
   * One call that a builder block (`StatementsBuilder.() -> Unit`) makes on
   * its receiver. A block is modelled by the sequence of calls it makes.
   */
  datatype Step =
    | Append(statement: Statement)                   // add(statement: Statement)
    | AppendAll(statements: seq<Statement>)          // add(statements: List<Statement>)
    | Nested(block: seq<Step>)                       // add(builder: StatementsBuilder.() -> Unit)
    | Blank                                          // newLine()
    | Text(text: string)                             // add(statement: String)
    | AssignString(key: string, value: string)       // key eq value
    | AssignAssignee(key: string, assignee: Assignee) // key eq assignee
    | AssignStrings(key: string, strings: seq<string>) // key eq strings

  /** The statements one call appends; each call ends with exactly one newline of its own. */
  function EmitStep(step: Step): (r: seq<Statement>)
    ensures |r| >= 1 && r[|r| - 1] == NewLineStatement
    decreases step
  {
    match step
    case Append(s) => [s, NewLineStatement]
    case AppendAll(ss) => ss + [NewLineStatement]
    case Nested(block) => Emit(block) + [NewLineStatement]
    case Blank => [NewLineStatement]
    case Text(t) => [StringStatement(t), NewLineStatement]
    case AssignString(k, v) => [AssignmentsStatement(k, StringValue(v)), NewLineStatement]
    case AssignAssignee(k, a) => [AssignmentsStatement(k, AssigneeValue(a)), NewLineStatement]
    case AssignStrings(k, ss) => [AssignmentsStatement(k, StringListValue(ss)), NewLineStatement]
  }

  /** The statements a block leaves in a fresh builder: each call's output, in call order. */
  function Emit(steps: seq<Step>): (r: seq<Statement>)
    ensures |r| >= |steps|
    ensures steps != [] ==> r[|r| - 1] == NewLineStatement
    decreases steps
  {
    if steps == [] then []
    else Emit(steps[..|steps| - 1]) + EmitStep(steps[|steps| - 1])
  }

  /** Running two blocks one after the other appends the output of the first, then of the second. */
  lemma {:induction false} EmitAppend(a: seq<Step>, b: seq<Step>)
    ensures Emit(a + b) == Emit(a) + Emit(b)
  {
    if b == [] {
      assert a + b == a;
    } else {
      var last := |b| - 1;
      var init := b[..last];
      assert (a + b)[..|a + b| - 1] == a + init;
      assert (a + b)[|a + b| - 1] == b[last];
      EmitAppend(a, init);
      calc {
        Emit(a + b);
        Emit(a + init) + EmitStep(b[last]);
        (Emit(a) + Emit(init)) + EmitStep(b[last]);
        Emit(a) + (Emit(init) + EmitStep(b[last]));
        Emit(a) + Emit(b);
      }
    }
  }

  /** Building in two halves and rendering renders the halves one after the other. */
  lemma RenderedEmitAppend(a: seq<Step>, b: seq<Step>, write: Writer)
    ensures Rendered(Emit(a + b), write) == Rendered(Emit(a), write) + Rendered(Emit(b), write)
  {
    EmitAppend(a, b);
    RenderedAppend(Emit(a), Emit(b), write);
  }

  /** The statement accumulator; its list only ever grows at the end. */
  class StatementsBuilder {
    var mutableStatements: seq<Statement>

    constructor ()
      ensures mutableStatements == []
    {
      mutableStatements := [];
    }

    /** `statements`: a snapshot of the list; later calls do not change a snapshot already taken. */
    function Statements(): seq<Statement>
      reads this
    {
      mutableStatements
    }

    method Add(statement: Statement)
      modifies this
      ensures mutableStatements == old(mutableStatements) + [statement, NewLineStatement]
    {
      mutableStatements := mutableStatements + [statement];
      AddNewLine();
    }

    method AddList(statements: seq<Statement>)
      modifies this
      ensures mutableStatements == old(mutableStatements) + statements + [NewLineStatement]
    {
      mutableStatements := mutableStatements + statements;
      AddNewLine();
    }

    method AddBlock(block: seq<Step>)
      modifies this
      ensures mutableStatements == old(mutableStatements) + Emit(block) + [NewLineStatement]
      decreases block, 3
    {
      var built := BuildStatements(block);
      AddList(built);
    }

    method NewLine()
      modifies this
      ensures mutableStatements == old(mutableStatements) + [NewLineStatement]
    {
      AddNewLine();
    }

    method AddNewLine()
      modifies this
      ensures mutableStatements == old(mutableStatements) + [NewLineStatement]
    {
      mutableStatements := mutableStatements + [NewLineStatement];
    }

    method AddString(statement: string)
      modifies this
      ensures mutableStatements == old(mutableStatements) + [StringStatement(statement), NewLineStatement]
    {
      Add(StringStatement(statement));
    }

    method EqString(key: string, value: string)
      modifies this
      ensures mutableStatements ==
        old(mutableStatements) + [AssignmentsStatement(key, StringValue(value)), NewLineStatement]
    {
      Add(AssignmentsStatement(key, StringValue(value)));
    }

    method EqAssignee(key: string, assignee: Assignee)
      modifies this
      ensures mutableStatements ==
        old(mutableStatements) + [AssignmentsStatement(key, AssigneeValue(assignee)), NewLineStatement]
    {
      Add(AssignmentsStatement(key, AssigneeValue(assignee)));
    }

    method EqStrings(key: string, strings: seq<string>)
      modifies this
      ensures mutableStatements ==
        old(mutableStatements) + [AssignmentsStatement(key, StringListValue(strings)), NewLineStatement]
    {
      Add(AssignmentsStatement(key, StringListValue(strings)));
    }

    /** Makes one call of a block on this builder. */
    method Perform(step: Step)
      modifies this
      ensures mutableStatements == old(mutableStatements) + EmitStep(step)
      decreases step, 0
    {
      match step
      case Append(s) => Add(s);
      case AppendAll(ss) => AddList(ss);
      case Nested(block) => AddBlock(block);
      case Blank => NewLine();
      case Text(t) => AddString(t);
      case AssignString(k, v) => EqString(k, v);
      case AssignAssignee(k, a) => EqAssignee(k, a);
      case AssignStrings(k, ss) => EqStrings(k, ss);
    }

    /** Runs a block on this builder: `apply(builder)`. */
    method PerformAll(steps: seq<Step>)
      modifies this
      ensures mutableStatements == old(mutableStatements) + Emit(steps)
      decreases steps, 1
    {
      for i := 0 to |steps|
        invariant mutableStatements == old(mutableStatements) + Emit(steps[..i])
      {
        assert steps[..i + 1][..i] == steps[..i];
        Perform(steps[i]);
      }
      assert steps[..|steps|] == steps;
    }
  }

  /** `statements(builder)`: runs a block on a fresh builder and returns its statements. */
  method BuildStatements(block: seq<Step>) returns (statements: seq<Statement>)
    ensures statements == Emit(block)
    decreases block, 2
  {
    var builder := new StatementsBuilder();
    builder.PerformAll(block);
    statements := builder.Statements();
  }
}
