/** The `calculator` tool: one of four operations on two numbers, shown as
    `a symbol b = result`. Floats are exact reals here. */
module CalculatorTool {
  import opened Php

  /** The arguments, each of which may be absent. */
  datatype Arguments = Arguments(operation: Option<string>, a: Option<real>, b: Option<real>)

  const DivisionByZero := "Division by zero is not allowed"

  predicate IsOperation(op: string)
  {
    op == "add" || op == "subtract" || op == "multiply" || op == "divide"
  }

  /** `divide`: refuses a zero divisor, otherwise the quotient. */
  function Divide(a: real, b: real): (r: Result<real>)
    ensures r.Err? <==> b == 0.0
    ensures r.Err? ==> r.message == DivisionByZero
    ensures r.Ok? ==> r.value * b == a
  {
    if b == 0.0 then Err(DivisionByZero) else Ok(a / b)
  }

  /** The `match` on the operation: the value for the four operations, the
      division error, or the invalid-operation error for anything else. */
  function Calculate(op: string, a: real, b: real): (r: Result<real>)
    ensures r.Ok? <==> IsOperation(op) && !(op == "divide" && b == 0.0)
    ensures !IsOperation(op) ==> r == Err("Invalid operation: " + op)
    ensures op == "divide" ==> r == Divide(a, b)
    ensures op == "add" ==> r.Ok? && r.value - b == a
    ensures op == "subtract" ==> r.Ok? && r.value + b == a
    ensures op == "multiply" ==> r.Ok? && (b != 0.0 ==> r.value / b == a) && (b == 0.0 ==> r.value == 0.0)
  {
    match op
    case "add" => Ok(a + b)
    case "subtract" => Ok(a - b)
    case "multiply" => MultiplyThenDivide(a, b); Ok(a * b)
    case "divide" => Divide(a, b)
    case _ => Err("Invalid operation: " + op)
  }

  lemma MultiplyThenDivide(a: real, b: real)
    ensures b != 0.0 ==> (a * b) / b == a
    ensures b == 0.0 ==> a * b == 0.0
  {
    if b != 0.0 {
      assert (a * b) / b == a * (b / b);
    }
  }

  /** `getOperationSymbol`, with the symbols the operations evidently mean:
      '×' and '÷' for multiply and divide. */
  function Symbol(op: string): (s: string)
    ensures |s| == 1
    ensures s == "?" <==> !IsOperation(op)
  {
    match op
    case "add" => "+"
    case "subtract" => "-"
    case "multiply" => "\U{D7}"
    case "divide" => "\U{F7}"
    case _ => "?"
  }

  /** `getOperationSymbol` as its source text stores it: the multiply and
      divide symbols are the bytes of '×' and '÷' decoded a second time
      through a Thai code page, two characters each. */
  function SymbolAsWritten(op: string): (s: string)
    ensures s == "?" <==> !IsOperation(op)
  {
    match op
    case "add" => "+"
    case "subtract" => "-"
    case "multiply" => "\U{0E23}\U{0097}"
    case "divide" => "\U{0E23}\U{0E17}"
    case _ => "?"
  }

  /** The as-written table does not give one-character symbols: multiply
      and divide both start with U+0E23 and are not '×' and '÷'. */
  lemma SymbolAsWrittenIsGarbled()
    ensures |SymbolAsWritten("multiply")| == 2 && |SymbolAsWritten("divide")| == 2
    ensures SymbolAsWritten("multiply")[0] == SymbolAsWritten("divide")[0]
    ensures SymbolAsWritten("multiply") != Symbol("multiply")
    ensures SymbolAsWritten("divide") != Symbol("divide")
  {
  }

  /** The four operations have four different symbols, none of them '?'. */
  lemma SymbolsDistinct(op1: string, op2: string)
    requires IsOperation(op1) && IsOperation(op2) && op1 != op2
    ensures Symbol(op1) != Symbol(op2)
  {
  }

  /** The `sprintf('%s %s %s = %s', ...)` line; `fmt.show` is `%s` of a float. */
  function Line(a: real, symbol: string, b: real, result: real, fmt: Printf): string
  {
    fmt.show(a) + " " + symbol + " " + fmt.show(b) + " = " + fmt.show(result)
  }

  /** `execute`: a missing operation reads as `""`, a missing number as 0.
      The text shows both operands, the symbol as the source stores it, and
      the result. */
  function Execute(args: Arguments, fmt: Printf): (r: Result<string>)
    ensures var op, a, b := OrElse(args.operation, ""), OrElse(args.a, 0.0), OrElse(args.b, 0.0);
      && (r.Ok? <==> Calculate(op, a, b).Ok?)
      && (r.Err? ==> r.message == Calculate(op, a, b).message)
      && (r.Ok? ==> r.value == fmt.show(a) + " " + SymbolAsWritten(op) + " " + fmt.show(b) + " = " + fmt.show(Calculate(op, a, b).value))
  {
    var op := OrElse(args.operation, "");
    var a := OrElse(args.a, 0.0);
    var b := OrElse(args.b, 0.0);
    match Calculate(op, a, b)
    case Err(m) => Err(m)
    case Ok(result) => Ok(Line(a, SymbolAsWritten(op), b, result, fmt))
  }

  /** `execute` with the symbols the source evidently means: it fails
      exactly when `Execute` does, with the same message, and otherwise
      differs from it only in the symbol. */
  function ExecuteIntended(args: Arguments, fmt: Printf): (r: Result<string>)
    ensures var op, a, b := OrElse(args.operation, ""), OrElse(args.a, 0.0), OrElse(args.b, 0.0);
      && (r.Ok? <==> Execute(args, fmt).Ok?)
      && (r.Err? ==> r == Execute(args, fmt))
      && (r.Ok? ==> r.value == fmt.show(a) + " " + Symbol(op) + " " + fmt.show(b) + " = " + fmt.show(Calculate(op, a, b).value))
  {
    var op := OrElse(args.operation, "");
    var a := OrElse(args.a, 0.0);
    var b := OrElse(args.b, 0.0);
    match Calculate(op, a, b)
    case Err(m) => Err(m)
    case Ok(result) => Ok(Line(a, Symbol(op), b, result, fmt))
  }

  /** The two texts agree for add and subtract; for multiply and divide the
      text as written is one character longer and not the intended one. */
  lemma ExecuteAsWrittenDiffers(args: Arguments, fmt: Printf)
    requires Execute(args, fmt).Ok?
    ensures args.operation == Some("add") || args.operation == Some("subtract") ==>
      Execute(args, fmt) == ExecuteIntended(args, fmt)
    ensures args.operation == Some("multiply") || args.operation == Some("divide") ==>
      |Execute(args, fmt).value| == |ExecuteIntended(args, fmt).value| + 1
      && Execute(args, fmt) != ExecuteIntended(args, fmt)
  {
  }

  /** The error cases in full: no operation at all is an invalid operation,
      dividing by zero (also by a missing divisor) is refused, and an
      unknown operation is named in the error. */
  lemma ExecuteErrors(args: Arguments, fmt: Printf)
    ensures args.operation.None? ==> Execute(args, fmt) == Err("Invalid operation: ")
    ensures args.operation == Some("divide") && OrElse(args.b, 0.0) == 0.0 ==> Execute(args, fmt) == Err(DivisionByZero)
    ensures args.operation.Some? && !IsOperation(args.operation.value) ==>
      Execute(args, fmt) == Err("Invalid operation: " + args.operation.value)
  {
  }

  /** Adding then subtracting the same number, or multiplying then dividing
      by a non-zero one, gives back the first operand. */
  lemma CalculateInverses(a: real, b: real)
    ensures Calculate("subtract", Calculate("add", a, b).value, b) == Ok(a)
    ensures b != 0.0 ==> Calculate("divide", Calculate("multiply", a, b).value, b) == Ok(a)
  {
  }
}
