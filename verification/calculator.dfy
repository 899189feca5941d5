/** The `calculator` tool of the basic server (1_Basic_MCP/basic_mcp_server.py):
    a two-number calculator that validates the operation name, then dispatches on it.
    Arithmetic is over `real`; floating-point rounding is not modelled. */
module Calculator {
  import opened Wrappers
  import Text

  /** The accepted operation names, in the order the error message lists them. */
  const ValidOperations: seq<string> := ["add", "subtract", "multiply", "divide"]

  /** The two errors the tool raises: `ValueError` and `ZeroDivisionError`. */
  datatype CalcError = InvalidOperation(operation: string) | DivisionByZero

  /** `", ".join` of the accepted names, one name at a time. */
  lemma JoinValidOperationsPieces()
    ensures Text.Join(ValidOperations, ", ") == "add" + ", " + "subtract" + ", " + "multiply" + ", " + "divide"
  {
    var ops := ValidOperations;
    assert ops[1..] == ["subtract", "multiply", "divide"];
    assert ops[1..][1..] == ["multiply", "divide"];
    assert ops[1..][1..][1..] == ["divide"];
  }

  /** The list of accepted names as the error message spells it out. */
  lemma JoinValidOperations()
    ensures Text.Join(ValidOperations, ", ") == "add, subtract, multiply, divide"
  {
    JoinValidOperationsPieces();
  }

  /** The text of the raised exception. */
  function Message(e: CalcError): (m: string)
    ensures e.InvalidOperation? ==>
      m == "Invalid operation '" + e.operation + "'. Must be one of: " + "add, subtract, multiply, divide"
    ensures e.DivisionByZero? ==> m == "Cannot divide by zero"
  {
    match e
    case InvalidOperation(op) =>
      JoinValidOperations();
      "Invalid operation '" + op + "'. Must be one of: " + Text.Join(ValidOperations, ", ")
    case DivisionByZero => "Cannot divide by zero"
  }

  /** The tool itself: validation first, then arithmetic. */
  function Calculate(operation: string, a: real, b: real): (r: Result<real, CalcError>)
    ensures operation !in ValidOperations ==> r == Failure(InvalidOperation(operation))
    ensures operation == "add" ==> r == Success(a + b)
    ensures operation == "subtract" ==> r == Success(a - b)
    ensures operation == "multiply" ==> r == Success(a * b)
    ensures operation == "divide" && b == 0.0 ==> r == Failure(DivisionByZero)
    ensures operation == "divide" && b != 0.0 ==> r == Success(a / b)
  {
    if operation !in ValidOperations then Failure(InvalidOperation(operation))
    else if operation == "add" then Success(a + b)
    else if operation == "subtract" then Success(a - b)
    else if operation == "multiply" then Success(a * b)
    else
      // validation leaves only "divide" here
      if b == 0.0 then Failure(DivisionByZero) else Success(a / b)
  }

  /** The tool fails exactly for an unknown operation or a division by zero. */
  lemma CalculateFailsIff(operation: string, a: real, b: real)
    ensures Calculate(operation, a, b).Failure? <==>
      operation !in ValidOperations || (operation == "divide" && b == 0.0)
    ensures Calculate(operation, a, b) == Failure(DivisionByZero) <==>
      operation == "divide" && b == 0.0
  {
  }

  /** A typed view of the accepted operations. */
  datatype Operation = Add | Subtract | Multiply | Divide

  function Name(op: Operation): string
  {
    match op
    case Add => "add"
    case Subtract => "subtract"
    case Multiply => "multiply"
    case Divide => "divide"
  }

  /** Validation as parsing: a name is accepted exactly when it names an operation. */
  function ParseOperation(operation: string): (r: Option<Operation>)
    ensures r.Some? <==> operation in ValidOperations
    ensures r.Some? ==> Name(r.value) == operation
  {
    if operation == "add" then Some(Add)
    else if operation == "subtract" then Some(Subtract)
    else if operation == "multiply" then Some(Multiply)
    else if operation == "divide" then Some(Divide)
    else None
  }

  lemma ParseName(op: Operation)
    ensures ParseOperation(Name(op)) == Some(op)
  {
  }

  /** Reference arithmetic on a validated operation. */
  function Apply(op: Operation, a: real, b: real): Result<real, CalcError>
  {
    match op
    case Add => Success(a + b)
    case Subtract => Success(a - b)
    case Multiply => Success(a * b)
    case Divide => if b == 0.0 then Failure(DivisionByZero) else Success(a / b)
  }

  /** The string-dispatching tool agrees with parse-then-apply: it validates the name
      before any arithmetic, and an accepted name computes what its operation does. This is
      an equivalence between two shapes of the same arithmetic, not a second definition of
      it; `Calculate`'s own contract states the result of each operation. */
  lemma CalculateIsParseThenApply(operation: string, a: real, b: real)
    ensures Calculate(operation, a, b) ==
      match ParseOperation(operation)
      case None => Failure(InvalidOperation(operation))
      case Some(op) => Apply(op, a, b)
  {
  }

  /** The call both example clients make: 45 * 61. */
  lemma MultiplyExample()
    ensures Calculate("multiply", 45.0, 61.0) == Success(2745.0)
  {
  }
}
