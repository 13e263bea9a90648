/**
 The evaluator: applies the pending binary operator to the two operand
 strings. The dispatch, the "not a number" check and the empty-string
 sentinel are modelled; the floating-point parts (`parseFloat`, IEEE-754
 arithmetic and `Number.prototype.toString`) are parameters.
 */
module Calculator {
  import opened Types

  /** The floating-point primitives `evaluate` is built on.
      `isNumber(s)` stands for `!isNaN(parseFloat(s))`; `plus(p, c)` for
      `(parseFloat(p) + parseFloat(c)).toString()`, and so on. */
  datatype Arithmetic = Arithmetic(
    isNumber: string -> bool,
    plus: (string, string) -> string,
    minus: (string, string) -> string,
    times: (string, string) -> string,
    dividedBy: (string, string) -> string)

  /** The one fact about `parseFloat` the reducers depend on:
      `parseFloat("")` is NaN. */
  predicate ParsesEmptyAsNaN(ar: Arithmetic) {
    !ar.isNumber("")
  }

  /** The four operator symbols `evaluate` knows. */
  predicate IsOperator(operation: Option<string>) {
    operation == Some("+") || operation == Some("-")
    || operation == Some("*") || operation == Some("/")
  }

  /** `evaluate(currentOperand, previousOperand, operation)`: the previous
      operand is the left-hand side. `""` means "cannot compute". */
  function Evaluate(ar: Arithmetic, currentOperand: Option<string>,
                    previousOperand: Option<string>, operation: Option<string>): (r: string)
    // an operator other than + - * / (null included) yields the sentinel
    ensures !IsOperator(operation) ==> r == ""
    // so does an operand that does not parse as a number
    ensures !ar.isNumber(FalsyOr(previousOperand, "")) ==> r == ""
    ensures !ar.isNumber(FalsyOr(currentOperand, "")) ==> r == ""
    // otherwise the result is the operator applied with the previous operand on the left
    ensures ar.isNumber(FalsyOr(previousOperand, "")) && ar.isNumber(FalsyOr(currentOperand, "")) ==>
      && (operation == Some("+") ==> r == ar.plus(FalsyOr(previousOperand, ""), FalsyOr(currentOperand, "")))
      && (operation == Some("-") ==> r == ar.minus(FalsyOr(previousOperand, ""), FalsyOr(currentOperand, "")))
      && (operation == Some("*") ==> r == ar.times(FalsyOr(previousOperand, ""), FalsyOr(currentOperand, "")))
      && (operation == Some("/") ==> r == ar.dividedBy(FalsyOr(previousOperand, ""), FalsyOr(currentOperand, "")))
  {
    var prev := FalsyOr(previousOperand, "");
    var curr := FalsyOr(currentOperand, "");
    if !ar.isNumber(prev) || !ar.isNumber(curr) then ""
    else
      match operation
      case Some("+") => ar.plus(prev, curr)
      case Some("-") => ar.minus(prev, curr)
      case Some("*") => ar.times(prev, curr)
      case Some("/") => ar.dividedBy(prev, curr)
      case _ => ""
  }

  /** A missing or empty operand makes `evaluate` return the sentinel, since
      both are coerced to `""` before parsing. */
  lemma EvaluateMissingOperand(ar: Arithmetic, currentOperand: Option<string>,
                               previousOperand: Option<string>, operation: Option<string>)
    requires ParsesEmptyAsNaN(ar)
    requires !Truthy(currentOperand) || !Truthy(previousOperand)
    ensures Evaluate(ar, currentOperand, previousOperand, operation) == ""
  {
  }

  /** A non-empty result can only come from a known operator and two numbers. */
  lemma EvaluateNonEmpty(ar: Arithmetic, currentOperand: Option<string>,
                         previousOperand: Option<string>, operation: Option<string>)
    requires ParsesEmptyAsNaN(ar)
    requires Evaluate(ar, currentOperand, previousOperand, operation) != ""
    ensures IsOperator(operation) && Truthy(currentOperand) && Truthy(previousOperand)
    ensures ar.isNumber(currentOperand.value) && ar.isNumber(previousOperand.value)
  {
  }
}
