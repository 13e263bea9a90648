/**
 How the two reducer copies relate: they agree on every action from every
 state in which no field is the empty string, the operand is not exactly 15
 characters long and no absent digit replaces a shown result; each of those
 exclusions is needed, as the witnesses below show.
 */
module Agreement {
  import opened Types
  import Calculator
  import Reducer
  import WebApp

  /** No field holds `""`, the one value `??` and `||` (and `!x` and
      `x == null`) tell apart. */
  predicate NoEmptyField(s: State) {
    s.currentOperand != Some("") && s.previousOperand != Some("") && s.operation != Some("")
  }

  lemma CopiesAgree(ar: Calculator.Arithmetic, s: State, a: Action)
    requires NoEmptyField(s)
    requires Length(s.currentOperand) != Reducer.MaxDigits
    requires s.overwrite ==> a != AddDigit(None)
    ensures Reducer.Reduce(ar, s, a) == WebApp.Reduce(ar, s, a)
  {
  }

  /** At exactly 15 characters the shared copy refuses a key the web copy
      appends. */
  lemma CopiesDifferAtFifteen(ar: Calculator.Arithmetic, s: State, d: string)
    requires !s.overwrite && Length(s.currentOperand) == Reducer.MaxDigits
    requires IsKeypadKey(d) && !IsSeparator(Some(d))
    ensures Reducer.Reduce(ar, s, AddDigit(Some(d))) == s
    ensures WebApp.Reduce(ar, s, AddDigit(Some(d))).currentOperand == Some(s.currentOperand.value + d)
  {
  }

  /** A separator on an empty operand: the shared copy keeps "" as the base,
      the web copy puts a "0" in front. */
  lemma CopiesDifferOnEmptyOperandSeparator(ar: Calculator.Arithmetic, s: State, digit: Option<string>)
    requires !s.overwrite && s.currentOperand == Some("") && IsSeparator(digit)
    ensures Reducer.Reduce(ar, s, AddDigit(digit)).currentOperand == digit
    ensures WebApp.Reduce(ar, s, AddDigit(digit)).currentOperand == Some("0" + digit.value)
  {
    assert "" + digit.value == digit.value;
  }

  /** An expression with an empty part: the shared copy ignores EVALUATE,
      the web copy evaluates it and enters overwrite mode. */
  lemma CopiesDifferOnEmptyPart(ar: Calculator.Arithmetic, s: State)
    requires !s.overwrite
    requires s.operation != None && s.currentOperand != None && s.previousOperand != None
    requires !NoEmptyField(s)
    ensures Reducer.Reduce(ar, s, Evaluate) == s
    ensures WebApp.Reduce(ar, s, Evaluate).overwrite
  {
  }

  /** An absent digit after a result: null in the shared copy, "" in the
      web copy. */
  lemma CopiesDifferOnAbsentDigit(ar: Calculator.Arithmetic, s: State)
    requires s.overwrite
    ensures Reducer.Reduce(ar, s, AddDigit(None)).currentOperand == None
    ensures WebApp.Reduce(ar, s, AddDigit(None)).currentOperand == Some("")
  {
  }
}
