/**
 The reducer of the web page. It differs from the shared package's in three
 ways: it caps an operand at 16 characters, it defaults with `||` (so `""`
 takes the default as `null` does), and DELETE_DIGIT and EVALUATE guard only
 against `null`. Its CHOOSE_OPERATION and CLEAR cases are the shared ones,
 letter for letter, and are reused from there.
 */
module WebApp {
  import opened Types
  import Calculator
  import Reducer
  import Sessions

  /** The longest operand ADD_DIGIT extends. */
  const MaxDigits: nat := 16

  /** `s.slice(0, -1)`: all but the last character; `""` stays `""`. */
  function DropLast(c: string): (r: string)
    ensures |c| > 0 ==> r + [c[|c| - 1]] == c
    ensures |c| == 0 ==> r == ""
  {
    if |c| == 0 then "" else c[..|c| - 1]
  }

  /** The cases of ADD_DIGIT in the order the source tests them. The second
      check for a "." after the separator case is kept when `secondPointCheck`
      holds, as in the source, and skipped otherwise. */
  function AddDigitCases(s: State, digit: Option<string>, secondPointCheck: bool): State {
    if s.overwrite then
      s.(currentOperand := Some(NullishOr(digit, "")), overwrite := false)
    else if Truthy(s.currentOperand) && |s.currentOperand.value| >= MaxDigits then
      s
    else if IsSeparator(digit) then
      if Truthy(s.currentOperand) && '.' in s.currentOperand.value then s
      else s.(currentOperand := Some(FalsyOr(s.currentOperand, "0") + digit.value))
    else if secondPointCheck && digit == Some(".") && HasPoint(s.currentOperand) then
      s
    else if digit == Some("0") && s.currentOperand == Some("0") then
      s
    else
      s.(currentOperand := Some(FalsyOr(s.currentOperand, "") + FalsyOr(digit, "")))
  }

  /** ADD_DIGIT */
  function OnAddDigit(s: State, digit: Option<string>): (r: State)
    // a key never touches the pending left operand or operator, and always ends overwrite mode
    ensures r.previousOperand == s.previousOperand && r.operation == s.operation && !r.overwrite
    // after a result is shown, the key starts a fresh operand; a missing key leaves "", never null
    ensures s.overwrite ==> r.currentOperand == Some(NullishOr(digit, ""))
    // a full operand, a second point and a second leading zero are ignored
    ensures !s.overwrite && RejectsKey(s, digit, MaxDigits) ==> r == s
    // any other key is appended verbatim to a non-empty operand ...
    ensures !s.overwrite && !RejectsKey(s, digit, MaxDigits) && Truthy(s.currentOperand) ==>
      r.currentOperand == Some(s.currentOperand.value + NullishOr(digit, ""))
    // ... or starts a new one when the operand is null or "", a separator after a "0"
    ensures !s.overwrite && !RejectsKey(s, digit, MaxDigits) && !Truthy(s.currentOperand) ==>
      r.currentOperand == Some((if IsSeparator(digit) then "0" else "") + NullishOr(digit, ""))
  {
    AddDigitCases(s, digit, true)
  }

  /** DELETE_DIGIT */
  function OnDeleteDigit(s: State): (r: State)
    // deleting never touches the left operand or operator, and always ends overwrite mode
    ensures r.previousOperand == s.previousOperand && r.operation == s.operation && !r.overwrite
    // a shown result is deleted whole
    ensures s.overwrite ==> r.currentOperand == None
    // a null operand is left alone, and so, in value, is ""
    ensures !s.overwrite && (s.currentOperand == None || s.currentOperand == Some("")) ==> r == s
    // the last character goes, and an operand of one character becomes null
    ensures !s.overwrite && Truthy(s.currentOperand) ==>
      var c := s.currentOperand.value;
      if |c| == 1 then r.currentOperand == None
      else r.currentOperand.Some? && r.currentOperand.value + [c[|c| - 1]] == c
  {
    if s.overwrite then s.(overwrite := false, currentOperand := None)
    else if s.currentOperand == None then s
    else if |s.currentOperand.value| == 1 then s.(currentOperand := None)
    else s.(currentOperand := Some(DropLast(s.currentOperand.value)))
  }

  /** EVALUATE */
  function OnEvaluate(ar: Calculator.Arithmetic, s: State): (r: State)
    // only a null part makes the expression incomplete
    ensures s.operation == None || s.currentOperand == None || s.previousOperand == None ==> r == s
    // otherwise the expression, empty parts included, is replaced by its result in overwrite mode
    ensures s.operation != None && s.currentOperand != None && s.previousOperand != None ==>
      && r.previousOperand == None && r.operation == None && r.overwrite
      && r.currentOperand == Some(Calculator.Evaluate(ar, s.currentOperand, s.previousOperand, s.operation))
  {
    if s.operation == None || s.currentOperand == None || s.previousOperand == None then s
    else
      s.(overwrite := true, previousOperand := None, operation := None,
         currentOperand := Some(Calculator.Evaluate(ar, s.currentOperand, s.previousOperand, s.operation)))
  }

  /** The web page's reducer. */
  function Reduce(ar: Calculator.Arithmetic, s: State, a: Action): (r: State)
    // CLEAR returns to the initial state whatever the state was
    ensures a == Clear ==> r == Initial
    // an action of unknown type is ignored
    ensures a.Unknown? ==> r == s
    // only EVALUATE turns overwrite mode on
    ensures r.overwrite && !s.overwrite ==> a == Evaluate
  {
    match a
    case AddDigit(digit) => OnAddDigit(s, digit)
    case ChooseOperation(operation) => Reducer.OnChooseOperation(ar, s, operation)
    case Clear => Initial
    case DeleteDigit => OnDeleteDigit(s)
    case Evaluate => OnEvaluate(ar, s)
    case Unknown(_) => s
  }

  /** The web page's reducer as the step `useReducer` applies. */
  function Step(ar: Calculator.Arithmetic): (State, Action) -> State {
    (s, a) => Reduce(ar, s, a)
  }

  // ---------------------------------------------------------------------------
  // Properties

  /** CHOOSE_OPERATION and CLEAR behave exactly as in the shared package:
      the same four-way split for an operator, the initial state for CLEAR. */
  lemma ChooseOperationAndClearAsShared(ar: Calculator.Arithmetic, s: State, operation: Option<string>)
    ensures Reduce(ar, s, ChooseOperation(operation)) == Reducer.Reduce(ar, s, ChooseOperation(operation))
    ensures Reduce(ar, s, Clear) == Reducer.Reduce(ar, s, Clear) == Initial
  {
  }

  /** Outside overwrite mode a key treats an empty operand exactly as a null
      one: "" is the web page's second spelling of "nothing typed". */
  lemma EmptyOperandTypesLikeNull(s: State, digit: Option<string>)
    requires !s.overwrite
    ensures OnAddDigit(s.(currentOperand := Some("")), digit) == OnAddDigit(s.(currentOperand := None), digit)
  {
  }

  /** A single keypad key never makes the operand being typed longer than
      the cap. */
  lemma AddDigitWithinCap(s: State, digit: Option<string>)
    requires digit.None? || IsKeypadKey(digit.value)
    requires s.overwrite || Length(s.currentOperand) <= MaxDigits
    ensures Length(OnAddDigit(s, digit).currentOperand) <= MaxDigits
  {
  }

  /** The second "." check of ADD_DIGIT is dead code here too: without it
      ADD_DIGIT gives the same state from every state and for every key. */
  lemma SecondPointCheckUnreachable(s: State, digit: Option<string>)
    ensures AddDigitCases(s, digit, true) == AddDigitCases(s, digit, false)
  {
  }

  /** EVALUATE on a complete expression with an empty operand shows the empty
      result in overwrite mode, since `evaluate` parses "" as NaN. */
  lemma EvaluateEmptyOperand(ar: Calculator.Arithmetic, s: State)
    requires Calculator.ParsesEmptyAsNaN(ar)
    requires s.operation != None && s.currentOperand != None && s.previousOperand != None
    requires s.currentOperand == Some("") || s.previousOperand == Some("")
    ensures Reduce(ar, s, Evaluate) == State(Some(""), None, None, true)
  {
  }

  /** DELETE_DIGIT undoes an accepted key, except where the key also
      inserted the implicit "0" or the operand was "". */
  lemma DeleteUndoesAddDigit(ar: Calculator.Arithmetic, s: State, d: string)
    requires !s.overwrite && IsKeypadKey(d) && !RejectsKey(s, Some(d), MaxDigits)
    requires s.currentOperand != Some("")
    requires s.currentOperand == None ==> !IsSeparator(Some(d))
    ensures Reduce(ar, Reduce(ar, s, AddDigit(Some(d))), DeleteDigit) == s
  {
  }

  /** A keypad key keeps the state well-formed. */
  lemma AddDigitPreservesWellformed(s: State, digit: Option<string>)
    requires Wellformed(s, MaxDigits)
    requires digit.None? || IsKeypadKey(digit.value)
    ensures Wellformed(OnAddDigit(s, digit), MaxDigits)
  {
    var r := OnAddDigit(s, digit);
    if !s.overwrite && !RejectsKey(s, digit, MaxDigits) {
      var d := NullishOr(digit, "");
      if Truthy(s.currentOperand) {
        var c := s.currentOperand.value;
        assert r.currentOperand.value == c + d;
        assert multiset(c + d) == multiset(c) + multiset(d);
        assert d == "." ==> multiset(c)['.'] == 0;
        assert |c| >= 2 ==> (c + d)[0] == c[0] && (c + d)[1] == c[1];
        assert |c| == 1 && c[0] == '0' ==> c == "0";
        assert |d| == 1 && d[0] == '0' ==> d == "0";
      } else {
        assert r.currentOperand.value == (if IsSeparator(digit) then "0" else "") + d;
      }
    }
  }

  /** Deleting keeps the state well-formed. */
  lemma DeleteDigitPreservesWellformed(s: State)
    requires Wellformed(s, MaxDigits)
    ensures Wellformed(OnDeleteDigit(s), MaxDigits)
  {
  }

  /** Every keypad action keeps the state well-formed. */
  lemma ReducePreservesWellformed(ar: Calculator.Arithmetic, s: State, a: Action)
    requires Wellformed(s, MaxDigits) && Keystroke(a)
    ensures Wellformed(Reduce(ar, s, a), MaxDigits)
  {
    match a
    case AddDigit(digit) => AddDigitPreservesWellformed(s, digit);
    case DeleteDigit => DeleteDigitPreservesWellformed(s);
    case _ =>
  }

  /** Every state reached by keypad actions from a well-formed state is
      well-formed: the operand being typed never exceeds 16 characters or
      holds two points. */
  lemma RunPreservesWellformed(ar: Calculator.Arithmetic, s: State, actions: seq<Action>)
    requires Wellformed(s, MaxDigits)
    requires forall i :: 0 <= i < |actions| ==> Keystroke(actions[i])
    ensures Wellformed(Sessions.Run(Step(ar), s, actions), MaxDigits)
  {
    forall t, a | Wellformed(t, MaxDigits) && Keystroke(a)
      ensures Wellformed(Step(ar)(t, a), MaxDigits)
    {
      ReducePreservesWellformed(ar, t, a);
    }
    Sessions.RunKeepsWellformed(Step(ar), MaxDigits, s, actions);
  }
}
