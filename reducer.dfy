/**
 The reducer of the shared package: one function per case of its `switch`,
 and the properties the calculator relies on. This copy caps an operand at
 15 characters, defaults with `??` (only `null` takes the default) and
 guards DELETE_DIGIT and EVALUATE with truthiness checks.
 */
module Reducer {
  import opened Types
  import Calculator
  import Sessions

  /** The longest operand ADD_DIGIT extends. */
  const MaxDigits: nat := 15

  /** The cases of ADD_DIGIT in the order the source tests them. The second
      check for a "." after the separator case is kept when `secondPointCheck`
      holds, as in the source, and skipped otherwise. */
  function AddDigitCases(s: State, digit: Option<string>, secondPointCheck: bool): State {
    if s.overwrite then
      s.(currentOperand := digit, overwrite := false)
    else if Truthy(s.currentOperand) && |s.currentOperand.value| >= MaxDigits then
      s
    else if IsSeparator(digit) then
      if Truthy(s.currentOperand) && '.' in s.currentOperand.value then s
      else s.(currentOperand := Some(NullishOr(s.currentOperand, "0") + digit.value))
    else if secondPointCheck && digit == Some(".") && HasPoint(s.currentOperand) then
      s
    else if digit == Some("0") && s.currentOperand == Some("0") then
      s
    else
      s.(currentOperand := Some(NullishOr(s.currentOperand, "") + NullishOr(digit, "")))
  }

  /** ADD_DIGIT */
  function OnAddDigit(s: State, digit: Option<string>): (r: State)
    // a key never touches the pending left operand or operator, and always ends overwrite mode
    ensures r.previousOperand == s.previousOperand && r.operation == s.operation && !r.overwrite
    // after a result is shown, the key starts a fresh operand
    ensures s.overwrite ==> r.currentOperand == digit
    // a full operand, a second point and a second leading zero are ignored
    ensures !s.overwrite && RejectsKey(s, digit, MaxDigits) ==> r == s
    // any other key is appended verbatim (commas included) to the operand ...
    ensures !s.overwrite && !RejectsKey(s, digit, MaxDigits) && s.currentOperand.Some? ==>
      r.currentOperand == Some(s.currentOperand.value + NullishOr(digit, ""))
    // ... or, when there is none, starts one, a separator after a "0"
    ensures !s.overwrite && !RejectsKey(s, digit, MaxDigits) && s.currentOperand.None? ==>
      r.currentOperand == Some((if IsSeparator(digit) then "0" else "") + NullishOr(digit, ""))
  {
    AddDigitCases(s, digit, true)
  }

  /** CHOOSE_OPERATION */
  function OnChooseOperation(ar: Calculator.Arithmetic, s: State, operation: Option<string>): (r: State)
    // choosing an operator always leaves the current operand empty and overwrite mode as it was
    ensures r.currentOperand == None && r.overwrite == s.overwrite
    // with no operand at all there is nothing to operate on
    ensures s.currentOperand == None && s.previousOperand == None ==> r == s
    // otherwise the chosen operator becomes the pending one
    ensures s.currentOperand != None || s.previousOperand != None ==> r.operation == operation
    // with no new operand the left operand stays: only the operator is switched
    ensures s.currentOperand == None ==> r.previousOperand == s.previousOperand
    // the first operand is promoted to the left operand
    ensures s.currentOperand != None && s.previousOperand == None ==> r.previousOperand == s.currentOperand
    // a chained operator first folds the pending one into the left operand
    ensures s.currentOperand != None && s.previousOperand != None ==>
      r.previousOperand == Some(Calculator.Evaluate(ar, s.currentOperand, s.previousOperand, s.operation))
  {
    if s.currentOperand == None && s.previousOperand == None then s
    else if s.currentOperand == None then s.(operation := operation)
    else if s.previousOperand == None then
      s.(operation := operation, previousOperand := s.currentOperand, currentOperand := None)
    else
      s.(previousOperand := Some(Calculator.Evaluate(ar, s.currentOperand, s.previousOperand, s.operation)),
         operation := operation, currentOperand := None)
  }

  /** DELETE_DIGIT */
  function OnDeleteDigit(s: State): (r: State)
    // deleting never touches the left operand or operator, and always ends overwrite mode
    ensures r.previousOperand == s.previousOperand && r.operation == s.operation && !r.overwrite
    // a shown result is deleted whole
    ensures s.overwrite ==> r.currentOperand == None
    // nothing to delete: nothing changes
    ensures !s.overwrite && !Truthy(s.currentOperand) ==> r == s
    // the last character goes, and an operand of one character becomes null, never ""
    ensures !s.overwrite && Truthy(s.currentOperand) ==>
      var c := s.currentOperand.value;
      if |c| == 1 then r.currentOperand == None
      else r.currentOperand.Some? && r.currentOperand.value + [c[|c| - 1]] == c
  {
    if s.overwrite then s.(overwrite := false, currentOperand := None)
    else if !Truthy(s.currentOperand) then s
    else if |s.currentOperand.value| == 1 then s.(currentOperand := None)
    else s.(currentOperand := Some(s.currentOperand.value[..|s.currentOperand.value| - 1]))
  }

  /** EVALUATE */
  function OnEvaluate(ar: Calculator.Arithmetic, s: State): (r: State)
    // an incomplete expression (any part null or "") is left alone
    ensures !(Truthy(s.operation) && Truthy(s.currentOperand) && Truthy(s.previousOperand)) ==> r == s
    // a complete one is replaced by its result, shown in overwrite mode
    ensures Truthy(s.operation) && Truthy(s.currentOperand) && Truthy(s.previousOperand) ==>
      && r.previousOperand == None && r.operation == None && r.overwrite
      && r.currentOperand == Some(Calculator.Evaluate(ar, s.currentOperand, s.previousOperand, s.operation))
  {
    if !Truthy(s.operation) || !Truthy(s.currentOperand) || !Truthy(s.previousOperand) then s
    else
      s.(overwrite := true, previousOperand := None, operation := None,
         currentOperand := Some(Calculator.Evaluate(ar, s.currentOperand, s.previousOperand, s.operation)))
  }

  /** The reducer: the next state after one action. `ar` supplies the
      floating-point primitives of `evaluate`. */
  function Reduce(ar: Calculator.Arithmetic, s: State, a: Action): (r: State)
    // CLEAR returns to the initial state whatever the state was
    ensures a == Clear ==> r == Initial
    // an action of unknown type is ignored
    ensures a.Unknown? ==> r == s
    // only EVALUATE turns overwrite mode on
    ensures r.overwrite && !s.overwrite ==> a == Evaluate
  {
    match a
    case AddDigit(digit) => OnAddDigit(s, digit)
    case ChooseOperation(operation) => OnChooseOperation(ar, s, operation)
    case Clear => Initial
    case DeleteDigit => OnDeleteDigit(s)
    case Evaluate => OnEvaluate(ar, s)
    case Unknown(_) => s
  }

  /** The reducer as the step `useReducer` applies. */
  function Step(ar: Calculator.Arithmetic): (State, Action) -> State {
    (s, a) => Reduce(ar, s, a)
  }

  // ---------------------------------------------------------------------------
  // Properties

  /** CLEAR from any state gives the canonical initial state, so clearing
      twice is clearing once. */
  lemma ClearIsIdempotent(ar: Calculator.Arithmetic, s: State)
    ensures Reduce(ar, s, Clear) == Initial
    ensures Reduce(ar, Reduce(ar, s, Clear), Clear) == Reduce(ar, s, Clear)
  {
  }

  /** A single keypad key never makes the operand being typed longer than
      the cap. */
  lemma AddDigitWithinCap(s: State, digit: Option<string>)
    requires digit.None? || IsKeypadKey(digit.value)
    requires s.overwrite || Length(s.currentOperand) <= MaxDigits
    ensures Length(OnAddDigit(s, digit).currentOperand) <= MaxDigits
  {
  }

  /** An accepted key on an existing operand extends it by exactly that one
      character, keeping what was typed as a prefix. */
  lemma AddDigitGrowsByOne(s: State, d: string)
    requires !s.overwrite && IsKeypadKey(d) && s.currentOperand.Some?
    requires !RejectsKey(s, Some(d), MaxDigits)
    ensures var r := OnAddDigit(s, Some(d)).currentOperand;
      && r.Some? && |r.value| == |s.currentOperand.value| + 1
      && r.value[..|s.currentOperand.value|] == s.currentOperand.value
  {
  }

  /** The second "." check of ADD_DIGIT is dead code: "." is a separator,
      so the separator case has already answered it. Without the check
      ADD_DIGIT gives the same state from every state and for every key. */
  lemma SecondPointCheckUnreachable(s: State, digit: Option<string>)
    ensures AddDigitCases(s, digit, true) == AddDigitCases(s, digit, false)
  {
  }

  /** DELETE_DIGIT undoes an accepted key, except where the key also
      inserted the implicit "0" or the operand was "". */
  lemma DeleteUndoesAddDigit(ar: Calculator.Arithmetic, s: State, d: string)
    requires !s.overwrite && IsKeypadKey(d) && !RejectsKey(s, Some(d), MaxDigits)
    requires s.currentOperand != Some("")
    requires s.currentOperand == None ==> !IsSeparator(Some(d))
    ensures Reduce(ar, Reduce(ar, s, AddDigit(Some(d))), DeleteDigit) == s
  {
  }

  /** After a successful EVALUATE the next key replaces the result instead
      of extending it. */
  lemma EvaluateThenDigitReplaces(ar: Calculator.Arithmetic, s: State, d: string)
    requires Truthy(s.operation) && Truthy(s.currentOperand) && Truthy(s.previousOperand)
    ensures Reduce(ar, Reduce(ar, s, Evaluate), AddDigit(Some(d))) == State(Some(d), None, None, false)
  {
  }

  /** A keypad key keeps the state well-formed. */
  lemma AddDigitPreservesWellformed(s: State, digit: Option<string>)
    requires Wellformed(s, MaxDigits)
    requires digit.None? || IsKeypadKey(digit.value)
    ensures Wellformed(OnAddDigit(s, digit), MaxDigits)
  {
    var r := OnAddDigit(s, digit);
    if !s.overwrite && !RejectsKey(s, digit, MaxDigits) {
      var d := NullishOr(digit, "");
      if s.currentOperand.Some? {
        var c := s.currentOperand.value;
        assert r.currentOperand.value == c + d;
        assert multiset(c + d) == multiset(c) + multiset(d);
        assert d == "." ==> multiset(c)['.'] == 0;
        assert |c| >= 2 ==> (c + d)[0] == c[0] && (c + d)[1] == c[1];
        assert |c| == 1 && c[0] == '0' ==> c == "0";
        assert |d| == 1 && d[0] == '0' ==> d == "0";
      } else {
        assert r.currentOperand.value == (if IsSeparator(digit) then "0" else "") + d;
      }
    }
  }

  /** Deleting keeps the state well-formed: what is left of an operand is a
      prefix of it. */
  lemma DeleteDigitPreservesWellformed(s: State)
    requires Wellformed(s, MaxDigits)
    ensures Wellformed(OnDeleteDigit(s), MaxDigits)
  {
  }

  /** Every keypad action keeps the state well-formed. */
  lemma ReducePreservesWellformed(ar: Calculator.Arithmetic, s: State, a: Action)
    requires Wellformed(s, MaxDigits) && Keystroke(a)
    ensures Wellformed(Reduce(ar, s, a), MaxDigits)
  {
    match a
    case AddDigit(digit) => AddDigitPreservesWellformed(s, digit);
    case DeleteDigit => DeleteDigitPreservesWellformed(s);
    case _ =>
  }

  /** Every state reached by keypad actions from a well-formed state is
      well-formed: in particular the operand being typed never exceeds 15
      characters or holds two points. */
  lemma RunPreservesWellformed(ar: Calculator.Arithmetic, s: State, actions: seq<Action>)
    requires Wellformed(s, MaxDigits)
    requires forall i :: 0 <= i < |actions| ==> Keystroke(actions[i])
    ensures Wellformed(Sessions.Run(Step(ar), s, actions), MaxDigits)
  {
    forall t, a | Wellformed(t, MaxDigits) && Keystroke(a)
      ensures Wellformed(Step(ar)(t, a), MaxDigits)
    {
      ReducePreservesWellformed(ar, t, a);
    }
    Sessions.RunKeepsWellformed(Step(ar), MaxDigits, s, actions);
  }

  // ---------------------------------------------------------------------------
  // Sessions

  /** 1 + 2 = shows the sum in overwrite mode with nothing pending. */
  lemma SumSession(ar: Calculator.Arithmetic)
    requires ar.isNumber("1") && ar.isNumber("2")
    ensures Sessions.Run(Step(ar), Initial, [AddDigit(Some("1")), ChooseOperation(Some("+")), AddDigit(Some("2")), Evaluate])
         == State(Some(ar.plus("1", "2")), None, None, true)
  {
    assert !IsSeparator(Some("1")) && !IsSeparator(Some("2")) && "1" != "0" && "2" != "0";
    assert "" + "1" == "1" && "" + "2" == "2";
    var s1 := Reduce(ar, Initial, AddDigit(Some("1")));
    assert s1 == State(Some("1"), None, None, false);
    var s2 := Reduce(ar, s1, ChooseOperation(Some("+")));
    assert s2 == State(None, Some("1"), Some("+"), false);
    var s3 := Reduce(ar, s2, AddDigit(Some("2")));
    assert s3 == State(Some("2"), Some("1"), Some("+"), false);
    assert Reduce(ar, s3, Evaluate) == State(Some(ar.plus("1", "2")), None, None, true);
  }

  /** Choosing "*" on 5 + 2 folds 5 + 2 into the left operand. */
  lemma ChainedOperationSession(ar: Calculator.Arithmetic)
    requires ar.isNumber("5") && ar.isNumber("2")
    ensures Reduce(ar, State(Some("2"), Some("5"), Some("+"), false), ChooseOperation(Some("*")))
         == State(None, Some(ar.plus("5", "2")), Some("*"), false)
  {
  }

  /** A comma is appended as typed and never counts as a point, so an
      operand can hold several of them. */
  lemma CommaIsAppendedVerbatim(ar: Calculator.Arithmetic)
    ensures Sessions.Run(Step(ar), Initial, [AddDigit(Some("1")), AddDigit(Some(",")), AddDigit(Some("2")), AddDigit(Some(","))]).currentOperand
         == Some("1,2,")
  {
    assert !IsSeparator(Some("1")) && !IsSeparator(Some("2")) && "1" != "0" && "2" != "0";
    assert !HasPoint(Some("1")) && !HasPoint(Some("1,")) && !HasPoint(Some("1,2"));
    assert "" + "1" == "1" && "1" + "," == "1," && "1," + "2" == "1,2" && "1,2" + "," == "1,2,";
    var s1 := Reduce(ar, Initial, AddDigit(Some("1")));
    assert s1.currentOperand == Some("1");
    var s2 := Reduce(ar, s1, AddDigit(Some(",")));
    assert s2.currentOperand == Some("1,");
    var s3 := Reduce(ar, s2, AddDigit(Some("2")));
    assert s3.currentOperand == Some("1,2");
    assert Reduce(ar, s3, AddDigit(Some(","))).currentOperand == Some("1,2,");
  }

  /** Only "0" after "0" is refused: a leading zero followed by another
      digit is kept. */
  lemma LeadingZeroIsKept(ar: Calculator.Arithmetic)
    ensures Sessions.Run(Step(ar), Initial, [AddDigit(Some("0")), AddDigit(Some("0")), AddDigit(Some("5"))]).currentOperand
         == Some("05")
  {
    assert !IsSeparator(Some("0")) && !IsSeparator(Some("5")) && "5" != "0";
    assert "" + "0" == "0" && "0" + "5" == "05";
    var s1 := Reduce(ar, Initial, AddDigit(Some("0")));
    assert s1.currentOperand == Some("0");
    var s2 := Reduce(ar, s1, AddDigit(Some("0")));
    assert s2 == s1;
    assert Reduce(ar, s2, AddDigit(Some("5"))).currentOperand == Some("05");
  }
}
