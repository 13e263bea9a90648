/**
 The calculator's data model: the display state the reducer owns, the actions
 the user interface dispatches, and the JavaScript coercions (`??`, `||`,
 truthiness) that the two reducer copies apply to nullable strings.
 */
module Types {

  /** A nullable value: `None` is JavaScript's `null` (or an absent field). */
  datatype Option<+T> = None | Some(value: T)

  /** The calculator display state. `overwrite` is optional in the source;
      an absent flag behaves as `false` everywhere it is read. */
  datatype State = State(
    currentOperand: Option<string>,
    previousOperand: Option<string>,
    operation: Option<string>,
    overwrite: bool)

  /** The state the user interface starts from, and the one CLEAR returns to. */
  const Initial: State := State(None, None, None, false)

  // ---------------------------------------------------------------------------
  // Actions

  /** The `type` strings of the five known actions. */
  const ADD_DIGIT: string := "add-digit"
  const CHOOSE_OPERATION: string := "choose-operation"
  const CLEAR: string := "clear"
  const DELETE_DIGIT: string := "delete-digit"
  const EVALUATE: string := "evaluate"

  predicate IsKnownTag(kind: string) {
    kind == ADD_DIGIT || kind == CHOOSE_OPERATION || kind == CLEAR
    || kind == DELETE_DIGIT || kind == EVALUATE
  }

  /** An action, one variant per case of the reducer's `switch`. A digit or an
      operator the payload does not carry is `None`; any other `type` string
      is `Unknown`. */
  datatype Action =
    | AddDigit(digit: Option<string>)
    | ChooseOperation(operation: Option<string>)
    | Clear
    | DeleteDigit
    | Evaluate
    | Unknown(kind: string)

  /** The `type` string an action travels with. */
  function Tag(a: Action): string {
    match a
    case AddDigit(_) => ADD_DIGIT
    case ChooseOperation(_) => CHOOSE_OPERATION
    case Clear => CLEAR
    case DeleteDigit => DELETE_DIGIT
    case Evaluate => EVALUATE
    case Unknown(k) => k
  }

  /** `payload?.digit` and `payload?.operation` of an action. */
  function DigitOf(a: Action): Option<string> {
    if a.AddDigit? then a.digit else None
  }

  function OperationOf(a: Action): Option<string> {
    if a.ChooseOperation? then a.operation else None
  }

  /** An action is well-formed when an `Unknown` one does not carry the tag of
      a known action: exactly the actions `Classify` can produce. */
  predicate WellTagged(a: Action) {
    a.Unknown? ==> !IsKnownTag(a.kind)
  }

  /** The reducer's dispatch on the action's `type` string: the payload
      fields the chosen case reads are passed on, the others are dropped. */
  function Classify(kind: string, digit: Option<string>, operation: Option<string>): (a: Action)
    ensures Tag(a) == kind && WellTagged(a)
    ensures a.Unknown? <==> !IsKnownTag(kind)
    ensures a.AddDigit? ==> a.digit == digit
    ensures a.ChooseOperation? ==> a.operation == operation
  {
    if kind == ADD_DIGIT then AddDigit(digit)
    else if kind == CHOOSE_OPERATION then ChooseOperation(operation)
    else if kind == CLEAR then Clear
    else if kind == DELETE_DIGIT then DeleteDigit
    else if kind == EVALUATE then Evaluate
    else Unknown(kind)
  }

  /** Sending a well-formed action as its tag and payload and classifying it
      again gives the action back. */
  lemma ClassifyTagRoundTrip(a: Action)
    requires WellTagged(a)
    ensures Classify(Tag(a), DigitOf(a), OperationOf(a)) == a
  {
  }

  /** A key of the keypad: one of the ten digits or the two separators. Each
      is a single ASCII character, so its length is the same whether counted
      in characters or in UTF-16 code units. */
  predicate IsKeypadKey(d: string) {
    |d| == 1 && d[0] in "0123456789.,"
  }

  /** An action the keypad can send: a digit action carries a keypad key (or
      nothing). */
  predicate Keystroke(a: Action) {
    a.AddDigit? ==> a.digit.None? || IsKeypadKey(a.digit.value)
  }

  // ---------------------------------------------------------------------------
  // JavaScript coercions on nullable strings

  /** JavaScript truthiness of a nullable string: neither `null` nor `""`. */
  predicate Truthy(o: Option<string>) {
    o.Some? && o.value != ""
  }

  /** `o ?? d`: the default replaces `null` only. */
  function NullishOr(o: Option<string>, d: string): (r: string)
    ensures o.Some? ==> r == o.value
    ensures o.None? ==> r == d
  {
    match o
    case Some(v) => v
    case None => d
  }

  /** `o || d`: the default replaces every falsy value, `""` included. */
  function FalsyOr(o: Option<string>, d: string): (r: string)
    ensures Truthy(o) ==> r == o.value
    ensures !Truthy(o) ==> r == d
  {
    if Truthy(o) then o.value else d
  }

  /** The two coercions differ only on the empty string. */
  lemma NullishOrFalsy(o: Option<string>, d: string)
    ensures NullishOr(o, d) != FalsyOr(o, d) ==> o == Some("") && d != ""
  {
  }

  /** `String.prototype.includes(".")` */
  predicate HasPoint(o: Option<string>) {
    o.Some? && '.' in o.value
  }

  /** The two keys the reducer treats as a decimal separator. */
  predicate IsSeparator(digit: Option<string>) {
    digit == Some(".") || digit == Some(",")
  }

  /** The three reasons ADD_DIGIT (outside overwrite mode) ignores a key:
      the operand is full (`cap` characters or more), a separator is pressed
      while the operand already has a point, or "0" is pressed on "0". */
  predicate RejectsKey(s: State, digit: Option<string>, cap: nat) {
    || (Truthy(s.currentOperand) && |s.currentOperand.value| >= cap)
    || (IsSeparator(digit) && HasPoint(s.currentOperand))
    || (digit == Some("0") && s.currentOperand == Some("0"))
  }

  function Length(o: Option<string>): nat {
    if o.Some? then |o.value| else 0
  }

  // ---------------------------------------------------------------------------
  // The invariant the reducers keep

  /** An operand being typed: at most `cap` characters, at most one decimal
      point, and never a redundant leading zero ("00..."). */
  predicate TypedOperand(o: Option<string>, cap: nat) {
    o.Some? ==>
      && |o.value| <= cap
      && multiset(o.value)['.'] <= 1
      && !(|o.value| >= 2 && o.value[0] == '0' && o.value[1] == '0')
  }

  /** A pending operator always has a left operand, and unless the display
      shows a result (overwrite mode) the current operand is one being typed. */
  predicate Wellformed(s: State, cap: nat) {
    && (s.operation.Some? ==> s.previousOperand.Some?)
    && (!s.overwrite ==> TypedOperand(s.currentOperand, cap))
  }

  lemma InitialWellformed(cap: nat)
    ensures Wellformed(Initial, cap)
  {
  }
}
