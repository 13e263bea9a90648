# Calculator reducer, modelled in Dafny

The calculator keeps its whole display in one record, `{currentOperand,
previousOperand, operation, overwrite}`. A reducer replaces that record on
each user action: ADD_DIGIT, CHOOSE_OPERATION, CLEAR, DELETE_DIGIT or
EVALUATE. Any other action type leaves the record as it is. The reducer
exists twice: once in the shared package, once in the web page. This project
models both copies and the `evaluate` function they call, and proves what
the copies promise.

Files:

- `types.dfy` (module `Types`) holds the state, the actions and their `type`
  strings. It also defines the JavaScript coercions the reducers use on
  nullable strings: `??`, `||` and truthiness. Finally it defines the
  invariant `Wellformed`.
- `calculator.dfy` (module `Calculator`) models `evaluate`. It keeps the
  dispatch on the operator, the `|| ""` coercion and the NaN check. The
  floating-point primitives are a parameter of type `Arithmetic`.
- `reducer.dfy` (module `Reducer`) is the shared copy. It caps an operand
  at 15 characters, defaults with `??`, and guards with falsy checks.
- `app.dfy` (module `WebApp`) is the web copy. It caps at 16, defaults with
  `||`, and guards with `== null`. Its CHOOSE_OPERATION and CLEAR cases
  are identical to the shared copy's, so it reuses them.
- `sessions.dfy` (module `Sessions`) applies either reducer to a sequence
  of actions, as `useReducer` does, and proves once that a reducer keeping
  the invariant on each keypad action keeps it over every sequence.
- `agreement.dfy` (module `Agreement`) proves that the two copies agree on
  every action when three conditions hold: no field is `""`, the operand
  is not exactly 15 characters long, and no absent digit replaces a shown
  result (`s.overwrite ==> a != AddDigit(None)`). Each of these exclusions
  is shown to be needed.

Modelling choices:

- A nullable string is `Option<string>`.
- An action is a tagged union. `Types.Classify` maps a raw action to it.
  The raw action is the `type` string plus `payload?.digit` and
  `payload?.operation`.
- A "no-op" means the result equals the input as a value.
- The floating-point work inside `evaluate` is a parameter: `parseFloat`,
  IEEE-754 arithmetic and `toString`. The one property of it the reducers
  rely on is that `parseFloat("")` is NaN. That property is the predicate
  `Calculator.ParsesEmptyAsNaN`, and lemmas that need it take it as a
  precondition.

In three places the code differs from what a reader of its design would
expect. The model follows the code:

- The decimal-separator keys `"."` and `","` are appended verbatim, and
  only `"."` counts as an existing point. A comma is therefore never
  converted, and an operand can hold several commas
  (`Reducer.CommaIsAppendedVerbatim`).
- The only zero refused is `"0"` pressed on exactly `"0"`. A leading zero
  followed by another digit stays (`"05"`, `Reducer.LeadingZeroIsKept`).
  What the reducers do guarantee is that an operand never starts with
  `"00"` (`Types.TypedOperand`).
- In the shared copy, EVALUATE also treats an empty part as missing,
  not only a null one.

The second `"."` check of ADD_DIGIT (`reducer.ts:54`, `App.tsx:42`) is
unreachable, because `"."` is a separator and the separator case answers
it first. Each copy's `AddDigitCases` keeps the check, switched by a flag;
`OnAddDigit` is `AddDigitCases` with the check on, as written. The lemmas
`SecondPointCheckUnreachable` prove that switching it off changes nothing.

## Model

| member | source | states |
|---|---|---|
| `Types.Classify` | packages/shared/src/reducer.ts:3-19 | The switch on `type`. The result carries the given tag. It is `Unknown` exactly when the tag is none of the five `ACTIONS` strings. ADD_DIGIT keeps the payload's digit and CHOOSE_OPERATION keeps its operator. |
| `Types.ClassifyTagRoundTrip` | packages/shared/src/reducer.ts:3-9 | Sending a well-tagged action as its tag and payload, then classifying it again, gives the same action. |
| `Types.NullishOr` | packages/shared/src/reducer.ts:37 | `o ?? d`: the default replaces `null` only. |
| `Types.FalsyOr` | src/App.tsx:39 | `o \|\| d`: the default replaces `null` and `""`. |
| `Types.NullishOrFalsy` | src/App.tsx:46 | `??` and `\|\|` give different results only when the value is `""`. |
| `Types.InitialWellformed` | src/App.tsx:156-161 | The initial state satisfies the invariant, whatever the cap. |
| `Calculator.Evaluate` | packages/shared/src/calculator.ts:1-28 | These cases yield `""`: an operator other than `+ - * /` (null included), and an operand that is not a number after `\|\| ""`. Otherwise the result is the operator applied with the previous operand on the left. |
| `Calculator.EvaluateMissingOperand` | packages/shared/src/calculator.ts:6-8 | A null or empty operand makes the result `""`, because `parseFloat("")` is NaN. |
| `Calculator.EvaluateNonEmpty` | packages/shared/src/calculator.ts:6-27 | A non-empty result comes only from a known operator and two non-empty operands that parse as numbers. |
| `Reducer.OnAddDigit` | packages/shared/src/reducer.ts:33-62 | The key never changes `previousOperand` or `operation`, and always clears `overwrite`. In overwrite mode the digit, possibly null, replaces the operand. A full operand (15 or more characters), a second point, or `"0"` on `"0"` leaves the state unchanged. Any other key is appended verbatim. On a null operand a separator gets a `"0"` in front. |
| `Reducer.OnChooseOperation` | packages/shared/src/reducer.ts:64-91 | The operand always ends null and `overwrite` is untouched. With both operands null the state is unchanged. Otherwise the new operator is pending. The left operand is kept when the current one is null, and takes the current one's place when it was null. When both are present it becomes `evaluate(current, previous, old operator)`. |
| `Reducer.OnDeleteDigit` | packages/shared/src/reducer.ts:101-110 | In overwrite mode the result is deleted whole. A null or `""` operand leaves the state unchanged. Otherwise the last character goes, and a one-character operand becomes null. The left operand and operator are never touched, and `overwrite` ends false. |
| `Reducer.OnEvaluate` | packages/shared/src/reducer.ts:112-126 | The state is unchanged unless operator, operand and left operand are all non-null and non-empty. Otherwise the operand becomes `evaluate(...)`, the left operand and operator become null, and `overwrite` becomes true. |
| `Reducer.Reduce` | packages/shared/src/reducer.ts:28-131 | CLEAR yields the initial state. An unknown type is a no-op. Only EVALUATE turns overwrite mode on. |
| `Reducer.ClearIsIdempotent` | packages/shared/src/reducer.ts:93-99 | CLEAR from any state gives the initial state, and CLEAR after CLEAR is CLEAR. |
| `Reducer.AddDigitWithinCap` | packages/shared/src/reducer.ts:42-43 | A single key never makes the typed operand longer than 15 characters. |
| `Reducer.AddDigitGrowsByOne` | packages/shared/src/reducer.ts:56-61 | An accepted keypad key grows an existing operand by exactly one character. The old operand stays as a prefix. |
| `Reducer.SecondPointCheckUnreachable` | packages/shared/src/reducer.ts:33-62 | ADD_DIGIT with the second `"."` check (line 54) and without it give the same state, from every state and for every key: the check is dead code. |
| `Reducer.DeleteUndoesAddDigit` | packages/shared/src/reducer.ts:101-110 | DELETE_DIGIT after an accepted key restores the state exactly. The exceptions are a separator on a null operand and a `""` operand. |
| `Reducer.EvaluateThenDigitReplaces` | packages/shared/src/reducer.ts:34-40 | After a successful EVALUATE, the next key replaces the result with itself and leaves overwrite mode. |
| `Reducer.AddDigitPreservesWellformed` | packages/shared/src/reducer.ts:42-61 | A keypad key keeps the invariant. The typed operand stays within 15 characters, has at most one point and never starts with `"00"`. A pending operator keeps its left operand. |
| `Reducer.DeleteDigitPreservesWellformed` | packages/shared/src/reducer.ts:105-109 | DELETE_DIGIT keeps the invariant. |
| `Reducer.ReducePreservesWellformed` | packages/shared/src/reducer.ts:32-130 | Every keypad action keeps the invariant. |
| `Reducer.RunPreservesWellformed` | packages/shared/src/reducer.ts:28-131 | Every state the shared reducer reaches by a sequence of keypad actions from a well-formed state is well-formed. |
| `Reducer.SumSession` | packages/shared/src/reducer.ts:64-126 | 1, +, 2, = shows `1 + 2` in overwrite mode, with nothing pending. |
| `Reducer.ChainedOperationSession` | packages/shared/src/reducer.ts:81-90 | Choosing `*` on `5 + 2` makes `5 + 2` the left operand with `*` pending. |
| `Reducer.CommaIsAppendedVerbatim` | packages/shared/src/reducer.ts:45-52 | Keys 1 , 2 , give the operand `"1,2,"`. |
| `Reducer.LeadingZeroIsKept` | packages/shared/src/reducer.ts:56 | Keys 0 0 5 give `"05"`: only the second `"0"` is refused. |
| `WebApp.DropLast` | src/App.tsx:100 | `slice(0, -1)` removes the last character and leaves `""` as `""`. |
| `WebApp.OnAddDigit` | src/App.tsx:24-47 | Same as the shared copy, with three differences. In overwrite mode an absent digit gives `""`, never null. The cap is 16. A null or `""` operand is the base for a new one. |
| `WebApp.OnDeleteDigit` | src/App.tsx:83-101 | In overwrite mode the result is deleted whole. A null operand is unchanged, and so is `""` (as a value, via `slice`). Otherwise the last character goes, and a one-character operand becomes null. |
| `WebApp.OnEvaluate` | src/App.tsx:103-113 | The state is unchanged only if a part is null. Otherwise the expression is evaluated, empty parts included, and shown in overwrite mode. |
| `WebApp.Reduce` | src/App.tsx:22-118 | CLEAR yields the initial state. An unknown type is a no-op. Only EVALUATE turns overwrite mode on. |
| `WebApp.ChooseOperationAndClearAsShared` | src/App.tsx:49-81 | CHOOSE_OPERATION and CLEAR give the same state as the shared copy. This holds by construction, since `WebApp.Reduce` reuses the shared cases; that the two source texts are the same was checked by reading them, and the lemma records it. |
| `WebApp.EmptyOperandTypesLikeNull` | src/App.tsx:32-47 | Outside overwrite mode, a key does the same on a `""` operand as on a null one. |
| `WebApp.AddDigitWithinCap` | src/App.tsx:32 | A single key never makes the typed operand longer than 16 characters. |
| `WebApp.SecondPointCheckUnreachable` | src/App.tsx:24-47 | ADD_DIGIT with the second `"."` check (line 42) and without it give the same state, from every state and for every key: the check is dead code. |
| `WebApp.EvaluateEmptyOperand` | src/App.tsx:103-113 | An expression with an empty operand evaluates to `""`, shown in overwrite mode. |
| `WebApp.DeleteUndoesAddDigit` | src/App.tsx:83-101 | DELETE_DIGIT after an accepted key restores the state exactly. The exceptions are as in the shared copy. |
| `WebApp.AddDigitPreservesWellformed` | src/App.tsx:32-47 | A keypad key keeps the invariant, with a cap of 16. |
| `WebApp.DeleteDigitPreservesWellformed` | src/App.tsx:91-101 | DELETE_DIGIT keeps the invariant. |
| `WebApp.ReducePreservesWellformed` | src/App.tsx:23-117 | Every keypad action keeps the invariant. |
| `WebApp.RunPreservesWellformed` | src/App.tsx:156-163 | Every state the web reducer reaches by keypad actions from a well-formed state is well-formed. |
| `Sessions.RunKeepsWellformed` | src/App.tsx:163 | A reducer that keeps the invariant on each keypad action keeps it over every sequence of them, applied one after the other as `useReducer` dispatches them. |
| `Agreement.CopiesAgree` | src/App.tsx:22-118 | Both copies give the same next state when three conditions hold: no field is `""`, the operand is not exactly 15 characters, and no absent digit replaces a shown result. |
| `Agreement.CopiesDifferAtFifteen` | src/App.tsx:32 | At 15 characters the shared copy refuses a digit and the web copy appends it. |
| `Agreement.CopiesDifferOnEmptyOperandSeparator` | src/App.tsx:39 | A separator on `""` gives `"."` in the shared copy and `"0."` in the web copy. |
| `Agreement.CopiesDifferOnEmptyPart` | src/App.tsx:104 | EVALUATE with an empty part is ignored by the shared copy. The web copy evaluates it. |
| `Agreement.CopiesDifferOnAbsentDigit` | src/App.tsx:28 | An absent digit after a result gives null in the shared copy and `""` in the web copy. |

## Left out

- The floating-point arithmetic of `evaluate`: `parseFloat`, IEEE-754
  operations including division by zero, and `Number.prototype.toString`.
  These are the fields of `Calculator.Arithmetic`. Results such as
  `evaluate("2","3","+") == "5"` are therefore not stated.
- `evaluate` in `src/App.tsx:120-142` is the same code as the shared one.
  It takes the state instead of its three fields, and it is modelled once.
- `formatOperand`: locale grouping through `Intl.NumberFormat`, a library
  that is not part of this model.
- The `App` components of the web page and of `apps/mobile`: rendering,
  `useReducer` wiring and logging. `Sessions.Run` stands for a sequence of
  dispatches.
- `src/actions`, which holds the web page's action strings, is not part of
  this model. Its strings are assumed to equal the shared `ACTIONS`.
- Object identity: "return state" and a fresh spread copy are the same value
  here.
- The optional `overwrite?` field: an absent flag is modelled as `false`.
  The only place the difference is visible is the returned object, never
  the reducers' behaviour.
- String lengths count characters (Unicode scalar values), while the
  source's `.length` and `slice` count UTF-16 code units. The two agree on
  the keypad's keys, all single ASCII characters, so the lemmas about
  lengths (`AddDigitWithinCap`, `AddDigitGrowsByOne`,
  `DeleteUndoesAddDigit`, the `Wellformed` invariant) take keypad keys
  (`Types.IsKeypadKey`). The 15- and 16-character caps are stated in
  characters and match the source only for operands of such keys.
