# Brainfuck interpreter, modelled in Dafny

The repository is a Python interpreter for Brainfuck: eight one-character
instructions acting on a tape of 8-bit cells with a data pointer. Its logic
lives in one class, `Interpreter`, of which the repository carries two
diverging copies:

- `interpreter.py`, the standalone script. It keeps the eight instructions
  when loading and raises when the program accumulated so far is still
  empty. It reads raw characters from the terminal. Its backward jump
  counts nesting.
- `src/interpreter.py`, the importable copy. It keeps `|` instead of `,`
  when loading and never rejects a program. It reads whole lines from
  standard input. Its backward jump goes to the nearest `[` without
  counting nesting.

Both copies share the tape handlers (`>`, `<`, `+`, `-` and the store of
`,`). Both jump forward to the first `]` after the `[` without counting
nesting. Both use `_fetch_execute`, which runs the handler and then adds one
to the instruction pointer, and `start`, which is single-use through the
`ready` flag.

The model has these modules:

- `Common`: the exceptions, as one `Fault` per reason the code raises, and the
  `Transition` of a handler. A transition records the state at the moment
  of a raise, because the code moves its pointers before raising.
- `Memory`: the tape as a value (`TapeState`) with one function per
  handler, and a `Tape` class whose methods update `memory` and
  `dataPointer` in place. Each method is proved equal to its function.
- `Loader`: the filtering loop of `load_program`, over an alphabet.
- `Brackets`: the scans of the bracket handlers as functions, and what they
  find.
- `Standalone` and `Library`: each copy as a `Machine` value with one
  function per handler, `Dispatch`, `Step` (`_fetch_execute`), `Loop` and
  `Run` (`start`). Each also has an `Interpreter` class whose methods
  mirror the Python ones field by field, loops included, and are proved
  against those functions.
- `StandaloneScenarios` and `LibraryScenarios`: whole runs of small
  programs, from a fresh object through `load_program` and `start`.

`start` loops until `_fetch_execute` reports the end, and some programs
never end. The model therefore gives `start` a step budget, `fuel`, and
reports `OutOfFuel` when the budget is spent. `LoopFuelMonotone` shows that
the budget never changes how a run that ends within it ends.

### Where the code departs from standard Brainfuck

In standard Brainfuck a `[` on a zero cell jumps past its matching `]`, and
a `]` on a nonzero cell jumps back to its matching `[`, counting nesting in
both directions. The model follows the code, which does not always do so,
and in which the two copies also differ from each other:

- The forward jump of both copies stops at the first `]` after the `[`,
  whatever lies in between (`Standalone.JumpForwardFindsFirstClose`,
  `Library.JumpForwardFindsFirstClose`).
- The standalone backward jump inspects position 0 only when the scan starts
  there, so a `[` at position 0 is the target only of a `]` at position 1
  (`Standalone.JumpBackwardReachesZeroOnlyFromOne`). A `]` further on that
  belongs to a `[` at 0 raises instead (`StandaloneScenarios.NestedSkipRaises`).
  The library backward jump never inspects position 0 at all
  (`Library.JumpBackwardFindsNearestOpen`).
- The library copy's backward jump goes to the nearest `[` without counting
  nesting (`Library.JumpBackwardFindsNearestOpen`). With the forward jump,
  this makes `[[+]-]` loop forever on a fresh tape
  (`LibraryScenarios.NestedSkipDiverges`). The standalone copy raises on the
  same program instead.
- The standalone loader keeps `,`. The library loader drops it and keeps
  `|` instead, which has no handler. A `|` raises KeyError when reached
  (`Library.PipeRaisesKeyError`), and no program the library loads ever
  reads input (`Library.LoadedProgramNeverReads`).
- The standalone loader raises ValueError when the program accumulated so
  far is still empty after loading (`Standalone.Load`). The library loader
  accepts that case, and `start` then fails indexing the empty program
  (`Library.EmptyProgramFailsAtStart`).

## Model

| member | source | states |
|---|---|---|
| Memory.WrapIncrement | interpreter.py:68-70 | on a byte, `+` yields a byte equal to (v + 1) mod 256 |
| Memory.WrapDecrement | interpreter.py:76-78 | on a byte, `-` yields a byte equal to (v + 255) mod 256 |
| Memory.WrapInverse | interpreter.py:64-78 | the two cell updates undo each other on every byte |
| Memory.Pad | interpreter.py:53-54 | the zero-padding loop makes the memory max(old length, index + 1) long, keeps every old cell and adds only zeros |
| Memory.MoveRight | interpreter.py:46-54 | `>` moves the pointer first and raises exactly when it reaches 30000, leaving the memory alone; otherwise the memory grows to max(old length, pointer + 1), old cells kept and new cells 0, and the tape stays valid |
| Memory.MoveLeft | interpreter.py:56-62 | `<` moves the pointer first, never touches memory and raises exactly when the pointer was 0 |
| Memory.Increment | interpreter.py:64-70 | `+` sets the current cell to (v + 1) mod 256; no other cell, the length and the pointer stay |
| Memory.Decrement | interpreter.py:72-78 | `-` sets the current cell to (v + 255) mod 256; no other cell, the length and the pointer stay |
| Memory.Write | interpreter.py:90-93 | the store of `,` succeeds exactly for a code point in [0, 255], which then becomes the current cell; otherwise it raises ValueError with the tape untouched; no other cell changes |
| Memory.IncrementDecrementInverse | interpreter.py:64-78 | `+` then `-`, or `-` then `+`, gives back the same tape |
| Memory.MoveInverse | interpreter.py:46-62 | `>` undoes a successful `<` exactly; `<` after a successful `>` restores the pointer, leaving only the appended zero cells |
| Memory.Apply | interpreter.py:46-93 | every tape handler keeps the tape valid when it succeeds and never shortens the memory |
| Memory.LengthIsHighWaterMark | interpreter.py:50-54 | after any fault-free sequence of tape handlers, the memory is exactly one longer than the furthest position the pointer visited (or its old length, if larger) |
| Memory.FreshLengthIsHighWaterMark | interpreter.py:50-54 | from the initial one-cell tape, the length after a fault-free run is the furthest position plus one |
| Memory.RightsFrom | interpreter.py:50-54 | from position k of an all-zero tape, n moves right succeed while k + n < 30000 and give an all-zero tape of k + n + 1 cells; otherwise they raise with the pointer at 30000 |
| Memory.RightsFromFresh | interpreter.py:50-52 | from a fresh tape the 30000th `>` is the first to raise |
| Memory.Tape.constructor | interpreter.py:20-24 | a new tape is one zero cell with the pointer on it |
| Memory.Tape.IncrementPointer | interpreter.py:46-54 | the in-place `>`, padding loop included, ends in the state and outcome of `MoveRight` |
| Memory.Tape.DecrementPointer | interpreter.py:56-62 | the in-place `<` ends in the state and outcome of `MoveLeft` |
| Memory.Tape.IncrementValue | interpreter.py:64-70 | the in-place `+` ends in the state of `Increment` |
| Memory.Tape.DecrementValue | interpreter.py:72-78 | the in-place `-` ends in the state of `Decrement` |
| Memory.Tape.StoreValue | interpreter.py:91-93 | the in-place check and store ends in the state and outcome of `Write` |
| Loader.Filter | interpreter.py:38-41 | the loaded program is no longer than the text and holds only alphabet characters |
| Loader.FilterAppend | interpreter.py:38-41 | loading is character by character: the program for a + b is the program for a followed by that for b |
| Loader.FilterKeepsInstructions | interpreter.py:38-41 | a text made only of instructions is kept whole, in order |
| Loader.FilterIdempotent | interpreter.py:38-41 | loading an already loaded program changes nothing |
| Loader.FilterEmptyIff | interpreter.py:38-43 | the loaded program is empty exactly when no character of the text is an instruction |
| Loader.FilterIgnoresComments | interpreter.py:38-41 | inserting non-instruction characters anywhere leaves the loaded program unchanged |
| Loader.FilterCounts | interpreter.py:38-41 | every occurrence of an instruction character survives and no other character does |
| Brackets.FirstClose | interpreter.py:100-103 | the forward scan's stop is the first `]` at or after the start, with none skipped; there is none exactly when no `]` lies ahead |
| Brackets.BackScan | interpreter.py:110-122 | a successful backward scan stops at a `[` (Python indexing, so -1 is the last position) at or below where it started |
| Brackets.NearestOpen | src/interpreter.py:94-99 | the library backward scan stops at the nearest `[` at or below the start and at 1 or above, with no `[` in between; there is none exactly when positions 1 to the start hold no `[` |
| Brackets.BackScanFindsPartner | interpreter.py:110-122 | the counter scan finds the properly nested partner among the positions it inspects, and fails only when none of them is one |
| Brackets.PartnerIsNearest | interpreter.py:113-119 | no `[` between a partner and the `]` is also a partner, so the partner is unique |
| Brackets.BackScanBalances | interpreter.py:109-122 | from a `]` at p >= 2 the scan succeeds exactly when some `[` in 1 .. p-1 encloses a balanced stretch, and stops at the nearest one |
| Standalone.Initial | interpreter.py:19-35 | a new interpreter is valid, not ready and has an empty program |
| Standalone.Load | interpreter.py:37-44 | `load_program` appends exactly the filtered text, changes nothing else, raises ValueError exactly when the program is still empty, and otherwise sets `ready` |
| Standalone.Print | interpreter.py:80-84 | `.` appends exactly the current cell, a byte, to the output and changes nothing else |
| Standalone.Scan | interpreter.py:86-93 | `,` raises TypeError with no input left; otherwise it consumes one code point and stores it exactly when it is a byte, leaving the tape alone on a raise; the pointer, the memory length and every other cell never change |
| Standalone.JumpForward | interpreter.py:95-103 | `[` changes only the instruction pointer, nothing on a nonzero cell, stays in the program on success and raises RuntimeError with the pointer at the end |
| Standalone.JumpForwardFindsFirstClose | interpreter.py:99-103 | on a zero cell `[` lands on the first `]` after it, whatever lies in between, and raises exactly when there is none |
| Standalone.JumpBackward | interpreter.py:105-122 | `]` changes only the instruction pointer, nothing on a zero cell, lands on a `[` below it on success and raises RuntimeError with the pointer at 0 or below |
| Standalone.JumpBackwardFindsPartner | interpreter.py:109-122 | from p >= 2 on a nonzero cell `]` succeeds exactly when a properly nested partner exists at 1 or above, and lands on it |
| Standalone.JumpBackwardReachesZeroOnlyFromOne | interpreter.py:109-122 | on a nonzero cell `]` lands on position 0 exactly when it is at position 1 and a `[` is at 0 |
| Standalone.Dispatch | interpreter.py:26-35 | the dispatch table never changes the program or `ready`, keeps the tape valid on success, moves the instruction pointer only for brackets, never shortens memory and has an entry for every loadable character |
| Standalone.Step | interpreter.py:124-127 | `_fetch_execute` has the outcome of the dispatched handler and its state, with the instruction pointer advanced by exactly one when the handler succeeded; it reports the end exactly when the pointer equals the program length, and raises IndexError when fetching at the end of the program |
| Standalone.Loop | interpreter.py:133-134 | the driver loop never returns False, keeps the program, and returns True only at the end of the program |
| Standalone.Continue | interpreter.py:133-135 | after one round, a raise ends the loop with that exception and the state at the raise, a reported end returns True with that state, and any other outcome goes on with the same guarantees |
| Standalone.LoopUnfolds | interpreter.py:133-135 | with budget left, the driver loop is one `_fetch_execute` followed by the decision on its outcome |
| Standalone.Run | interpreter.py:129-135 | `start` returns False and changes nothing unless ready, always clears `ready`, and returns True only at the end of the program |
| Standalone.RunIsSingleUse | interpreter.py:129-132 | a second `start` after a completed run returns False and changes nothing |
| Standalone.LoopFuelMonotone | interpreter.py:133-135 | a run that ends within its step budget ends the same way with any larger budget |
| Standalone.ContinueFuelMonotone | interpreter.py:133-135 | the same, for the rest of a run after one round |
| Standalone.Interpreter.constructor | interpreter.py:19-35 | a new object is in the state `Initial` |
| Standalone.Interpreter.LoadProgram | interpreter.py:37-44 | the in-place loading loop ends in the state and outcome of `Load` |
| Standalone.Interpreter.PrintData | interpreter.py:80-84 | the in-place `.` ends in the state of `Print` |
| Standalone.Interpreter.ScanData | interpreter.py:86-93 | the in-place `,` ends in the state and outcome of `Scan` |
| Standalone.Interpreter.LeftConditional | interpreter.py:95-103 | the in-place forward scan loop ends in the state and outcome of `JumpForward` |
| Standalone.Interpreter.RightConditional | interpreter.py:105-122 | the in-place backward scan loop with its counter ends in the state and outcome of `JumpBackward` |
| Standalone.Interpreter.FetchExecute | interpreter.py:124-127 | one in-place round ends in the state, outcome and end flag of `Step` |
| Standalone.Interpreter.Start | interpreter.py:129-135 | the in-place `start` ends in the state and result of `Run` |
| Standalone.Interpreter.Execute | interpreter.py:133-134 | the in-place driver loop ends in the state and result of `Loop` |
| Library.Initial | src/interpreter.py:2-18 | a new interpreter is valid, not ready and has an empty program |
| Library.Load | src/interpreter.py:20-26 | `load_program` appends exactly the filtered text, which never holds `,`, changes nothing else and always sets `ready` |
| Library.Print | src/interpreter.py:62-66 | `.` appends exactly the current cell, a byte, to the output and changes nothing else |
| Library.Scan | src/interpreter.py:68-75 | `,` raises EOFError with no line left; otherwise it consumes one line, raises IndexError on an empty one, and stores its first code point exactly when that is a byte, leaving the tape alone on a raise; the pointer, the memory length and every other cell never change |
| Library.JumpForward | src/interpreter.py:77-87 | `[` changes only the instruction pointer, nothing on a nonzero cell, moves strictly forward on success and raises RuntimeError with the pointer at the end |
| Library.JumpForwardFindsFirstClose | src/interpreter.py:81-87 | on a zero cell `[` lands on the first `]` strictly after it, whatever lies in between, and raises exactly when there is none |
| Library.JumpBackward | src/interpreter.py:89-99 | `]` changes only the instruction pointer, nothing on a zero cell, moves strictly back to 1 or above on success, and raises RuntimeError with the pointer at 0 (or -1 from position 0) |
| Library.JumpBackwardFindsNearestOpen | src/interpreter.py:93-99 | on a nonzero cell `]` lands on the nearest `[` below it, whatever lies in between, and raises exactly when positions 1 and up below it hold no `[` |
| Library.Dispatch | src/interpreter.py:9-18 | the dispatch table never changes the program or `ready`, keeps the tape valid on success, moves the instruction pointer only for brackets, and raises KeyError exactly for characters without an entry |
| Library.Step | src/interpreter.py:101-104 | `_fetch_execute` has the outcome of the dispatched handler and its state, with the instruction pointer advanced by exactly one when the handler succeeded; it reports the end exactly when the pointer equals the program length, and raises IndexError when fetching at the end of the program |
| Library.Loop | src/interpreter.py:110-111 | the driver loop never returns False, keeps the program, and returns True only at the end of the program |
| Library.Continue | src/interpreter.py:110-112 | after one round, a raise ends the loop with that exception and the state at the raise, a reported end returns True with that state, and any other outcome goes on with the same guarantees |
| Library.LoopUnfolds | src/interpreter.py:110-112 | with budget left, the driver loop is one `_fetch_execute` followed by the decision on its outcome |
| Library.Run | src/interpreter.py:106-112 | `start` returns False and changes nothing unless ready, always clears `ready`, and returns True only at the end of the program |
| Library.RunIsSingleUse | src/interpreter.py:106-109 | a second `start` after a completed run returns False and changes nothing |
| Library.LoopFuelMonotone | src/interpreter.py:110-112 | a run that ends within its step budget ends the same way with any larger budget |
| Library.ContinueFuelMonotone | src/interpreter.py:110-112 | the same, for the rest of a run after one round |
| Library.PipeRaisesKeyError | src/interpreter.py:101-104 | a kept `|` reaching execution raises KeyError |
| Library.EmptyProgramFailsAtStart | src/interpreter.py:20-26 | a text without kept characters still makes the interpreter ready, and `start` then raises IndexError |
| Library.StepNeverReads | src/interpreter.py:101-104 | a round on a program without `,` leaves the input alone |
| Library.LoopNeverReads | src/interpreter.py:110-112 | a run of a program without `,` never consumes input |
| Library.ContinueNeverReads | src/interpreter.py:110-112 | the same, for the rest of a run after one round |
| Library.LoadedProgramNeverReads | src/interpreter.py:20-26 | no program loaded into a fresh interpreter ever reads standard input |
| Library.Interpreter.constructor | src/interpreter.py:2-18 | a new object is in the state `Initial` |
| Library.Interpreter.LoadProgram | src/interpreter.py:20-26 | the in-place loading loop ends in the state of `Load` and returns True |
| Library.Interpreter.PrintData | src/interpreter.py:62-66 | the in-place `.` ends in the state of `Print` |
| Library.Interpreter.ScanData | src/interpreter.py:68-75 | the in-place `,` ends in the state and outcome of `Scan` |
| Library.Interpreter.LeftConditional | src/interpreter.py:77-87 | the in-place forward scan loop ends in the state and outcome of `JumpForward` |
| Library.Interpreter.RightConditional | src/interpreter.py:89-99 | the in-place backward scan loop ends in the state and outcome of `JumpBackward` |
| Library.Interpreter.FetchExecute | src/interpreter.py:101-104 | one in-place round ends in the state, outcome and end flag of `Step` |
| Library.Interpreter.Start | src/interpreter.py:106-112 | the in-place `start` ends in the state and result of `Run` |
| Library.Interpreter.Execute | src/interpreter.py:110-111 | the in-place driver loop ends in the state and result of `Loop` |
| StandaloneScenarios.LoadPure | interpreter.py:37-44 | a text of instructions loads whole into a fresh interpreter, which becomes ready |
| StandaloneScenarios.PrintsTwo | interpreter.py:129-135 | `++.` prints the byte 2 and returns True after three rounds |
| StandaloneScenarios.MoverSetup | interpreter.py:64-70 | in `++[>+<-]`, the first two rounds set cell 0 to 2 |
| StandaloneScenarios.MoverEnter | interpreter.py:95-103 | the next two rounds enter the loop on a nonzero cell and move right onto a new zero cell |
| StandaloneScenarios.MoverFirstBody | interpreter.py:56-78 | the rest of the first pass adds one to cell 1, moves back and takes one from cell 0 |
| StandaloneScenarios.MoverJumpBack | interpreter.py:105-122 | the `]` on a nonzero cell jumps back to the `[` at position 2 |
| StandaloneScenarios.MoverSecondBody | interpreter.py:56-78 | the second pass leaves cell 0 at 0 and cell 1 at 2 |
| StandaloneScenarios.MoverFirstPass | interpreter.py:124-127 | seven rounds take `++[>+<-]` from the start to its `]` with one unit moved |
| StandaloneScenarios.MoverSecondPass | interpreter.py:124-127 | five more rounds return to the `]` with both units moved |
| StandaloneScenarios.MoverExits | interpreter.py:124-127 | the `]` on a zero cell falls through and the run ends |
| StandaloneScenarios.MoverRuns | interpreter.py:133-135 | with at least thirteen rounds allowed, the run returns True with the tape [0, 2] |
| StandaloneScenarios.MovesCell | interpreter.py:129-135 | `++[>+<-]` loads and moves cell 0 into cell 1, returning True |
| StandaloneScenarios.EchoesOneByte | interpreter.py:86-93 | `,.` echoes one input byte and consumes exactly it; with no input it raises TypeError, and on a code point above 255 it raises ValueError |
| StandaloneScenarios.CommentOnlyRefused | interpreter.py:37-44 | `hello` is refused with ValueError, and `start` then returns False |
| StandaloneScenarios.LoneOpenRaises | interpreter.py:95-103 | `[` alone raises RuntimeError with the instruction pointer at the end |
| StandaloneScenarios.LeftOfZeroRaises | interpreter.py:56-62 | `<` on a fresh interpreter raises IndexError with the data pointer left at -1 |
| StandaloneScenarios.NestedSkipEnter | interpreter.py:95-103 | in `[[+]-]` on a zero cell, `[` stops at the inner `]`, and `-` then wraps the cell to 255 |
| StandaloneScenarios.NestedSkipSteps | interpreter.py:105-122 | the outer `]` then finds no partner among the positions it inspects and raises |
| StandaloneScenarios.NestedSkipRaises | interpreter.py:95-122 | `[[+]-]`, which standard Brainfuck skips whole, raises RuntimeError after three rounds |
| LibraryScenarios.LoadPure | src/interpreter.py:20-26 | a text of kept characters loads whole into a fresh interpreter |
| LibraryScenarios.CommaIsDropped | src/interpreter.py:20-26 | `,.` loads as `.`, prints cell 0 and leaves the input unread |
| LibraryScenarios.PipeRaises | src/interpreter.py:101-104 | `|` loads and then raises KeyError on the first round |
| LibraryScenarios.CommentOnlyFailsAtStart | src/interpreter.py:20-26 | `hello` loads as an empty program, makes the interpreter ready, and `start` raises IndexError |
| LibraryScenarios.NestedWrapDown | src/interpreter.py:54-60 | in `[[+]-]`, the `-` on a zero cell wraps it to 255 |
| LibraryScenarios.NestedJumpBack | src/interpreter.py:89-99 | the outer `]` on a nonzero cell jumps to the inner `[`, the nearest one |
| LibraryScenarios.NestedWrapUp | src/interpreter.py:46-52 | the `+` on 255 wraps it to 0 |
| LibraryScenarios.NestedFallThrough | src/interpreter.py:89-93 | the inner `]` on a zero cell falls through to the `-` |
| LibraryScenarios.NestedCycle | src/interpreter.py:101-104 | four rounds from the `-` on a zero cell return to the same state |
| LibraryScenarios.NestedNeverHalts | src/interpreter.py:110-111 | from inside that cycle no step budget is ever enough |
| LibraryScenarios.NestedFromStartNeverHalts | src/interpreter.py:77-87 | from position 0 the `[` jumps to the inner `]`, which enters the cycle |
| LibraryScenarios.NestedSkipDiverges | src/interpreter.py:106-112 | `[[+]-]` loaded into a fresh interpreter never returns from `start`, whatever the budget |

## Left out

- `get_char` (interpreter.py:7-15) puts the terminal into raw mode and reads one character. The model replaces it with a sequence of code points, and `ord` is the identity on them. End of input is the empty sequence, where `ord('')` raises TypeError.
- `input()` in the library `,` becomes a sequence of lines, each a sequence of code points. End of file raises EOFError.
- `print(chr(...))` in `.` appends the cell to an output sequence of code points. Flushing and the text encoding are not modelled.
- `debug` in both files prints only.
- `main`, the argument parser and `src/main.py` are plumbing around the class.
- Exception messages are not modelled; a `Fault` records the reason, and `ExceptionClass` gives the Python class.
- `start` may run forever, so it takes a step budget (`fuel`) and reports `OutOfFuel` once the budget is spent. Nothing in the repository has a budget.
- Every handler and `start` requires the state that holds between instructions. This state has the data pointer inside the memory, every cell a byte, and the instruction pointer within the program. After a raise the object can be left outside that state, with the data pointer at -1 or 30000 or the instruction pointer at -1 or -2. Reloading and starting it again from there (where Python's negative indexing would read the last cell) is not covered.
- The dispatch table is a `match` on the instruction character, not a dictionary of bound methods. A character without an entry raises the KeyError the dictionary lookup would.
- `Standalone.Interpreter.Start`, `Library.Interpreter.Start`: the driver loop of `start` is the separate method `Execute`, which `Start` calls after checking and clearing `ready`.
