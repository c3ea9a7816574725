/** Vocabulary shared by both interpreter variants: the exceptions they raise
    and the shape of a handler's effect. */
module Common {

  datatype Option<T> = None | Some(value: T)

  /** One constructor per distinct reason the interpreter raises. */
  datatype Fault =
    | EmptyProgram            // ValueError from load_program (standalone only)
    | MemoryLimitExceeded     // IndexError from '>' when the pointer reaches 30000
    | NegativePointer         // IndexError from '<' when the pointer drops below 0
    | NonByteInput            // ValueError from ',' when the code point is outside [0, 255]
    | UnmatchedBracket        // RuntimeError from a bracket scan that runs off the program
    | UnknownInstruction      // KeyError from the dispatch table
    | ProgramIndexOutOfRange  // IndexError when the instruction pointer is past the program
    | EndOfInput              // TypeError: ord('') once the standalone input is exhausted
    | EndOfFile               // EOFError: input() once the library input is exhausted
    | EmptyInputLine          // IndexError: input()[0] on an empty line

  /** The Python exception class each fault surfaces as. */
  function ExceptionClass(f: Fault): string
  {
    match f
    case EmptyProgram => "ValueError"
    case NonByteInput => "ValueError"
    case MemoryLimitExceeded => "IndexError"
    case NegativePointer => "IndexError"
    case ProgramIndexOutOfRange => "IndexError"
    case EmptyInputLine => "IndexError"
    case UnmatchedBracket => "RuntimeError"
    case UnknownInstruction => "KeyError"
    case EndOfInput => "TypeError"
    case EndOfFile => "EOFError"
  }

  /** Whether a handler returned normally or raised. */
  datatype Outcome = Ok | Raise(fault: Fault)

  /** The state a handler leaves behind, together with how it ended. A raise
      does not roll anything back, so `next` is the state at the moment of
      the raise. */
  datatype Transition<S> = Transition(next: S, outcome: Outcome)

  /** How a call to `start` ends: it returns a boolean, raises, or (in this
      model only) runs out of the step budget it was given. */
  datatype Completion = Returned(value: bool) | Raised(fault: Fault) | OutOfFuel
}
