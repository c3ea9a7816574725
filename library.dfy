/** The importable interpreter (src/interpreter.py). It shares the tape with
    the standalone script but differs elsewhere: the loader keeps `|` instead
    of `,` and never rejects an empty program, input is read a line at a
    time, and the backward jump goes to the nearest `[` without counting
    nesting. */
module Library {
  import opened Common
  import opened Memory
  import opened Brackets
  import Loader

  /** What the loader keeps. */
  const Instructions: set<char> := {'>', '<', '+', '-', '.', '|', '[', ']'}

  /** The keys of the dispatch table. */
  const Dispatchable: set<char> := {'>', '<', '+', '-', '.', ',', '[', ']'}

  /** Every field of the interpreter object. `input` holds the lines still
      to be read from standard input, each a sequence of code points;
      `output` holds the code points printed so far. */
  datatype Machine = Machine(
    tape: TapeState,
    program: seq<char>,
    programPointer: int,
    ready: bool,
    input: seq<seq<int>>,
    output: seq<int>)
  {
    /** What holds between two instructions. */
    predicate Valid()
    {
      tape.Valid() && 0 <= programPointer <= |program|
    }
  }

  /** A newly constructed interpreter. */
  function Initial(input: seq<seq<int>>): (m: Machine)
    ensures m.Valid() && !m.ready && m.program == []
  {
    Machine(Fresh, [], 0, false, input, [])
  }

  /** `load_program`: append the kept characters of `text` and become
      ready, whether or not anything was kept. */
  function Load(m: Machine, text: string): (r: Machine)
    ensures r == m.(program := r.program, ready := true)
    ensures r.program == m.program + Loader.Filter(text, Instructions)
    ensures ',' !in r.program[|m.program|..]
    ensures m.Valid() ==> r.Valid()
  {
    m.(program := m.program + Loader.Filter(text, Instructions), ready := true)
  }

  /** `.`: emit the current cell. The output grows by exactly one byte,
      that cell, and nothing else changes. */
  function Print(m: Machine): (r: Machine)
    requires m.tape.Valid()
    ensures r == m.(output := r.output)
    ensures |r.output| == |m.output| + 1 && r.output[..|m.output|] == m.output
    ensures r.output[|m.output|] == m.tape.Current() && IsByte(r.output[|m.output|])
  {
    m.(output := m.output + [m.tape.Current()])
  }

  /** `,`: read a line (raising at end of file), take its first code point
      (raising on an empty line) and store it (raising when it is not a
      byte). */
  function Scan(m: Machine): (r: Transition<Machine>)
    requires m.tape.Valid()
    ensures m.input == [] ==> r == Transition(m, Raise(EndOfFile))
    ensures m.input != [] ==> r.next == m.(tape := r.next.tape, input := m.input[1..])
    ensures m.input != [] && m.input[0] == [] ==> r.outcome == Raise(EmptyInputLine)
    ensures m.input != [] && m.input[0] != [] ==> (r.outcome.Ok? <==> IsByte(m.input[0][0]))
    ensures r.outcome.Ok? ==> r.next.tape.Valid() && r.next.tape.Current() == m.input[0][0]
    ensures r.outcome.Raise? ==> r.next.tape == m.tape
    ensures r.next.tape.dataPointer == m.tape.dataPointer && |r.next.tape.memory| == |m.tape.memory|
    ensures forall i :: 0 <= i < |m.tape.memory| && i != m.tape.dataPointer ==>
      r.next.tape.memory[i] == m.tape.memory[i]
  {
    if m.input == [] then Transition(m, Raise(EndOfFile))
    else
      var line := m.input[0];
      if line == [] then Transition(m.(input := m.input[1..]), Raise(EmptyInputLine))
      else
        var t := Write(m.tape, line[0]);
        Transition(m.(tape := t.next, input := m.input[1..]), t.outcome)
  }

  /** `[`: with a zero cell, move to the first `]` strictly after the
      current position, passing over any `[` without counting it. */
  function JumpForward(m: Machine): (r: Transition<Machine>)
    requires m.tape.Valid() && 0 <= m.programPointer < |m.program|
    ensures r.next == m.(programPointer := r.next.programPointer)
    ensures m.tape.Current() != 0 ==> r == Transition(m, Ok)
    ensures m.tape.Current() == 0 && r.outcome.Ok? ==> m.programPointer < r.next.programPointer < |m.program|
    ensures r.outcome.Raise? ==>
      r.outcome.fault == UnmatchedBracket && r.next.programPointer == |m.program|
  {
    if m.tape.Current() != 0 then Transition(m, Ok)
    else
      match FirstClose(m.program, m.programPointer + 1)
      case Some(k) => Transition(m.(programPointer := k), Ok)
      case None => Transition(m.(programPointer := |m.program|), Raise(UnmatchedBracket))
  }

  /** On a zero cell the forward jump lands on the first `]` after the
      current position, and raises exactly when there is none. */
  lemma JumpForwardFindsFirstClose(m: Machine)
    requires m.tape.Valid() && 0 <= m.programPointer < |m.program| && m.tape.Current() == 0
    ensures JumpForward(m).outcome.Ok? ==>
      m.program[JumpForward(m).next.programPointer] == ']' &&
      forall k :: m.programPointer < k < JumpForward(m).next.programPointer ==> m.program[k] != ']'
    ensures JumpForward(m).outcome.Raise? <==>
      forall k :: m.programPointer < k < |m.program| ==> m.program[k] != ']'
  {
  }

  /** `]`: with a nonzero cell, move to the nearest `[` strictly before the
      current position, without counting nesting and never to position 0. */
  function JumpBackward(m: Machine): (r: Transition<Machine>)
    requires m.tape.Valid() && 0 <= m.programPointer < |m.program|
    ensures r.next == m.(programPointer := r.next.programPointer)
    ensures m.tape.Current() == 0 ==> r == Transition(m, Ok)
    ensures m.tape.Current() != 0 && r.outcome.Ok? ==> 1 <= r.next.programPointer < m.programPointer
    ensures r.outcome.Raise? ==>
      r.outcome.fault == UnmatchedBracket && r.next.programPointer == (if m.programPointer >= 1 then 0 else -1)
  {
    if m.tape.Current() == 0 then Transition(m, Ok)
    else
      match NearestOpen(m.program, m.programPointer - 1)
      case Some(k) => Transition(m.(programPointer := k), Ok)
      case None =>
        Transition(m.(programPointer := if m.programPointer >= 1 then 0 else -1), Raise(UnmatchedBracket))
  }

  /** On a nonzero cell the backward jump lands on the nearest `[` below the
      current position, whatever lies between, and raises exactly when no
      position from 1 up holds one. */
  lemma JumpBackwardFindsNearestOpen(m: Machine)
    requires m.tape.Valid() && 0 <= m.programPointer < |m.program| && m.tape.Current() != 0
    ensures JumpBackward(m).outcome.Ok? ==>
      m.program[JumpBackward(m).next.programPointer] == '[' &&
      forall k :: JumpBackward(m).next.programPointer < k < m.programPointer ==> m.program[k] != '['
    ensures JumpBackward(m).outcome.Raise? <==>
      forall k :: 1 <= k < m.programPointer ==> m.program[k] != '['
  {
  }

  /** The dispatch table: run the handler for the current instruction; a
      character without an entry (the `|` the loader keeps) raises. */
  function Dispatch(m: Machine): (r: Transition<Machine>)
    requires m.Valid() && m.programPointer < |m.program|
    ensures r.next.program == m.program && r.next.ready == m.ready
    ensures r.outcome.Ok? ==> r.next.tape.Valid() && 0 <= r.next.programPointer < |m.program|
    ensures m.program[m.programPointer] != '[' && m.program[m.programPointer] != ']' ==>
      r.next.programPointer == m.programPointer
    ensures r.outcome == Raise(UnknownInstruction) <==> m.program[m.programPointer] !in Dispatchable
    ensures |r.next.tape.memory| >= |m.tape.memory|
  {
    match m.program[m.programPointer]
    case '>' =>
      var s := MoveRight(m.tape);
      Transition(m.(tape := s.next), s.outcome)
    case '<' =>
      var s := MoveLeft(m.tape);
      Transition(m.(tape := s.next), s.outcome)
    case '+' => Transition(m.(tape := Increment(m.tape)), Ok)
    case '-' => Transition(m.(tape := Decrement(m.tape)), Ok)
    case '.' => Transition(Print(m), Ok)
    case ',' => Scan(m)
    case '[' => JumpForward(m)
    case ']' => JumpBackward(m)
    case _ => Transition(m, Raise(UnknownInstruction))
  }

  /** `_fetch_execute`: fetch, dispatch, then advance the instruction
      pointer by exactly one and report whether it reached the end. */
  function Step(m: Machine): (r: (Transition<Machine>, bool))
    requires m.Valid()
    ensures r.0.next.program == m.program && r.0.next.ready == m.ready
    ensures r.0.outcome.Ok? ==> r.0.next.Valid()
    ensures r.1 ==> r.0.outcome.Ok?
    ensures r.0.outcome.Ok? ==> (r.1 <==> r.0.next.programPointer == |m.program|)
    ensures m.programPointer == |m.program| ==> r == (Transition(m, Raise(ProgramIndexOutOfRange)), false)
    ensures m.programPointer < |m.program| ==> r.0.outcome == Dispatch(m).outcome
    ensures m.programPointer < |m.program| ==>
      r.0.next == if Dispatch(m).outcome.Ok?
        then Dispatch(m).next.(programPointer := Dispatch(m).next.programPointer + 1)
        else Dispatch(m).next
  {
    if m.programPointer >= |m.program| then (Transition(m, Raise(ProgramIndexOutOfRange)), false)
    else
      var t := Dispatch(m);
      if t.outcome.Raise? then (t, false)
      else
        var n := t.next.(programPointer := t.next.programPointer + 1);
        (Transition(n, Ok), n.programPointer == |n.program|)
  }

  /** The `while not _fetch_execute()` loop, allowed at most `fuel` steps. */
  function Loop(m: Machine, fuel: nat): (r: (Completion, Machine))
    requires m.Valid()
    ensures r.1.program == m.program && r.1.ready == m.ready
    ensures r.0 != Returned(false)
    ensures r.0 == Returned(true) ==> r.1.Valid() && r.1.programPointer == |r.1.program|
    ensures r.0 == OutOfFuel ==> r.1.Valid()
    decreases fuel, 0
  {
    if fuel == 0 then (OutOfFuel, m) else Continue(Step(m), fuel - 1)
  }

  /** What the loop does with the outcome of one `_fetch_execute`: stop on
      a raise, return True once it reports the end, otherwise go on. */
  function Continue(step: (Transition<Machine>, bool), fuel: nat): (r: (Completion, Machine))
    requires step.0.outcome.Ok? ==> step.0.next.Valid()
    requires step.1 ==> step.0.outcome.Ok? && step.0.next.programPointer == |step.0.next.program|
    ensures r.1.program == step.0.next.program && r.1.ready == step.0.next.ready
    ensures step.0.outcome.Raise? ==> r == (Raised(step.0.outcome.fault), step.0.next)
    ensures step.0.outcome.Ok? && step.1 ==> r == (Returned(true), step.0.next)
    ensures r.0 != Returned(false)
    ensures r.0 == Returned(true) ==> r.1.Valid() && r.1.programPointer == |r.1.program|
    ensures r.0 == OutOfFuel ==> r.1.Valid()
    decreases fuel, 1
  {
    if step.0.outcome.Raise? then (Raised(step.0.outcome.fault), step.0.next)
    else if step.1 then (Returned(true), step.0.next)
    else Loop(step.0.next, fuel)
  }

  /** A round of the driver loop with budget left is one `_fetch_execute`
      followed by the decision on its outcome. */
  lemma LoopUnfolds(m: Machine, fuel: nat)
    requires m.Valid() && fuel >= 1
    ensures Loop(m, fuel) == Continue(Step(m), fuel - 1)
  {
  }

  /** `start`: refuse unless ready, then clear the flag and run. */
  function Run(m: Machine, fuel: nat): (r: (Completion, Machine))
    requires m.Valid()
    ensures !m.ready ==> r == (Returned(false), m)
    ensures m.ready ==> r.0 != Returned(false)
    ensures !r.1.ready
    ensures r.0 == Returned(true) ==> r.1.Valid() && r.1.programPointer == |r.1.program|
  {
    if !m.ready then (Returned(false), m) else Loop(m.(ready := false), fuel)
  }

  /** `start` is single-use: once a run has returned, starting again
      returns False and changes nothing. */
  lemma RunIsSingleUse(m: Machine, fuel: nat, fuel': nat)
    requires m.Valid() && Run(m, fuel).0 == Returned(true)
    ensures Run(Run(m, fuel).1, fuel') == (Returned(false), Run(m, fuel).1)
  {
  }

  /** The step budget only bounds the run: a run that ends within `fuel`
      steps ends the same way with any larger budget. */
  lemma {:induction false} LoopFuelMonotone(m: Machine, fuel: nat, more: nat)
    requires m.Valid() && Loop(m, fuel).0 != OutOfFuel
    ensures Loop(m, fuel + more) == Loop(m, fuel)
    decreases fuel, 0
  {
    ContinueFuelMonotone(Step(m), fuel - 1, more);
  }

  /** The same for the rest of a run after one step. */
  lemma {:induction false} ContinueFuelMonotone(step: (Transition<Machine>, bool), fuel: nat, more: nat)
    requires step.0.outcome.Ok? ==> step.0.next.Valid()
    requires step.1 ==> step.0.outcome.Ok? && step.0.next.programPointer == |step.0.next.program|
    requires Continue(step, fuel).0 != OutOfFuel
    ensures Continue(step, fuel + more) == Continue(step, fuel)
    decreases fuel, 1
  {
    if step.0.outcome.Ok? && !step.1 {
      LoopFuelMonotone(step.0.next, fuel, more);
    }
  }

  /** A `|` that reaches execution raises KeyError; a loaded program never
      holds a `,`, so the input handler is never dispatched. */
  lemma PipeRaisesKeyError(m: Machine)
    requires m.Valid() && m.programPointer < |m.program| && m.program[m.programPointer] == '|'
    ensures Step(m).0.outcome == Raise(UnknownInstruction)
  {
  }

  /** Loading text without any kept character still makes the interpreter
      ready, and the first step then fails indexing the empty program. */
  lemma EmptyProgramFailsAtStart(input: seq<seq<int>>, text: string, fuel: nat)
    requires forall i :: 0 <= i < |text| ==> text[i] !in Instructions
    requires fuel >= 1
    ensures Load(Initial(input), text).ready
    ensures Run(Load(Initial(input), text), fuel).0 == Raised(ProgramIndexOutOfRange)
  {
    Loader.FilterEmptyIff(text, Instructions);
    var m := Load(Initial(input), text).(ready := false);
    assert m.program == [];
    assert Loop(m, fuel) == Continue(Step(m), fuel - 1);
  }

  /** A step on a program without `,` leaves the input alone. */
  lemma StepNeverReads(m: Machine)
    requires m.Valid() && ',' !in m.program
    ensures Step(m).0.next.input == m.input
  {
    if m.programPointer < |m.program| {
      assert m.program[m.programPointer] != ',';
    }
  }

  /** A run whose program holds no `,` never consumes input. */
  lemma {:induction false} LoopNeverReads(m: Machine, fuel: nat)
    requires m.Valid() && ',' !in m.program
    ensures Loop(m, fuel).1.input == m.input
    decreases fuel, 0
  {
    if fuel > 0 {
      StepNeverReads(m);
      ContinueNeverReads(Step(m), fuel - 1);
    }
  }

  /** The same for the rest of a run after one step. */
  lemma {:induction false} ContinueNeverReads(step: (Transition<Machine>, bool), fuel: nat)
    requires step.0.outcome.Ok? ==> step.0.next.Valid()
    requires step.1 ==> step.0.outcome.Ok? && step.0.next.programPointer == |step.0.next.program|
    requires ',' !in step.0.next.program
    ensures Continue(step, fuel).1.input == step.0.next.input
    decreases fuel, 1
  {
    if step.0.outcome.Ok? && !step.1 {
      LoopNeverReads(step.0.next, fuel);
    }
  }

  /** Because the loader keeps `|` where `,` belongs, no program loaded
      into a fresh interpreter ever reads from standard input. */
  lemma LoadedProgramNeverReads(input: seq<seq<int>>, text: string, fuel: nat)
    ensures Run(Load(Initial(input), text), fuel).1.input == input
  {
    var m := Load(Initial(input), text);
    assert ',' !in m.program by {
      assert m.program == m.program[|Initial(input).program|..];
    }
    LoopNeverReads(m.(ready := false), fuel);
  }

  /** The interpreter object, its fields updated in place. */
  class Interpreter {
    const tape: Tape
    var program: seq<char>
    var programPointer: int
    var ready: bool
    var input: seq<seq<int>>
    var output: seq<int>

    ghost function State(): Machine
      reads this, tape
    {
      Machine(tape.State(), program, programPointer, ready, input, output)
    }

    ghost predicate Valid()
      reads this, tape
    {
      State().Valid()
    }

    constructor (input: seq<seq<int>>)
      ensures State() == Initial(input) && fresh(tape)
    {
      tape := new Tape();
      program := [];
      ready := false;
      programPointer := 0;
      this.input := input;
      output := [];
    }

    /** `load_program`: append the kept characters of `text`, become ready
        and return True. */
    method LoadProgram(text: string) returns (loaded: bool)
      modifies this`program, this`ready
      ensures loaded && State() == Load(old(State()), text)
    {
      for i := 0 to |text|
        invariant program == old(program) + Loader.Filter(text[..i], Instructions)
        invariant ready == old(ready)
      {
        assert text[..i + 1][..i] == text[..i];
        if text[i] in Instructions {
          program := program + [text[i]];
        }
      }
      assert text[..|text|] == text;
      ready := true;
      loaded := true;
    }

    /** Instruction `.`. */
    method PrintData()
      requires tape.Valid()
      modifies this`output
      ensures State() == Print(old(State()))
    {
      output := output + [tape.memory[tape.dataPointer]];
    }

    /** Instruction `,`. */
    method ScanData() returns (o: Outcome)
      requires tape.Valid()
      modifies this`input, tape
      ensures Transition(State(), o) == Scan(old(State()))
    {
      if input == [] {
        return Raise(EndOfFile);
      }
      var line := input[0];
      input := input[1..];
      if line == [] {
        return Raise(EmptyInputLine);
      }
      var charRead := line[0];
      o := tape.StoreValue(charRead);
    }

    /** Instruction `[`. */
    method LeftConditional() returns (o: Outcome)
      requires tape.Valid() && 0 <= programPointer < |program|
      modifies this`programPointer
      ensures Transition(State(), o) == JumpForward(old(State()))
    {
      o := Ok;
      if tape.memory[tape.dataPointer] == 0 {
        while true
          invariant old(programPointer) <= programPointer < |program|
          invariant FirstClose(program, programPointer + 1) == FirstClose(program, old(programPointer) + 1)
          decreases |program| - programPointer
        {
          programPointer := programPointer + 1;
          if programPointer >= |program| {
            return Raise(UnmatchedBracket);
          }
          if program[programPointer] == ']' {
            break;
          }
        }
      }
    }

    /** Instruction `]`. */
    method RightConditional() returns (o: Outcome)
      requires tape.Valid() && 0 <= programPointer < |program|
      modifies this`programPointer
      ensures Transition(State(), o) == JumpBackward(old(State()))
    {
      o := Ok;
      if tape.memory[tape.dataPointer] != 0 {
        while true
          invariant 0 <= programPointer <= old(programPointer)
          invariant NearestOpen(program, programPointer - 1) == NearestOpen(program, old(programPointer) - 1)
          invariant programPointer >= 1 || programPointer == old(programPointer)
          decreases programPointer
        {
          programPointer := programPointer - 1;
          if programPointer <= 0 {
            return Raise(UnmatchedBracket);
          }
          if program[programPointer] == '[' {
            break;
          }
        }
      }
    }

    /** `_fetch_execute`: one round of the interpreter. */
    method FetchExecute() returns (o: Outcome, halted: bool)
      requires Valid()
      modifies this, tape
      ensures (Transition(State(), o), halted) == Step(old(State()))
    {
      halted := false;
      if programPointer >= |program| {
        return Raise(ProgramIndexOutOfRange), false;
      }
      match program[programPointer] {
        case '>' => o := tape.IncrementPointer();
        case '<' => o := tape.DecrementPointer();
        case '+' => tape.IncrementValue(); o := Ok;
        case '-' => tape.DecrementValue(); o := Ok;
        case '.' => PrintData(); o := Ok;
        case ',' => o := ScanData();
        case '[' => o := LeftConditional();
        case ']' => o := RightConditional();
        case _ => o := Raise(UnknownInstruction);
      }
      if o.Raise? {
        return;
      }
      programPointer := programPointer + 1;
      halted := programPointer == |program|;
    }

    /** `start`: refuse unless ready, then clear the flag and run. */
    method Start(fuel: nat) returns (c: Completion)
      requires Valid()
      modifies this, tape
      ensures (c, State()) == Run(old(State()), fuel)
    {
      if !ready {
        return Returned(false);
      }
      ready := false;
      c := Execute(fuel);
    }

    /** The `while not self._fetch_execute()` loop of `start`, allowed at
        most `fuel` rounds. */
    method Execute(fuel: nat) returns (c: Completion)
      requires Valid()
      modifies this, tape
      ensures (c, State()) == Loop(old(State()), fuel)
    {
      var budget := fuel;
      while true
        invariant Valid() && Loop(State(), budget) == Loop(old(State()), fuel)
        decreases budget
      {
        if budget == 0 {
          return OutOfFuel;
        }
        ghost var before := State();
        var o, halted := FetchExecute();
        LoopUnfolds(before, budget);
        if o.Raise? {
          return Raised(o.fault);
        }
        if halted {
          return Returned(true);
        }
        budget := budget - 1;
      }
    }
  }
}
