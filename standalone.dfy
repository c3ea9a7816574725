/** The standalone script's interpreter (interpreter.py): loads only the
    eight instructions, rejects an empty program, reads raw characters, jumps
    forward to the first `]` and backward with a nesting counter. */
module Standalone {
  import opened Common
  import opened Memory
  import opened Brackets
  import Loader

  /** The keys of the dispatch table, which are also what the loader keeps. */
  const Instructions: set<char> := {'>', '<', '+', '-', '.', ',', '[', ']'}

  /** Every field of the interpreter object. `input` holds the code points
      still to be read from the terminal; `output` those printed so far. */
  datatype Machine = Machine(
    tape: TapeState,
    program: seq<char>,
    programPointer: int,
    ready: bool,
    input: seq<int>,
    output: seq<int>)
  {
    /** What holds between two instructions. */
    predicate Valid()
    {
      tape.Valid() && 0 <= programPointer <= |program|
    }
  }

  /** A newly constructed interpreter. */
  function Initial(input: seq<int>): (m: Machine)
    ensures m.Valid() && !m.ready && m.program == []
  {
    Machine(Fresh, [], 0, false, input, [])
  }

  /** `load_program`: append the instructions of `text`; raise when the
      accumulated program is still empty, otherwise become ready. */
  function Load(m: Machine, text: string): (r: Transition<Machine>)
    ensures r.next == m.(program := r.next.program, ready := r.next.ready)
    ensures r.next.program == m.program + Loader.Filter(text, Instructions)
    ensures r.outcome.Raise? <==>
      m.program == [] && forall i :: 0 <= i < |text| ==> text[i] !in Instructions
    ensures r.outcome.Raise? ==> r.outcome.fault == EmptyProgram && r.next.ready == m.ready
    ensures r.outcome.Ok? ==> r.next.ready
    ensures m.Valid() ==> r.next.Valid()
  {
    var program := m.program + Loader.Filter(text, Instructions);
    Loader.FilterEmptyIff(text, Instructions);
    if |program| == 0 then Transition(m.(program := program), Raise(EmptyProgram))
    else Transition(m.(program := program, ready := true), Ok)
  }

  /** `.`: emit the current cell. The output grows by exactly one byte,
      that cell, and nothing else changes. */
  function Print(m: Machine): (r: Machine)
    requires m.tape.Valid()
    ensures r == m.(output := r.output)
    ensures |r.output| == |m.output| + 1 && r.output[..|m.output|] == m.output
    ensures r.output[|m.output|] == m.tape.Current() && IsByte(r.output[|m.output|])
  {
    m.(output := m.output + [m.tape.Current()])
  }

  /** `,`: take the next code point (raising when there is none) and store
      it in the current cell (raising when it is not a byte). */
  function Scan(m: Machine): (r: Transition<Machine>)
    requires m.tape.Valid()
    ensures m.input == [] ==> r == Transition(m, Raise(EndOfInput))
    ensures m.input != [] ==> r.next == m.(tape := r.next.tape, input := m.input[1..])
    ensures m.input != [] ==> (r.outcome.Ok? <==> IsByte(m.input[0]))
    ensures r.outcome.Ok? ==> r.next.tape.Valid() && r.next.tape.Current() == m.input[0]
    ensures r.outcome.Raise? ==> r.next.tape == m.tape
    ensures r.next.tape.dataPointer == m.tape.dataPointer && |r.next.tape.memory| == |m.tape.memory|
    ensures forall i :: 0 <= i < |m.tape.memory| && i != m.tape.dataPointer ==>
      r.next.tape.memory[i] == m.tape.memory[i]
  {
    if m.input == [] then Transition(m, Raise(EndOfInput))
    else
      var t := Write(m.tape, m.input[0]);
      Transition(m.(tape := t.next, input := m.input[1..]), t.outcome)
  }

  /** `[`: with a zero cell, move to the first `]` at or after the current
      position, passing over any `[` without counting it. */
  function JumpForward(m: Machine): (r: Transition<Machine>)
    requires m.tape.Valid() && 0 <= m.programPointer < |m.program|
    ensures r.next == m.(programPointer := r.next.programPointer)
    ensures m.tape.Current() != 0 ==> r == Transition(m, Ok)
    ensures r.outcome.Ok? ==> m.programPointer <= r.next.programPointer < |m.program|
    ensures r.outcome.Raise? ==>
      r.outcome.fault == UnmatchedBracket && r.next.programPointer == |m.program|
  {
    if m.tape.Current() != 0 then Transition(m, Ok)
    else
      match FirstClose(m.program, m.programPointer)
      case Some(k) => Transition(m.(programPointer := k), Ok)
      case None => Transition(m.(programPointer := |m.program|), Raise(UnmatchedBracket))
  }

  /** On a zero cell the forward jump lands on the first `]` at or after the
      current position, and raises exactly when there is none; dispatched
      from a `[`, that is the first `]` strictly after it. */
  lemma JumpForwardFindsFirstClose(m: Machine)
    requires m.tape.Valid() && 0 <= m.programPointer < |m.program| && m.tape.Current() == 0
    ensures JumpForward(m).outcome.Ok? ==>
      m.program[JumpForward(m).next.programPointer] == ']' &&
      forall k :: m.programPointer <= k < JumpForward(m).next.programPointer ==> m.program[k] != ']'
    ensures JumpForward(m).outcome.Raise? <==>
      forall k :: m.programPointer <= k < |m.program| ==> m.program[k] != ']'
    ensures m.program[m.programPointer] == '[' && JumpForward(m).outcome.Ok? ==>
      m.programPointer < JumpForward(m).next.programPointer
  {
  }

  /** `]`: with a nonzero cell, scan backward from the previous position
      with a nesting counter (see BackScan). */
  function JumpBackward(m: Machine): (r: Transition<Machine>)
    requires m.tape.Valid() && 0 <= m.programPointer < |m.program|
    ensures r.next == m.(programPointer := r.next.programPointer)
    ensures m.tape.Current() == 0 ==> r == Transition(m, Ok)
    ensures m.tape.Current() != 0 && r.outcome.Ok? ==>
      -1 <= r.next.programPointer < m.programPointer && At(m.program, r.next.programPointer) == '['
    ensures r.outcome.Raise? ==>
      r.outcome.fault == UnmatchedBracket && r.next.programPointer <= 0
  {
    if m.tape.Current() == 0 then Transition(m, Ok)
    else
      var j := m.programPointer - 1;
      match BackScan(m.program, j, 0)
      case Some(k) => Transition(m.(programPointer := k), Ok)
      case None => Transition(m.(programPointer := BackScanFailure(j)), Raise(UnmatchedBracket))
  }

  /** A backward jump from position p >= 2 lands on the `[` that properly
      encloses the stretch before p, and fails when no `[` at 1 or above
      does. */
  lemma JumpBackwardFindsPartner(m: Machine)
    requires m.tape.Valid() && 2 <= m.programPointer < |m.program| && m.tape.Current() != 0
    ensures JumpBackward(m).outcome.Ok? <==>
      exists k :: 1 <= k < m.programPointer && Partner(m.program, k, m.programPointer, 0)
    ensures JumpBackward(m).outcome.Ok? ==>
      1 <= JumpBackward(m).next.programPointer &&
      Partner(m.program, JumpBackward(m).next.programPointer, m.programPointer, 0)
  {
    BackScanBalances(m.program, m.programPointer);
    BackScanFindsPartner(m.program, m.programPointer, 0);
  }

  /** The backward scan looks at position 0 only when it starts there, so a
      `[` at 0 is a backward target only of a `]` at position 1. */
  lemma JumpBackwardReachesZeroOnlyFromOne(m: Machine)
    requires m.tape.Valid() && 0 <= m.programPointer < |m.program| && m.tape.Current() != 0
    ensures (JumpBackward(m).outcome.Ok? && JumpBackward(m).next.programPointer == 0) <==>
      (m.programPointer == 1 && m.program[0] == '[')
  {
  }

  /** The dispatch table: run the handler for the current instruction. */
  function Dispatch(m: Machine): (r: Transition<Machine>)
    requires m.Valid() && m.programPointer < |m.program|
    ensures r.next.program == m.program && r.next.ready == m.ready
    ensures r.outcome.Ok? ==> r.next.tape.Valid() && -1 <= r.next.programPointer < |m.program|
    ensures m.program[m.programPointer] != '[' && m.program[m.programPointer] != ']' ==>
      r.next.programPointer == m.programPointer
    ensures r.outcome == Raise(UnknownInstruction) <==> m.program[m.programPointer] !in Instructions
    ensures |r.next.tape.memory| >= |m.tape.memory|
  {
    match m.program[m.programPointer]
    case '>' =>
      var s := MoveRight(m.tape);
      Transition(m.(tape := s.next), s.outcome)
    case '<' =>
      var s := MoveLeft(m.tape);
      Transition(m.(tape := s.next), s.outcome)
    case '+' => Transition(m.(tape := Increment(m.tape)), Ok)
    case '-' => Transition(m.(tape := Decrement(m.tape)), Ok)
    case '.' => Transition(Print(m), Ok)
    case ',' => Scan(m)
    case '[' => JumpForward(m)
    case ']' => JumpBackward(m)
    case _ => Transition(m, Raise(UnknownInstruction))
  }

  /** `_fetch_execute`: fetch, dispatch, then advance the instruction
      pointer by exactly one and report whether it reached the end. */
  function Step(m: Machine): (r: (Transition<Machine>, bool))
    requires m.Valid()
    ensures r.0.next.program == m.program && r.0.next.ready == m.ready
    ensures r.0.outcome.Ok? ==> r.0.next.Valid()
    ensures r.1 ==> r.0.outcome.Ok?
    ensures r.0.outcome.Ok? ==> (r.1 <==> r.0.next.programPointer == |m.program|)
    ensures m.programPointer == |m.program| ==> r == (Transition(m, Raise(ProgramIndexOutOfRange)), false)
    ensures m.programPointer < |m.program| ==> r.0.outcome == Dispatch(m).outcome
    ensures m.programPointer < |m.program| ==>
      r.0.next == if Dispatch(m).outcome.Ok?
        then Dispatch(m).next.(programPointer := Dispatch(m).next.programPointer + 1)
        else Dispatch(m).next
  {
    if m.programPointer >= |m.program| then (Transition(m, Raise(ProgramIndexOutOfRange)), false)
    else
      var t := Dispatch(m);
      if t.outcome.Raise? then (t, false)
      else
        var n := t.next.(programPointer := t.next.programPointer + 1);
        (Transition(n, Ok), n.programPointer == |n.program|)
  }

  /** The `while not _fetch_execute()` loop, allowed at most `fuel` steps. */
  function Loop(m: Machine, fuel: nat): (r: (Completion, Machine))
    requires m.Valid()
    ensures r.1.program == m.program && r.1.ready == m.ready
    ensures r.0 != Returned(false)
    ensures r.0 == Returned(true) ==> r.1.Valid() && r.1.programPointer == |r.1.program|
    ensures r.0 == OutOfFuel ==> r.1.Valid()
    decreases fuel, 0
  {
    if fuel == 0 then (OutOfFuel, m) else Continue(Step(m), fuel - 1)
  }

  /** What the loop does with the outcome of one `_fetch_execute`: stop on
      a raise, return True once it reports the end, otherwise go on. */
  function Continue(step: (Transition<Machine>, bool), fuel: nat): (r: (Completion, Machine))
    requires step.0.outcome.Ok? ==> step.0.next.Valid()
    requires step.1 ==> step.0.outcome.Ok? && step.0.next.programPointer == |step.0.next.program|
    ensures r.1.program == step.0.next.program && r.1.ready == step.0.next.ready
    ensures step.0.outcome.Raise? ==> r == (Raised(step.0.outcome.fault), step.0.next)
    ensures step.0.outcome.Ok? && step.1 ==> r == (Returned(true), step.0.next)
    ensures r.0 != Returned(false)
    ensures r.0 == Returned(true) ==> r.1.Valid() && r.1.programPointer == |r.1.program|
    ensures r.0 == OutOfFuel ==> r.1.Valid()
    decreases fuel, 1
  {
    if step.0.outcome.Raise? then (Raised(step.0.outcome.fault), step.0.next)
    else if step.1 then (Returned(true), step.0.next)
    else Loop(step.0.next, fuel)
  }

  /** A round of the driver loop with budget left is one `_fetch_execute`
      followed by the decision on its outcome. */
  lemma LoopUnfolds(m: Machine, fuel: nat)
    requires m.Valid() && fuel >= 1
    ensures Loop(m, fuel) == Continue(Step(m), fuel - 1)
  {
  }

  /** `start`: refuse unless ready, then clear the flag and run. */
  function Run(m: Machine, fuel: nat): (r: (Completion, Machine))
    requires m.Valid()
    ensures !m.ready ==> r == (Returned(false), m)
    ensures m.ready ==> r.0 != Returned(false)
    ensures !r.1.ready
    ensures r.0 == Returned(true) ==> r.1.Valid() && r.1.programPointer == |r.1.program|
  {
    if !m.ready then (Returned(false), m) else Loop(m.(ready := false), fuel)
  }

  /** `start` is single-use: once a run has returned, starting again
      returns False and changes nothing. */
  lemma RunIsSingleUse(m: Machine, fuel: nat, fuel': nat)
    requires m.Valid() && Run(m, fuel).0 == Returned(true)
    ensures Run(Run(m, fuel).1, fuel') == (Returned(false), Run(m, fuel).1)
  {
  }

  /** The step budget only bounds the run: a run that ends within `fuel`
      steps ends the same way with any larger budget. */
  lemma {:induction false} LoopFuelMonotone(m: Machine, fuel: nat, more: nat)
    requires m.Valid() && Loop(m, fuel).0 != OutOfFuel
    ensures Loop(m, fuel + more) == Loop(m, fuel)
    decreases fuel, 0
  {
    ContinueFuelMonotone(Step(m), fuel - 1, more);
  }

  /** The same for the rest of a run after one step. */
  lemma {:induction false} ContinueFuelMonotone(step: (Transition<Machine>, bool), fuel: nat, more: nat)
    requires step.0.outcome.Ok? ==> step.0.next.Valid()
    requires step.1 ==> step.0.outcome.Ok? && step.0.next.programPointer == |step.0.next.program|
    requires Continue(step, fuel).0 != OutOfFuel
    ensures Continue(step, fuel + more) == Continue(step, fuel)
    decreases fuel, 1
  {
    if step.0.outcome.Ok? && !step.1 {
      LoopFuelMonotone(step.0.next, fuel, more);
    }
  }


  /** The interpreter object, its fields updated in place. */
  class Interpreter {
    const tape: Tape
    var program: seq<char>
    var programPointer: int
    var ready: bool
    var input: seq<int>
    var output: seq<int>

    ghost function State(): Machine
      reads this, tape
    {
      Machine(tape.State(), program, programPointer, ready, input, output)
    }

    ghost predicate Valid()
      reads this, tape
    {
      State().Valid()
    }

    constructor (input: seq<int>)
      ensures State() == Initial(input) && fresh(tape)
    {
      tape := new Tape();
      program := [];
      ready := false;
      programPointer := 0;
      this.input := input;
      output := [];
    }

    /** `load_program`: append the instructions of `text`, then raise or
        become ready. */
    method LoadProgram(text: string) returns (o: Outcome)
      modifies this`program, this`ready
      ensures Transition(State(), o) == Load(old(State()), text)
    {
      for i := 0 to |text|
        invariant program == old(program) + Loader.Filter(text[..i], Instructions)
        invariant ready == old(ready)
      {
        assert text[..i + 1][..i] == text[..i];
        if text[i] in Instructions {
          program := program + [text[i]];
        }
      }
      assert text[..|text|] == text;
      if |program| == 0 {
        return Raise(EmptyProgram);
      }
      ready := true;
      o := Ok;
    }

    /** Instruction `.`. */
    method PrintData()
      requires tape.Valid()
      modifies this`output
      ensures State() == Print(old(State()))
    {
      output := output + [tape.memory[tape.dataPointer]];
    }

    /** Instruction `,`. */
    method ScanData() returns (o: Outcome)
      requires tape.Valid()
      modifies this`input, tape
      ensures Transition(State(), o) == Scan(old(State()))
    {
      if input == [] {
        return Raise(EndOfInput);
      }
      var charRead := input[0];
      input := input[1..];
      o := tape.StoreValue(charRead);
    }

    /** Instruction `[`. */
    method LeftConditional() returns (o: Outcome)
      requires tape.Valid() && 0 <= programPointer < |program|
      modifies this`programPointer
      ensures Transition(State(), o) == JumpForward(old(State()))
    {
      o := Ok;
      if tape.memory[tape.dataPointer] == 0 {
        while program[programPointer] != ']'
          invariant old(programPointer) <= programPointer < |program|
          invariant FirstClose(program, programPointer) == FirstClose(program, old(programPointer))
          decreases |program| - programPointer
        {
          programPointer := programPointer + 1;
          if programPointer >= |program| {
            return Raise(UnmatchedBracket);
          }
        }
      }
    }

    /** Instruction `]`. */
    method RightConditional() returns (o: Outcome)
      requires tape.Valid() && 0 <= programPointer < |program|
      modifies this`programPointer
      ensures Transition(State(), o) == JumpBackward(old(State()))
    {
      o := Ok;
      if tape.memory[tape.dataPointer] != 0 {
        var counter: nat := 0;
        programPointer := programPointer - 1;
        while true
          invariant -1 <= programPointer < |program|
          invariant programPointer >= 1 || programPointer == old(programPointer) - 1
          invariant BackScan(program, programPointer, counter) == BackScan(program, old(programPointer) - 1, 0)
          decreases programPointer + 1
        {
          var c := At(program, programPointer);
          if c == '[' {
            if counter == 0 {
              break;
            }
            counter := counter - 1;
          } else if c == ']' {
            counter := counter + 1;
          }
          programPointer := programPointer - 1;
          if programPointer <= 0 {
            return Raise(UnmatchedBracket);
          }
        }
      }
    }

    /** `_fetch_execute`: one round of the interpreter. */
    method FetchExecute() returns (o: Outcome, halted: bool)
      requires Valid()
      modifies this, tape
      ensures (Transition(State(), o), halted) == Step(old(State()))
    {
      halted := false;
      if programPointer >= |program| {
        return Raise(ProgramIndexOutOfRange), false;
      }
      match program[programPointer] {
        case '>' => o := tape.IncrementPointer();
        case '<' => o := tape.DecrementPointer();
        case '+' => tape.IncrementValue(); o := Ok;
        case '-' => tape.DecrementValue(); o := Ok;
        case '.' => PrintData(); o := Ok;
        case ',' => o := ScanData();
        case '[' => o := LeftConditional();
        case ']' => o := RightConditional();
        case _ => o := Raise(UnknownInstruction);
      }
      if o.Raise? {
        return;
      }
      programPointer := programPointer + 1;
      halted := programPointer == |program|;
    }

    /** `start`: refuse unless ready, then clear the flag and run. */
    method Start(fuel: nat) returns (c: Completion)
      requires Valid()
      modifies this, tape
      ensures (c, State()) == Run(old(State()), fuel)
    {
      if !ready {
        return Returned(false);
      }
      ready := false;
      c := Execute(fuel);
    }

    /** The `while not self._fetch_execute()` loop of `start`, allowed at
        most `fuel` rounds. */
    method Execute(fuel: nat) returns (c: Completion)
      requires Valid()
      modifies this, tape
      ensures (c, State()) == Loop(old(State()), fuel)
    {
      var budget := fuel;
      while true
        invariant Valid() && Loop(State(), budget) == Loop(old(State()), fuel)
        decreases budget
      {
        if budget == 0 {
          return OutOfFuel;
        }
        ghost var before := State();
        var o, halted := FetchExecute();
        LoopUnfolds(before, budget);
        if o.Raise? {
          return Raised(o.fault);
        }
        if halted {
          return Returned(true);
        }
        budget := budget - 1;
      }
    }
  }
}
