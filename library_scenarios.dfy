/** Whole runs of the library interpreter on small programs, from a fresh
    object through `load_program` and `start`. */
module LibraryScenarios {
  import opened Common
  import opened Memory
  import opened Brackets
  import opened Library
  import Loader

  /** Loading a text made only of kept characters into a fresh interpreter
      keeps it whole. */
  lemma LoadPure(input: seq<seq<int>>, text: string)
    requires forall i :: 0 <= i < |text| ==> text[i] in Instructions
    ensures Load(Initial(input), text) == Machine(Fresh, text, 0, true, input, [])
  {
    Loader.FilterKeepsInstructions(text, Instructions);
    assert Initial(input).program + text == text;
  }

  /** One step that returns normally without reaching the end costs one
      unit of fuel and leaves the rest of the run to the next state. */
  lemma Advance(m: Machine, next: Machine, fuel: nat)
    requires m.Valid() && fuel >= 1
    requires Step(m) == (Transition(next, Ok), false)
    ensures Loop(m, fuel) == Loop(next, fuel - 1)
  {
  }

  /** A step that reports the end makes the loop return True there. */
  lemma Halt(m: Machine, next: Machine, fuel: nat)
    requires m.Valid() && fuel >= 1
    requires Step(m) == (Transition(next, Ok), true)
    ensures Loop(m, fuel) == (Returned(true), next)
  {
  }

  /** A step that raises ends the loop with that exception. */
  lemma Fail(m: Machine, next: Machine, fault: Fault, fuel: nat)
    requires m.Valid() && fuel >= 1
    requires Step(m) == (Transition(next, Raise(fault)), false)
    ensures Loop(m, fuel) == (Raised(fault), next)
  {
  }

  /** `,.` loads as `.` alone: the run prints the untouched cell 0 and
      leaves the input unread, whatever it holds. */
  lemma CommaIsDropped(input: seq<seq<int>>)
    ensures Load(Initial(input), ",.").program == "."
    ensures Run(Load(Initial(input), ",."), 1) == (Returned(true), Machine(Fresh, ".", 1, false, input, [0]))
  {
    assert Loader.Filter(",.", Instructions) == Loader.Filter(",", Instructions) + Loader.Filter(".", Instructions) by {
      assert "," + "." == ",.";
      Loader.FilterAppend(",", ".", Instructions);
    }
    assert Loader.Filter(",", Instructions) == [];
    Loader.FilterKeepsInstructions(".", Instructions);
    var m := Machine(Fresh, ".", 0, false, input, []);
    assert Step(m) == (Transition(m.(programPointer := 1, output := [0]), Ok), true) by {
      assert Dispatch(m).next == m.(output := [0]);
    }
    Halt(m, m.(programPointer := 1, output := [0]), 1);
  }

  /** A `|` is loaded but has no handler: `start` raises KeyError. */
  lemma PipeRaises(input: seq<seq<int>>, fuel: nat)
    requires fuel >= 1
    ensures Run(Load(Initial(input), "|"), fuel) ==
      (Raised(UnknownInstruction), Machine(Fresh, "|", 0, false, input, []))
  {
    LoadPure(input, "|");
    var m := Machine(Fresh, "|", 0, false, input, []);
    assert Load(Initial(input), "|").(ready := false) == m;
    assert Step(m) == (Transition(m, Raise(UnknownInstruction)), false);
    Fail(m, m, UnknownInstruction, fuel);
  }

  /** A text without any kept character still loads, and `start` then
      raises IndexError on the first fetch. */
  lemma CommentOnlyFailsAtStart(input: seq<seq<int>>, fuel: nat)
    requires fuel >= 1
    ensures Load(Initial(input), "hello").ready
    ensures Run(Load(Initial(input), "hello"), fuel) ==
      (Raised(ProgramIndexOutOfRange), Machine(Fresh, "", 0, false, input, []))
  {
    assert forall i :: 0 <= i < |"hello"| ==> "hello"[i] !in Instructions by {
      forall i | 0 <= i < |"hello"| ensures "hello"[i] !in Instructions {
        assert "hello"[i] in {'h', 'e', 'l', 'o'};
      }
    }
    Loader.FilterEmptyIff("hello", Instructions);
    var m := Machine(Fresh, "", 0, false, input, []);
    assert Load(Initial(input), "hello").(ready := false) == m;
    assert Step(m) == (Transition(m, Raise(ProgramIndexOutOfRange)), false);
    Fail(m, m, ProgramIndexOutOfRange, fuel);
  }

  /** The interpreter running `[[+]-]` between two instructions. */
  function Nested(input: seq<seq<int>>, cell: int, programPointer: int): Machine
  {
    Machine(TapeState([cell], 0), "[[+]-]", programPointer, false, input, [])
  }

  /** The `-` with a zero cell wraps it to 255. */
  lemma NestedWrapDown(input: seq<seq<int>>, fuel: nat)
    requires fuel >= 1
    ensures Loop(Nested(input, 0, 4), fuel) == Loop(Nested(input, 255, 5), fuel - 1)
  {
    assert Step(Nested(input, 0, 4)) == (Transition(Nested(input, 255, 5), Ok), false) by {
      assert Dispatch(Nested(input, 0, 4)).next == Nested(input, 255, 4);
    }
    Advance(Nested(input, 0, 4), Nested(input, 255, 5), fuel);
  }

  /** The outer `]` on a nonzero cell jumps to the nearest `[` below it,
      the inner one. */
  lemma NestedJumpBack(input: seq<seq<int>>, fuel: nat)
    requires fuel >= 1
    ensures Loop(Nested(input, 255, 5), fuel) == Loop(Nested(input, 255, 2), fuel - 1)
  {
    assert Step(Nested(input, 255, 5)) == (Transition(Nested(input, 255, 2), Ok), false) by {
      assert NearestOpen("[[+]-]", 4) == Some(1);
      assert Dispatch(Nested(input, 255, 5)).next == Nested(input, 255, 1);
    }
    Advance(Nested(input, 255, 5), Nested(input, 255, 2), fuel);
  }

  /** The `+` wraps the cell back to 0. */
  lemma NestedWrapUp(input: seq<seq<int>>, fuel: nat)
    requires fuel >= 1
    ensures Loop(Nested(input, 255, 2), fuel) == Loop(Nested(input, 0, 3), fuel - 1)
  {
    assert Step(Nested(input, 255, 2)) == (Transition(Nested(input, 0, 3), Ok), false) by {
      assert Dispatch(Nested(input, 255, 2)).next == Nested(input, 0, 2);
    }
    Advance(Nested(input, 255, 2), Nested(input, 0, 3), fuel);
  }

  /** The inner `]` on a zero cell falls through to the `-`. */
  lemma NestedFallThrough(input: seq<seq<int>>, fuel: nat)
    requires fuel >= 1
    ensures Loop(Nested(input, 0, 3), fuel) == Loop(Nested(input, 0, 4), fuel - 1)
  {
    assert Step(Nested(input, 0, 3)) == (Transition(Nested(input, 0, 4), Ok), false);
    Advance(Nested(input, 0, 3), Nested(input, 0, 4), fuel);
  }

  /** From the `-` with a zero cell, four steps come back to the same
      state: `-` wraps the cell to 255, the outer `]` jumps to the inner
      `[` (the nearest one), `+` wraps the cell back to 0 and the inner `]`
      falls through to the `-` again. */
  lemma NestedCycle(input: seq<seq<int>>, fuel: nat)
    requires fuel >= 4
    ensures Loop(Nested(input, 0, 4), fuel) == Loop(Nested(input, 0, 4), fuel - 4)
  {
    NestedWrapDown(input, fuel);
    NestedJumpBack(input, fuel - 1);
    NestedWrapUp(input, fuel - 2);
    NestedFallThrough(input, fuel - 3);
  }

  /** Inside the cycle no budget is ever enough. */
  lemma {:induction false} NestedNeverHalts(input: seq<seq<int>>, fuel: nat)
    ensures Loop(Nested(input, 0, 4), fuel).0 == OutOfFuel
    decreases fuel
  {
    if fuel >= 4 {
      NestedCycle(input, fuel);
      NestedNeverHalts(input, fuel - 4);
    } else if fuel > 0 {
      NestedWrapDown(input, fuel);
      if fuel > 1 {
        NestedJumpBack(input, fuel - 1);
        if fuel > 2 {
          NestedWrapUp(input, fuel - 2);
        }
      }
    }
  }

  /** From a fresh start the program never halts either: the first step,
      with cell 0 at zero, jumps from the `[` at position 0 to the first `]`
      after it, the inner one at position 3, which enters the cycle. */
  lemma NestedFromStartNeverHalts(input: seq<seq<int>>, fuel: nat)
    ensures Loop(Nested(input, 0, 0), fuel).0 == OutOfFuel
  {
    if fuel > 0 {
      var m := Nested(input, 0, 0);
      assert Step(m) == (Transition(Nested(input, 0, 4), Ok), false) by {
        assert FirstClose("[[+]-]", 1) == Some(3);
        assert JumpForward(m) == Transition(m.(programPointer := 3), Ok);
      }
      NestedNeverHalts(input, fuel - 1);
    }
  }

  /** `[[+]-]` should be skipped whole on a zero cell. The forward scan
      instead stops at the inner `]`, and the program then cycles: `start`
      never returns, whatever budget it is given. */
  lemma NestedSkipDiverges(input: seq<seq<int>>, fuel: nat)
    ensures Run(Load(Initial(input), "[[+]-]"), fuel).0 == OutOfFuel
  {
    LoadPure(input, "[[+]-]");
    assert Load(Initial(input), "[[+]-]").(ready := false) == Nested(input, 0, 0);
    NestedFromStartNeverHalts(input, fuel);
  }
}
