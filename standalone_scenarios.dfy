/** Whole runs of the standalone interpreter on small programs, from a fresh
    object through `load_program` and `start`. */
module StandaloneScenarios {
  import opened Common
  import opened Memory
  import opened Brackets
  import opened Standalone
  import Loader

  /** Loading a text made only of instructions into a fresh interpreter
      keeps it whole and makes the interpreter ready. */
  lemma LoadPure(input: seq<int>, text: string)
    requires text != [] && forall i :: 0 <= i < |text| ==> text[i] in Instructions
    ensures Load(Initial(input), text) == Transition(Machine(Fresh, text, 0, true, input, []), Ok)
  {
    Loader.FilterKeepsInstructions(text, Instructions);
    assert Initial(input).program + text == text;
  }

  /** One step that returns normally without reaching the end costs one
      unit of fuel and leaves the rest of the run to the next state. */
  lemma Advance(m: Machine, next: Machine, fuel: nat)
    requires m.Valid() && fuel >= 1
    requires Step(m) == (Transition(next, Ok), false)
    ensures Loop(m, fuel) == Loop(next, fuel - 1)
  {
  }

  /** A step that reports the end makes the loop return True there. */
  lemma Halt(m: Machine, next: Machine, fuel: nat)
    requires m.Valid() && fuel >= 1
    requires Step(m) == (Transition(next, Ok), true)
    ensures Loop(m, fuel) == (Returned(true), next)
  {
  }

  /** A step that raises ends the loop with that exception. */
  lemma Fail(m: Machine, next: Machine, fault: Fault, fuel: nat)
    requires m.Valid() && fuel >= 1
    requires Step(m) == (Transition(next, Raise(fault)), false)
    ensures Loop(m, fuel) == (Raised(fault), next)
  {
  }

  /** `++.` prints the byte 2 and returns True. */
  lemma PrintsTwo(input: seq<int>)
    ensures Load(Initial(input), "++.").outcome == Ok
    ensures Run(Load(Initial(input), "++.").next, 3) ==
      (Returned(true), Machine(TapeState([2], 0), "++.", 3, false, input, [2]))
  {
    LoadPure(input, "++.");
    var m := Machine(Fresh, "++.", 0, false, input, []);
    var s1 := m.(tape := TapeState([1], 0), programPointer := 1);
    var s2 := m.(tape := TapeState([2], 0), programPointer := 2);
    assert Step(m) == (Transition(s1, Ok), false) by {
      assert Dispatch(m).next == s1.(programPointer := 0);
    }
    Advance(m, s1, 3);
    assert Step(s1) == (Transition(s2, Ok), false) by {
      assert Dispatch(s1).next == s2.(programPointer := 1);
    }
    Advance(s1, s2, 2);
    assert Step(s2) == (Transition(s2.(programPointer := 3, output := [2]), Ok), true) by {
      assert s2.program[2] == '.' && s2.tape.Current() == 2;
      assert Dispatch(s2).next == s2.(output := [2]);
    }
    Halt(s2, s2.(programPointer := 3, output := [2]), 1);
  }

  /** The interpreter running `++[>+<-]` between two instructions. */
  function Mover(input: seq<int>, memory: seq<int>, dataPointer: int, programPointer: int): Machine
  {
    Machine(TapeState(memory, dataPointer), "++[>+<-]", programPointer, false, input, [])
  }

  /** The first two steps set cell 0 to 2. */
  lemma MoverSetup(input: seq<int>, fuel: nat)
    requires fuel >= 2
    ensures Loop(Mover(input, [0], 0, 0), fuel) == Loop(Mover(input, [2], 0, 2), fuel - 2)
  {
    var s0, s1, s2 := Mover(input, [0], 0, 0), Mover(input, [1], 0, 1), Mover(input, [2], 0, 2);
    assert Step(s0) == (Transition(s1, Ok), false) by {
      assert Dispatch(s0).next == s1.(programPointer := 0);
    }
    Advance(s0, s1, fuel);
    assert Step(s1) == (Transition(s2, Ok), false) by {
      assert Dispatch(s1).next == s2.(programPointer := 1);
    }
    Advance(s1, s2, fuel - 1);
  }

  /** The next two steps enter the loop, the cell being nonzero, and move
      right onto a new cell. */
  lemma MoverEnter(input: seq<int>, fuel: nat)
    requires fuel >= 2
    ensures Loop(Mover(input, [2], 0, 2), fuel) == Loop(Mover(input, [2, 0], 1, 4), fuel - 2)
  {
    var s2, s3, s4 := Mover(input, [2], 0, 2), Mover(input, [2], 0, 3), Mover(input, [2, 0], 1, 4);
    assert Step(s2) == (Transition(s3, Ok), false) by {
      assert Dispatch(s2) == Transition(s2, Ok);
    }
    Advance(s2, s3, fuel);
    assert Step(s3) == (Transition(s4, Ok), false) by {
      assert Dispatch(s3).next == s4.(programPointer := 3);
    }
    Advance(s3, s4, fuel - 1);
  }

  /** The rest of the first pass: add one to cell 1, step back and take
      one from cell 0. */
  lemma MoverFirstBody(input: seq<int>, fuel: nat)
    requires fuel >= 3
    ensures Loop(Mover(input, [2, 0], 1, 4), fuel) == Loop(Mover(input, [1, 1], 0, 7), fuel - 3)
  {
    var s4, s5 := Mover(input, [2, 0], 1, 4), Mover(input, [2, 1], 1, 5);
    var s6, s7 := Mover(input, [2, 1], 0, 6), Mover(input, [1, 1], 0, 7);
    assert Step(s4) == (Transition(s5, Ok), false) by {
      assert Dispatch(s4).next == s5.(programPointer := 4);
    }
    Advance(s4, s5, fuel);
    assert Step(s5) == (Transition(s6, Ok), false);
    Advance(s5, s6, fuel - 1);
    assert Step(s6) == (Transition(s7, Ok), false) by {
      assert Dispatch(s6).next == s7.(programPointer := 6);
    }
    Advance(s6, s7, fuel - 2);
  }

  /** The next two steps: jump back to the `[`, which the nesting-aware
      scan finds at position 2, and move right again. */
  lemma MoverJumpBack(input: seq<int>, fuel: nat)
    requires fuel >= 2
    ensures Loop(Mover(input, [1, 1], 0, 7), fuel) == Loop(Mover(input, [1, 1], 1, 4), fuel - 2)
  {
    var t0, t1, t2 := Mover(input, [1, 1], 0, 7), Mover(input, [1, 1], 0, 3), Mover(input, [1, 1], 1, 4);
    assert Step(t0) == (Transition(t1, Ok), false) by {
      var j := t0.(programPointer := 2);
      assert BackScan(t0.program, 6, 0) == Some(2);
      assert JumpBackward(t0) == Transition(j, Ok);
      assert Dispatch(t0) == Transition(j, Ok);
    }
    Advance(t0, t1, fuel);
    assert Step(t1) == (Transition(t2, Ok), false) by {
      assert Dispatch(t1).next == t2.(programPointer := 3);
    }
    Advance(t1, t2, fuel - 1);
  }

  /** The second pass through the body: cell 1 becomes 2 and cell 0
      becomes 0. */
  lemma MoverSecondBody(input: seq<int>, fuel: nat)
    requires fuel >= 3
    ensures Loop(Mover(input, [1, 1], 1, 4), fuel) == Loop(Mover(input, [0, 2], 0, 7), fuel - 3)
  {
    var t2, t3 := Mover(input, [1, 1], 1, 4), Mover(input, [1, 2], 1, 5);
    var t4, t5 := Mover(input, [1, 2], 0, 6), Mover(input, [0, 2], 0, 7);
    assert Step(t2) == (Transition(t3, Ok), false) by {
      assert Dispatch(t2).next == t3.(programPointer := 4);
    }
    Advance(t2, t3, fuel);
    assert Step(t3) == (Transition(t4, Ok), false);
    Advance(t3, t4, fuel - 1);
    assert Step(t4) == (Transition(t5, Ok), false) by {
      assert Dispatch(t4).next == t5.(programPointer := 6);
    }
    Advance(t4, t5, fuel - 2);
  }

  /** The first pass: seven steps from the start to the loop's `]` with
      one unit moved. */
  lemma MoverFirstPass(input: seq<int>, fuel: nat)
    requires fuel >= 7
    ensures Loop(Mover(input, [0], 0, 0), fuel) == Loop(Mover(input, [1, 1], 0, 7), fuel - 7)
  {
    MoverSetup(input, fuel);
    MoverEnter(input, fuel - 2);
    MoverFirstBody(input, fuel - 4);
  }

  /** The second pass: five more steps back to the loop's `]` with both
      units moved. */
  lemma MoverSecondPass(input: seq<int>, fuel: nat)
    requires fuel >= 5
    ensures Loop(Mover(input, [1, 1], 0, 7), fuel) == Loop(Mover(input, [0, 2], 0, 7), fuel - 5)
  {
    MoverJumpBack(input, fuel);
    MoverSecondBody(input, fuel - 2);
  }

  /** The last step, from the `-` back at the loop's `]` with cell 0 now
      zero, falls through and reports the end. */
  lemma MoverExits(input: seq<int>, fuel: nat)
    requires fuel >= 1
    ensures Loop(Mover(input, [0, 2], 0, 7), fuel) == (Returned(true), Mover(input, [0, 2], 0, 8))
  {
    assert Step(Mover(input, [0, 2], 0, 7)) == (Transition(Mover(input, [0, 2], 0, 8), Ok), true);
    Halt(Mover(input, [0, 2], 0, 7), Mover(input, [0, 2], 0, 8), fuel);
  }

  /** The whole run of `++[>+<-]`: thirteen steps, the last of which
      reports the end. */
  lemma MoverRuns(input: seq<int>, fuel: nat)
    requires fuel >= 13
    ensures Loop(Mover(input, [0], 0, 0), fuel) == (Returned(true), Mover(input, [0, 2], 0, 8))
  {
    MoverFirstPass(input, fuel);
    MoverSecondPass(input, fuel - 7);
    MoverExits(input, fuel - 12);
  }

  /** `++[>+<-]` moves cell 0 into cell 1, jumping back once through the
      nesting-aware scan, and returns True after thirteen steps. */
  lemma MovesCell(input: seq<int>, fuel: nat)
    requires fuel >= 13
    ensures Load(Initial(input), "++[>+<-]").outcome == Ok
    ensures Run(Load(Initial(input), "++[>+<-]").next, fuel) == (Returned(true), Mover(input, [0, 2], 0, 8))
  {
    LoadPure(input, "++[>+<-]");
    assert Load(Initial(input), "++[>+<-]").next.(ready := false) == Mover(input, [0], 0, 0);
    MoverRuns(input, fuel);
  }

  /** `,.` echoes one byte of input, consuming exactly that byte; with no
      input left `ord('')` raises, and a code point above 255 is refused. */
  lemma EchoesOneByte(input: seq<int>)
    ensures Load(Initial(input), ",.").outcome == Ok
    ensures input == [] ==> Run(Load(Initial(input), ",.").next, 2).0 == Raised(EndOfInput)
    ensures input != [] && IsByte(input[0]) ==>
      Run(Load(Initial(input), ",.").next, 2) ==
        (Returned(true), Machine(TapeState([input[0]], 0), ",.", 2, false, input[1..], [input[0]]))
    ensures input != [] && !IsByte(input[0]) ==> Run(Load(Initial(input), ",.").next, 2).0 == Raised(NonByteInput)
  {
    LoadPure(input, ",.");
    var m := Machine(Fresh, ",.", 0, false, input, []);
    if input == [] {
      Fail(m, Step(m).0.next, EndOfInput, 2);
    } else if IsByte(input[0]) {
      var read := Machine(TapeState([input[0]], 0), ",.", 1, false, input[1..], []);
      assert Step(m) == (Transition(read, Ok), false) by {
        assert [0][0 := input[0]] == [input[0]];
        assert Write(Fresh, input[0]) == Transition(TapeState([input[0]], 0), Ok);
        assert Dispatch(m).next == read.(programPointer := 0);
      }
      Advance(m, read, 2);
      var done := read.(programPointer := 2, output := [input[0]]);
      assert Step(read) == (Transition(done, Ok), true) by {
        assert Dispatch(read).next == read.(output := [input[0]]);
      }
      Halt(read, done, 1);
    } else {
      Fail(m, Step(m).0.next, NonByteInput, 2);
    }
  }

  /** A text without a single instruction is refused by `load_program`
      with the interpreter left not ready, so `start` returns False. */
  lemma CommentOnlyRefused(input: seq<int>, fuel: nat)
    ensures Load(Initial(input), "hello").outcome == Raise(EmptyProgram)
    ensures Run(Load(Initial(input), "hello").next, fuel).0 == Returned(false)
  {
    assert forall i :: 0 <= i < |"hello"| ==> "hello"[i] !in Instructions by {
      forall i | 0 <= i < |"hello"| ensures "hello"[i] !in Instructions {
        assert "hello"[i] in {'h', 'e', 'l', 'o'};
      }
    }
  }

  /** A `[` with nothing after it: the forward scan runs off the end. */
  lemma LoneOpenRaises(input: seq<int>, fuel: nat)
    requires fuel >= 1
    ensures Run(Load(Initial(input), "[").next, fuel) ==
      (Raised(UnmatchedBracket), Machine(Fresh, "[", 1, false, input, []))
  {
    LoadPure(input, "[");
    var m := Machine(Fresh, "[", 0, false, input, []);
    assert Step(m) == (Transition(m.(programPointer := 1), Raise(UnmatchedBracket)), false) by {
      assert FirstClose("[", 0) == None;
    }
    Fail(m, m.(programPointer := 1), UnmatchedBracket, fuel);
  }

  /** `<` on a fresh interpreter: the pointer drops to -1 before the raise. */
  lemma LeftOfZeroRaises(input: seq<int>, fuel: nat)
    requires fuel >= 1
    ensures Run(Load(Initial(input), "<").next, fuel) ==
      (Raised(NegativePointer), Machine(TapeState([0], -1), "<", 0, false, input, []))
  {
    LoadPure(input, "<");
    var m := Machine(Fresh, "<", 0, false, input, []);
    var left := m.(tape := TapeState([0], -1));
    assert Step(m) == (Transition(left, Raise(NegativePointer)), false);
    Fail(m, left, NegativePointer, fuel);
  }

  /** The first two steps of `[[+]-]` from a fresh tape: the `[` jumps to
      the inner `]` on the zero cell and the `-` wraps the cell to 255. */
  lemma NestedSkipEnter(input: seq<int>, fuel: nat)
    requires fuel >= 2
    ensures Loop(Machine(Fresh, "[[+]-]", 0, false, input, []), fuel) ==
      Loop(Machine(TapeState([255], 0), "[[+]-]", 5, false, input, []), fuel - 2)
  {
    var m := Machine(Fresh, "[[+]-]", 0, false, input, []);
    var s1 := m.(programPointer := 4);
    var s2 := m.(tape := TapeState([255], 0), programPointer := 5);
    assert Step(m) == (Transition(s1, Ok), false) by {
      assert FirstClose("[[+]-]", 0) == Some(3);
      assert Dispatch(m).next == m.(programPointer := 3);
    }
    Advance(m, s1, fuel);
    assert Step(s1) == (Transition(s2, Ok), false) by {
      assert Dispatch(s1).next == s2.(programPointer := 4);
    }
    Advance(s1, s2, fuel - 1);
  }

  /** The third step: the outer `]` finds no partner among the positions
      it inspects. */
  lemma NestedSkipSteps(input: seq<int>, fuel: nat)
    requires fuel >= 3
    ensures Loop(Machine(Fresh, "[[+]-]", 0, false, input, []), fuel) ==
      (Raised(UnmatchedBracket), Machine(TapeState([255], 0), "[[+]-]", 0, false, input, []))
  {
    NestedSkipEnter(input, fuel);
    var s2 := Machine(TapeState([255], 0), "[[+]-]", 5, false, input, []);
    assert Step(s2) == (Transition(s2.(programPointer := 0), Raise(UnmatchedBracket)), false) by {
      assert BackScan("[[+]-]", 4, 0) == None;
    }
    Fail(s2, s2.(programPointer := 0), UnmatchedBracket, fuel - 2);
  }

  /** `[[+]-]` should be skipped whole on a zero cell. The forward scan
      instead stops at the inner `]`, the `-` wraps the cell to 255, and the
      backward scan from the outer `]` then finds its partner only at
      position 0, which it never inspects: the run raises. */
  lemma NestedSkipRaises(input: seq<int>, fuel: nat)
    requires fuel >= 3
    ensures Run(Load(Initial(input), "[[+]-]").next, fuel) ==
      (Raised(UnmatchedBracket), Machine(TapeState([255], 0), "[[+]-]", 0, false, input, []))
  {
    LoadPure(input, "[[+]-]");
    assert Load(Initial(input), "[[+]-]").next.(ready := false) == Machine(Fresh, "[[+]-]", 0, false, input, []);
    NestedSkipSteps(input, fuel);
  }
}
