/** The tape of 8-bit cells and its data pointer, shared verbatim by both
    interpreter variants: the handlers for `>`, `<`, `+`, `-` and the store
    half of `,`. */
module Memory {
  import opened Common

  /** The data pointer may never reach this position. */
  const MemoryLimit: int := 30000

  predicate IsByte(v: int) { 0 <= v <= 255 }

  function Max(a: int, b: int): int { if a < b then b else a }

  /** `+` on one cell: add one, and replace anything above 255 by 0. */
  function WrapIncrement(v: int): (r: int)
    ensures IsByte(v) ==> IsByte(r) && r == (v + 1) % 256
  {
    if v + 1 > 255 then 0 else v + 1
  }

  /** `-` on one cell: subtract one, and replace anything below 0 by 255. */
  function WrapDecrement(v: int): (r: int)
    ensures IsByte(v) ==> IsByte(r) && r == (v + 255) % 256
  {
    if v - 1 < 0 then 255 else v - 1
  }

  lemma WrapInverse(v: int)
    requires IsByte(v)
    ensures WrapDecrement(WrapIncrement(v)) == v
    ensures WrapIncrement(WrapDecrement(v)) == v
  {}

  /** The memory list and the data pointer of an interpreter. */
  datatype TapeState = TapeState(memory: seq<int>, dataPointer: int)
  {
    /** What holds between instructions: the pointer indexes the tape, the
        tape stays below the limit and every cell is a byte. */
    predicate Valid()
    {
      0 <= dataPointer < |memory| <= MemoryLimit &&
      forall i :: 0 <= i < |memory| ==> IsByte(memory[i])
    }

    function Current(): int
      requires Valid()
    {
      memory[dataPointer]
    }
  }

  /** One zero cell, the pointer on it. */
  const Fresh: TapeState := TapeState([0], 0)

  function Zeros(n: nat): (z: seq<int>)
    ensures |z| == n && forall i :: 0 <= i < n ==> z[i] == 0
  {
    seq(n, _ => 0)
  }

  /** The memory after appending zeros until `index` is a valid position. */
  function Pad(memory: seq<int>, index: nat): (r: seq<int>)
    ensures |r| == Max(|memory|, index + 1)
    ensures r[..|memory|] == memory
    ensures forall i :: |memory| <= i < |r| ==> r[i] == 0
  {
    if index < |memory| then memory else memory + Zeros(index + 1 - |memory|)
  }

  /** `>`: the pointer moves first; reaching the limit raises with the
      memory untouched, otherwise the tape grows to cover the pointer. */
  function MoveRight(t: TapeState): (r: Transition<TapeState>)
    requires t.Valid()
    ensures r.next.dataPointer == t.dataPointer + 1
    ensures r.outcome.Raise? <==> t.dataPointer + 1 == MemoryLimit
    ensures r.outcome.Raise? ==> r.outcome.fault == MemoryLimitExceeded && r.next.memory == t.memory
    ensures r.outcome.Ok? ==> |r.next.memory| == Max(|t.memory|, r.next.dataPointer + 1)
    ensures r.outcome.Ok? ==> r.next.Valid() && r.next.memory[..|t.memory|] == t.memory
    ensures r.outcome.Ok? ==> forall i :: |t.memory| <= i < |r.next.memory| ==> r.next.memory[i] == 0
  {
    var dp := t.dataPointer + 1;
    if dp == MemoryLimit then Transition(TapeState(t.memory, dp), Raise(MemoryLimitExceeded))
    else Transition(TapeState(Pad(t.memory, dp), dp), Ok)
  }

  /** `<`: the pointer moves first; dropping below 0 raises. */
  function MoveLeft(t: TapeState): (r: Transition<TapeState>)
    requires t.Valid()
    ensures r.next.memory == t.memory && r.next.dataPointer == t.dataPointer - 1
    ensures r.outcome.Raise? <==> t.dataPointer == 0
    ensures r.outcome.Raise? ==> r.outcome.fault == NegativePointer
    ensures r.outcome.Ok? ==> r.next.Valid()
  {
    var dp := t.dataPointer - 1;
    Transition(TapeState(t.memory, dp), if dp < 0 then Raise(NegativePointer) else Ok)
  }

  /** `+` on the current cell. */
  function Increment(t: TapeState): (r: TapeState)
    requires t.Valid()
    ensures r.Valid() && r.dataPointer == t.dataPointer && |r.memory| == |t.memory|
    ensures r.Current() == (t.Current() + 1) % 256
    ensures forall i :: 0 <= i < |t.memory| && i != t.dataPointer ==> r.memory[i] == t.memory[i]
  {
    t.(memory := t.memory[t.dataPointer := WrapIncrement(t.Current())])
  }

  /** `-` on the current cell. */
  function Decrement(t: TapeState): (r: TapeState)
    requires t.Valid()
    ensures r.Valid() && r.dataPointer == t.dataPointer && |r.memory| == |t.memory|
    ensures r.Current() == (t.Current() + 255) % 256
    ensures forall i :: 0 <= i < |t.memory| && i != t.dataPointer ==> r.memory[i] == t.memory[i]
  {
    t.(memory := t.memory[t.dataPointer := WrapDecrement(t.Current())])
  }

  /** The store half of `,`: a code point outside [0, 255] raises and
      leaves the tape as it was. */
  function Write(t: TapeState, v: int): (r: Transition<TapeState>)
    requires t.Valid()
    ensures r.outcome.Ok? <==> IsByte(v)
    ensures r.outcome.Raise? ==> r.outcome.fault == NonByteInput && r.next == t
    ensures r.outcome.Ok? ==> r.next.Valid() && r.next.Current() == v
    ensures r.next.dataPointer == t.dataPointer && |r.next.memory| == |t.memory|
    ensures forall i :: 0 <= i < |t.memory| && i != t.dataPointer ==> r.next.memory[i] == t.memory[i]
  {
    if v > 255 || v < 0 then Transition(t, Raise(NonByteInput))
    else Transition(t.(memory := t.memory[t.dataPointer := v]), Ok)
  }

  /** `+` and `-` undo each other on any valid tape. */
  lemma IncrementDecrementInverse(t: TapeState)
    requires t.Valid()
    ensures Decrement(Increment(t)) == t
    ensures Increment(Decrement(t)) == t
  {
    WrapInverse(t.Current());
    assert t.memory[t.dataPointer := t.Current()] == t.memory;
  }

  /** `>` undoes a successful `<` exactly; `<` after a successful `>`
      restores the pointer, and the only trace left is the zero cells `>`
      appended. */
  lemma MoveInverse(t: TapeState)
    requires t.Valid()
    ensures MoveLeft(t).outcome.Ok? ==> MoveRight(MoveLeft(t).next) == Transition(t, Ok)
    ensures MoveRight(t).outcome.Ok? ==>
      MoveLeft(MoveRight(t).next) == Transition(TapeState(Pad(t.memory, t.dataPointer + 1), t.dataPointer), Ok)
  {
  }

  /** The tape-only instructions, for stating properties of whole sequences
      of them. */
  datatype TapeOp = Right | Left | Plus | Minus | Put(value: int)

  function Apply(t: TapeState, op: TapeOp): (r: Transition<TapeState>)
    requires t.Valid()
    ensures r.outcome.Ok? ==> r.next.Valid()
    ensures |r.next.memory| >= |t.memory|
  {
    match op
    case Right => MoveRight(t)
    case Left => MoveLeft(t)
    case Plus => Transition(Increment(t), Ok)
    case Minus => Transition(Decrement(t), Ok)
    case Put(v) => Write(t, v)
  }

  /** Apply the operations in order, stopping at the first raise. */
  function ApplyAll(t: TapeState, ops: seq<TapeOp>): (r: Transition<TapeState>)
    requires t.Valid()
    decreases |ops|
  {
    if ops == [] then Transition(t, Ok)
    else
      var s := Apply(t, ops[0]);
      if s.outcome.Raise? then s else ApplyAll(s.next, ops[1..])
  }

  /** The largest data-pointer position visited when `ops` run from `dp`. */
  function Reach(dp: int, ops: seq<TapeOp>): (r: int)
    ensures r >= dp
    decreases |ops|
  {
    if ops == [] then dp
    else
      var dp' := match ops[0] case Right => dp + 1 case Left => dp - 1 case _ => dp;
      Max(dp, Reach(dp', ops[1..]))
  }

  /** The tape grows lazily and never shrinks: after a run without faults
      it is exactly long enough for the furthest cell the pointer visited. */
  lemma {:induction false} LengthIsHighWaterMark(t: TapeState, ops: seq<TapeOp>)
    requires t.Valid()
    requires ApplyAll(t, ops).outcome.Ok?
    ensures |ApplyAll(t, ops).next.memory| == Max(|t.memory|, Reach(t.dataPointer, ops) + 1)
    decreases |ops|
  {
    if ops != [] {
      var s := Apply(t, ops[0]);
      LengthIsHighWaterMark(s.next, ops[1..]);
    }
  }

  /** From a fresh tape the length is the furthest position plus one. */
  lemma FreshLengthIsHighWaterMark(ops: seq<TapeOp>)
    requires ApplyAll(Fresh, ops).outcome.Ok?
    ensures |ApplyAll(Fresh, ops).next.memory| == Reach(0, ops) + 1
  {
    LengthIsHighWaterMark(Fresh, ops);
  }

  function Rights(n: nat): (ops: seq<TapeOp>)
    ensures |ops| == n && forall i :: 0 <= i < n ==> ops[i] == Right
  {
    seq(n, _ => Right)
  }

  /** `n` moves to the right from position `k` of an all-zero tape: they
      succeed while the pointer stays below the limit, and the move that
      would reach the limit is the one that raises. */
  lemma {:induction false} RightsFrom(k: nat, n: nat)
    requires k < MemoryLimit
    ensures TapeState(Zeros(k + 1), k).Valid()
    ensures k + n < MemoryLimit ==>
      ApplyAll(TapeState(Zeros(k + 1), k), Rights(n)) == Transition(TapeState(Zeros(k + n + 1), k + n), Ok)
    ensures k + n >= MemoryLimit ==>
      ApplyAll(TapeState(Zeros(k + 1), k), Rights(n)) == Transition(TapeState(Zeros(MemoryLimit), MemoryLimit), Raise(MemoryLimitExceeded))
    decreases n
  {
    var t := TapeState(Zeros(k + 1), k);
    if n > 0 {
      assert Rights(n)[1..] == Rights(n - 1);
      if k + 1 == MemoryLimit {
        assert MoveRight(t) == Transition(TapeState(Zeros(MemoryLimit), MemoryLimit), Raise(MemoryLimitExceeded));
      } else {
        assert Pad(Zeros(k + 1), k + 1) == Zeros(k + 2);
        RightsFrom(k + 1, n - 1);
      }
    }
  }

  /** A run of `>` from a fresh tape raises exactly at the 30000th move. */
  lemma RightsFromFresh(n: nat)
    ensures n < MemoryLimit ==> ApplyAll(Fresh, Rights(n)).outcome.Ok?
    ensures n < MemoryLimit ==> ApplyAll(Fresh, Rights(n)).next == TapeState(Zeros(n + 1), n)
    ensures n >= MemoryLimit ==> ApplyAll(Fresh, Rights(n)).outcome == Raise(MemoryLimitExceeded)
  {
    assert Zeros(1) == [0];
    RightsFrom(0, n);
  }

  /** The tape of one interpreter, updated in place. */
  class Tape {
    var memory: seq<int>
    var dataPointer: int

    ghost function State(): TapeState
      reads this
    {
      TapeState(memory, dataPointer)
    }

    ghost predicate Valid()
      reads this
    {
      State().Valid()
    }

    constructor ()
      ensures State() == Fresh && Valid()
    {
      memory := [0];
      dataPointer := 0;
    }

    /** Instruction `>`. */
    method IncrementPointer() returns (o: Outcome)
      requires Valid()
      modifies this
      ensures Transition(State(), o) == MoveRight(old(State()))
    {
      dataPointer := dataPointer + 1;
      if dataPointer == MemoryLimit {
        return Raise(MemoryLimitExceeded);
      }
      while |memory| <= dataPointer
        invariant dataPointer == old(dataPointer) + 1
        invariant |old(memory)| <= |memory| <= Max(|old(memory)|, dataPointer + 1)
        invariant memory[..|old(memory)|] == old(memory)
        invariant forall i :: |old(memory)| <= i < |memory| ==> memory[i] == 0
      {
        memory := memory + [0];
      }
      assert memory == Pad(old(memory), dataPointer);
      o := Ok;
    }

    /** Instruction `<`. */
    method DecrementPointer() returns (o: Outcome)
      requires Valid()
      modifies this
      ensures Transition(State(), o) == MoveLeft(old(State()))
    {
      dataPointer := dataPointer - 1;
      o := if dataPointer < 0 then Raise(NegativePointer) else Ok;
    }

    /** Instruction `+`. */
    method IncrementValue()
      requires Valid()
      modifies this
      ensures State() == Increment(old(State()))
    {
      memory := memory[dataPointer := memory[dataPointer] + 1];
      if memory[dataPointer] > 255 {
        memory := memory[dataPointer := 0];
      }
    }

    /** Instruction `-`. */
    method DecrementValue()
      requires Valid()
      modifies this
      ensures State() == Decrement(old(State()))
    {
      memory := memory[dataPointer := memory[dataPointer] - 1];
      if memory[dataPointer] < 0 {
        memory := memory[dataPointer := 255];
      }
    }

    /** The check-and-store of instruction `,`. */
    method StoreValue(v: int) returns (o: Outcome)
      requires Valid()
      modifies this
      ensures Transition(State(), o) == Write(old(State()), v)
    {
      if v > 255 || v < 0 {
        return Raise(NonByteInput);
      }
      memory := memory[dataPointer := v];
      o := Ok;
    }
  }
}
