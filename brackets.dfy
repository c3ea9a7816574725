/** The bracket scans of the two variants, as functions of the program and
    the position the scan starts from. Neither forward scan tracks nesting;
    the standalone backward scan does, the library one does not. */
module Brackets {
  import opened Common

  /** Python list indexing, where index -1 is the last element. */
  function At(program: seq<char>, j: int): char
    requires -|program| <= j < |program|
  {
    if j < 0 then program[|program| + j] else program[j]
  }

  /** The first `]` at or after position `i`; both forward scans stop
      there without counting the brackets they pass. */
  function FirstClose(program: seq<char>, i: nat): (r: Option<nat>)
    ensures r.Some? ==> i <= r.value < |program| && program[r.value] == ']'
    ensures r.Some? ==> forall k :: i <= k < r.value ==> program[k] != ']'
    ensures r.None? <==> forall k :: i <= k < |program| ==> program[k] != ']'
    decreases |program| - i
  {
    if i >= |program| then None
    else if program[i] == ']' then Some(i)
    else FirstClose(program, i + 1)
  }

  /** The standalone backward scan, from position `j` with the nesting
      counter at `counter`: a `[` met with the counter at 0 ends the scan;
      otherwise `[` lowers the counter, `]` raises it, and the scan gives up
      once the position would become 0 or less. */
  function BackScan(program: seq<char>, j: int, counter: nat): (r: Option<int>)
    requires 0 < |program| && -1 <= j < |program|
    ensures r.Some? ==> -1 <= r.value <= j && At(program, r.value) == '['
    ensures r.Some? && 1 <= j ==> 1 <= r.value
    decreases j + 1
  {
    var c := At(program, j);
    if c == '[' && counter == 0 then Some(j)
    else
      var counter' := if c == '[' then counter - 1 else if c == ']' then counter + 1 else counter;
      if j - 1 <= 0 then None else BackScan(program, j - 1, counter')
  }

  /** Where the standalone backward scan leaves the pointer when it fails. */
  function BackScanFailure(j: int): int
  {
    if j >= 1 then 0 else j - 1
  }

  /** The library backward scan: the nearest `[` at or below `j`, never
      looking at position 0. */
  function NearestOpen(program: seq<char>, j: int): (r: Option<nat>)
    requires j < |program|
    ensures r.Some? ==> 1 <= r.value <= j && program[r.value] == '['
    ensures r.Some? ==> forall k :: r.value < k <= j ==> program[k] != '['
    ensures r.None? <==> forall k :: 1 <= k <= j ==> program[k] != '['
    decreases j
  {
    if j <= 0 then None
    else if program[j] == '[' then Some(j)
    else NearestOpen(program, j - 1)
  }

  /** +1 for `]`, -1 for `[`, 0 for everything else. */
  function Weight(c: char): int
  {
    if c == ']' then 1 else if c == '[' then -1 else 0
  }

  /** How many more `]` than `[` lie in positions lo .. hi-1. */
  function Depth(program: seq<char>, lo: nat, hi: nat): int
    requires lo <= hi <= |program|
    decreases hi - lo
  {
    if lo == hi then 0 else Depth(program, lo, hi - 1) + Weight(program[hi - 1])
  }

  /** The `[` at `k` is the partner of a backward scan over positions below
      `hi` that began with `counter` unmatched `]`: the brackets in between,
      together with the counter, balance exactly at `k` and never dip below
      zero before it. */
  ghost predicate Partner(program: seq<char>, k: nat, hi: nat, counter: nat)
    requires k < hi <= |program|
  {
    program[k] == '[' &&
    counter + Depth(program, k + 1, hi) == 0 &&
    forall m :: k < m < hi ==> counter + Depth(program, m, hi) >= 0
  }

  /** The standalone backward scan, started just below `hi`, finds the
      properly nested partner among the positions it inspects (hi - 1
      itself, then down to 1), and fails only when none of them is one. */
  lemma {:induction false} BackScanFindsPartner(program: seq<char>, hi: nat, counter: nat)
    requires 0 < hi <= |program|
    ensures BackScan(program, hi - 1, counter).Some? ==>
      var k := BackScan(program, hi - 1, counter).value;
      0 <= k < hi && (k >= 1 || k == hi - 1) && Partner(program, k, hi, counter)
    ensures BackScan(program, hi - 1, counter).None? ==>
      forall k :: 0 <= k < hi && (k >= 1 || k == hi - 1) ==> !Partner(program, k, hi, counter)
    decreases hi
  {
    var j := hi - 1;
    var c := program[j];
    assert Depth(program, hi, hi) == 0;
    if !(c == '[' && counter == 0) {
      var counter' := counter + Weight(c);
      assert !Partner(program, j, hi, counter);
      if j - 1 > 0 {
        BackScanFindsPartner(program, j, counter');
        assert counter' >= 0;
        forall k | 0 <= k < j
          ensures Partner(program, k, hi, counter) <==> Partner(program, k, j, counter')
        {
          forall m | k < m < hi
            ensures counter + Depth(program, m, hi) == counter' + Depth(program, m, j)
          {
          }
        }
      }
    }
  }

  /** Depth peeled from the front. */
  lemma {:induction false} DepthFront(program: seq<char>, lo: nat, hi: nat)
    requires lo < hi <= |program|
    ensures Depth(program, lo, hi) == Weight(program[lo]) + Depth(program, lo + 1, hi)
    decreases hi - lo
  {
    if lo + 1 < hi {
      DepthFront(program, lo, hi - 1);
    }
  }

  /** A partner is the nearest one: no `[` between it and `hi` is also one. */
  lemma PartnerIsNearest(program: seq<char>, k: nat, k': nat, hi: nat, counter: nat)
    requires k < k' < hi <= |program|
    requires Partner(program, k, hi, counter)
    ensures !Partner(program, k', hi, counter)
  {
    DepthFront(program, k', hi);
  }

  /** The standalone backward scan from the `]` at `p` (p >= 2), run with
      the counter at 0, stops exactly when some `[` below `p` encloses a
      balanced stretch, and at the nearest such one. */
  lemma BackScanBalances(program: seq<char>, p: nat)
    requires 2 <= p < |program|
    ensures BackScan(program, p - 1, 0).Some? <==>
      exists k :: 1 <= k < p && Partner(program, k, p, 0)
    ensures BackScan(program, p - 1, 0).Some? ==>
      var k := BackScan(program, p - 1, 0).value;
      1 <= k < p && program[k] == '[' && Depth(program, k + 1, p) == 0 &&
      forall k' :: k < k' < p ==> !Partner(program, k', p, 0)
  {
    BackScanFindsPartner(program, p, 0);
    if BackScan(program, p - 1, 0).Some? {
      var k := BackScan(program, p - 1, 0).value;
      forall k' | k < k' < p
        ensures !Partner(program, k', p, 0)
      {
        PartnerIsNearest(program, k, k', p, 0);
      }
    }
  }
}
