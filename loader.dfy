/** The loading loop of both variants: keep, in order, the characters of the
    source text that belong to the variant's instruction alphabet. */
module Loader {

  /** What `load_program` appends to `program` for `text`. */
  function Filter(text: string, alphabet: set<char>): (program: seq<char>)
    ensures |program| <= |text|
    ensures forall i :: 0 <= i < |program| ==> program[i] in alphabet
    decreases |text|
  {
    if text == [] then []
    else
      var last := text[|text| - 1];
      Filter(text[..|text| - 1], alphabet) + (if last in alphabet then [last] else [])
  }

  /** Filtering is done character by character, so it distributes over
      concatenation. */
  lemma {:induction false} FilterAppend(a: string, b: string, alphabet: set<char>)
    ensures Filter(a + b, alphabet) == Filter(a, alphabet) + Filter(b, alphabet)
    decreases |b|
  {
    if b == [] {
      assert a + b == a;
    } else {
      var ab := a + b;
      assert ab[..|ab| - 1] == a + b[..|b| - 1];
      FilterAppend(a, b[..|b| - 1], alphabet);
    }
  }

  /** A text made only of instructions is kept whole. */
  lemma {:induction false} FilterKeepsInstructions(text: string, alphabet: set<char>)
    requires forall i :: 0 <= i < |text| ==> text[i] in alphabet
    ensures Filter(text, alphabet) == text
    decreases |text|
  {
    if text != [] {
      FilterKeepsInstructions(text[..|text| - 1], alphabet);
      assert text[..|text| - 1] + [text[|text| - 1]] == text;
    }
  }

  /** Loading an already filtered program changes nothing. */
  lemma FilterIdempotent(text: string, alphabet: set<char>)
    ensures Filter(Filter(text, alphabet), alphabet) == Filter(text, alphabet)
  {
    FilterKeepsInstructions(Filter(text, alphabet), alphabet);
  }

  /** The filtered program is empty exactly when no character of the text is
      an instruction. */
  lemma {:induction false} FilterEmptyIff(text: string, alphabet: set<char>)
    ensures Filter(text, alphabet) == [] <==> forall i :: 0 <= i < |text| ==> text[i] !in alphabet
    decreases |text|
  {
    if text != [] {
      var init := text[..|text| - 1];
      FilterEmptyIff(init, alphabet);
      if forall i :: 0 <= i < |text| ==> text[i] !in alphabet {
        assert forall i :: 0 <= i < |init| ==> init[i] !in alphabet by {
          forall i | 0 <= i < |init| ensures init[i] !in alphabet {
            assert init[i] == text[i];
          }
        }
      } else {
        var i :| 0 <= i < |text| && text[i] in alphabet;
        if i < |init| {
          assert init[i] == text[i];
        }
      }
    }
  }

  /** Inserting comment characters anywhere leaves the loaded program
      unchanged. */
  lemma FilterIgnoresComments(a: string, comment: string, b: string, alphabet: set<char>)
    requires forall i :: 0 <= i < |comment| ==> comment[i] !in alphabet
    ensures Filter(a + comment + b, alphabet) == Filter(a + b, alphabet)
  {
    FilterAppend(a + comment, b, alphabet);
    FilterAppend(a, comment, alphabet);
    FilterAppend(a, b, alphabet);
    FilterEmptyIff(comment, alphabet);
  }

  /** Every occurrence of an instruction character survives, and nothing
      else does. */
  lemma {:induction false} FilterCounts(text: string, alphabet: set<char>, c: char)
    ensures multiset(Filter(text, alphabet))[c] == if c in alphabet then multiset(text)[c] else 0
    decreases |text|
  {
    if text != [] {
      var init := text[..|text| - 1];
      FilterCounts(init, alphabet, c);
      assert text == init + [text[|text| - 1]];
    }
  }
}
