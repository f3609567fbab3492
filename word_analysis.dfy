/**
 * The result of analysing one word: the input, its normalized form and the
 * candidate parses, with the correctness predicate, structural equality, the
 * 31-multiplier hash and the object's own iteration protocol.
 */
module WordAnalyses {
  import opened Wrappers
  import opened Analyses

  datatype WordAnalysis = WordAnalysis(input: string, analysisResults: seq<SingleAnalysis>, normalizedInput: string)
  {
    /** There is a first parse and its item is a real one. */
    function IsCorrect(): (r: bool)
      ensures analysisResults == [] ==> !r
      ensures |analysisResults| > 0 && analysisResults[0].IsUnknown() ==> !r
      ensures r ==> exists p :: p in analysisResults && !p.IsUnknown()
      ensures |analysisResults| > 0 && !analysisResults[0].IsUnknown() ==> r
    {
      |analysisResults| > 0 && !analysisResults[0].IsUnknown()
    }
  }

  /** The constructor: the normalized input defaults to the input itself when omitted. */
  function Create(input: string, analysisResults: seq<SingleAnalysis>, normalizedInput: Option<string>): (w: WordAnalysis)
    ensures w.input == input && w.analysisResults == analysisResults
    ensures normalizedInput.None? ==> w.normalizedInput == input
    ensures normalizedInput.Some? ==> w.normalizedInput == normalizedInput.value
  {
    WordAnalysis(input, analysisResults, if normalizedInput.None? then input else normalizedInput.value)
  }

  /** The shared result for an input that normalizes to the empty string. */
  const EmptyInputResult: WordAnalysis := Create("", [], None)

  lemma EmptyInputResultIsEmpty()
    ensures EmptyInputResult.input == "" && EmptyInputResult.normalizedInput == ""
    ensures EmptyInputResult.analysisResults == []
    ensures !EmptyInputResult.IsCorrect()
  {
  }

  // ---------------------------------------------------------------------------
  // Hashing

  /**
   * The hashes the object's hash is built from: the hash of a string, the hash
   * of a parse, and whether a parse is truthy (a falsy parse contributes 0).
   */
  datatype Hashing = Hashing(ofString: string -> int, ofAnalysis: SingleAnalysis -> int, truthy: SingleAnalysis -> bool)

  function ElementHash(hs: Hashing, x: SingleAnalysis): int {
    if hs.truthy(x) then hs.ofAnalysis(x) else 0
  }

  /** The accumulator after the input and the normalized input have been folded in. */
  function HashSeed(hs: Hashing, w: WordAnalysis): int {
    31 * hs.ofString(w.input) + hs.ofString(w.normalizedInput)
  }

  /** `acc` with the parses of `s` folded in, one `31 * h + hash(x)` step each, left to right. */
  function FoldHash(hs: Hashing, acc: int, s: seq<SingleAnalysis>): int
    decreases |s|
  {
    if s == [] then acc
    else 31 * FoldHash(hs, acc, s[..|s| - 1]) + ElementHash(hs, s[|s| - 1])
  }

  /** The value the object's hash computes. */
  function HashOf(hs: Hashing, w: WordAnalysis): int {
    FoldHash(hs, HashSeed(hs, w), w.analysisResults)
  }

  function Pow31(n: nat): nat {
    if n == 0 then 1 else 31 * Pow31(n - 1)
  }

  /** The independent closed form: parse k of n is weighted by 31^(n-1-k). */
  function WeightedSum(hs: Hashing, s: seq<SingleAnalysis>): int
    decreases |s|
  {
    if s == [] then 0
    else Pow31(|s| - 1) * ElementHash(hs, s[0]) + WeightedSum(hs, s[1..])
  }

  lemma {:induction false} WeightedSumAppend(hs: Hashing, s: seq<SingleAnalysis>, x: SingleAnalysis)
    ensures WeightedSum(hs, s + [x]) == 31 * WeightedSum(hs, s) + ElementHash(hs, x)
    decreases |s|
  {
    if s == [] {
      assert [x][1..] == [];
    } else {
      assert (s + [x])[1..] == s[1..] + [x];
      WeightedSumAppend(hs, s[1..], x);
      var p := Pow31(|s| - 1);
      var e := ElementHash(hs, s[0]);
      assert Pow31(|s|) * e == 31 * (p * e);
    }
  }

  lemma {:induction false} FoldHashClosedForm(hs: Hashing, acc: int, s: seq<SingleAnalysis>)
    ensures FoldHash(hs, acc, s) == Pow31(|s|) * acc + WeightedSum(hs, s)
    decreases |s|
  {
    if s != [] {
      var init, x := s[..|s| - 1], s[|s| - 1];
      assert s == init + [x];
      FoldHashClosedForm(hs, acc, init);
      WeightedSumAppend(hs, init, x);
      assert Pow31(|s|) * acc == 31 * (Pow31(|init|) * acc);
    }
  }

  /**
   * The hash is the base-31 polynomial whose leading coefficients are the
   * hashes of the input and of the normalized input, followed by the parses.
   */
  lemma HashClosedForm(hs: Hashing, w: WordAnalysis)
    ensures var n := |w.analysisResults|;
      HashOf(hs, w) == Pow31(n + 1) * hs.ofString(w.input) + Pow31(n) * hs.ofString(w.normalizedInput)
                       + WeightedSum(hs, w.analysisResults)
  {
    var n := |w.analysisResults|;
    FoldHashClosedForm(hs, HashSeed(hs, w), w.analysisResults);
    assert Pow31(n) * (31 * hs.ofString(w.input)) == Pow31(n + 1) * hs.ofString(w.input);
  }

  // ---------------------------------------------------------------------------
  // The object

  /**
   * A word analysis as an object: its value never changes after construction,
   * and `index` is the position of the iteration the object itself performs.
   */
  class IterableWordAnalysis {
    const analysis: WordAnalysis
    var index: nat

    ghost predicate Valid()
      reads this
    {
      index <= |analysis.analysisResults|
    }

    constructor (input: string, analysisResults: seq<SingleAnalysis>, normalizedInput: Option<string>)
      ensures analysis == Create(input, analysisResults, normalizedInput)
      ensures index == 0 && Valid()
    {
      analysis := Create(input, analysisResults, normalizedInput);
      index := 0;
    }

    /** Equality with any other value: same object, or a word analysis with equal fields. */
    function Equals(other: object?): (r: bool)
      ensures r <==> other is IterableWordAnalysis && (other as IterableWordAnalysis).analysis == analysis
      ensures other == this ==> r
    {
      if this == other then true
      else if other is IterableWordAnalysis then
        var that := other as IterableWordAnalysis;
        if analysis.input != that.analysis.input then false
        else if analysis.normalizedInput != that.analysis.normalizedInput then false
        else analysis.analysisResults == that.analysis.analysisResults
      else false
    }

    /** The hash, accumulated the way the source's loop does it. */
    method Hash(hs: Hashing) returns (h: int)
      ensures h == HashOf(hs, analysis)
    {
      var rs := analysis.analysisResults;
      h := hs.ofString(analysis.input);
      h := 31 * h + hs.ofString(analysis.normalizedInput);
      for i := 0 to |rs|
        invariant h == FoldHash(hs, HashSeed(hs, analysis), rs[..i])
      {
        var x := rs[i];
        assert rs[..i + 1][..i] == rs[..i];
        h := 31 * h + (if hs.truthy(x) then hs.ofAnalysis(x) else 0);
      }
      assert rs[..|rs|] == rs;
    }

    /** Starts (or restarts) the iteration; the object is its own iterator. */
    method Iter() returns (self: IterableWordAnalysis)
      modifies this`index
      ensures self == this && index == 0 && Valid()
    {
      index := 0;
      self := this;
    }

    /** The next parse, or None once every parse has been returned (the stop signal). */
    method Next() returns (r: Option<SingleAnalysis>)
      requires Valid()
      modifies this`index
      ensures Valid()
      ensures old(index) < |analysis.analysisResults| ==>
                r == Some(analysis.analysisResults[old(index)]) && index == old(index) + 1
      ensures old(index) == |analysis.analysisResults| ==> r == None && index == old(index)
    {
      if index < |analysis.analysisResults| {
        r := Some(analysis.analysisResults[index]);
        index := index + 1;
      } else {
        r := None;
      }
    }

    /** What a loop over the object sees: `Iter`, then `Next` until the stop signal. */
    method Drain() returns (items: seq<SingleAnalysis>)
      requires Valid()
      modifies this`index
      ensures Valid() && index == |analysis.analysisResults|
      ensures items == analysis.analysisResults
    {
      var self := Iter();
      items := [];
      var done := false;
      while !done
        invariant Valid()
        invariant items == analysis.analysisResults[..index]
        invariant done ==> index == |analysis.analysisResults|
        decreases |analysis.analysisResults| - index, if done then 0 else 1
      {
        var next := Next();
        match next
        case Some(x) =>
          items := items + [x];
        case None =>
          done := true;
      }
      assert analysis.analysisResults[..index] == analysis.analysisResults;
    }
  }

  /** Two equal objects have the same hash. */
  lemma EqualObjectsHashEqually(a: IterableWordAnalysis, b: IterableWordAnalysis, hs: Hashing)
    requires a.Equals(b)
    ensures HashOf(hs, a.analysis) == HashOf(hs, b.analysis)
  {
  }

  /** Equality between objects is symmetric and transitive. */
  lemma EqualsIsEquivalence(a: IterableWordAnalysis, b: IterableWordAnalysis, c: IterableWordAnalysis)
    ensures a.Equals(a)
    ensures a.Equals(b) ==> b.Equals(a)
    ensures a.Equals(b) && b.Equals(c) ==> a.Equals(c)
  {
  }
}
