/**
 * Word-level morphological analysis: normalization of a token's text, routing
 * between the apostrophe path and the plain path, the unidentified-token
 * fallback, suppression of a lone unknown parse, and the builder that
 * configures an analyzer. The rule-based analyzer, the tokenizer and the
 * alphabet tables are collaborators passed in as functions.
 */
module Morphology {
  import opened Wrappers
  import opened Seqs
  import opened Analyses
  import opened WordAnalyses

  /** The two morphotactics graphs: the standard one and the one with informal suffix paths. */
  datatype Morphotactics = TurkishMorphotactics | InformalTurkishMorphotactics

  /** Whether the rule-based analyzer matches diacritics exactly or ignores them. */
  datatype DiacriticsMode = ExactDiacritics | IgnoreDiacritics

  /** The root lexicon, as the list of its items. */
  datatype RootLexicon = RootLexicon(items: seq<DictionaryItem>)

  /** A rule-based analyzer: all parses of a normalized word. */
  type Parser = string -> seq<SingleAnalysis>

  /** The alphabet operations the layer calls; their character tables are not modelled. */
  datatype Alphabet = Alphabet(
    lowerCase: string -> string,          // the alphabet's lower-case map, then lower-casing
    normalizeCircumflex: string -> string,
    containsApostrophe: string -> bool,
    normalizeApostrophe: string -> string,
    normalize: string -> string)

  /** Everything the layer calls but does not define. */
  datatype Collaborators = Collaborators(
    alphabet: Alphabet,
    normalizeApostrophes: string -> string,
    tokenize: string -> seq<Token>,
    ruleBasedAnalyzer: (RootLexicon, Morphotactics, DiacriticsMode) -> Parser,
    unidentifiedTokenAnalyzer: (Parser, Token) -> seq<SingleAnalysis>)

  datatype MorphologyError = NotImplementedError(message: string)

  const CacheNotImplemented: string := "Cache is not implemented yet, make use_cache False"

  const Apostrophe: char := '\''

  // ---------------------------------------------------------------------------
  // Normalization

  /** Removes every '.', unless the text is made of dots only; then it is kept as it is. */
  function StripDots(s: string): (r: string)
    ensures (exists i :: 0 <= i < |s| && s[i] != '.') ==> '.' !in r
    ensures (forall i :: 0 <= i < |s| ==> s[i] == '.') ==> r == s
    ensures forall x :: x != '.' ==> multiset(r)[x] == multiset(s)[x]
    ensures IsSubsequence(r, s)
  {
    var noDot := RemoveAll(s, '.');
    if |noDot| == 0 then
      SubsequenceReflexive(s);
      assert forall i :: 0 <= i < |s| && s[i] != '.' ==> s[i] in multiset(s);
      s
    else
      noDot
  }

  lemma StripDotsIdempotent(s: string)
    ensures StripDots(StripDots(s)) == StripDots(s)
  {
  }

  /** Case folding, circumflex removal, dot stripping and apostrophe normalization, in that order. */
  function NormalizeForAnalysis(env: Collaborators, word: string): (r: string)
    ensures var t := StripDots(env.alphabet.normalizeCircumflex(env.alphabet.lowerCase(word)));
      && r == env.normalizeApostrophes(t)
      && ('.' in t ==> forall i :: 0 <= i < |t| ==> t[i] == '.')
  {
    var s := env.alphabet.normalizeCircumflex(env.alphabet.lowerCase(word));
    env.normalizeApostrophes(StripDots(s))
  }

  // ---------------------------------------------------------------------------
  // Filtering the results

  /** A parse licensed after an apostrophe: a noun that is P3sg-possessed or has the given stem. */
  function ProperNounParse(p: SingleAnalysis, stem: string): (r: bool)
    ensures r ==> p.item.primaryPos.Noun?
    ensures p.item.primaryPos.Noun? && P3sg in p.morphemeIds ==> r
    ensures p.item.primaryPos.Noun? && p.stem == stem ==> r
    ensures r && P3sg !in p.morphemeIds ==> p.stem == stem
  {
    p.item.primaryPos == Noun && (p.ContainsMorpheme(P3sg) || p.GetStem() == stem)
  }

  /** A single parse whose item is the unknown placeholder is dropped; anything else passes. */
  function SuppressLoneUnknown(result: seq<SingleAnalysis>): (r: seq<SingleAnalysis>)
    ensures !(|r| == 1 && r[0].IsUnknown())
    ensures r == result || r == []
    ensures |result| != 1 || !result[0].IsUnknown() ==> r == result
  {
    if |result| == 1 && result[0].IsUnknown() then [] else result
  }

  // ---------------------------------------------------------------------------
  // The analyzer

  /** A configured analyzer; its fields are fixed when it is built. */
  datatype TurkishMorphology = TurkishMorphology(
    env: Collaborators,
    lexicon: RootLexicon,
    morphotactics: Morphotactics,
    mode: DiacriticsMode,
    useCache: bool,
    useUnidentifiedTokenAnalyzer: bool)
  {
    /** The rule-based analyzer over the configured lexicon, graph and diacritics mode. */
    function Analyzer(): Parser {
      env.ruleBasedAnalyzer(lexicon, morphotactics, mode)
    }

    /** The fallback, built on the same rule-based analyzer. */
    function Unidentified(token: Token): seq<SingleAnalysis> {
      env.unidentifiedTokenAnalyzer(Analyzer(), token)
    }

    /** The first apostrophe is neither the first nor the last character. */
    predicate WellPlacedApostrophe(word: string) {
      0 < FindFirst(word, Apostrophe) < |word| - 1
    }

    /** The normalized text before the first apostrophe. */
    function StemBeforeApostrophe(word: string): string
      requires WellPlacedApostrophe(word)
    {
      env.alphabet.normalize(word[..FindFirst(word, Apostrophe)])
    }

    /** The analyzer's parses of the word with every apostrophe removed. */
    function ParsesWithoutApostrophes(word: string): seq<SingleAnalysis> {
      Analyzer()(RemoveAll(word, Apostrophe))
    }

    /**
     * `stem'ending`: the parses of the word without any apostrophe that a
     * proper noun may carry; nothing when the first apostrophe is missing,
     * first or last.
     */
    function AnalyzeWordsWithApostrophe(word: string): (r: seq<SingleAnalysis>)
      ensures Apostrophe !in word ==> r == []
      ensures !WellPlacedApostrophe(word) ==> r == []
      ensures WellPlacedApostrophe(word) ==>
        forall p :: p in r ==> ProperNounParse(p, StemBeforeApostrophe(word))
      ensures WellPlacedApostrophe(word) ==>
        forall p :: ProperNounParse(p, StemBeforeApostrophe(word)) ==>
          multiset(r)[p] == multiset(ParsesWithoutApostrophes(word))[p]
    {
      var index := FindFirst(word, Apostrophe);
      if index > 0 && index != |word| - 1 then
        var stem := env.alphabet.normalize(word[..index]);
        var withoutQuote := RemoveAll(word, Apostrophe);
        var noQuotesParses := Analyzer()(withoutQuote);
        if |noQuotesParses| == 0 then [] else Filter(noQuotesParses, p => ProperNounParse(p, stem))
      else
        []
    }

    /** The apostrophe path keeps the analyzer's parses in their order. */
    lemma ApostropheResultIsSubsequence(word: string)
      requires WellPlacedApostrophe(word)
      ensures IsSubsequence(AnalyzeWordsWithApostrophe(word), ParsesWithoutApostrophes(word))
    {
    }

    /** The normalized input recorded in the result: apostrophe-normalized when it has one. */
    function RecordedInput(s: string): (r: string)
      ensures !env.alphabet.containsApostrophe(s) ==> r == s
      ensures env.alphabet.containsApostrophe(s) ==> r == env.alphabet.normalizeApostrophe(s)
    {
      if env.alphabet.containsApostrophe(s) then env.alphabet.normalizeApostrophe(s) else s
    }

    /** The parses before the fallback: the apostrophe path or the plain analyzer. */
    function Candidates(s: string): (r: seq<SingleAnalysis>)
      ensures !env.alphabet.containsApostrophe(s) ==> r == Analyzer()(s)
      ensures env.alphabet.containsApostrophe(s) ==> r == AnalyzeWordsWithApostrophe(RecordedInput(s))
      ensures env.alphabet.containsApostrophe(s) && !WellPlacedApostrophe(RecordedInput(s)) ==> r == []
    {
      if env.alphabet.containsApostrophe(s) then AnalyzeWordsWithApostrophe(RecordedInput(s))
      else Analyzer()(s)
    }

    /** The unidentified-token analyzer is asked only when it is enabled and nothing was found. */
    function WithFallback(result: seq<SingleAnalysis>, token: Token): (r: seq<SingleAnalysis>)
      ensures |result| > 0 ==> r == result
      ensures !useUnidentifiedTokenAnalyzer ==> r == result
      ensures |result| == 0 && useUnidentifiedTokenAnalyzer ==> r == Unidentified(token)
    {
      if |result| == 0 && useUnidentifiedTokenAnalyzer then Unidentified(token) else result
    }

    /** Analysis of one token's text. */
    function AnalyzeToken(token: Token): (r: WordAnalysis)
      ensures var s := NormalizeForAnalysis(env, token.content);
        |s| == 0 ==> r == EmptyInputResult
      ensures var s := NormalizeForAnalysis(env, token.content);
        |s| > 0 ==> r.input == token.content && r.normalizedInput == RecordedInput(s)
      ensures !(|r.analysisResults| == 1 && r.analysisResults[0].IsUnknown())
      ensures var s := NormalizeForAnalysis(env, token.content);
        forall p :: p in r.analysisResults ==>
          p in Candidates(s) || (useUnidentifiedTokenAnalyzer && p in Unidentified(token))
      ensures var s := NormalizeForAnalysis(env, token.content);
        |s| > 0 && |Candidates(s)| > 0 ==> r.analysisResults == SuppressLoneUnknown(Candidates(s))
      ensures var s := NormalizeForAnalysis(env, token.content);
        |s| > 0 && |Candidates(s)| == 0 ==>
          r.analysisResults ==
            (if useUnidentifiedTokenAnalyzer then SuppressLoneUnknown(Unidentified(token)) else [])
    {
      var word := token.content;
      var s := NormalizeForAnalysis(env, word);
      if |s| == 0 then
        EmptyInputResultIsEmpty();
        EmptyInputResult
      else
        var result := SuppressLoneUnknown(WithFallback(Candidates(s), token));
        Create(word, result, Some(RecordedInput(s)))
    }

    /**
     * Analysis of a word, or of a token when no word is given. A word that
     * does not tokenize to exactly one token is returned unanalysed.
     */
    function AnalyzeWithoutCache(word: string, token: Option<Token>): (r: WordAnalysis)
      requires word != "" || token.Some?
      ensures word != "" && |env.tokenize(word)| != 1 ==>
        r.input == word && r.normalizedInput == word && r.analysisResults == []
      ensures word != "" && |env.tokenize(word)| == 1 ==> r == AnalyzeToken(env.tokenize(word)[0])
      ensures word == "" ==> r == AnalyzeToken(token.value)
    {
      if word != "" then
        var tokens := env.tokenize(word);
        if |tokens| != 1 then Create(word, [], Some(word)) else AnalyzeToken(tokens[0])
      else
        AnalyzeToken(token.value)
    }

    /** The cached path is not implemented: it always fails. */
    function AnalyzeWithCache(word: string): (r: Result<WordAnalysis, MorphologyError>)
      ensures r.Failure? && r.error == NotImplementedError(CacheNotImplemented)
    {
      Failure(NotImplementedError(CacheNotImplemented))
    }

    /** The entry point: the cached path when the cache is on, the direct path otherwise. */
    function Analyze(word: string): (r: Result<WordAnalysis, MorphologyError>)
      requires useCache || word != ""
      ensures useCache ==> r.Failure? && r.error == NotImplementedError(CacheNotImplemented)
      ensures !useCache ==> r.Success? && r.value == AnalyzeWithoutCache(word, None)
    {
      if useCache then AnalyzeWithCache(word) else Success(AnalyzeWithoutCache(word, None))
    }
  }

  // ---------------------------------------------------------------------------
  // Properties of the word-level pipeline

  /** On the plain path every parse comes from the analyzer of the normalized word or from the fallback. */
  lemma PlainWordParses(m: TurkishMorphology, token: Token)
    requires var s := NormalizeForAnalysis(m.env, token.content);
      |s| > 0 && !m.env.alphabet.containsApostrophe(s)
    ensures var s := NormalizeForAnalysis(m.env, token.content);
      var r := m.AnalyzeToken(token);
      && r.normalizedInput == s
      && (forall p :: p in r.analysisResults ==>
            p in m.Analyzer()(s) || (m.useUnidentifiedTokenAnalyzer && p in m.Unidentified(token)))
      && (|m.Analyzer()(s)| > 0 ==> r.analysisResults == SuppressLoneUnknown(m.Analyzer()(s)))
      && (|m.Analyzer()(s)| == 0 ==>
            r.analysisResults ==
              (if m.useUnidentifiedTokenAnalyzer then SuppressLoneUnknown(m.Unidentified(token)) else []))
  {
  }

  /**
   * On the apostrophe path every parse that is not the fallback's is a noun
   * parse of the recorded input with all apostrophes removed, licensed by
   * P3sg or by the normalized stem before the first apostrophe.
   */
  lemma ApostropheWordParses(m: TurkishMorphology, token: Token)
    requires var s := NormalizeForAnalysis(m.env, token.content);
      |s| > 0 && m.env.alphabet.containsApostrophe(s)
    ensures var r := m.AnalyzeToken(token);
      var w := r.normalizedInput;
      forall p :: p in r.analysisResults ==>
        || (m.useUnidentifiedTokenAnalyzer && p in m.Unidentified(token))
        || (&& m.WellPlacedApostrophe(w)
            && p in m.ParsesWithoutApostrophes(w)
            && ProperNounParse(p, m.StemBeforeApostrophe(w)))
    ensures var r := m.AnalyzeToken(token);
      var c := m.AnalyzeWordsWithApostrophe(r.normalizedInput);
      |c| > 0 ==> r.analysisResults == SuppressLoneUnknown(c)
    ensures var r := m.AnalyzeToken(token);
      var w := r.normalizedInput;
      var c := m.AnalyzeWordsWithApostrophe(w);
      m.WellPlacedApostrophe(w) && |c| > 0 && !(|c| == 1 && c[0].IsUnknown()) ==>
        forall p :: p in m.ParsesWithoutApostrophes(w) && ProperNounParse(p, m.StemBeforeApostrophe(w)) ==>
          p in r.analysisResults
  {
  }

  /** A result that is not correct is empty, or has several parses and an unknown one first. */
  lemma IncorrectResultIsEmptyOrAmbiguous(m: TurkishMorphology, token: Token)
    ensures var r := m.AnalyzeToken(token);
      !r.IsCorrect() ==>
        r.analysisResults == [] || (|r.analysisResults| >= 2 && r.analysisResults[0].IsUnknown())
  {
  }

  // ---------------------------------------------------------------------------
  // Configuration

  /** The mutable builder; `Build` turns its settings into an analyzer. */
  class Builder {
    var lexicon: RootLexicon
    var informalAnalysis: bool
    var ignoreDiacriticsInAnalysis: bool
    var useDynamicCache: bool
    var useUnidentifiedTokenAnalyzer: bool

    constructor (lexicon: RootLexicon)
      ensures this.lexicon == lexicon
      ensures !informalAnalysis && !ignoreDiacriticsInAnalysis
      ensures !useDynamicCache && useUnidentifiedTokenAnalyzer
    {
      this.lexicon := lexicon;
      informalAnalysis := false;
      ignoreDiacriticsInAnalysis := false;
      useDynamicCache := false;
      useUnidentifiedTokenAnalyzer := true;
    }

    method SetLexicon(lexicon: RootLexicon) returns (self: Builder)
      modifies this`lexicon
      ensures self == this && this.lexicon == lexicon
    {
      this.lexicon := lexicon;
      self := this;
    }

    method UseInformalAnalysis() returns (self: Builder)
      modifies this`informalAnalysis
      ensures self == this && informalAnalysis
    {
      informalAnalysis := true;
      self := this;
    }

    method IgnoreDiacriticsInAnalysis() returns (self: Builder)
      modifies this`ignoreDiacriticsInAnalysis
      ensures self == this && ignoreDiacriticsInAnalysis
    {
      ignoreDiacriticsInAnalysis := true;
      self := this;
    }

    /** The analyzer these settings describe. */
    function Build(env: Collaborators): (m: TurkishMorphology)
      reads this
      ensures m.env == env
      ensures m.lexicon == lexicon
      ensures m.morphotactics == InformalTurkishMorphotactics <==> informalAnalysis
      ensures m.mode == IgnoreDiacritics <==> ignoreDiacriticsInAnalysis
      ensures m.useCache == useDynamicCache
      ensures m.useUnidentifiedTokenAnalyzer == useUnidentifiedTokenAnalyzer
    {
      TurkishMorphology(
        env,
        lexicon,
        if informalAnalysis then InformalTurkishMorphotactics else TurkishMorphotactics,
        if ignoreDiacriticsInAnalysis then IgnoreDiacritics else ExactDiacritics,
        useDynamicCache,
        useUnidentifiedTokenAnalyzer)
    }
  }

  /** The default analyzer: standard graph, exact diacritics, fallback on, no cache. */
  method CreateWithDefaults(env: Collaborators, defaultLexicon: RootLexicon) returns (m: TurkishMorphology)
    ensures m.env == env
    ensures m.lexicon == defaultLexicon
    ensures m.morphotactics == TurkishMorphotactics && m.mode == ExactDiacritics
    ensures !m.useCache && m.useUnidentifiedTokenAnalyzer
  {
    var builder := new Builder(defaultLexicon);
    m := builder.Build(env);
  }
}
