# Word-level morphological analysis, modelled in Dafny

This project models the word-level layer of the zemberek Turkish morphology
library. It also models the `WordAnalysis` result aggregate that this layer returns.

For one word, the layer does these steps:

- It tokenizes the word. If there is not exactly one token, it returns the word unanalysed.
- It normalizes the token's text: case folding, circumflex removal, dot stripping
  and apostrophe normalization.
- It returns the shared empty-input result when normalization leaves nothing.
- It routes `stem'ending` words to the apostrophe path. That path keeps only the
  parses a proper noun may carry. Other words go straight to the rule-based analyzer.
- It asks the unidentified-token analyzer only when nothing was found and the
  fallback is enabled.
- It drops a result that is a single parse of the unknown placeholder item.

`WordAnalysis` bundles the input, the normalized input and the candidate parses.
Its members are:

- a defaulting constructor;
- a correctness predicate;
- structural equality;
- a hash that folds the parts with the multiplier 31;
- an iteration protocol that moves an `index` field on the object itself.

The modules are:

- `Wrappers` (`wrappers.dfy`): `Option` and `Result`.
- `Seqs` (`seqs.dfy`): the sequence operations the source performs with Python builtins.
  These are `str.find`, `str.replace(c, "")` and a filtering generator expression.
  Each has a contract that characterises its result.
- `Analyses` (`analyses.dfy`): what the layer reads from a parse. This is the root item's
  primary part of speech, whether the item is the unknown placeholder, the stem, and
  the morpheme ids, with the rest of a parse kept as an opaque component. The file also
  defines `Token`.
- `WordAnalyses` (`word_analysis.dfy`): the `WordAnalysis` value and its hash specification.
  It has a closed-form (polynomial) proof of the hash. The class `IterableWordAnalysis`
  holds the object's mutable `index` beside its immutable value.
- `Morphology` (`turkish_morphology.dfy`): normalization, the apostrophe path, the
  pipeline, the configured analyzer (`TurkishMorphology`, a value: its fields are set
  once) and the mutable `Builder` class.

The collaborators are parameters. They are passed as function-valued fields of
`Collaborators` and `Alphabet`, and `Hashing` carries the hash functions:

- the tokenizer;
- the rule-based analyzer, which is chosen by lexicon, morphotactics graph and diacritics mode;
- the unidentified-token analyzer, which is built on the chosen rule-based analyzer;
- the alphabet's lower-case map, circumflex, apostrophe and stem normalizations;
- `TextUtil.normalize_apostrophes`;
- the built-in hashes.

`NormalizeForAnalysis` chains these collaborators around the concrete `StripDots`.

Some details of the code that the model keeps:

- The apostrophe filter tests the part of speech of the parse's root item (`item.primary_pos`).
  It does not test the derived part of speech.
- The word analysed on the apostrophe path has every apostrophe removed, not only the first.
- The normalized input recorded on that path is the apostrophe-normalized text.
- The cache fails when `analyze` is first called, not when the analyzer is built.
- An empty word is not handled as empty input. The code takes the token branch
  with no token and fails there. `AnalyzeWithoutCache` therefore requires a
  non-empty word or a token.

## Model

| member | source | states |
|---|---|---|
| Seqs.FindFirst | zemberek/morphology/turkish_morphology.py:106 | the result is -1 exactly when there is no apostrophe; otherwise it is the position of an apostrophe with none before it |
| Seqs.RemoveAll | zemberek/morphology/turkish_morphology.py:110 | no apostrophe is left; every other character keeps its count; the order is kept (a subsequence); the text is unchanged exactly when it had no apostrophe |
| Seqs.Filter | zemberek/morphology/turkish_morphology.py:113-114 | the generator keeps an order-preserving subsequence; every kept parse passes the test; every parse that passes is kept with its full multiplicity; nothing is dropped when all pass |
| Morphology.StripDots | zemberek/morphology/turkish_morphology.py:74-76 | when some character is not a dot, no dot remains; a text of dots only is kept unchanged; non-dot characters keep their counts and order |
| Morphology.NormalizeForAnalysis | zemberek/morphology/turkish_morphology.py:70-78 | the text is case-folded, then circumflex-normalized, then dot-stripped, then apostrophe-normalized, in that order; the text reaching apostrophe normalization holds a dot only when it is all dots |
| Morphology.ProperNounParse | zemberek/morphology/turkish_morphology.py:113-114 | a parse passes the apostrophe filter only when its root item is a noun; a noun passes when it carries P3sg or when its stem is the given stem; a passing parse without P3sg has that stem |
| Morphology.StripDotsIdempotent | zemberek/morphology/turkish_morphology.py:74-76 | stripping dots twice gives the same as stripping once |
| Morphology.SuppressLoneUnknown | zemberek/morphology/turkish_morphology.py:100-101 | the result is never one unknown parse; a lone unknown parse becomes empty; any other result passes unchanged |
| Morphology.TurkishMorphology.AnalyzeWordsWithApostrophe | zemberek/morphology/turkish_morphology.py:105-116 | no parses when the first apostrophe is absent, first or last; otherwise every kept parse is a noun with P3sg or with the normalized pre-apostrophe stem, and every such parse of the word with all apostrophes removed is kept as often as the analyzer gave it |
| Morphology.TurkishMorphology.ApostropheResultIsSubsequence | zemberek/morphology/turkish_morphology.py:110-114 | when the apostrophe is well placed, the kept parses are an order-preserving subsequence of the analyzer's parses of the word with all apostrophes removed |
| Morphology.TurkishMorphology.RecordedInput | zemberek/morphology/turkish_morphology.py:91-92 | the text recorded as normalized input is the normalized text itself when it has no apostrophe, and its apostrophe-normalized form when it has one |
| Morphology.TurkishMorphology.Candidates | zemberek/morphology/turkish_morphology.py:91-95 | text without an apostrophe goes to the rule-based analyzer; text with one goes to the apostrophe path on its apostrophe-normalized form, which finds nothing unless the first apostrophe is inside the word |
| Morphology.TurkishMorphology.WithFallback | zemberek/morphology/turkish_morphology.py:97-98 | a non-empty primary result, or a disabled fallback, leaves the result unchanged; only an empty result with the fallback on is replaced by the fallback's parses |
| Morphology.TurkishMorphology.AnalyzeToken | zemberek/morphology/turkish_morphology.py:85-103 | empty normalized text gives exactly the empty-input result; otherwise it records the token text and the (apostrophe-normalized) text; never a lone unknown parse; every parse comes from the routed analyzer or from the enabled fallback; when the routed analyzer finds something the result is exactly its parses less a lone unknown, and when it finds nothing the result is the fallback's parses less a lone unknown if the fallback is on, and empty otherwise |
| Morphology.TurkishMorphology.AnalyzeWithoutCache | zemberek/morphology/turkish_morphology.py:80-84 | a word that does not give exactly one token yields no parses, with the normalized input equal to the word; one token is analysed as that token; with no word, the given token is analysed |
| Morphology.TurkishMorphology.AnalyzeWithCache | zemberek/morphology/turkish_morphology.py:67-68 | always fails with the not-implemented error and its message |
| Morphology.TurkishMorphology.Analyze | zemberek/morphology/turkish_morphology.py:64-65 | with the cache on it always fails as not implemented; otherwise it succeeds with the uncached analysis of the word |
| Morphology.PlainWordParses | zemberek/morphology/turkish_morphology.py:94-103 | with no apostrophe, the recorded input is the normalized text; each parse is from the analyzer of that text or from the enabled fallback; when the analyzer finds something, the result is its parses (less a lone unknown) and the fallback is not used; when it finds nothing, the result is the enabled fallback's parses less a lone unknown, or empty |
| Morphology.ApostropheWordParses | zemberek/morphology/turkish_morphology.py:91-114 | with an apostrophe, every parse that is not the fallback's is a noun parse of the recorded input with all apostrophes removed; the first apostrophe is inside the word; the parse has P3sg or the normalized stem before the apostrophe; when the apostrophe path finds anything, the result is exactly those parses less a lone unknown, so every licensed parse of the word without apostrophes is in the result unless it was a lone unknown |
| Morphology.IncorrectResultIsEmptyOrAmbiguous | zemberek/morphology/analysis/word_analysis.py:16-17 | an analysed token whose result is not correct has no parses, or at least two with an unknown one first |
| Morphology.Builder.constructor | zemberek/morphology/turkish_morphology.py:130-137 | a new builder has the given lexicon, the standard graph, exact diacritics, no cache and the fallback on |
| Morphology.Builder.SetLexicon | zemberek/morphology/turkish_morphology.py:139-141 | sets the lexicon, changes nothing else and returns the builder itself |
| Morphology.Builder.UseInformalAnalysis | zemberek/morphology/turkish_morphology.py:143-145 | turns informal analysis on, changes nothing else and returns the builder itself |
| Morphology.Builder.IgnoreDiacriticsInAnalysis | zemberek/morphology/turkish_morphology.py:147-149 | turns diacritic-insensitive analysis on, changes nothing else and returns the builder itself |
| Morphology.Builder.Build | zemberek/morphology/turkish_morphology.py:39-50 | the analyzer uses the builder's lexicon; the informal graph exactly when informal analysis is set; the diacritic-insensitive analyzer exactly when that flag is set; the builder's cache and fallback flags; the collaborators passed in |
| Morphology.CreateWithDefaults | zemberek/morphology/turkish_morphology.py:57-62 | the default analyzer uses the standard graph and exact diacritics, has the fallback on and the cache off, with the given lexicon and collaborators |
| WordAnalyses.Create | zemberek/morphology/analysis/word_analysis.py:10-13 | keeps the input and the parses; the normalized input is the input when omitted and the given value otherwise |
| WordAnalyses.WordAnalysis.IsCorrect | zemberek/morphology/analysis/word_analysis.py:16-17 | correct exactly when there is a first parse and it is known: no parses, or an unknown first parse, means not correct; any non-empty result whose first parse is known is correct, whatever the later parses are; a correct result has a known parse |
| WordAnalyses.EmptyInputResultIsEmpty | zemberek/morphology/analysis/word_analysis.py:54 | the shared empty-input result (`EmptyInputResult`) has empty input and normalized input, no parses, and is not correct |
| WordAnalyses.FoldHashClosedForm | zemberek/morphology/analysis/word_analysis.py:34-35 | folding parses into an accumulator with `31 * h + hash(x)` equals 31^n times the accumulator plus the parses weighted by descending powers of 31 |
| WordAnalyses.HashClosedForm | zemberek/morphology/analysis/word_analysis.py:31-36 | the hash is the base-31 polynomial whose coefficients are the hash of the input, the hash of the normalized input, then the hashes of the parses in order |
| WordAnalyses.IterableWordAnalysis.constructor | zemberek/morphology/analysis/word_analysis.py:10-14 | the object's value is the defaulting constructor's and its iteration index starts at 0 |
| WordAnalyses.IterableWordAnalysis.Equals | zemberek/morphology/analysis/word_analysis.py:19-29 | equal exactly when the other value is a word analysis with the same input, normalized input and parses; always equal to itself |
| WordAnalyses.IterableWordAnalysis.Hash | zemberek/morphology/analysis/word_analysis.py:31-36 | the loop computes the specified hash: seeded with the two string hashes, then one `31 * h + hash(x)` step per parse, a falsy parse counting 0 |
| WordAnalyses.IterableWordAnalysis.Iter | zemberek/morphology/analysis/word_analysis.py:42-44 | resets the index to 0 and returns the object itself |
| WordAnalyses.IterableWordAnalysis.Next | zemberek/morphology/analysis/word_analysis.py:46-51 | returns the parse at the index and advances it while parses remain; at the end it signals stop and leaves the index where it is; the index stays within the parses |
| WordAnalyses.IterableWordAnalysis.Drain | zemberek/morphology/analysis/word_analysis.py:42-51 | restarting and then advancing until the stop signal yields exactly the parses in order, from any starting index, so every iteration yields the same sequence |
| WordAnalyses.EqualObjectsHashEqually | zemberek/morphology/analysis/word_analysis.py:19-36 | equal objects have equal hashes |
| WordAnalyses.EqualsIsEquivalence | zemberek/morphology/analysis/word_analysis.py:19-29 | equality is reflexive, symmetric and transitive |

## Left out

- The rule-based analyzer, the morphotactics graphs, the root lexicon, the unidentified-token analyzer and the word generator are not part of this model. The first four are function parameters; the word generator built at turkish_morphology.py:47 is not modelled.
- The alphabet's lower-case map, circumflex, apostrophe and stem normalizations and `TextUtil.normalize_apostrophes` are Unicode tables. They are parameters. Only the dot-stripping step is concrete, so idempotence is proved for that step (`StripDotsIdempotent`).
- The tokenizer is a parameter. The builder's `tokenizer` field is always the default tokenizer and has no setter, so it is that parameter.
- `create_with_defaults` timing and logging are left out. The default lexicon is a parameter.
- `WordAnalysis.__str__` is left out.
- The built-in string hash, the hash of a parse and a parse's truth value are parameters.
- WordAnalyses.IterableWordAnalysis.Hash: returns the unbounded integer the loop computes. Python's reduction of a large `__hash__` result to machine width is not modelled.
- `EMPTY_INPUT_RESULT` is one shared object in the source. Here it is a value, so only its contents, not its identity, are modelled.
- Morphology.TurkishMorphology.AnalyzeWithoutCache: requires a non-empty word or a token. An empty word with no token fails in the source at turkish_morphology.py:81-86, and that failure is not modelled.
- Morphology.TurkishMorphology.Analyze: requires a non-empty word unless the cache is on, for the same reason.
- The `StemAndEnding` record built at turkish_morphology.py:108 is not part of this model. Only its stem is used, and any checks it makes are not modelled.
- A token is its text plus an opaque list of attributes. The layer reads only the text; the fallback analyzer receives the whole token, so two tokens with the same text may be analysed differently.
- The model reads a parse through four observations: item part of speech, unknown marker, stem and morpheme ids. Everything else about a parse and its root item is an opaque `details` component that the layer never reads but that takes part in equality, so parses with the same observations can still differ. The source's `SingleAnalysis.is_unknown()` and `item.is_unknown()` are taken to agree.
- There is no cache, so only the failure of the cached path is modelled.
