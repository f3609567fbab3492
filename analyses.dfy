/**
 * What the word-level layer observes of a single parse and of a token.
 * The parse itself is produced by the rule-based analyzer or by the
 * unidentified-token analyzer; only the parts the layer reads are kept.
 */
module Analyses {

  /** Primary part of speech of a dictionary item; only Noun is distinguished by the layer. */
  datatype PrimaryPos = Noun | OtherPos(name: string)

  /**
   * A root lexeme; `unknown` marks the synthetic item used when nothing
   * matched. `details` stands for what else identifies an item (its
   * secondary part of speech, attributes and id); the layer never reads it,
   * but it takes part in equality.
   */
  datatype DictionaryItem =
    DictionaryItem(root: string, primaryPos: PrimaryPos, unknown: bool, details: seq<string>)

  /** Identifier of the third-person-singular possessive morpheme. */
  const P3sg: string := "P3sg"

  /**
   * One complete parse: the root item, the stem it was found under and the
   * morphemes applied. `details` stands for the rest of the parse (its
   * morpheme groups and surface forms), never read by the layer but part of
   * equality.
   */
  datatype SingleAnalysis =
    SingleAnalysis(item: DictionaryItem, stem: string, morphemeIds: seq<string>, details: seq<string>)
  {
    predicate IsUnknown() { item.unknown }

    predicate ContainsMorpheme(id: string) { id in morphemeIds }

    function GetStem(): string { stem }
  }

  /**
   * A token produced by the tokenizer: its text and, kept opaque here, what
   * else the tokenizer attaches to it (such as its type and span). The layer
   * reads only `content`; the unidentified-token analyzer receives the whole
   * token.
   */
  datatype Token = Token(content: string, attributes: seq<string>)
}
