/**
 * Flag words as the TypeScript state classes use them: JavaScript's bitwise
 * operators work on 32-bit integers, so a word is a `bv32`.
 */
module BitFlags {
  type Word = bv32

  /** `(word & flag) === flag`: every bit of `flag` is set in `word`. */
  predicate Has(word: Word, flag: Word)
  {
    word & flag == flag
  }
}
