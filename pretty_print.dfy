/** The visual separator line used around logged exceptions and the closing banner. */
module PrettyPrint {

  /** A line of forty `=` characters. */
  const SEPARATOR: string := "========================================"

  /** The separator is forty `=` characters and nothing else; in particular it holds no line break. */
  lemma SeparatorShape()
    ensures |SEPARATOR| == 40
    ensures forall i :: 0 <= i < |SEPARATOR| ==> SEPARATOR[i] == '='
    ensures '\n' !in SEPARATOR
  {
  }
}
