/** The control characters of the playset encoding (src/playset/pset_format.rs):
    three delimiters and a contiguous range of three operator characters. */
module PsetFormat {

  const SEPERATOR: char := 0x01 as char
  const SET_START: char := 0x02 as char
  const SET_END: char := 0x03 as char

  const UNION: char := 0x10 as char
  const INTERSECTION: char := 0x11 as char
  const DIFFERENCE: char := 0x12 as char

  /** The three set operators. The source stores an operator as its character;
      the model keeps the enum and converts with OpChar / OpOfChar. */
  datatype Op = Union | Intersection | Difference

  /** The parser's range pattern `UNION..=DIFFERENCE`. */
  predicate IsOperatorChar(c: char) {
    UNION <= c <= DIFFERENCE
  }

  /** Characters that one of the parser's special match arms consumes. */
  predicate IsControlChar(c: char) {
    c == SEPERATOR || c == SET_START || c == SET_END || IsOperatorChar(c)
  }

  /** The character the serializer writes for an operator. */
  function OpChar(op: Op): (c: char)
    ensures IsOperatorChar(c)
  {
    match op
    case Union => UNION
    case Intersection => INTERSECTION
    case Difference => DIFFERENCE
  }

  /** The operator the parser builds from a character of the operator range. */
  function OpOfChar(c: char): (op: Op)
    requires IsOperatorChar(c)
    ensures OpChar(op) == c
  {
    if c == UNION then Union
    else if c == INTERSECTION then Intersection
    else Difference
  }

  /** Reading back the character written for an operator gives that operator. */
  lemma OpCharRoundTrip(op: Op)
    ensures OpOfChar(OpChar(op)) == op
  {
  }

  /** The constants have the values the encoding fixes. */
  lemma ConstantValues()
    ensures SEPERATOR as int == 0x01 && SET_START as int == 0x02 && SET_END as int == 0x03
    ensures UNION as int == 0x10 && INTERSECTION as int == 0x11 && DIFFERENCE as int == 0x12
  {
  }

  /** The three delimiters are pairwise distinct. */
  lemma DelimitersDistinct()
    ensures SEPERATOR != SET_START && SEPERATOR != SET_END && SET_START != SET_END
  {
  }

  /** The range pattern matches exactly the three operator characters. */
  lemma OperatorRangeExact(c: char)
    ensures IsOperatorChar(c) <==> (c == UNION || c == INTERSECTION || c == DIFFERENCE)
  {
  }

  /** No delimiter falls in the operator range, so the parser's arms are disjoint. */
  lemma DelimitersOutsideOperatorRange()
    ensures !IsOperatorChar(SEPERATOR) && !IsOperatorChar(SET_START) && !IsOperatorChar(SET_END)
  {
  }

  /** Every control character is below 0x20, so printable name characters fall
      into the parser's "append to the name buffer" arm. */
  lemma ControlCharsNonPrintable(c: char)
    ensures IsControlChar(c) ==> c < 0x20 as char
  {
  }

}
