/** Small shared vocabulary: optional values, results that carry an error, JavaScript white space. */
module Common {

  datatype Option<+T> = None | Some(value: T) {
    function GetOr(default: T): T {
      if None? then default else value
    }
  }

  datatype Result<+T, +E> = Ok(value: T) | Err(error: E)

  /** What `trim` removes and `\s` matches: WhiteSpace and LineTerminator of ECMA-262. */
  predicate IsSpace(c: char) {
    || c == '\t' || c == '\n' || c == '\U{B}' || c == '\U{C}' || c == '\r' || c == ' ' || c == '\U{A0}'
    || c == '\U{1680}' || '\U{2000}' <= c <= '\U{200A}' || c == '\U{2028}' || c == '\U{2029}' || c == '\U{202F}'
    || c == '\U{205F}' || c == '\U{3000}' || c == '\U{FEFF}'
  }

  /** The text is empty once trimmed. */
  predicate IsBlank(text: string) {
    forall c :: c in text ==> IsSpace(c)
  }

  /** A text is blank exactly if both of its parts are, whatever the cut; one character is if it is white space. */
  lemma BlankByParts(a: string, b: string, c: char)
    ensures IsBlank("") && (IsBlank(a + b) <==> IsBlank(a) && IsBlank(b)) && (IsBlank([c]) <==> IsSpace(c))
    ensures IsSpace(' ') && IsSpace('\t') && IsSpace('\n') && IsSpace('\r') && ('!' <= c <= '~' ==> !IsSpace(c))
  {
    assert c in [c];
    assert forall x :: x in a + b <==> x in a || x in b;
  }
}
