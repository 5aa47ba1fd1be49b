/** Compact JSON text says everything about its value: no two values have the same text, and canonical texts are equal
    exactly for values that agree up to the order of object members. */
module JsonUnique {
  import opened Json
  import opened JsonText
  import opened JsonReading

  /** Where a value ends, and which one it is, is seen from the text. */
  lemma ValuesSplit(a: Json, b: Json, x: string, y: string)
    requires Print(a) + x == Print(b) + y && Closes(x) && Closes(y)
    ensures a == b && x == y
  {
    hide Print, ReadValue, Closes;
    ValueRead(a, x);
    ValueRead(b, y);
  }

  /** Different values have different texts. */
  lemma PrintIsInjective(a: Json, b: Json)
    requires Print(a) == Print(b)
    ensures a == b
  {
    hide Print, ReadValue;
    TextIsRead(a);
    TextIsRead(b);
  }

  /** The canonical text depends on meaning only: it is the same exactly for values that agree up to the order of object
      members, at every depth. */
  lemma CanonicalTextIsMeaning(a: Json, b: Json)
    requires WellFormed(a) && WellFormed(b)
    ensures Print(Canonicalize(a)) == Print(Canonicalize(b)) <==> Same(a, b)
  {
    CanonicalDependsOnMeaning(a, b);
    if Print(Canonicalize(a)) == Print(Canonicalize(b)) {
      PrintIsInjective(Canonicalize(a), Canonicalize(b));
    }
  }
}
