/** The format codes of SEMI E5, section 9, apart from the tables of the encoder and the decoders
    (headers/secs.h:33-46), and the words of a message text (source/secs_encode_sml.c:171-850). */
module SecsCodes {
  import opened SecsItems
  import opened SecsWalk

  /** The formats there are: floating point has four bytes or eight. */
  predicate Real(f: Format) { f.Float? ==> f.w == W4 || f.w == W8 }

  function Octal(high: nat, low: nat): nat { 8 * high + low }

  /** The numbers of the formats in section 9 of SEMI E5, in octal. */
  function StandardNumber(f: Format): nat
    requires Real(f)
  {
    match f
    case Hex => Octal(1, 0)
    case Boolean => Octal(1, 1)
    case Ascii => Octal(2, 0)
    case Signed(W8) => Octal(3, 0)
    case Signed(W1) => Octal(3, 1)
    case Signed(W2) => Octal(3, 2)
    case Signed(W4) => Octal(3, 4)
    case Float(W8) => Octal(4, 0)
    case Float(_) => Octal(4, 4)
    case Unsigned(W8) => Octal(5, 0)
    case Unsigned(W1) => Octal(5, 1)
    case Unsigned(W2) => Octal(5, 2)
    case Unsigned(W4) => Octal(5, 4)
  }

  /** The code of a format is four times its number, which leaves two bits for the number of length
      bytes; the number of a list is 0. */
  lemma CodesStandard(f: Format)
    requires Real(f)
    ensures Code(f) == 4 * StandardNumber(f) && LIST == 0
  {
  }

  /** The decoders know exactly these codes, each as its format. */
  lemma KnownExactly(code: int)
    ensures KnownOf(code) == AList <==> code == 0
    ensures forall f :: Real(f) ==> (KnownOf(code) == AnItem(f) <==> code == 4 * StandardNumber(f))
    ensures KnownOf(code) == NoKnown <==> code != 0 && forall f :: Real(f) ==> code != 4 * StandardNumber(f)
  {
    if KnownOf(code).AnItem? {
      var f := KnownOf(code).f;
      assert Real(f) && code == 4 * StandardNumber(f);
    }
  }

  /** What is written for a format is read as it. */
  lemma CodeKnown(f: Format)
    requires Real(f)
    ensures KnownOf(Code(f)) == AnItem(f)
  {
    hide Code, KnownOf, StandardNumber;
    CodesStandard(f);
    KnownExactly(Code(f));
  }

  /** The word a text begins with, in full, and the format it stands for. */
  function StandardWord(f: Format): string
    requires Real(f)
  {
    match f
    case Hex => "BINARY"
    case Boolean => "BOOLEAN"
    case Ascii => "A"
    case Signed(W1) => "I1"
    case Signed(W2) => "I2"
    case Signed(W4) => "I4"
    case Signed(W8) => "I8"
    case Float(W8) => "F8"
    case Float(_) => "F4"
    case Unsigned(W1) => "U1"
    case Unsigned(W2) => "U2"
    case Unsigned(W4) => "U4"
    case Unsigned(W8) => "U8"
  }

  lemma WordsStandard(f: Format)
    requires Real(f)
    ensures WordOf(StandardWord(f)) == ItemWord(f) && WordOf("L") == ListWord && WordOf("B") == ItemWord(Hex)
  {
  }
}
