/** The letters of the formats spelled out, and what the scanner makes of formats given as texts. */
module Spelling {
  import opened Sequences
  import opened Format
  import opened Scanner
  import opened Tokenization
  import opened Stepping

  /** Which characters are flags, digits, and letters of the three kinds of conversions. */
  lemma CharacterClasses(c: char)
    ensures IsFlag(c) <==> c in "#-0 +I'"
    ensures IsDigit(c) <==> c in "0123456789"
    ensures IsInteger(c) <==> c in "diouxX"
    ensures IsFloating(c) <==> c in "eEfFgGaA"
    ensures IsExtended(c) <==> c in "bBhHyYrRvVJKwW"
  {
  }

  /** One conversion and nothing else, read from its text. */
  lemma PlainToken(d: Conversion, text: string)
    requires d.Plain? && DirectiveText(d) == text
    ensures Scan(text, 0) == Token(|text|, InfoOf(d))
  {
    var seg := Segment("", d);
    assert SegmentText(seg) == text;
    assert HasAt(text, 0, text);
    SegmentScanned(text, 0, seg);
  }

  /** Every flag, with a width behind it. */
  lemma FlagsAreRead(c: char)
    requires c in "#-0 +I'"
    ensures Scan("%" + [c] + "5d", 0) == Token(4, Info(0, NoLong, IntType, 'd'))
  {
    CharacterClasses(c);
    PlainToken(Plain([c], WidthDigits("5"), NoPrecision, NoLength, 'd'), "%" + [c] + "5d");
  }

  /** Every letter of the C library, alone behind the percent sign. */
  lemma LettersAreRead(c: char)
    ensures c in "diouxX" ==> Scan("%" + [c], 0) == Token(2, Info(0, NoLong, IntType, c))
    ensures c in "eEfFgGaA" ==> Scan("%" + [c], 0) == Token(2, Info(0, NoLong, DoubleType, c))
    ensures c in "cC" ==> Scan("%" + [c], 0) == Token(2, Info(0, NoLong, CharType, c))
    ensures c in "sS" ==> Scan("%" + [c], 0) == Token(2, Info(0, NoLong, StringType, c))
    ensures c == 'p' ==> Scan("%" + [c], 0) == Token(2, Info(0, NoLong, PointerType, c))
  {
    CharacterClasses(c);
    if c in "diouxX" || c in "eEfFgGaA" || c in "cC" || c in "sS" || c == 'p' {
      PlainToken(Plain("", NoWidth, NoPrecision, NoLength, c), "%" + [c]);
    }
  }

  lemma SimpleIsRead(d: Conversion, c: char)
    requires !d.Plain? && ConvChar(d) == c
    ensures Scan("%" + [c], 0) == Token(2, InfoOf(d))
  {
    var seg := Segment("", d);
    assert SegmentText(seg) == "%" + [c];
    SegmentScanned("%" + [c], 0, seg);
  }

  /** "%%", "%m", and every letter of the log module. */
  lemma OtherLettersAreRead(c: char)
    ensures c in "%m" ==> Scan("%" + [c], 0) == Token(2, Info(0, NoLong, NoType, c))
    ensures c in "bBhHyYrRvVJKwW" ==> Scan("%" + [c], 0) == Token(2, Info(0, NoLong, ExtendedType, c))
  {
    CharacterClasses(c);
    if c in "bBhHyYrRvVJKwW" {
      SimpleIsRead(Extended(c), c);
    } else if c == '%' {
      SimpleIsRead(Percent, c);
    } else if c == 'm' {
      SimpleIsRead(ErrnoText, c);
    }
  }

  /** h, hh, l and ll, before every integer conversion. */
  lemma LengthsAreRead(c: char)
    requires c in "diouxX"
    ensures Scan("%hh" + [c], 0) == Token(4, Info(0, NoLong, IntType, c))
    ensures Scan("%h" + [c], 0) == Token(3, Info(0, ShortLg, IntType, c))
    ensures Scan("%l" + [c], 0) == Token(3, Info(0, LongLg, IntType, c))
    ensures Scan("%ll" + [c], 0) == Token(4, Info(0, LongLongLg, IntType, c))
  {
    LengthIsRead(c, HH, "%hh" + [c]);
    LengthIsRead(c, H, "%h" + [c]);
    LengthIsRead(c, L, "%l" + [c]);
    LengthIsRead(c, LL, "%ll" + [c]);
  }

  /** The other length modifiers, before every integer conversion. */
  lemma OtherLengthsAreRead(m: char, c: char)
    requires c in "diouxX"
    ensures m in "Lq" ==> Scan("%" + [m] + [c], 0) == Token(3, Info(0, LongLongLg, IntType, c))
    ensures m in "zZtj" ==> Scan("%" + [m] + [c], 0) == Token(3, Info(0, LongLg, IntType, c))
  {
    if m in "LqzZtj" {
      var length := match m case 'L' => BigL case 'q' => Q case 'z' => Z case 'Z' => BigZ case 't' => T case _ => J;
      assert LengthText(length) == [m];
      LengthIsRead(c, length, "%" + [m] + [c]);
    }
  }

  lemma LengthIsRead(c: char, length: Length, text: string)
    requires c in "diouxX" && "%" + LengthText(length) + [c] == text
    ensures Scan(text, 0) == Token(|text|, Info(0, LgOf(length), IntType, c))
  {
    CharacterClasses(c);
    PlainToken(Plain("", NoWidth, NoPrecision, length, c), text);
  }

  lemma WidthIsRead(width: Width, precision: Precision, text: string)
    requires ValidWidth(width) && ValidPrecision(precision)
    requires "%" + WidthText(width) + PrecisionText(precision) + "d" == text
    ensures Scan(text, 0)
         == Token(|text|, Info((if width.WidthStar? then 1 else 0) + (if precision.PrecisionStar? then 1 else 0), NoLong, IntType, 'd'))
  {
    PlainToken(Plain("", width, precision, NoLength, 'd'), text);
  }

  /** A width and a precision given by an argument, or by digits. */
  lemma StarsAreRead()
    ensures Scan("%*d", 0) == Token(3, Info(1, NoLong, IntType, 'd'))
    ensures Scan("%.*d", 0) == Token(4, Info(1, NoLong, IntType, 'd'))
    ensures Scan("%*.*d", 0) == Token(5, Info(2, NoLong, IntType, 'd'))
  {
    WidthIsRead(WidthStar, NoPrecision, "%*d");
    WidthIsRead(NoWidth, PrecisionStar, "%.*d");
    WidthIsRead(WidthStar, PrecisionStar, "%*.*d");
  }

  lemma DigitsAreRead(digits: string, more: string)
    requires ValidWidth(WidthDigits(digits)) && ValidPrecision(PrecisionDigits(more))
    ensures Scan("%" + digits + "." + more + "d", 0)
         == Token(3 + |digits| + |more|, Info(0, NoLong, IntType, 'd'))
  {
    assert "%" + digits + ("." + more) + "d" == "%" + digits + "." + more + "d";
    WidthIsRead(WidthDigits(digits), PrecisionDigits(more), "%" + digits + "." + more + "d");
  }

  /** The type of argument, for every length modifier with an integer conversion and for the others. */
  lemma ArgumentTypes(c: char)
    ensures c in "diouxX" ==>
              && ValueType(HH, c) == ValueType(H, c) == ValueType(NoLength, c) == CInt
              && ValueType(L, c) == ValueType(Z, c) == ValueType(BigZ, c) == ValueType(T, c) == ValueType(J, c) == CLong
              && ValueType(LL, c) == ValueType(BigL, c) == ValueType(Q, c) == CLongLong
    ensures c in "eEfFgGaA" ==> ValueType(NoLength, c) == ValueType(L, c) == CDouble && ValueType(BigL, c) == CLongDouble
    ensures c in "cC" ==> ValueType(NoLength, c) == CInt
    ensures c in "sSp" ==> ValueType(NoLength, c) == CPointer
    ensures c in "bBhH" ==> ArgTypes(Extended(c)) == [CLong, CPointer, CPointer]
    ensures c in "yY" ==> ArgTypes(Extended(c)) == [CLong, CPointer, CPointer, CLong, CPointer, CPointer]
    ensures c in "rRvVJKwW" ==> ArgTypes(Extended(c)) == [CInt]
  {
    CharacterClasses(c);
  }
}
