/**
 The scanner of log_vsnprintf: it cuts a format into segments that hold one conversion each, and
 keeps of every conversion only what the stepping over the arguments needs.
 */
module Scanner {
  import opened Sequences
  import opened Format

  datatype Kind =
    | NoType | IntType | LongType | CharType | StringType | FloatType | DoubleType | PointerType | ExtendedType

  datatype Lg = NoLong | ShortLg | LongLg | LongLongLg

  /** precision_in_valist of the segment, typelg, type, and the letter that stands for type_ext. */
  datatype Info = Info(stars: nat, lg: Lg, kind: Kind, conv: char)

  datatype Token = NoMore | Token(end: nat, info: Info)

  /** Reading a C string: behind its characters there is a NUL. */
  function CharAt(s: string, i: nat): char {
    if i < |s| then s[i] else '\0'
  }

  predicate IsDigitOrDollar(c: char) {
    IsDigit(c) || c == '$'
  }

  function SkipLiteral(s: string, i: nat): (j: nat)
    ensures i <= j && (i <= |s| ==> j <= |s|)
    decreases |s| - i
  {
    if i < |s| && s[i] != '\0' && s[i] != '%' then SkipLiteral(s, i + 1) else i
  }

  function SkipFlags(s: string, i: nat): (j: nat)
    ensures i <= j && (i <= |s| ==> j <= |s|)
    decreases |s| - i
  {
    if i < |s| && IsFlag(s[i]) then SkipFlags(s, i + 1) else i
  }

  function SkipDigits(s: string, i: nat): (j: nat)
    ensures i <= j && (i <= |s| ==> j <= |s|)
    decreases |s| - i
  {
    if i < |s| && IsDigitOrDollar(s[i]) then SkipDigits(s, i + 1) else i
  }

  /** Where the scanner stands after a part, and how many `*` the part had. */
  function StarPart(s: string, i: nat): (r: (nat, nat))
    ensures i <= r.0
  {
    if CharAt(s, i) == '*' then (SkipDigits(s, i + 1), 1) else (i, 0)
  }

  function PrecisionPart(s: string, i: nat): (r: (nat, nat))
    ensures i <= r.0
  {
    if CharAt(s, i) != '.' then (i, 0)
    else if CharAt(s, i + 1) == '*' then (SkipDigits(s, i + 2), 1)
    else if IsDigit(CharAt(s, i + 1)) then (SkipDigits(s, i + 1), 0)
    else (i + 2, 0)
  }

  function LengthPart(s: string, i: nat): (r: (nat, Lg))
    ensures i <= r.0
  {
    var c, next := CharAt(s, i), CharAt(s, i + 1);
    if c == 'h' then
      if next == 'h' then (i + 2, NoLong) else if IsInteger(next) then (i + 1, ShortLg) else (i, NoLong)
    else if c == 'L' || c == 'q' then (i + 1, LongLongLg)
    else if c == 'z' || c == 'Z' || c == 't' || c == 'j' then (i + 1, LongLg)
    else if c == 'l' then (if next == 'l' then (i + 2, LongLongLg) else (i + 1, LongLg))
    else (i, NoLong)
  }

  function Classify(c: char): Kind {
    if IsInteger(c) then IntType
    else if IsFloating(c) then DoubleType
    else if c == 'c' || c == 'C' then CharType
    else if c == 's' || c == 'S' then StringType
    else if c == 'p' then PointerType
    else if IsExtended(c) then ExtendedType
    else NoType
  }

  /** The conversion whose '%' is at i. */
  function ScanConversion(s: string, i: nat): (tok: Token)
    ensures tok.Token? && i < tok.end && tok.info.kind == Classify(tok.info.conv)
  {
    var (afterWidth, stars) := StarPart(s, SkipDigits(s, SkipFlags(s, i + 1)));
    var (afterPrecision, stars') := PrecisionPart(s, afterWidth);
    var (at, lg) := LengthPart(s, afterPrecision);
    Token(at + 1, Info(stars + stars', lg, Classify(CharAt(s, at)), CharAt(s, at)))
  }

  function Scan(s: string, i: nat): (tok: Token)
    ensures tok.Token? ==> i < tok.end && tok.info.kind == Classify(tok.info.conv)
  {
    var percent := SkipLiteral(s, i);
    if CharAt(s, percent) != '%' then NoMore else ScanConversion(s, percent)
  }

  /** What a loop over segments needs of its scanner: it moves on. */
  type Tokenizer = scan: (string, nat) -> Token | forall s, i: nat :: scan(s, i).Token? ==> i < scan(s, i).end
    witness (_, _) => NoMore

  function Scanning(): Tokenizer {
    (s: string, i: nat) => Scan(s, i)
  }

  // ---------------------------------------------------------------- the loops of the scanner

  /** The part of log_vsnprintf before the segment is copied; i is iterformat. */
  method NextToken(s: string, start: nat) returns (tok: Token)
    requires start <= |s|
    ensures tok == Scan(s, start)
  {
    var i := start;
    while CharAt(s, i) != '\0' && s[i] != '%'
      invariant start <= i <= |s|
      invariant SkipLiteral(s, start) == SkipLiteral(s, i)
      decreases |s| - i
    {
      i := i + 1;
    }
    if CharAt(s, i) == '\0' {
      return NoMore;
    }
    tok := ConversionToken(s, i);
  }

  method ConversionToken(s: string, percent: nat) returns (tok: Token)
    requires percent < |s|
    ensures tok == ScanConversion(s, percent)
  {
    var stars, lg := 0, NoLong;
    var i := percent + 1;
    while i < |s| && IsFlag(s[i])
      invariant percent < i <= |s|
      invariant SkipFlags(s, percent + 1) == SkipFlags(s, i)
    {
      i := i + 1;
    }
    i := DigitLoop(s, i);
    if CharAt(s, i) == '*' {
      i := i + 1;
      stars := stars + 1;
      i := DigitLoop(s, i);
    }
    var more;
    i, more := ScanPrecision(s, i);
    stars := stars + more;
    i, lg := ScanLength(s, i);
    tok := Token(i + 1, Info(stars, lg, Classify(CharAt(s, i)), CharAt(s, i)));
  }

  method DigitLoop(s: string, start: nat) returns (i: nat)
    ensures i == SkipDigits(s, start)
  {
    i := start;
    while i < |s| && IsDigitOrDollar(s[i])
      invariant start <= i
      invariant SkipDigits(s, start) == SkipDigits(s, i)
    {
      i := i + 1;
    }
  }

  method ScanPrecision(s: string, start: nat) returns (i: nat, stars: nat)
    ensures (i, stars) == PrecisionPart(s, start)
  {
    i, stars := start, 0;
    if CharAt(s, i) == '.' {
      i := i + 1;
      if CharAt(s, i) == '*' {
        i := i + 1;
        stars := stars + 1;
        i := DigitLoop(s, i);
      } else {
        if IsDigit(CharAt(s, i)) {
          i := DigitLoop(s, i);
        } else {
          i := i + 1;
        }
      }
    }
  }

  method ScanLength(s: string, start: nat) returns (i: nat, lg: Lg)
    ensures (i, lg) == LengthPart(s, start)
  {
    i, lg := start, NoLong;
    match CharAt(s, i) {
      case 'h' =>
        if CharAt(s, i + 1) == 'h' || IsInteger(CharAt(s, i + 1)) {
          lg := ShortLg;
          i := i + 1;
          if CharAt(s, i) == 'h' {
            i := i + 1;
            lg := NoLong;
          }
        }
      case 'l' =>
        i := i + 1;
        lg := LongLg;
        if CharAt(s, i) == 'l' {
          i := i + 1;
          lg := LongLongLg;
        }
      case c =>
        if c == 'L' || c == 'q' {
          lg := LongLongLg;
          i := i + 1;
        } else if c == 'z' || c == 'Z' || c == 't' || c == 'j' {
          lg := LongLg;
          i := i + 1;
        }
    }
  }
}
