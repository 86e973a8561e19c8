/** The scanner finds exactly the segments a format was put together from. */
module Tokenization {
  import opened Sequences
  import opened Format
  import opened Scanner

  /** The text t stands in s at position i. */
  predicate HasAt(s: string, i: nat, t: string) {
    i + |t| <= |s| && s[i..i + |t|] == t
  }

  lemma HasAtParts(s: string, i: nat, t: string, u: string)
    requires HasAt(s, i, t + u)
    ensures HasAt(s, i, t) && HasAt(s, i + |t|, u)
  {
    assert (t + u)[..|t|] == t && (t + u)[|t|..] == u;
  }

  lemma HasAtChar(s: string, i: nat, t: string, k: nat)
    requires HasAt(s, i, t) && k < |t|
    ensures CharAt(s, i + k) == t[k]
  {
  }

  lemma {:induction false} LiteralRun(s: string, i: nat, t: string)
    requires HasAt(s, i, t) && IsLiteral(t)
    requires i + |t| < |s| ==> s[i + |t|] == '%'
    ensures SkipLiteral(s, i) == i + |t|
    decreases |t|
  {
    if t != "" {
      assert t == t[..1] + t[1..] && t[0] in t;
      HasAtParts(s, i, t[..1], t[1..]);
      HasAtChar(s, i, t, 0);
      assert forall c :: c in t[1..] ==> c in t;
      LiteralRun(s, i + 1, t[1..]);
    }
  }

  lemma {:induction false} FlagRun(s: string, i: nat, t: string)
    requires HasAt(s, i, t) && forall c :: c in t ==> IsFlag(c)
    requires !IsFlag(CharAt(s, i + |t|))
    ensures SkipFlags(s, i) == i + |t|
    decreases |t|
  {
    if t != "" {
      assert t == t[..1] + t[1..];
      HasAtParts(s, i, t[..1], t[1..]);
      HasAtChar(s, i, t, 0);
      FlagRun(s, i + 1, t[1..]);
    }
  }

  lemma {:induction false} DigitRun(s: string, i: nat, t: string)
    requires HasAt(s, i, t) && forall c :: c in t ==> IsDigit(c)
    requires !IsDigitOrDollar(CharAt(s, i + |t|))
    ensures SkipDigits(s, i) == i + |t|
    decreases |t|
  {
    if t != "" {
      assert t == t[..1] + t[1..];
      HasAtParts(s, i, t[..1], t[1..]);
      HasAtChar(s, i, t, 0);
      DigitRun(s, i + 1, t[1..]);
    }
  }

  // ---------------------------------------------------------------- the parts of a conversion

  /** The parts of a plain conversion stand one behind the other, from p, where the flags begin. */
  lemma TextIsLaid(s: string, i: nat, d: Conversion)
    requires d.Plain? && HasAt(s, i, DirectiveText(d))
    ensures CharAt(s, i) == '%' && HasAt(s, i + 1, d.flags)
    ensures var w := i + 1 + |d.flags|;
            var q := w + |WidthText(d.width)|;
            var l := q + |PrecisionText(d.precision)|;
            && HasAt(s, w, WidthText(d.width)) && HasAt(s, q, PrecisionText(d.precision))
            && HasAt(s, l, LengthText(d.length)) && CharAt(s, l + |LengthText(d.length)|) == d.conv
  {
    var w, p, l := WidthText(d.width), PrecisionText(d.precision), LengthText(d.length);
    HasAtParts(s, i, "%" + d.flags + w + p + l, [d.conv]);
    HasAtParts(s, i, "%" + d.flags + w + p, l);
    HasAtParts(s, i, "%" + d.flags + w, p);
    HasAtParts(s, i, "%" + d.flags, w);
    HasAtParts(s, i, "%", d.flags);
    HasAtChar(s, i, "%", 0);
    HasAtChar(s, i + 1 + |d.flags| + |w| + |p| + |l|, [d.conv], 0);
  }

  predicate IsLengthChar(c: char) {
    c == 'h' || c == 'l' || c == 'L' || c == 'q' || c == 'z' || c == 'Z' || c == 't' || c == 'j'
  }

  /** Neither a flag nor part of a width or a precision. */
  predicate BeginsLater(c: char) {
    !IsFlag(c) && !IsDigitOrDollar(c) && c != '*'
  }

  /** The character behind the width and the precision. */
  lemma LengthBegins(s: string, l: nat, length: Length, conv: char)
    requires HasAt(s, l, LengthText(length)) && CharAt(s, l + |LengthText(length)|) == conv && ValidPair(length, conv)
    ensures BeginsLater(CharAt(s, l)) && CharAt(s, l) != '.'
    ensures length == NoLength || IsLengthChar(CharAt(s, l))
  {
    if length != NoLength {
      HasAtChar(s, l, LengthText(length), 0);
    }
  }

  lemma PrecisionBegins(s: string, q: nat, precision: Precision)
    requires HasAt(s, q, PrecisionText(precision))
    requires BeginsLater(CharAt(s, q + |PrecisionText(precision)|))
    ensures BeginsLater(CharAt(s, q))
  {
    if precision != NoPrecision {
      HasAtChar(s, q, PrecisionText(precision), 0);
    }
  }

  lemma WidthScanned(s: string, w: nat, width: Width)
    requires HasAt(s, w, WidthText(width)) && ValidWidth(width)
    requires BeginsLater(CharAt(s, w + |WidthText(width)|))
    ensures !IsFlag(CharAt(s, w))
    ensures StarPart(s, SkipDigits(s, w)) == (w + |WidthText(width)|, if width.WidthStar? then 1 else 0)
  {
    match width
    case NoWidth => DigitRun(s, w, "");
    case WidthDigits(digits) =>
      HasAtChar(s, w, digits, 0);
      assert digits[0] in digits;
      DigitRun(s, w, digits);
    case WidthStar =>
      HasAtChar(s, w, "*", 0);
      DigitRun(s, w, "");
      DigitRun(s, w + 1, "");
  }

  lemma PrecisionScanned(s: string, q: nat, precision: Precision)
    requires HasAt(s, q, PrecisionText(precision)) && ValidPrecision(precision)
    requires var c := CharAt(s, q + |PrecisionText(precision)|); BeginsLater(c) && c != '.'
    ensures PrecisionPart(s, q) == (q + |PrecisionText(precision)|, if precision.PrecisionStar? then 1 else 0)
  {
    match precision
    case NoPrecision =>
    case PrecisionStar =>
      HasAtChar(s, q, ".*", 0);
      HasAtChar(s, q, ".*", 1);
      DigitRun(s, q + 2, "");
    case PrecisionDigits(digits) =>
      HasAtParts(s, q, ".", digits);
      HasAtChar(s, q, ".", 0);
      HasAtChar(s, q + 1, digits, 0);
      assert digits[0] in digits;
      DigitRun(s, q + 1, digits);
  }

  function LgOf(length: Length): Lg {
    match length
    case NoLength => NoLong
    case HH => NoLong
    case H => ShortLg
    case L => LongLg
    case LL => LongLongLg
    case BigL => LongLongLg
    case Q => LongLongLg
    case Z => LongLg
    case BigZ => LongLg
    case T => LongLg
    case J => LongLg
  }

  lemma LengthScanned(s: string, l: nat, length: Length, conv: char)
    requires HasAt(s, l, LengthText(length)) && CharAt(s, l + |LengthText(length)|) == conv && ValidPair(length, conv)
    ensures LengthPart(s, l) == (l + |LengthText(length)|, LgOf(length))
  {
    if length != NoLength {
      HasAtChar(s, l, LengthText(length), 0);
    }
    if length in {HH, LL} {
      HasAtChar(s, l, LengthText(length), 1);
    }
  }

  // ---------------------------------------------------------------- segments

  function Stars(d: Directive): nat {
    if !d.Plain? then 0
    else (if d.width.WidthStar? then 1 else 0) + (if d.precision.PrecisionStar? then 1 else 0)
  }

  function ConvChar(d: Directive): char {
    match d
    case Percent => '%'
    case ErrnoText => 'm'
    case Plain(_, _, _, _, conv) => conv
    case Extended(conv) => conv
  }

  /** What the scanner should make of a conversion. */
  function InfoOf(d: Directive): Info {
    Info(Stars(d), if d.Plain? then LgOf(d.length) else NoLong, Classify(ConvChar(d)), ConvChar(d))
  }

  /** An extended %h that the next character would turn into a length modifier. */
  predicate Swallows(d: Directive, next: char) {
    d == Extended('h') && (next == 'h' || IsInteger(next))
  }

  lemma SimpleScanned(s: string, i: nat, d: Conversion)
    requires !d.Plain? && HasAt(s, i, DirectiveText(d)) && !Swallows(d, CharAt(s, i + 2))
    ensures CharAt(s, i) == '%'
    ensures ScanConversion(s, i) == Token(i + 2, InfoOf(d))
  {
    HasAtChar(s, i, DirectiveText(d), 0);
    HasAtChar(s, i, DirectiveText(d), 1);
  }

  lemma PlainScanned(s: string, i: nat, d: Conversion)
    requires d.Plain? && HasAt(s, i, DirectiveText(d))
    ensures CharAt(s, i) == '%'
    ensures ScanConversion(s, i)
         == Token(i + |DirectiveText(d)|, InfoOf(d))
  {
    TextIsLaid(s, i, d);
    var w := i + 1 + |d.flags|;
    var q := w + |WidthText(d.width)|;
    var l := q + |PrecisionText(d.precision)|;
    PartsScanned(s, d, i + 1, w, q, l);
  }

  /** The flags begin at p, the width at w, the precision at q, the length modifier at l. */
  lemma PartsScanned(s: string, d: Conversion, p: nat, w: nat, q: nat, l: nat)
    requires d.Plain? && HasAt(s, p, d.flags) && p + |d.flags| == w
    requires HasAt(s, w, WidthText(d.width)) && w + |WidthText(d.width)| == q
    requires HasAt(s, q, PrecisionText(d.precision)) && q + |PrecisionText(d.precision)| == l
    requires HasAt(s, l, LengthText(d.length)) && CharAt(s, l + |LengthText(d.length)|) == d.conv
    ensures SkipFlags(s, p) == w
    ensures StarPart(s, SkipDigits(s, w)) == (q, if d.width.WidthStar? then 1 else 0)
    ensures PrecisionPart(s, q) == (l, if d.precision.PrecisionStar? then 1 else 0)
    ensures LengthPart(s, l) == (l + |LengthText(d.length)|, LgOf(d.length))
  {
    LengthBegins(s, l, d.length, d.conv);
    LengthScanned(s, l, d.length, d.conv);
    PrecisionBegins(s, q, d.precision);
    PrecisionScanned(s, q, d.precision);
    WidthScanned(s, w, d.width);
    FlagRun(s, p, d.flags);
  }

  lemma ConversionScanned(s: string, i: nat, d: Conversion)
    requires HasAt(s, i, DirectiveText(d)) && !Swallows(d, CharAt(s, i + |DirectiveText(d)|))
    ensures CharAt(s, i) == '%' && ScanConversion(s, i) == Token(i + |DirectiveText(d)|, InfoOf(d))
  {
    if d.Plain? {
      PlainScanned(s, i, d);
    } else {
      SimpleScanned(s, i, d);
    }
  }

  /**
   Tokenizer exactness: wherever the text of a segment stands in a format, the scanner takes
   exactly this text for the next segment, with the conversion, the length and the stars it has.
   */
  lemma SegmentScanned(s: string, i: nat, seg: Segment)
    requires HasAt(s, i, SegmentText(seg))
    requires !Swallows(seg.directive, CharAt(s, i + |SegmentText(seg)|))
    ensures Scan(s, i) == Token(i + |SegmentText(seg)|, InfoOf(seg.directive))
  {
    var a := i + |seg.literal|;
    HasAtParts(s, i, seg.literal, DirectiveText(seg.directive));
    ConversionScanned(s, a, seg.directive);
    LiteralRun(s, i, seg.literal);
    ScanBehind(s, i, a);
  }

  lemma ScanBehind(s: string, i: nat, percent: nat)
    requires SkipLiteral(s, i) == percent && CharAt(s, percent) == '%'
    ensures Scan(s, i) == ScanConversion(s, percent)
  {
  }

  /** A swallowed %h is not read for what it is. */
  lemma SwallowedMisread(s: string, i: nat, seg: Segment)
    requires HasAt(s, i, SegmentText(seg)) && Swallows(seg.directive, CharAt(s, i + |SegmentText(seg)|))
    ensures Scan(s, i) != Token(i + |SegmentText(seg)|, InfoOf(seg.directive))
  {
    var a := i + |seg.literal|;
    HasAtParts(s, i, seg.literal, DirectiveText(seg.directive));
    HasAtChar(s, a, "%h", 0);
    HasAtChar(s, a, "%h", 1);
    LiteralRun(s, i, seg.literal);
  }

  /** A segment is read for what it is if and only if the next character does not swallow its %h. */
  lemma TokenizerIsExact(s: string, i: nat, seg: Segment)
    requires HasAt(s, i, SegmentText(seg))
    ensures Scan(s, i) == Token(i + |SegmentText(seg)|, InfoOf(seg.directive))
       <==> !Swallows(seg.directive, CharAt(s, i + |SegmentText(seg)|))
  {
    if Swallows(seg.directive, CharAt(s, i + |SegmentText(seg)|)) {
      SwallowedMisread(s, i, seg);
    } else {
      SegmentScanned(s, i, seg);
    }
  }

  /** Literal text at the end is no segment. */
  lemma TailScanned(s: string, i: nat, tail: Literal)
    requires i + |tail| == |s| && HasAt(s, i, tail)
    ensures Scan(s, i) == NoMore
  {
    LiteralRun(s, i, tail);
  }

  // ---------------------------------------------------------------- formats

  /** What is left of the format from segment k on. */
  function Rest(f: Format, k: nat): string
    requires k <= |f.segments|
  {
    SegmentsText(f.segments[k..]) + f.tail
  }

  lemma RestBegins(f: Format, k: nat)
    requires k < |f.segments|
    ensures Rest(f, k) == SegmentText(f.segments[k]) + Rest(f, k + 1)
  {
    assert f.segments[k..][1..] == f.segments[k + 1..];
  }

  lemma RestAtEnd(f: Format)
    ensures Rest(f, |f.segments|) == f.tail && f.segments[|f.segments|..] == []
  {
  }

  /** No %h stands before a letter that would make it a length modifier. */
  predicate NothingSwallowed(f: Format) {
    forall k :: 0 <= k < |f.segments| ==> !Swallows(f.segments[k].directive, CharAt(Rest(f, k + 1), 0))
  }

  lemma RestIsLaid(f: Format, s: string, i: nat, k: nat)
    requires i <= |s| && k < |f.segments| && s[i..] == Rest(f, k)
    ensures var end := i + |SegmentText(f.segments[k])|;
            && HasAt(s, i, SegmentText(f.segments[k])) && i < end && s[end..] == Rest(f, k + 1)
            && CharAt(s, end) == CharAt(Rest(f, k + 1), 0)
  {
    var t, r := SegmentText(f.segments[k]), Rest(f, k + 1);
    RestBegins(f, k);
    assert HasAt(s, i, t + r);
    HasAtParts(s, i, t, r);
    assert t[|f.segments[k].literal|] == '%';
  }

  /** The token the scanner should find at position i if the rest of the format from segment k is there. */
  function TokenAt(f: Format, i: nat, k: nat): Token
    requires k <= |f.segments|
  {
    if k == |f.segments| then NoMore
    else Token(i + |SegmentText(f.segments[k])|, InfoOf(f.segments[k].directive))
  }

  /** The scanner meets the segments of the format one after the other, and then no more. */
  ghost predicate Finds(scan: Tokenizer, f: Format) {
    forall s, i: nat, k: nat {:trigger scan(s, i), TokenAt(f, i, k)} ::
      i <= |s| && k <= |f.segments| && s[i..] == Rest(f, k) ==> scan(s, i) == TokenAt(f, i, k)
  }

  lemma RestScanned(f: Format, s: string, i: nat, k: nat)
    requires NothingSwallowed(f) && i <= |s| && k <= |f.segments| && s[i..] == Rest(f, k)
    ensures Scan(s, i) == TokenAt(f, i, k)
  {
    if k == |f.segments| {
      RestAtEnd(f);
      TailScanned(s, i, f.tail);
    } else {
      RestIsLaid(f, s, i, k);
      SegmentScanned(s, i, f.segments[k]);
    }
  }

  lemma RestMisread(f: Format, k: nat)
    requires k < |f.segments| && Swallows(f.segments[k].directive, CharAt(Rest(f, k + 1), 0))
    ensures Scan(Rest(f, k), 0) != TokenAt(f, 0, k)
  {
    assert Rest(f, k)[0..] == Rest(f, k);
    RestIsLaid(f, Rest(f, k), 0, k);
    SwallowedMisread(Rest(f, k), 0, f.segments[k]);
  }

  /**
   Tokenizer exactness for whole formats: at every position where a segment begins the scanner finds
   just that segment, if and only if no %h of the format is swallowed.
   */
  lemma ScanningFinds(f: Format)
    ensures Finds(Scanning(), f) <==> NothingSwallowed(f)
  {
    if NothingSwallowed(f) {
      forall s, i: nat, k: nat | i <= |s| && k <= |f.segments| && s[i..] == Rest(f, k)
        ensures Scan(s, i) == TokenAt(f, i, k)
      {
        RestScanned(f, s, i, k);
      }
    } else {
      var k :| 0 <= k < |f.segments| && Swallows(f.segments[k].directive, CharAt(Rest(f, k + 1), 0));
      RestMisread(f, k);
      assert Rest(f, k)[0..] == Rest(f, k);
      assert Scanning()(Rest(f, k), 0) != TokenAt(f, 0, k);
    }
  }

  // ---------------------------------------------------------------- cutting

  /** All segments a scanner cuts off from position i on, and what it leaves for the end. */
  function Cut(scan: Tokenizer, s: string, i: nat): (seq<string>, string)
    requires i <= |s|
    decreases |s| - i
  {
    match scan(s, i)
    case NoMore => ([], s[i..])
    case Token(end, _) =>
      if end > |s| then ([], s[i..]) else
      var (segs, tail) := Cut(scan, s, end);
      ([s[i..end]] + segs, tail)
  }

  /** The cut loses no character and adds none, whatever the string. */
  lemma {:induction false} CutIsPartition(scan: Tokenizer, s: string, i: nat)
    requires i <= |s|
    ensures Flatten(Cut(scan, s, i).0) + Cut(scan, s, i).1 == s[i..]
    ensures forall t :: t in Cut(scan, s, i).0 ==> t != ""
    decreases |s| - i
  {
    var tok := scan(s, i);
    if tok.Token? && tok.end <= |s| {
      CutIsPartition(scan, s, tok.end);
      assert ([s[i..tok.end]] + Cut(scan, s, tok.end).0)[1..] == Cut(scan, s, tok.end).0;
      assert s[i..tok.end] + s[tok.end..] == s[i..];
    }
  }

  function SegmentTexts(segs: seq<Segment>): seq<string> {
    if segs == [] then [] else [SegmentText(segs[0])] + SegmentTexts(segs[1..])
  }

  lemma SegmentTextsNext(segs: seq<Segment>, k: nat)
    requires k < |segs|
    ensures SegmentTexts(segs[k..]) == [SegmentText(segs[k])] + SegmentTexts(segs[k + 1..])
  {
    assert segs[k..][1..] == segs[k + 1..];
  }

  lemma CutNext(scan: Tokenizer, s: string, i: nat, end: nat)
    requires i < end <= |s| && scan(s, i).Token? && scan(s, i).end == end
    ensures Cut(scan, s, i) == ([s[i..end]] + Cut(scan, s, end).0, Cut(scan, s, end).1)
  {
  }

  lemma {:induction false} CutFromSegment(scan: Tokenizer, f: Format, s: string, i: nat, k: nat)
    requires Finds(scan, f) && i <= |s| && k <= |f.segments| && s[i..] == Rest(f, k)
    ensures Cut(scan, s, i) == (SegmentTexts(f.segments[k..]), f.tail)
    decreases |f.segments| - k
  {
    assert scan(s, i) == TokenAt(f, i, k);
    if k < |f.segments| {
      RestIsLaid(f, s, i, k);
      var end := i + |SegmentText(f.segments[k])|;
      CutNext(scan, s, i, end);
      CutFromSegment(scan, f, s, end, k + 1);
      SegmentTextsNext(f.segments, k);
    } else {
      RestAtEnd(f);
    }
  }

  /** The cut of a format is exactly its segments, one conversion each, and its tail. */
  lemma CutFindsSegments(f: Format)
    requires NothingSwallowed(f)
    ensures Cut(Scanning(), FormatText(f), 0) == (SegmentTexts(f.segments), f.tail)
  {
    ScanningFinds(f);
    assert f.segments[0..] == f.segments && FormatText(f)[0..] == FormatText(f);
    CutFromSegment(Scanning(), f, FormatText(f), 0, 0);
  }

  // ---------------------------------------------------------------- unique reading

  /** Where the parts of a plain conversion begin and end can be seen from the text alone. */
  predicate PartsAre(s: string, d: Directive, w: nat, q: nat, l: nat)
    requires d.Plain?
  {
    && 1 <= w <= q <= l < |s|
    && d.flags == s[1..w] && WidthText(d.width) == s[w..q]
    && PrecisionText(d.precision) == s[q..l] && LengthText(d.length) == s[l..|s| - 1] && d.conv == s[|s| - 1]
  }

  lemma PartsLength(d: Directive)
    requires d.Plain?
    ensures |DirectiveText(d)|
         == 2 + |d.flags| + |WidthText(d.width)| + |PrecisionText(d.precision)| + |LengthText(d.length)|
  {
  }

  lemma LaidPartsAre(s: string, d: Conversion, w: nat, q: nat, l: nat)
    requires d.Plain? && HasAt(s, 1, d.flags) && 1 + |d.flags| == w
    requires HasAt(s, w, WidthText(d.width)) && w + |WidthText(d.width)| == q
    requires HasAt(s, q, PrecisionText(d.precision)) && q + |PrecisionText(d.precision)| == l
    requires HasAt(s, l, LengthText(d.length)) && l + |LengthText(d.length)| + 1 == |s| && s[|s| - 1] == d.conv
    ensures PartsAre(s, d, SkipFlags(s, 1), q, l)
    ensures q == StarPart(s, SkipDigits(s, SkipFlags(s, 1))).0 && l == PrecisionPart(s, q).0
  {
    PartsScanned(s, d, 1, w, q, l);
  }

  lemma PartsFound(s: string, d: Conversion)
    requires d.Plain? && s == DirectiveText(d)
    ensures var w := SkipFlags(s, 1);
            var q := StarPart(s, SkipDigits(s, w)).0;
            PartsAre(s, d, w, q, PrecisionPart(s, q).0)
  {
    assert HasAt(s, 0, DirectiveText(d));
    TextIsLaid(s, 0, d);
    PartsLength(d);
    var w := 1 + |d.flags|;
    var q := w + |WidthText(d.width)|;
    LaidPartsAre(s, d, w, q, q + |PrecisionText(d.precision)|);
  }

  /** The text of a plain conversion says what the conversion is. */
  lemma PlainTextUnique(a: Conversion, b: Conversion)
    requires a.Plain? && b.Plain? && DirectiveText(a) == DirectiveText(b)
    ensures a == b
  {
    PartsFound(DirectiveText(a), a);
    PartsFound(DirectiveText(b), b);
    WidthUnique(a.width, b.width);
    PrecisionUnique(a.precision, b.precision);
    LengthUnique(a.length, b.length);
  }

  lemma WidthUnique(a: Width, b: Width)
    requires ValidWidth(a) && ValidWidth(b) && WidthText(a) == WidthText(b)
    ensures a == b
  {
    assert a.WidthDigits? ==> a.digits[0] in a.digits;
    assert b.WidthDigits? ==> b.digits[0] in b.digits;
  }

  lemma PrecisionUnique(a: Precision, b: Precision)
    requires ValidPrecision(a) && ValidPrecision(b) && PrecisionText(a) == PrecisionText(b)
    ensures a == b
  {
    var s, t := PrecisionText(a), PrecisionText(b);
    assert a.PrecisionDigits? ==> s[1] == a.digits[0] && a.digits[0] in a.digits && a.digits == s[1..];
    assert b.PrecisionDigits? ==> t[1] == b.digits[0] && b.digits[0] in b.digits && b.digits == t[1..];
    assert a.PrecisionStar? ==> s[1] == '*';
    assert b.PrecisionStar? ==> t[1] == '*';
  }

  lemma LengthUnique(a: Length, b: Length)
    requires LengthText(a) == LengthText(b)
    ensures a == b
  {
    var s, t := LengthText(a), LengthText(b);
    assert s != "" ==> s[0] == t[0];
    assert |s| == |t|;
  }

  /** Segments of the C library's own conversions can be read in one way only. */
  lemma SegmentTextUnique(a: Segment, b: Segment)
    requires !a.directive.Extended? && !b.directive.Extended? && SegmentText(a) == SegmentText(b)
    ensures a == b
  {
    var s := SegmentText(a);
    SegmentScanned(s, 0, a);
    SegmentScanned(s, 0, b);
    LiteralEnds(a);
    LiteralEnds(b);
    assert a.literal == s[..|a.literal|] && b.literal == s[..|b.literal|];
    assert DirectiveText(a.directive) == s[|a.literal|..] == DirectiveText(b.directive);
    if a.directive.Plain? && b.directive.Plain? {
      PlainTextUnique(a.directive, b.directive);
    }
  }

  lemma LiteralEnds(seg: Segment)
    ensures SkipLiteral(SegmentText(seg), 0) == |seg.literal|
  {
    var s := SegmentText(seg);
    assert DirectiveText(seg.directive)[0] == '%' == s[|seg.literal|];
    assert HasAt(s, 0, seg.literal);
    LiteralRun(s, 0, seg.literal);
  }
}
