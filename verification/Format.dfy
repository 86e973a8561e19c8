/**
 The formats of the log module and what they mean as a whole. A format is literal text with
 conversion specifications in the sense of section 7.21.6.1 of ISO C11 (with the GNU additions the
 program knows) and with the conversions the log module adds. This file is the reference: it
 assigns to every conversion its own slice of the argument list and says what it prints.
 */
module Format {
  import opened Sequences
  import opened Families

  // ---------------------------------------------------------------- conversion specifications

  datatype Length = NoLength | HH | H | L | LL | BigL | Q | Z | BigZ | T | J

  datatype Width = NoWidth | WidthDigits(digits: string) | WidthStar

  datatype Precision = NoPrecision | PrecisionDigits(digits: string) | PrecisionStar

  datatype Directive =
    | Percent
    | ErrnoText
    | Plain(flags: string, width: Width, precision: Precision, length: Length, conv: char)
    | Extended(conv: char)

  predicate IsFlag(c: char) {
    c == '#' || c == '-' || c == '0' || c == ' ' || c == '+' || c == 'I' || c == '\''
  }

  predicate IsDigit(c: char) {
    '0' <= c <= '9'
  }

  predicate IsInteger(conv: char) {
    conv == 'd' || conv == 'i' || conv == 'u' || conv == 'o' || conv == 'x' || conv == 'X'
  }

  predicate IsFloating(conv: char) {
    || conv == 'e' || conv == 'E' || conv == 'f' || conv == 'F'
    || conv == 'g' || conv == 'G' || conv == 'a' || conv == 'A'
  }

  predicate IsExtended(conv: char) {
    || conv == 'b' || conv == 'B' || conv == 'h' || conv == 'H' || conv == 'y' || conv == 'Y' || conv == 'r'
    || conv == 'R' || conv == 'v' || conv == 'V' || conv == 'J' || conv == 'K' || conv == 'w' || conv == 'W'
  }

  predicate IsLiteral(text: string) {
    forall c :: c in text ==> c != '%' && c != '\0'
  }

  /** The length modifiers a conversion may have. */
  predicate ValidPair(length: Length, conv: char) {
    || IsInteger(conv)
    || (IsFloating(conv) && length in {NoLength, L, BigL})
    || ((conv == 'c' || conv == 's') && length in {NoLength, L})
    || ((conv == 'C' || conv == 'S' || conv == 'p') && length == NoLength)
  }

  /** A leading 0 would be a flag. */
  predicate ValidWidth(width: Width) {
    width.WidthDigits? ==>
      width.digits != [] && width.digits[0] != '0' && forall c :: c in width.digits ==> IsDigit(c)
  }

  predicate ValidPrecision(precision: Precision) {
    precision.PrecisionDigits? ==> precision.digits != [] && forall c :: c in precision.digits ==> IsDigit(c)
  }

  predicate WellFormedDirective(d: Directive) {
    match d
    case Percent => true
    case ErrnoText => true
    case Plain(flags, width, precision, length, conv) =>
      && (forall c :: c in flags ==> IsFlag(c))
      && ValidWidth(width) && ValidPrecision(precision) && ValidPair(length, conv)
    case Extended(conv) => IsExtended(conv)
  }

  type Literal = s: string | IsLiteral(s) witness ""

  type Conversion = d: Directive | WellFormedDirective(d) witness Percent

  datatype Segment = Segment(literal: Literal, directive: Conversion)

  /** Segments of one literal and one conversion each, and the literal behind the last of them. */
  datatype Format = Format(segments: seq<Segment>, tail: Literal)

  // ---------------------------------------------------------------- their text

  function LengthText(length: Length): string {
    match length
    case NoLength => ""
    case HH => "hh"
    case H => "h"
    case L => "l"
    case LL => "ll"
    case BigL => "L"
    case Q => "q"
    case Z => "z"
    case BigZ => "Z"
    case T => "t"
    case J => "j"
  }

  function WidthText(width: Width): string {
    match width
    case NoWidth => ""
    case WidthDigits(digits) => digits
    case WidthStar => "*"
  }

  function PrecisionText(precision: Precision): string {
    match precision
    case NoPrecision => ""
    case PrecisionDigits(digits) => "." + digits
    case PrecisionStar => ".*"
  }

  function DirectiveText(d: Directive): string {
    match d
    case Percent => "%%"
    case ErrnoText => "%m"
    case Plain(flags, width, precision, length, conv) =>
      "%" + flags + WidthText(width) + PrecisionText(precision) + LengthText(length) + [conv]
    case Extended(conv) => "%" + [conv]
  }

  function SegmentText(seg: Segment): string {
    seg.literal + DirectiveText(seg.directive)
  }

  function SegmentsText(segs: seq<Segment>): string {
    if segs == [] then "" else SegmentText(segs[0]) + SegmentsText(segs[1..])
  }

  function FormatText(f: Format): string {
    SegmentsText(f.segments) + f.tail
  }

  // ---------------------------------------------------------------- arguments

  datatype CType = CInt | CLong | CLongLong | CDouble | CLongDouble | CPointer

  /** One variable argument after the default promotions; a pointer is known by the text it points to. */
  datatype Arg =
    | IntArg(n: int)
    | LongArg(n: int)
    | LongLongArg(n: int)
    | DoubleArg(x: real)
    | LongDoubleArg(x: real)
    | PointerArg(text: string)

  function TypeOf(a: Arg): CType {
    match a
    case IntArg(_) => CInt
    case LongArg(_) => CLong
    case LongLongArg(_) => CLongLong
    case DoubleArg(_) => CDouble
    case LongDoubleArg(_) => CLongDouble
    case PointerArg(_) => CPointer
  }

  /** The argument a conversion takes on an LP64 machine, signed and unsigned alike. */
  function ValueType(length: Length, conv: char): CType {
    if IsInteger(conv) then
      match length
      case NoLength => CInt
      case HH => CInt
      case H => CInt
      case L => CLong
      case LL => CLongLong
      case BigL => CLongLong
      case Q => CLongLong
      case Z => CLong
      case BigZ => CLong
      case T => CLong
      case J => CLong
    else if IsFloating(conv) then (if length == BigL then CLongDouble else CDouble)
    else if conv == 'c' || conv == 'C' then CInt
    else CPointer
  }

  /** All arguments of a directive, in order. */
  function ArgTypes(d: Directive): seq<CType> {
    match d
    case Percent => []
    case ErrnoText => []
    case Plain(_, width, precision, length, conv) =>
      (if width.WidthStar? then [CInt] else []) + (if precision.PrecisionStar? then [CInt] else [])
      + [ValueType(length, conv)]
    case Extended(conv) =>
      if conv == 'b' || conv == 'B' || conv == 'h' || conv == 'H' then [CLong, CPointer, CPointer]
      else if conv == 'y' || conv == 'Y' then [CLong, CPointer, CPointer, CLong, CPointer, CPointer]
      else [CInt]
  }

  function Arity(d: Directive): nat {
    |ArgTypes(d)|
  }

  predicate Fits(types: seq<CType>, args: seq<Arg>) {
    |types| <= |args| && forall i :: 0 <= i < |types| ==> TypeOf(args[i]) == types[i]
  }

  /** How many arguments the first k directives take. */
  function Offset(segs: seq<Segment>, k: nat): nat
    requires k <= |segs|
  {
    if k == 0 then 0 else Offset(segs, k - 1) + Arity(segs[k - 1].directive)
  }

  function Drop(args: seq<Arg>, k: nat): seq<Arg> {
    if k <= |args| then args[k..] else []
  }

  function Take(args: seq<Arg>, k: nat): seq<Arg> {
    if k <= |args| then args[..k] else args
  }

  predicate FitsAt(segs: seq<Segment>, args: seq<Arg>, k: nat)
    requires k < |segs|
  {
    Fits(ArgTypes(segs[k].directive), Drop(args, Offset(segs, k)))
  }

  /** The argument list is long enough and of the types the format asks for. */
  predicate ArgsFit(segs: seq<Segment>, args: seq<Arg>) {
    forall k :: 0 <= k < |segs| ==> FitsAt(segs, args, k)
  }

  /** The arguments of directive k. */
  function ArgsOf(segs: seq<Segment>, args: seq<Arg>, k: nat): seq<Arg>
    requires k < |segs|
  {
    Take(Drop(args, Offset(segs, k)), Arity(segs[k].directive))
  }

  // ---------------------------------------------------------------- meaning

  /** What the C library is asked for: one conversion, one decimal number, one strerror text. */
  datatype Library = Library(
    convert: (Directive, seq<Arg>) -> string,
    decimal: int -> string,
    strerror: int -> string)

  function NumberOf(a: seq<Arg>, i: nat): int {
    if i < |a| && (a[i].IntArg? || a[i].LongArg? || a[i].LongLongArg?) then a[i].n else 0
  }

  function TextOf(a: seq<Arg>, i: nat): string {
    if i < |a| && a[i].PointerArg? then a[i].text else ""
  }

  /** Storing a long in an int. */
  function ToInt(n: int): int {
    (n + 0x8000_0000) % 0x1_0000_0000 - 0x8000_0000
  }

  function NumberedText(lib: Library, tag: string, n: int): string {
    tag + "(" + lib.decimal(n) + ")"
  }

  function QuotedText(lib: Library, tag: string, n: int, msg: string): string {
    NumberedText(lib, tag, n) + " : '" + msg + "'"
  }

  /** The entry of the family for the number; None if the family or its table is not there. */
  function EntryOf(slots: seq<Slot>, family: int, n: int): Option<ErrorEntry> {
    match Lookup(slots, family)
    case None => None
    case Some(tab) => FindError(tab, n)
  }

  /** The family a conversion looks its number up in. */
  function FamilyUsed(conv: char, errFamily: int, ctxFamily: int): Option<int> {
    if conv == 'r' || conv == 'R' then Some(errFamily)
    else if conv == 'v' || conv == 'V' then Some(ctxFamily)
    else if conv == 'w' || conv == 'W' then Some(ERR_POSIX)
    else None
  }

  function EntryText(lib: Library, conv: char, e: ErrorEntry, n: int): string {
    if conv == 'r' || conv == 'v' || conv == 'w' then NumberedText(lib, e.labelText, e.numero)
    else if conv == 'R' then QuotedText(lib, e.labelText, e.numero, e.msg)
    else if conv == 'V' then QuotedText(lib, e.labelText, n, e.msg)
    else QuotedText(lib, e.labelText, e.numero, lib.strerror(n))
  }

  /** What an extended conversion prints for its own arguments a. */
  function ExtendedText(lib: Library, slots: seq<Slot>, conv: char, a: seq<Arg>, errFamily: int, ctxFamily: int): string {
    if conv == 'b' || conv == 'h' then NumberedText(lib, TextOf(a, 1), ToInt(NumberOf(a, 0)))
    else if conv == 'B' || conv == 'H' then QuotedText(lib, TextOf(a, 1), ToInt(NumberOf(a, 0)), TextOf(a, 2))
    else if conv == 'y' then TextOf(a, 1) + " " + NumberedText(lib, TextOf(a, 4), ToInt(NumberOf(a, 3)))
    else if conv == 'Y' then
      QuotedText(lib, TextOf(a, 1), ToInt(NumberOf(a, 0)), TextOf(a, 2)) + " -> " +
      QuotedText(lib, TextOf(a, 4), ToInt(NumberOf(a, 3)), TextOf(a, 5))
    else
      match FamilyUsed(conv, errFamily, ctxFamily)
      case None => ""
      case Some(family) =>
        match EntryOf(slots, family, NumberOf(a, 0))
        case None => "?"
        case Some(e) => EntryText(lib, conv, e, NumberOf(a, 0))
  }

  /** The number given by the last conversion `change` before directive k, else the default. */
  function FamilyAt(segs: seq<Segment>, args: seq<Arg>, k: nat, change: char, default: int): int
    requires k <= |segs|
  {
    if k == 0 then default
    else if segs[k - 1].directive == Extended(change) then NumberOf(ArgsOf(segs, args, k - 1), 0)
    else FamilyAt(segs, args, k - 1, change, default)
  }

  function ErrFamilyAt(segs: seq<Segment>, args: seq<Arg>, k: nat): int
    requires k <= |segs|
  {
    FamilyAt(segs, args, k, 'J', ERR_POSIX)
  }

  function CtxFamilyAt(segs: seq<Segment>, args: seq<Arg>, k: nat): int
    requires k <= |segs|
  {
    FamilyAt(segs, args, k, 'K', ERR_SYS)
  }

  /** The family directive k looks its number up in, if it does so. */
  function FamilyNeeded(segs: seq<Segment>, args: seq<Arg>, k: nat): Option<int>
    requires k < |segs|
  {
    match segs[k].directive
    case Extended(conv) => FamilyUsed(conv, ErrFamilyAt(segs, args, k), CtxFamilyAt(segs, args, k))
    case _ => None
  }

  /** What directive k prints, out of its own slice of the arguments. */
  function TextAt(lib: Library, slots: seq<Slot>, segs: seq<Segment>, args: seq<Arg>, k: nat): string
    requires k < |segs|
  {
    match segs[k].directive
    case Extended(conv) =>
      ExtendedText(lib, slots, conv, ArgsOf(segs, args, k), ErrFamilyAt(segs, args, k), CtxFamilyAt(segs, args, k))
    case d => lib.convert(d, ArgsOf(segs, args, k))
  }

  /** The text from directive k on, each conversion with the literal before it. */
  function TextFrom(lib: Library, slots: seq<Slot>, f: Format, args: seq<Arg>, k: nat): string
    requires k <= |f.segments|
    decreases |f.segments| - k
  {
    if k == |f.segments| then f.tail else
    f.segments[k].literal + TextAt(lib, slots, f.segments, args, k) + TextFrom(lib, slots, f, args, k + 1)
  }

  /** The whole format rendered against the whole argument list. */
  function RenderWhole(lib: Library, slots: seq<Slot>, f: Format, args: seq<Arg>): string {
    TextFrom(lib, slots, f, args, 0)
  }
}
