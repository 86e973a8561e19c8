/**
 How log_vsnprintf walks over its argument list: the hand-written table that says what va_arg
 takes for a plain conversion, and what the extended conversions take and print.
 */
module Stepping {
  import opened Sequences
  import opened Families
  import opened Format
  import opened Scanner

  // ---------------------------------------------------------------- the argument list

  /** va_arg; asking for another type than the argument has is undefined in C. */
  function VaArg(args: seq<Arg>, wanted: CType): Option<(Arg, seq<Arg>)> {
    if args != [] && TypeOf(args[0]) == wanted then Some((args[0], args[1..])) else None
  }

  function SkipArgs(args: seq<Arg>, types: seq<CType>): Option<seq<Arg>> {
    if types == [] then Some(args) else
    match VaArg(args, types[0])
    case None => None
    case Some((_, rest)) => SkipArgs(rest, types[1..])
  }

  lemma {:induction false} SkipIsDrop(args: seq<Arg>, types: seq<CType>)
    ensures SkipArgs(args, types) == if Fits(types, args) then Some(args[|types|..]) else None
    decreases |types|
  {
    if types != [] && VaArg(args, types[0]).Some? {
      SkipIsDrop(args[1..], types[1..]);
      if Fits(types[1..], args[1..]) {
        assert forall i :: 1 <= i < |types| ==> args[i] == args[1..][i - 1] && types[i] == types[1..][i - 1];
        assert Fits(types, args);
        assert args[1..][|types[1..]|..] == args[|types|..];
      }
    }
  }

  function Ints(n: nat): seq<CType> {
    if n == 0 then [] else [CInt] + Ints(n - 1)
  }

  /** The switch over typelg and type: what is taken behind the stars; None takes nothing. */
  function StepType(lg: Lg, kind: Kind): Option<CType> {
    match lg
    case ShortLg => Some(CInt)
    case NoLong => (
      match kind
      case IntType => Some(CInt)
      case LongType => Some(CLong)
      case FloatType => Some(CDouble)
      case DoubleType => Some(CDouble)
      case CharType => Some(CInt)
      case PointerType => Some(CPointer)
      case StringType => Some(CPointer)
      case NoType => None
      case ExtendedType => None)
    case LongLg =>
      if kind == IntType then Some(CLong)
      else if kind == LongType then Some(CLongLong)
      else if kind == FloatType then Some(CDouble)
      else if kind == DoubleType then Some(CLongDouble)
      else None
    case LongLongLg =>
      if kind == IntType || kind == LongType then Some(CLongLong)
      else if kind == FloatType || kind == DoubleType then Some(CLongDouble)
      else None
  }

  function OptionToSeq<T>(o: Option<T>): seq<T> {
    match o
    case None => []
    case Some(x) => [x]
  }

  // ---------------------------------------------------------------- one segment

  /** What the formatter calls: vsnprintf on a segment and an argument list, and the rest of the library. */
  datatype Env = Env(vsnprintf: (string, seq<Arg>) -> Option<string>, lib: Library, slots: seq<Slot>)

  /** arguments, precision_in_valist, err_family and ctx_family. */
  datatype State = State(args: seq<Arg>, stars: nat, errFamily: int, ctxFamily: int)

  /** VA_ARG_ERREUR_T: number, label and message of a status. */
  datatype Status = Status(numero: int, tag: string, msg: string, rest: seq<Arg>)

  function VaStatus(args: seq<Arg>): Option<Status> {
    match VaArg(args, CLong)
    case None => None
    case Some((numero, rest)) =>
      match VaArg(rest, CPointer)
      case None => None
      case Some((tag, rest')) =>
        match VaArg(rest', CPointer)
        case None => None
        case Some((msg, rest'')) => Some(Status(ToInt(numero.n), tag.text, msg.text, rest''))
  }

  function Quoted(lib: Library, status: Status): string {
    QuotedText(lib, status.tag, status.numero, status.msg)
  }

  function StatusStep(lib: Library, conv: char, args: seq<Arg>): Option<(string, seq<Arg>)> {
    match VaStatus(args)
    case None => None
    case Some(first) =>
      if conv == 'b' || conv == 'h' then Some((NumberedText(lib, first.tag, first.numero), first.rest))
      else if conv == 'B' || conv == 'H' then Some((Quoted(lib, first), first.rest))
      else
        match VaStatus(first.rest)
        case None => None
        case Some(second) =>
          var text :=
            if conv == 'y' then first.tag + " " + NumberedText(lib, second.tag, second.numero)
            else Quoted(lib, first) + " -> " + Quoted(lib, second);
          Some((text, second.rest))
  }

  /** A number looked up in a family; a family without a table prints "?" and takes no argument. */
  function FamilyStep(lib: Library, slots: seq<Slot>, conv: char, family: int, args: seq<Arg>): Option<(string, seq<Arg>)> {
    match Lookup(slots, family)
    case None => Some(("?", args))
    case Some(tab) =>
      match VaArg(args, CInt)
      case None => None
      case Some((numero, rest)) =>
        match FindError(tab, numero.n)
        case None => None
        case Some(e) => Some((EntryText(lib, conv, e, numero.n), rest))
  }

  function ExtendedStep(lib: Library, slots: seq<Slot>, conv: char, st: State): Option<(string, State)> {
    if conv == 'J' || conv == 'K' then
      match VaArg(st.args, CInt)
      case None => None
      case Some((family, rest)) =>
        Some(("", if conv == 'J' then st.(args := rest, errFamily := family.n) else st.(args := rest, ctxFamily := family.n)))
    else
      var step :=
        match FamilyUsed(conv, st.errFamily, st.ctxFamily)
        case Some(family) => FamilyStep(lib, slots, conv, family, st.args)
        case None => StatusStep(lib, conv, st.args);
      match step
      case None => None
      case Some((text, rest)) => Some((text, st.(args := rest)))
  }

  function PlainStep(env: Env, sub: string, info: Info, st: State): Option<(string, State)> {
    match env.vsnprintf(sub, st.args)
    case None => None
    case Some(text) =>
      match SkipArgs(st.args, Ints(st.stars + info.stars) + OptionToSeq(StepType(info.lg, info.kind)))
      case None => None
      case Some(rest) => Some((text, st.(args := rest, stars := 0)))
  }

  /** The text before the last two characters. */
  function Lead(sub: string): string {
    if |sub| > 2 then sub[..|sub| - 2] else ""
  }

  /** What the loop appends for the segment sub, and the state it goes on with. */
  function SegmentStep(env: Env, sub: string, info: Info, st: State): Option<(string, State)> {
    if info.kind != ExtendedType then PlainStep(env, sub, info, st) else
    match ExtendedStep(env.lib, env.slots, info.conv, st.(stars := st.stars + info.stars))
    case None => None
    case Some((text, st')) => Some((Lead(sub) + text, st'))
  }

  /** The step as a function of the segment's text, what the scanner knows of it, and the state. */
  type Stepper = (string, Info, State) -> Option<(string, State)>

  function StepperOf(env: Env): Stepper {
    (sub: string, info: Info, st: State) => SegmentStep(env, sub, info, st)
  }
}
