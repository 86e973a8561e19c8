/**
 log_vsnprintf step by step: the loop over segments, the walk over the argument list, and the two
 families it remembers. It is proved to compute the run the formatter is reasoned about.
 */
module LogPrinter {
  import opened Sequences
  import opened Families
  import opened Format
  import opened Scanner
  import opened Stepping
  import opened Formatter

  /** The va_list, which every va_arg shortens. */
  class VaList {
    var args: seq<Arg>

    constructor (args: seq<Arg>)
      ensures this.args == args
    {
      this.args := args;
    }

    /** va_arg; nothing is taken where C leaves the behaviour open. */
    method Next(wanted: CType) returns (a: Option<Arg>)
      modifies this
      ensures match VaArg(old(args), wanted)
              case None => a == None && args == old(args)
              case Some((x, rest)) => a == Some(x) && args == rest
    {
      if args == [] || TypeOf(args[0]) != wanted {
        return None;
      }
      a := Some(args[0]);
      args := args[1..];
    }

    /** VA_ARG_ERREUR_T */
    method NextStatus() returns (status: Option<(int, string, string)>)
      modifies this
      ensures match VaStatus(old(args))
              case None => status == None
              case Some(s) => status == Some((s.numero, s.tag, s.msg)) && args == s.rest
    {
      var numero := Next(CLong);
      if numero == None { return None; }
      var tag := Next(CPointer);
      if tag == None { return None; }
      var msg := Next(CPointer);
      if msg == None { return None; }
      status := Some((ToInt(numero.value.n), tag.value.text, msg.value.text));
    }

    /** What follows vsnprintf for a conversion of the C library. */
    method Skip(stars: nat, lg: Lg, kind: Kind) returns (ok: bool)
      modifies this
      ensures match SkipArgs(old(args), Ints(stars) + OptionToSeq(StepType(lg, kind)))
              case None => !ok
              case Some(rest) => ok && args == rest
    {
      ghost var before, value := args, OptionToSeq(StepType(lg, kind));
      var left: nat := stars;
      while left != 0
        invariant left <= stars
        invariant SkipArgs(before, Ints(stars) + value) == SkipArgs(args, Ints(left) + value)
      {
        assert (Ints(left) + value)[1..] == Ints(left - 1) + value;
        var precision := Next(CInt);
        if precision == None { return false; }
        left := left - 1;
      }
      assert Ints(0) + value == value;
      match StepType(lg, kind) {
        case None => ok := true;
        case Some(wanted) =>
          var a := Next(wanted);
          ok := a != None;
      }
    }
  }

  method PrintStatus(lib: Library, conv: char, va: VaList) returns (text: Option<string>)
    requires conv in {'b', 'h', 'B', 'H', 'y', 'Y'}
    modifies va
    ensures match StatusStep(lib, conv, old(va.args))
            case None => text == None
            case Some((t, rest)) => text == Some(t) && va.args == rest
  {
    var first := va.NextStatus();
    if first == None { return None; }
    var (numero, tag, msg) := first.value;
    match conv {
      case 'b' => text := Some(NumberedText(lib, tag, numero));
      case 'h' => text := Some(NumberedText(lib, tag, numero));
      case 'B' => text := Some(QuotedText(lib, tag, numero, msg));
      case 'H' => text := Some(QuotedText(lib, tag, numero, msg));
      case _ =>
        var second := va.NextStatus();
        if second == None { return None; }
        var (numero', tag', msg') := second.value;
        if conv == 'y' {
          text := Some(tag + " " + NumberedText(lib, tag', numero'));
        } else {
          text := Some(QuotedText(lib, tag, numero, msg) + " -> " + QuotedText(lib, tag', numero', msg'));
        }
    }
  }

  method PrintFamily(lib: Library, table: FamilyTable, conv: char, family: int, va: VaList) returns (text: Option<string>)
    requires table.Valid() && AllTerminated(table.slots[..])
    modifies va
    ensures match FamilyStep(lib, table.slots[..], conv, family, old(va.args))
            case None => text == None
            case Some((t, rest)) => text == Some(t) && va.args == rest
  {
    var tab := table.FindTable(family);
    if tab == None { return Some("?"); }
    var numero := va.Next(CInt);
    if numero == None { return None; }
    var e := FindErrorEntry(tab.value, numero.value.n);
    text := Some(EntryText(lib, conv, e, numero.value.n));
  }

  /** The switch over type_ext; the families come back as they are afterwards. */
  method PrintExtended(lib: Library, table: FamilyTable, conv: char, va: VaList, errFamily: int, ctxFamily: int)
    returns (text: Option<string>, errFamily': int, ctxFamily': int)
    requires table.Valid() && AllTerminated(table.slots[..]) && IsExtended(conv)
    modifies va
    ensures forall stars: nat ::
      match ExtendedStep(lib, table.slots[..], conv, State(old(va.args), stars, errFamily, ctxFamily))
      case None => text == None
      case Some((t, st)) => text == Some(t) && st == State(va.args, stars, errFamily', ctxFamily')
  {
    errFamily', ctxFamily' := errFamily, ctxFamily;
    if conv == 'J' {
      var family := va.Next(CInt);
      if family == None { return None, errFamily, ctxFamily; }
      text, errFamily' := Some(""), family.value.n;
    } else if conv == 'K' {
      var family := va.Next(CInt);
      if family == None { return None, errFamily, ctxFamily; }
      text, ctxFamily' := Some(""), family.value.n;
    } else if conv == 'r' || conv == 'R' {
      text := PrintFamily(lib, table, conv, errFamily, va);
    } else if conv == 'v' || conv == 'V' {
      text := PrintFamily(lib, table, conv, ctxFamily, va);
    } else if conv == 'w' || conv == 'W' {
      text := PrintFamily(lib, table, conv, ERR_POSIX, va);
    } else {
      text := PrintStatus(lib, conv, va);
    }
  }

  /** One segment, printed and stepped over. */
  method PrintSegment(env: Env, table: FamilyTable, sub: string, info: Info, va: VaList,
                      stars: nat, errFamily: int, ctxFamily: int)
    returns (text: Option<string>, stars': nat, errFamily': int, ctxFamily': int)
    requires table.Valid() && AllTerminated(table.slots[..]) && env.slots == table.slots[..]
    requires info.kind == Classify(info.conv)
    modifies va
    ensures match SegmentStep(env, sub, info, State(old(va.args), stars, errFamily, ctxFamily))
            case None => text == None
            case Some((t, st)) => text == Some(t) && st == State(va.args, stars', errFamily', ctxFamily')
  {
    stars', errFamily', ctxFamily' := stars + info.stars, errFamily, ctxFamily;
    if info.kind != ExtendedType {
      text := env.vsnprintf(sub, va.args);
      if text == None { return; }
      var ok := va.Skip(stars', info.lg, info.kind);
      if !ok { text := None; }
      stars' := 0;
    } else {
      text, errFamily', ctxFamily' := PrintExtended(env.lib, table, info.conv, va, errFamily, ctxFamily);
      if text != None {
        text := Some(Lead(sub) + text.value);
      }
    }
  }

  /** log_vsnprintf; out is what the buffer would hold if it were long enough. */
  method LogVsnprintf(env: Env, table: FamilyTable, format: string, va: VaList) returns (out: Rendered)
    requires table.Valid() && AllTerminated(table.slots[..]) && env.slots == table.slots[..]
    requires '\0' !in format
    modifies va
    ensures out == Run(env, format, old(va.args))
  {
    ghost var step, whole := StepperOf(env), Run(env, format, va.args);
    var text, i, stars: nat := "", 0, 0;
    var errFamily, ctxFamily := ERR_POSIX, ERR_SYS;
    while true
      invariant i <= |format|
      invariant whole == Prepend(text, RunWith(Scanning(), step, format, i, State(va.args, stars, errFamily, ctxFamily)))
      decreases |format| - i
    {
      var tok := NextToken(format, i);
      ghost var st := State(va.args, stars, errFamily, ctxFamily);
      RunNext(Scanning(), step, format, i, st, text);
      if tok.NoMore? { break; }
      if tok.end > |format| { return Undefined; }
      var printed;
      printed, stars, errFamily, ctxFamily
        := PrintSegment(env, table, format[i..tok.end], tok.info, va, stars, errFamily, ctxFamily);
      if printed == None { return Undefined; }
      text, i := text + printed.value, tok.end;
      if i == |format| {
        RunNext(Scanning(), step, format, i, State(va.args, stars, errFamily, ctxFamily), text);
        break;
      }
    }
    out := Text(text + format[i..]);
  }
}
