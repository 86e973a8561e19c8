/**
 log_vsnprintf: it renders a format segment by segment and walks over the argument list by its own
 table. For the formats of the reference it prints what the whole format means for the whole
 argument list.
 */
module Formatter {
  import opened Sequences
  import opened Families
  import opened Format
  import opened Scanner
  import opened Tokenization
  import opened Stepping
  import opened SegmentMeaning

  datatype Rendered = Text(text: string) | Undefined

  function Prepend(text: string, r: Rendered): Rendered {
    if r.Text? then Text(text + r.text) else Undefined
  }

  /** The loop over segments, from position i of the format in the given state. */
  function RunWith(scan: Tokenizer, step: Stepper, s: string, i: nat, st: State): Rendered
    requires i <= |s|
    decreases |s| - i
  {
    match scan(s, i)
    case NoMore => Text(s[i..])
    case Token(end, info) =>
      if end > |s| then Undefined else
      match step(s[i..end], info, st)
      case None => Undefined
      case Some((text, st')) => Prepend(text, RunWith(scan, step, s, end, st'))
  }

  /** One turn of the loop, when text is already printed. */
  lemma RunNext(scan: Tokenizer, step: Stepper, s: string, i: nat, st: State, text: string)
    requires i <= |s|
    ensures Prepend(text, RunWith(scan, step, s, i, st))
         == match scan(s, i)
            case NoMore => Text(text + s[i..])
            case Token(end, info) =>
              if end > |s| then Undefined else
              match step(s[i..end], info, st)
              case None => Undefined
              case Some((t, st')) => Prepend(text + t, RunWith(scan, step, s, end, st'))
  {
    var tok := scan(s, i);
    if tok.Token? && tok.end <= |s| {
      var r := step(s[i..tok.end], tok.info, st);
      if r.Some? {
        var rest := RunWith(scan, step, s, tok.end, r.value.1);
        if rest.Text? {
          assert text + (r.value.0 + rest.text) == (text + r.value.0) + rest.text;
        }
      }
    }
  }

  function Start(args: seq<Arg>): State {
    State(args, 0, ERR_POSIX, ERR_SYS)
  }

  /** log_vsnprintf, with buffers that are long enough. */
  function Run(env: Env, s: string, args: seq<Arg>): Rendered {
    RunWith(Scanning(), StepperOf(env), s, 0, Start(args))
  }

  // ---------------------------------------------------------------- the run turn by turn

  /** Where the loop stands: what it has printed, iterformat, and the rest of its variables. */
  datatype Point = Point(text: string, at: nat, state: State)

  /** One turn of the loop; None if there is no segment to cut off or its step is undefined. */
  function Turn(scan: Tokenizer, step: Stepper, s: string, p: Point): (r: Option<Point>)
    requires p.at <= |s|
    ensures r.Some? ==> r.value.at <= |s|
  {
    match scan(s, p.at)
    case NoMore => None
    case Token(end, info) =>
      if end > |s| then None else
      match step(s[p.at..end], info, p.state)
      case None => None
      case Some((text, st)) => Some(Point(p.text + text, end, st))
  }

  function AfterTurns(scan: Tokenizer, step: Stepper, s: string, st: State, k: nat): (r: Option<Point>)
    ensures r.Some? ==> r.value.at <= |s|
  {
    if k == 0 then Some(Point("", 0, st)) else
    match AfterTurns(scan, step, s, st, k - 1)
    case None => None
    case Some(p) => Turn(scan, step, s, p)
  }

  /** After k turns the whole run is what was printed by then and the run from there on. */
  lemma {:induction false} RunGoesOn(scan: Tokenizer, step: Stepper, s: string, st: State, k: nat)
    requires AfterTurns(scan, step, s, st, k).Some?
    ensures var p := AfterTurns(scan, step, s, st, k).value;
            RunWith(scan, step, s, 0, st) == Prepend(p.text, RunWith(scan, step, s, p.at, p.state))
  {
    if k == 0 {
      var whole := RunWith(scan, step, s, 0, st);
      assert whole.Text? ==> "" + whole.text == whole.text;
    } else {
      RunGoesOn(scan, step, s, st, k - 1);
      var p := AfterTurns(scan, step, s, st, k - 1).value;
      RunNext(scan, step, s, p.at, p.state, p.text);
    }
  }

  // ---------------------------------------------------------------- the run over known segments

  function StepOf(step: Stepper, seg: Segment, st: State): Option<(string, State)> {
    step(SegmentText(seg), InfoOf(seg.directive), st)
  }

  /** The text of a format is a C string. */
  lemma {:induction false} FormatHasNoNul(f: Format)
    ensures '\0' !in FormatText(f)
    decreases |f.segments|
  {
    var segs := f.segments;
    if segs != [] {
      FormatHasNoNul(Format(segs[1..], f.tail));
      SegmentHasNoNul(segs[0]);
    }
  }

  lemma SegmentHasNoNul(seg: Segment)
    ensures '\0' !in SegmentText(seg)
  {
    assert forall c :: c in seg.literal ==> c != '\0';
    ConversionHasNoNul(seg.directive);
  }

  lemma ConversionHasNoNul(d: Conversion)
    ensures '\0' !in DirectiveText(d)
  {
    if d.Plain? {
      WidthHasNoNul(d.width, d.precision);
      assert '\0' !in LengthText(d.length);
      assert '\0' !in d.flags && d.conv != '\0';
    }
  }

  lemma WidthHasNoNul(width: Width, precision: Precision)
    requires ValidWidth(width) && ValidPrecision(precision)
    ensures '\0' !in WidthText(width) && '\0' !in PrecisionText(precision)
  {
  }

  /** The same loop for a format whose segments are known, from segment k. */
  function Steps(step: Stepper, f: Format, k: nat, st: State): Rendered
    requires k <= |f.segments|
    decreases |f.segments| - k
  {
    if k == |f.segments| then Text(f.tail) else
    match StepOf(step, f.segments[k], st)
    case None => Undefined
    case Some((text, st')) => Prepend(text, Steps(step, f, k + 1, st'))
  }

  /** The scanner at the beginning of segment k: where the segment ends, and what it is. */
  lemma TokenOfSegment(scan: Tokenizer, f: Format, s: string, i: nat, k: nat)
    requires Finds(scan, f) && i <= |s| && k < |f.segments| && s[i..] == Rest(f, k)
    ensures var end := i + |SegmentText(f.segments[k])|;
            && i < end <= |s| && s[end..] == Rest(f, k + 1) && s[i..end] == SegmentText(f.segments[k])
            && scan(s, i) == Token(end, InfoOf(f.segments[k].directive))
  {
    assert scan(s, i) == TokenAt(f, i, k);
    RestIsLaid(f, s, i, k);
  }

  /** One turn for a token whose segment is known. */
  lemma TurnOn(scan: Tokenizer, step: Stepper, s: string, p: Point, end: nat, sub: string, info: Info)
    requires p.at < end <= |s| && scan(s, p.at) == Token(end, info) && s[p.at..end] == sub
    ensures Turn(scan, step, s, p)
         == match step(sub, info, p.state) case None => None case Some((text, st)) => Some(Point(p.text + text, end, st))
  {
  }

  lemma RunAtSegment(scan: Tokenizer, step: Stepper, f: Format, s: string, i: nat, k: nat, st: State)
    requires Finds(scan, f) && i <= |s| && k < |f.segments| && s[i..] == Rest(f, k)
    ensures var end, r := i + |SegmentText(f.segments[k])|, StepOf(step, f.segments[k], st);
            && end <= |s| && s[end..] == Rest(f, k + 1)
            && RunWith(scan, step, s, i, st) == AfterStep(r, if r.Some? then RunWith(scan, step, s, end, r.value.1) else Undefined)
  {
    TokenOfSegment(scan, f, s, i, k);
  }

  lemma RunAtTail(scan: Tokenizer, step: Stepper, f: Format, s: string, i: nat, st: State)
    requires Finds(scan, f) && i <= |s| && s[i..] == Rest(f, |f.segments|)
    ensures RunWith(scan, step, s, i, st) == Text(f.tail)
  {
    assert scan(s, i) == TokenAt(f, i, |f.segments|);
    RestAtEnd(f);
  }

  /** A run that begins with this step and goes on like that. */
  function AfterStep(r: Option<(string, State)>, later: Rendered): Rendered {
    match r
    case None => Undefined
    case Some((text, _)) => Prepend(text, later)
  }

  lemma StepsNext(step: Stepper, f: Format, k: nat, st: State)
    requires k < |f.segments|
    ensures var r := StepOf(step, f.segments[k], st);
            Steps(step, f, k, st) == AfterStep(r, if r.Some? then Steps(step, f, k + 1, r.value.1) else Undefined)
  {
  }

  lemma {:induction false} RunIsSteps(scan: Tokenizer, step: Stepper, f: Format, s: string, i: nat, k: nat, st: State)
    requires Finds(scan, f) && i <= |s| && k <= |f.segments| && s[i..] == Rest(f, k)
    ensures RunWith(scan, step, s, i, st) == Steps(step, f, k, st)
    decreases |f.segments| - k
  {
    if k == |f.segments| {
      RunAtTail(scan, step, f, s, i, st);
    } else {
      RunAtSegment(scan, step, f, s, i, k, st);
      StepsNext(step, f, k, st);
      var r := StepOf(step, f.segments[k], st);
      if r.Some? {
        RunIsSteps(scan, step, f, s, i + |SegmentText(f.segments[k])|, k + 1, r.value.1);
      }
    }
  }

  lemma RunKnown(env: Env, f: Format, args: seq<Arg>)
    requires NothingSwallowed(f)
    ensures Run(env, FormatText(f), args) == Steps(StepperOf(env), f, 0, Start(args))
  {
    ScanningFinds(f);
    assert f.segments[0..] == f.segments && FormatText(f)[0..] == FormatText(f);
    RunIsSteps(Scanning(), StepperOf(env), f, FormatText(f), 0, 0, Start(args));
  }

  // ---------------------------------------------------------------- where the arguments are

  /** The state in which segment k should be reached. */
  function StateAt(segs: seq<Segment>, args: seq<Arg>, k: nat): State
    requires k <= |segs|
  {
    State(Drop(args, Offset(segs, k)), 0, ErrFamilyAt(segs, args, k), CtxFamilyAt(segs, args, k))
  }

  lemma DropDrop(args: seq<Arg>, o: nat, n: nat)
    requires n <= |Drop(args, o)|
    ensures Drop(Drop(args, o), n) == Drop(args, o + n)
  {
  }

  lemma FamilyAdvances(segs: seq<Segment>, args: seq<Arg>, k: nat, change: char, default: int)
    requires k < |segs| && change in {'J', 'K'}
    ensures FamilyAt(segs, args, k + 1, change, default)
         == if segs[k].directive == Extended(change) then NumberOf(Drop(args, Offset(segs, k)), 0)
            else FamilyAt(segs, args, k, change, default)
  {
    if segs[k].directive == Extended(change) {
      assert Arity(segs[k].directive) == 1;
      var a := Drop(args, Offset(segs, k));
      assert NumberOf(Take(a, 1), 0) == NumberOf(a, 0);
    }
  }

  lemma StateAdvances(segs: seq<Segment>, args: seq<Arg>, k: nat)
    requires k < |segs| && ArgsFit(segs, args)
    ensures MeantState(segs[k].directive, StateAt(segs, args, k)) == StateAt(segs, args, k + 1)
  {
    assert FitsAt(segs, args, k);
    NextOffset(segs, args, k);
    FamilyAdvances(segs, args, k, 'J', ERR_POSIX);
    FamilyAdvances(segs, args, k, 'K', ERR_SYS);
  }

  /** Segment k is one the table knows, and the number it looks up is found. */
  predicate Covered(slots: seq<Slot>, segs: seq<Segment>, args: seq<Arg>, k: nat)
    requires k < |segs|
  {
    Known(slots, segs[k].directive, StateAt(segs, args, k))
  }

  /** After k turns the loop is about to cut off segment k, in the state st. */
  predicate StandsAt(scan: Tokenizer, step: Stepper, f: Format, args: seq<Arg>, k: nat, st: State)
    requires k <= |f.segments|
  {
    var p := AfterTurns(scan, step, FormatText(f), Start(args), k);
    p.Some? && FormatText(f)[p.value.at..] == Rest(f, k) && p.value.state == st
  }

  /** After k turns the loop is about to cut off segment k, and va_arg will give its first argument. */
  predicate Aligned(scan: Tokenizer, step: Stepper, f: Format, args: seq<Arg>, k: nat)
    requires k <= |f.segments|
  {
    var p := AfterTurns(scan, step, FormatText(f), Start(args), k);
    && p.Some? && FormatText(f)[p.value.at..] == Rest(f, k)
    && p.value.state.args == Drop(args, Offset(f.segments, k))
  }

  lemma TurnCuts(scan: Tokenizer, step: Stepper, f: Format, s: string, p: Point, k: nat)
    requires Finds(scan, f) && k < |f.segments| && p.at <= |s| && s[p.at..] == Rest(f, k)
    ensures var r, p' := StepOf(step, f.segments[k], p.state), Turn(scan, step, s, p);
            if r.Some? then p'.Some? && s[p'.value.at..] == Rest(f, k + 1) && p'.value.state == r.value.1
            else p' == None
  {
    TokenOfSegment(scan, f, s, p.at, k);
    var seg := f.segments[k];
    TurnOn(scan, step, s, p, p.at + |SegmentText(seg)|, SegmentText(seg), InfoOf(seg.directive));
  }

  lemma TurnAtSegment(scan: Tokenizer, step: Stepper, f: Format, args: seq<Arg>, k: nat, st: State)
    requires Finds(scan, f) && k < |f.segments| && StandsAt(scan, step, f, args, k, st)
    ensures var r := StepOf(step, f.segments[k], st);
            if r.Some? then StandsAt(scan, step, f, args, k + 1, r.value.1)
            else AfterTurns(scan, step, FormatText(f), Start(args), k + 1) == None
  {
    var p := AfterTurns(scan, step, FormatText(f), Start(args), k);
    NextTurn(scan, step, FormatText(f), Start(args), k);
    TurnCuts(scan, step, f, FormatText(f), p.value, k);
  }

  lemma NextTurn(scan: Tokenizer, step: Stepper, s: string, st: State, k: nat)
    requires AfterTurns(scan, step, s, st, k).Some?
    ensures AfterTurns(scan, step, s, st, k + 1) == Turn(scan, step, s, AfterTurns(scan, step, s, st, k).value)
  {
  }

  lemma ReachedNext(scan: Tokenizer, step: Stepper, env: Env, f: Format, args: seq<Arg>, k: nat)
    requires k < |f.segments| && Finds(scan, f) && Exact(step, env) && ArgsFit(f.segments, args)
    requires StandsAt(scan, step, f, args, k, StateAt(f.segments, args, k))
    ensures Covered(env.slots, f.segments, args, k) <==> Aligned(scan, step, f, args, k + 1)
    ensures Covered(env.slots, f.segments, args, k) ==>
              StandsAt(scan, step, f, args, k + 1, StateAt(f.segments, args, k + 1))
  {
    var seg, st := f.segments[k], StateAt(f.segments, args, k);
    assert FitsAt(f.segments, args, k);
    TurnAtSegment(scan, step, f, args, k, st);
    assert StepIsExact(env, seg, st, step(SegmentText(seg), InfoOf(seg.directive), st));
    StateAdvances(f.segments, args, k);
    NextOffset(f.segments, args, k);
  }

  lemma CoveredGoesOn(scan: Tokenizer, step: Stepper, env: Env, f: Format, args: seq<Arg>, k: nat)
    requires k < |f.segments| && Finds(scan, f) && Exact(step, env) && ArgsFit(f.segments, args)
    requires StandsAt(scan, step, f, args, k, StateAt(f.segments, args, k)) && Covered(env.slots, f.segments, args, k)
    ensures StandsAt(scan, step, f, args, k + 1, StateAt(f.segments, args, k + 1))
  {
    ReachedNext(scan, step, env, f, args, k);
  }

  lemma NextOffset(segs: seq<Segment>, args: seq<Arg>, k: nat)
    requires k < |segs| && FitsAt(segs, args, k)
    ensures Drop(StateAt(segs, args, k).args, Arity(segs[k].directive)) == Drop(args, Offset(segs, k + 1))
  {
    DropDrop(args, Offset(segs, k), Arity(segs[k].directive));
  }

  predicate AlignedUpTo(scan: Tokenizer, step: Stepper, f: Format, args: seq<Arg>, n: nat)
    requires n <= |f.segments|
  {
    forall k :: 0 <= k <= n ==> Aligned(scan, step, f, args, k)
  }

  predicate CoveredUpTo(slots: seq<Slot>, segs: seq<Segment>, args: seq<Arg>, n: nat)
    requires n <= |segs|
  {
    forall k :: 0 <= k < n ==> Covered(slots, segs, args, k)
  }

  lemma StartsAligned(segs: seq<Segment>, args: seq<Arg>)
    ensures StateAt(segs, args, 0) == Start(args)
  {
    assert Drop(args, 0) == args;
  }

  lemma StandsAtFirst(scan: Tokenizer, step: Stepper, f: Format, args: seq<Arg>)
    ensures StandsAt(scan, step, f, args, 0, StateAt(f.segments, args, 0))
  {
    StartsAligned(f.segments, args);
    assert f.segments[0..] == f.segments && FormatText(f)[0..] == FormatText(f);
  }

  lemma CoveredReaches(scan: Tokenizer, step: Stepper, env: Env, f: Format, args: seq<Arg>, n: nat)
    requires n <= |f.segments| && Finds(scan, f) && Exact(step, env) && ArgsFit(f.segments, args)
    requires CoveredUpTo(env.slots, f.segments, args, n)
    ensures StandsAt(scan, step, f, args, n, StateAt(f.segments, args, n))
  {
    var there := (k: nat) => k <= |f.segments| && StandsAt(scan, step, f, args, k, StateAt(f.segments, args, k));
    StandsAtFirst(scan, step, f, args);
    forall k: nat | k < n && there(k) ensures there(k + 1) {
      CoveredGoesOn(scan, step, env, f, args, k);
    }
    Climb(there, n);
  }

  /** The first segment that is not covered. */
  lemma {:induction false} FirstUncovered(slots: seq<Slot>, segs: seq<Segment>, args: seq<Arg>, n: nat) returns (k: nat)
    requires n <= |segs| && !CoveredUpTo(slots, segs, args, n)
    ensures k < n && !Covered(slots, segs, args, k) && CoveredUpTo(slots, segs, args, k)
    decreases n
  {
    k :| 0 <= k < n && !Covered(slots, segs, args, k);
    if !CoveredUpTo(slots, segs, args, k) {
      k := FirstUncovered(slots, segs, args, k);
    }
  }

  /**
   The arguments never drift, in the run over the text of the format and for every argument list of
   the types it asks for, if and only if every segment is covered.
   */
  lemma NeverDrifts(env: Env, f: Format, args: seq<Arg>, n: nat)
    requires n <= |f.segments| && NothingSwallowed(f) && Conforms(env) && ArgsFit(f.segments, args)
    ensures AlignedUpTo(Scanning(), StepperOf(env), f, args, n) <==> CoveredUpTo(env.slots, f.segments, args, n)
  {
    ScanningFinds(f);
    SteppingIsExact(env);
    NeverDriftsWith(Scanning(), StepperOf(env), env, f, args, n);
  }

  lemma NeverDriftsWith(scan: Tokenizer, step: Stepper, env: Env, f: Format, args: seq<Arg>, n: nat)
    requires n <= |f.segments| && Finds(scan, f) && Exact(step, env) && ArgsFit(f.segments, args)
    ensures AlignedUpTo(scan, step, f, args, n) <==> CoveredUpTo(env.slots, f.segments, args, n)
  {
    if CoveredUpTo(env.slots, f.segments, args, n) {
      forall k | 0 <= k <= n ensures Aligned(scan, step, f, args, k) {
        CoveredReaches(scan, step, env, f, args, k);
      }
    } else {
      var k := FirstUncovered(env.slots, f.segments, args, n);
      CoveredReaches(scan, step, env, f, args, k);
      ReachedNext(scan, step, env, f, args, k);
    }
  }

  // ---------------------------------------------------------------- the meaning

  lemma {:induction false} StepsMeaning(step: Stepper, env: Env, f: Format, args: seq<Arg>, k: nat)
    requires k <= |f.segments| && Exact(step, env) && ArgsFit(f.segments, args)
    requires CoveredUpTo(env.slots, f.segments, args, |f.segments|)
    ensures Steps(step, f, k, StateAt(f.segments, args, k)) == Text(TextFrom(env.lib, env.slots, f, args, k))
    decreases |f.segments| - k
  {
    if k < |f.segments| {
      var seg, st := f.segments[k], StateAt(f.segments, args, k);
      assert FitsAt(f.segments, args, k);
      assert Covered(env.slots, f.segments, args, k);
      assert StepIsExact(env, seg, st, step(SegmentText(seg), InfoOf(seg.directive), st));
      StateAdvances(f.segments, args, k);
      StepsMeaning(step, env, f, args, k + 1);
      StepsNext(step, f, k, st);
      TextFromNext(env.lib, env.slots, f, args, k);
    }
  }

  /**
   Rendering segment by segment is rendering the whole format, for every format in which no %h
   swallows the letter behind it, every argument list of the types it asks for, and any families.
   */
  lemma SegmentwiseIsWhole(env: Env, f: Format, args: seq<Arg>)
    requires NothingSwallowed(f) && Conforms(env) && ArgsFit(f.segments, args)
    requires CoveredUpTo(env.slots, f.segments, args, |f.segments|)
    ensures Run(env, FormatText(f), args) == Text(RenderWhole(env.lib, env.slots, f, args))
  {
    RunKnown(env, f, args);
    SteppingIsExact(env);
    StartsAligned(f.segments, args);
    StepsMeaning(StepperOf(env), env, f, args, 0);
  }

  // ---------------------------------------------------------------- where it is not

  /** "%d" */
  const Decimal: Conversion := Plain("", NoWidth, NoPrecision, NoLength, 'd')

  const FamilyThenDecimal := Format([Segment("", Extended('r')), Segment("", Decimal)], "")

  lemma UnresolvedStep(env: Env, st: State)
    requires st.errFamily == ERR_POSIX && Lookup(env.slots, ERR_POSIX) == None
    ensures StepOf(StepperOf(env), FamilyThenDecimal.segments[0], st) == Some(("?", st))
  {
    ExtendedSegmentStep(env, FamilyThenDecimal.segments[0], st);
    assert FamilyStep(env.lib, env.slots, 'r', ERR_POSIX, st.args) == Some(("?", st.args));
    assert st.(args := st.args) == st && "" + "?" == "?";
  }

  lemma DecimalStep(env: Env, st: State)
    requires Conforms(env) && st.stars == 0 && st.args != [] && st.args[0].IntArg?
    ensures var r := StepOf(StepperOf(env), FamilyThenDecimal.segments[1], st);
            r.Some? && r.value.0 == env.lib.convert(Decimal, [st.args[0]])
  {
    SegmentIsExact(env, FamilyThenDecimal.segments[1], st);
    assert Take(st.args, 1) == [st.args[0]];
  }

  lemma DriftedRun(env: Env, errno: Arg, n: Arg)
    requires Conforms(env) && Lookup(env.slots, ERR_POSIX) == None && errno.IntArg?
    ensures Run(env, FormatText(FamilyThenDecimal), [errno, n]) == Text("?" + env.lib.convert(Decimal, [errno]))
  {
    var f, st, step := FamilyThenDecimal, Start([errno, n]), StepperOf(env);
    RunKnown(env, f, [errno, n]);
    UnresolvedStep(env, st);
    DecimalStep(env, st);
    assert Steps(step, f, 1, st) == Text(env.lib.convert(Decimal, [errno]));
  }

  lemma MeantRun(lib: Library, slots: seq<Slot>, errno: Arg, n: Arg)
    requires Lookup(slots, ERR_POSIX) == None
    ensures RenderWhole(lib, slots, FamilyThenDecimal, [errno, n]) == "?" + lib.convert(Decimal, [n])
  {
    var f, args := FamilyThenDecimal, [errno, n];
    assert Offset(f.segments, 1) == Offset(f.segments, 0) + 1;
    assert Take(Drop(args, 1), 1) == [n];
    assert TextFrom(lib, slots, f, args, 1) == lib.convert(Decimal, [n]);
  }

  /** "%r%d" where no table of POSIX errors was registered: %d prints the number meant for %r. */
  lemma UnregisteredFamilyDrifts(env: Env, errno: int, n: int)
    requires Conforms(env) && Lookup(env.slots, ERR_POSIX) == None
    ensures var args := [IntArg(errno), IntArg(n)];
            && Run(env, FormatText(FamilyThenDecimal), args) == Text("?" + env.lib.convert(Decimal, [IntArg(errno)]))
            && RenderWhole(env.lib, env.slots, FamilyThenDecimal, args) == "?" + env.lib.convert(Decimal, [IntArg(n)])
  {
    DriftedRun(env, IntArg(errno), IntArg(n));
    MeantRun(env.lib, env.slots, IntArg(errno), IntArg(n));
  }

  const LongFloat: Conversion := Plain("", NoWidth, NoPrecision, L, 'f')

  lemma LongFloatStep(env: Env, st: State, x: real)
    requires st.args == [DoubleArg(x)] && st.stars == 0
    ensures StepOf(StepperOf(env), Segment("", LongFloat), st) == None
  {
    assert InfoOf(LongFloat) == Info(0, LongLg, DoubleType, 'f');
    assert Ints(0) + [CLongDouble] == [CLongDouble];
    assert SkipArgs(st.args, [CLongDouble]) == None;
  }

  /** "%lf": the table takes a long double where ISO C has the program pass a double. */
  lemma LongFloatIsUndefined(env: Env, x: real)
    ensures Run(env, FormatText(Format([Segment("", LongFloat)], "")), [DoubleArg(x)]) == Undefined
  {
    RunKnown(env, Format([Segment("", LongFloat)], ""), [DoubleArg(x)]);
    LongFloatStep(env, Start([DoubleArg(x)]), x);
  }

  // ---------------------------------------------------------------- families registered later

  lemma EntryStays(slots: seq<Slot>, num: int, name: string, tab: Option<ErrorTable>, family: int, n: int)
    requires Packed(slots) && EntryOf(slots, family, n).Some?
    ensures EntryOf(Add(slots, num, name, tab).1, family, n) == EntryOf(slots, family, n)
  {
    LaterAddsKeepLookups(slots, num, name, tab, family);
  }

  lemma TextStays(env: Env, segs: seq<Segment>, args: seq<Arg>, k: nat, num: int, name: string, tab: Option<ErrorTable>)
    requires k < |segs| && Packed(env.slots) && FitsAt(segs, args, k) && Covered(env.slots, segs, args, k)
    ensures TextAt(env.lib, Add(env.slots, num, name, tab).1, segs, args, k) == TextAt(env.lib, env.slots, segs, args, k)
  {
    var needed := FamilyNeeded(segs, args, k);
    if needed.Some? {
      EntryStays(env.slots, num, name, tab, needed.value, NumberOf(Drop(args, Offset(segs, k)), 0));
    }
  }

  lemma TextFromNext(lib: Library, slots: seq<Slot>, f: Format, args: seq<Arg>, k: nat)
    requires k < |f.segments|
    ensures TextFrom(lib, slots, f, args, k)
         == f.segments[k].literal + TextAt(lib, slots, f.segments, args, k) + TextFrom(lib, slots, f, args, k + 1)
  {
  }

  /** The conversions from segment k on print the same with other slots. */
  predicate SameTexts(lib: Library, slots: seq<Slot>, slots': seq<Slot>, segs: seq<Segment>, args: seq<Arg>, k: nat)
    requires k <= |segs|
  {
    forall j {:trigger TextAt(lib, slots', segs, args, j)} :: k <= j < |segs| ==>
      TextAt(lib, slots', segs, args, j) == TextAt(lib, slots, segs, args, j)
  }

  lemma SameNext(lib: Library, slots: seq<Slot>, slots': seq<Slot>, segs: seq<Segment>, args: seq<Arg>, k: nat)
    requires k < |segs| && SameTexts(lib, slots, slots', segs, args, k)
    ensures TextAt(lib, slots', segs, args, k) == TextAt(lib, slots, segs, args, k)
    ensures SameTexts(lib, slots, slots', segs, args, k + 1)
  {
  }

  lemma {:induction false} TextFromStays(lib: Library, slots: seq<Slot>, slots': seq<Slot>, f: Format, args: seq<Arg>, k: nat)
    requires k <= |f.segments| && SameTexts(lib, slots, slots', f.segments, args, k)
    ensures TextFrom(lib, slots', f, args, k) == TextFrom(lib, slots, f, args, k)
    decreases |f.segments| - k
  {
    if k < |f.segments| {
      SameNext(lib, slots, slots', f.segments, args, k);
      TextFromStays(lib, slots, slots', f, args, k + 1);
      TextFromNext(lib, slots, f, args, k);
      TextFromNext(lib, slots', f, args, k);
    }
  }

  lemma CoveredStays(slots: seq<Slot>, segs: seq<Segment>, args: seq<Arg>, k: nat, num: int, name: string, tab: Option<ErrorTable>)
    requires k < |segs| && Packed(slots) && Covered(slots, segs, args, k)
    ensures Covered(Add(slots, num, name, tab).1, segs, args, k)
  {
    var d, st := segs[k].directive, StateAt(segs, args, k);
    if d.Extended? && FamilyUsed(d.conv, st.errFamily, st.ctxFamily).Some? {
      EntryStays(slots, num, name, tab, FamilyUsed(d.conv, st.errFamily, st.ctxFamily).value, NumberOf(st.args, 0));
    }
  }

  /** A family added later leaves a covered format covered, and log_vsnprintf prints for it what it printed before. */
  lemma LaterFamiliesChangeNothing(env: Env, f: Format, args: seq<Arg>, num: int, name: string, tab: Option<ErrorTable>)
    requires NothingSwallowed(f) && Conforms(env) && Packed(env.slots) && ArgsFit(f.segments, args)
    requires CoveredUpTo(env.slots, f.segments, args, |f.segments|)
    ensures var env' := env.(slots := Add(env.slots, num, name, tab).1);
            && CoveredUpTo(env'.slots, f.segments, args, |f.segments|)
            && Run(env', FormatText(f), args) == Run(env, FormatText(f), args)
  {
    var env' := env.(slots := Add(env.slots, num, name, tab).1);
    forall k | 0 <= k < |f.segments| ensures Covered(env'.slots, f.segments, args, k) {
      CoveredStays(env.slots, f.segments, args, k, num, name, tab);
    }
    ConformsStays(env, env');
    SegmentwiseIsWhole(env, f, args);
    SegmentwiseIsWhole(env', f, args);
    forall j | 0 <= j < |f.segments|
      ensures TextAt(env.lib, env'.slots, f.segments, args, j) == TextAt(env.lib, env.slots, f.segments, args, j)
    {
      assert FitsAt(f.segments, args, j) && Covered(env.slots, f.segments, args, j);
      TextStays(env, f.segments, args, j, num, name, tab);
    }
    TextFromStays(env.lib, env.slots, env'.slots, f, args, 0);
  }

  lemma ConformsStays(env: Env, env': Env)
    requires Conforms(env) && env'.vsnprintf == env.vsnprintf && env'.lib == env.lib
    ensures Conforms(env')
  {
  }

  // ---------------------------------------------------------------- a C library that conforms

  predicate ReadsAs(s: string, args: seq<Arg>, seg: Segment) {
    !seg.directive.Extended? && SegmentText(seg) == s && Fits(ArgTypes(seg.directive), args)
  }

  ghost function Printed(lib: Library, s: string, args: seq<Arg>): Option<string> {
    if seg: Segment :| ReadsAs(s, args, seg)
    then Some(seg.literal + lib.convert(seg.directive, Take(args, Arity(seg.directive))))
    else None
  }

  /** What is asked of vsnprintf can be met, whatever the conversions print. */
  lemma ConformingExists(lib: Library, slots: seq<Slot>)
    ensures exists env: Env :: env.lib == lib && env.slots == slots && Conforms(env)
  {
    var env := Env((s, args) => Printed(lib, s, args), lib, slots);
    forall seg: Segment, args: seq<Arg> | !seg.directive.Extended? && Fits(ArgTypes(seg.directive), args)
      ensures env.vsnprintf(SegmentText(seg), args)
           == Some(seg.literal + lib.convert(seg.directive, Take(args, Arity(seg.directive))))
    {
      var s := SegmentText(seg);
      assert ReadsAs(s, args, seg);
      var other: Segment :| ReadsAs(s, args, other)
        && Printed(lib, s, args) == Some(other.literal + lib.convert(other.directive, Take(args, Arity(other.directive))));
      SegmentTextUnique(seg, other);
    }
  }
}
