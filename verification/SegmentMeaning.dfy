/** What one segment should print and take, and exactly when the step of log_vsnprintf does so. */
module SegmentMeaning {
  import opened Sequences
  import opened Families
  import opened Format
  import opened Scanner
  import opened Tokenization
  import opened Stepping

  /**
   vsnprintf on a segment of the C library's own conversions prints the literal and the conversion
   of the first arguments, and does not look at the others.
   */
  ghost predicate Conforms(env: Env) {
    forall seg: Segment, args: seq<Arg> ::
      !seg.directive.Extended? && Fits(ArgTypes(seg.directive), args)
      ==> env.vsnprintf(SegmentText(seg), args)
          == Some(seg.literal + env.lib.convert(seg.directive, Take(args, Arity(seg.directive))))
  }

  /** The table agrees with ISO C on a conversion. */
  predicate Steppable(d: Directive) {
    d.Plain? && d.length == L ==> IsInteger(d.conv)
  }

  /** The number an extended conversion looks up has an entry to be found. */
  predicate Resolved(slots: seq<Slot>, d: Directive, st: State) {
    d.Extended? ==>
      var family := FamilyUsed(d.conv, st.errFamily, st.ctxFamily);
      family.Some? ==> EntryOf(slots, family.value, NumberOf(st.args, 0)).Some?
  }

  /** With tables that have their end markers, what matters is that there is one. */
  lemma ResolvedIfRegistered(slots: seq<Slot>, d: Directive, st: State)
    requires AllTerminated(slots) && d.Extended?
    ensures Resolved(slots, d, st)
       <==> var family := FamilyUsed(d.conv, st.errFamily, st.ctxFamily);
            family.Some? ==> Lookup(slots, family.value).Some?
  {
    var family := FamilyUsed(d.conv, st.errFamily, st.ctxFamily);
    if family.Some? && Lookup(slots, family.value).Some? {
      TerminatedAnswers(Lookup(slots, family.value).value, NumberOf(st.args, 0));
    }
  }

  predicate Known(slots: seq<Slot>, d: Directive, st: State) {
    Steppable(d) && Resolved(slots, d, st)
  }

  /** The text a conversion asks for. */
  function MeantText(lib: Library, slots: seq<Slot>, d: Directive, st: State): string {
    var a := Take(st.args, Arity(d));
    match d
    case Extended(conv) => ExtendedText(lib, slots, conv, a, st.errFamily, st.ctxFamily)
    case _ => lib.convert(d, a)
  }

  /** The state the next segment should find. */
  function MeantState(d: Directive, st: State): State {
    var n := NumberOf(st.args, 0);
    State(Drop(st.args, Arity(d)), 0,
          if d == Extended('J') then n else st.errFamily,
          if d == Extended('K') then n else st.ctxFamily)
  }

  /**
   The step r prints what the segment means and leaves the list at the arguments of the next one if
   the table knows the conversion and the number it looks up is found. Otherwise it leaves the list
   at a wrong place, or its behaviour is undefined.
   */
  predicate StepIsExact(env: Env, seg: Segment, st: State, r: Option<(string, State)>) {
    if Known(env.slots, seg.directive, st)
    then r == Some((seg.literal + MeantText(env.lib, env.slots, seg.directive, st), MeantState(seg.directive, st)))
    else r.None? || r.value.1.args != Drop(st.args, Arity(seg.directive))
  }

  /**
   The table takes the argument the conversion takes, for every length modifier and conversion
   that may go together, except for an l before a conversion that is not an integer one.
   */
  lemma TableIsExact(length: Length, conv: char)
    requires ValidPair(length, conv)
    ensures StepType(LgOf(length), Classify(conv)) == Some(ValueType(length, conv))
       <==> (length == L ==> IsInteger(conv))
  {
  }

  // ---------------------------------------------------------------- the library's own conversions

  lemma IntsLength(n: nat)
    ensures |Ints(n)| == n && forall i :: 0 <= i < n ==> Ints(n)[i] == CInt
  {
  }

  lemma PlainTypes(d: Conversion)
    requires !d.Extended? && Steppable(d)
    ensures Ints(Stars(d)) + OptionToSeq(StepType(InfoOf(d).lg, InfoOf(d).kind)) == ArgTypes(d)
  {
    IntsLength(Stars(d));
    if d.Plain? {
      TableIsExact(d.length, d.conv);
    }
  }

  lemma PlainSegment(env: Env, seg: Segment, st: State)
    requires Conforms(env) && !seg.directive.Extended? && st.stars == 0 && Fits(ArgTypes(seg.directive), st.args)
    requires Steppable(seg.directive)
    ensures PlainStep(env, SegmentText(seg), InfoOf(seg.directive), st)
         == Some((seg.literal + MeantText(env.lib, env.slots, seg.directive, st), MeantState(seg.directive, st)))
  {
    PlainTypes(seg.directive);
    SkipIsDrop(st.args, ArgTypes(seg.directive));
  }

  /** The l before a conversion that is not an integer one leaves the argument list in the wrong place. */
  lemma PlainSegmentDrifts(env: Env, seg: Segment, st: State)
    requires st.stars == 0 && Fits(ArgTypes(seg.directive), st.args) && !Steppable(seg.directive)
    ensures var r := PlainStep(env, SegmentText(seg), InfoOf(seg.directive), st);
            r.None? || r.value.1.args != Drop(st.args, Arity(seg.directive))
  {
    var d := seg.directive;
    var types := Ints(Stars(d)) + OptionToSeq(StepType(LongLg, Classify(d.conv)));
    SkipIsDrop(st.args, types);
    IntsLength(Stars(d));
    if Fits(types, st.args) && |types| == Arity(d) {
      assert types[Stars(d)] == ArgTypes(d)[Stars(d)];
      TableIsExact(d.length, d.conv);
    }
  }

  // ---------------------------------------------------------------- the extended conversions

  lemma VaStatusFits(args: seq<Arg>)
    requires Fits([CLong, CPointer, CPointer], args)
    ensures VaStatus(args) == Some(Status(ToInt(NumberOf(args, 0)), TextOf(args, 1), TextOf(args, 2), args[3..]))
  {
    assert [CLong, CPointer, CPointer][0] == CLong;
    assert [CLong, CPointer, CPointer][1] == CPointer;
    assert [CLong, CPointer, CPointer][2] == CPointer;
    assert args[1..][1..][1..] == args[3..];
  }

  lemma StatusSegment(lib: Library, conv: char, args: seq<Arg>, slots: seq<Slot>, errFamily: int, ctxFamily: int)
    requires IsExtended(conv) && conv != 'J' && conv != 'K' && FamilyUsed(conv, errFamily, ctxFamily) == None
    requires Fits(ArgTypes(Extended(conv)), args)
    ensures var n := Arity(Extended(conv));
            var text := ExtendedText(lib, slots, conv, Take(args, n), errFamily, ctxFamily);
            StatusStep(lib, conv, args) == Some((text, args[n..]))
  {
    var types := ArgTypes(Extended(conv));
    assert forall i :: 0 <= i < 3 ==> types[i] == [CLong, CPointer, CPointer][i];
    VaStatusFits(args);
    if conv == 'y' || conv == 'Y' {
      assert forall i :: 0 <= i < 3 ==> args[3..][i] == args[i + 3] && types[i + 3] == [CLong, CPointer, CPointer][i];
      VaStatusFits(args[3..]);
      assert args[3..][3..] == args[6..];
    }
  }

  lemma FamilySegment(lib: Library, slots: seq<Slot>, conv: char, args: seq<Arg>, errFamily: int, ctxFamily: int)
    requires IsExtended(conv) && FamilyUsed(conv, errFamily, ctxFamily).Some?
    requires Fits(ArgTypes(Extended(conv)), args)
    ensures var family := FamilyUsed(conv, errFamily, ctxFamily).value;
            var step := FamilyStep(lib, slots, conv, family, args);
            if EntryOf(slots, family, NumberOf(args, 0)).Some?
            then step == Some((ExtendedText(lib, slots, conv, Take(args, 1), errFamily, ctxFamily), args[1..]))
            else step.None? || step.value.1 != args[1..]
  {
    var types := ArgTypes(Extended(conv));
    assert types[0] == CInt;
    assert NumberOf(Take(args, 1), 0) == NumberOf(args, 0);
  }

  lemma ExtendedIsExact(env: Env, conv: char, st: State)
    requires IsExtended(conv) && st.stars == 0 && Fits(ArgTypes(Extended(conv)), st.args)
    ensures var r := ExtendedStep(env.lib, env.slots, conv, st);
            if Resolved(env.slots, Extended(conv), st)
            then r == Some((MeantText(env.lib, env.slots, Extended(conv), st), MeantState(Extended(conv), st)))
            else r.None? || r.value.1.args != Drop(st.args, Arity(Extended(conv)))
  {
    if conv == 'J' || conv == 'K' {
      assert ArgTypes(Extended(conv))[0] == CInt;
    } else if FamilyUsed(conv, st.errFamily, st.ctxFamily) == None {
      StatusSegment(env.lib, conv, st.args, env.slots, st.errFamily, st.ctxFamily);
    } else {
      FamilySegment(env.lib, env.slots, conv, st.args, st.errFamily, st.ctxFamily);
    }
  }

  lemma ExtendedSegmentStep(env: Env, seg: Segment, st: State)
    requires seg.directive.Extended?
    ensures SegmentStep(env, SegmentText(seg), InfoOf(seg.directive), st)
         == var r := ExtendedStep(env.lib, env.slots, seg.directive.conv, st);
            if r.None? then None else Some((seg.literal + r.value.0, r.value.1))
  {
    assert InfoOf(seg.directive) == Info(0, NoLong, ExtendedType, seg.directive.conv);
    assert st.(stars := st.stars + 0) == st;
    assert Lead(SegmentText(seg)) == seg.literal;
  }

  // ---------------------------------------------------------------- every segment

  lemma SegmentIsExact(env: Env, seg: Segment, st: State)
    requires Conforms(env) && st.stars == 0 && Fits(ArgTypes(seg.directive), st.args)
    ensures StepIsExact(env, seg, st, SegmentStep(env, SegmentText(seg), InfoOf(seg.directive), st))
  {
    if seg.directive.Extended? {
      ExtendedSegmentStep(env, seg, st);
      ExtendedIsExact(env, seg.directive.conv, st);
    } else if Steppable(seg.directive) {
      PlainSegment(env, seg, st);
    } else {
      PlainSegmentDrifts(env, seg, st);
    }
  }

  /** The step does what every segment means, where its arguments are next. */
  ghost predicate Exact(step: Stepper, env: Env) {
    forall seg: Segment, st: State {:trigger StepIsExact(env, seg, st, step(SegmentText(seg), InfoOf(seg.directive), st))} ::
      st.stars == 0 && Fits(ArgTypes(seg.directive), st.args)
      ==> StepIsExact(env, seg, st, step(SegmentText(seg), InfoOf(seg.directive), st))
  }

  lemma SteppingIsExact(env: Env)
    requires Conforms(env)
    ensures Exact(StepperOf(env), env)
  {
    forall seg: Segment, st: State | st.stars == 0 && Fits(ArgTypes(seg.directive), st.args)
      ensures StepIsExact(env, seg, st, StepperOf(env)(SegmentText(seg), InfoOf(seg.directive), st))
    {
      SegmentIsExact(env, seg, st);
    }
  }
}
