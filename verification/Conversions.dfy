/**
 What log_vsnprintf prints for each conversion of its own, written out: a format with the conversion,
 its arguments, and the text, character by character.
 */
module Conversions {
  import opened Sequences
  import opened Families
  import opened Format
  import opened Scanner
  import opened Tokenization
  import opened Stepping
  import opened SegmentMeaning
  import opened Formatter

  // ---------------------------------------------------------------- runs of a few conversions

  function After(r: Option<(string, State)>): Rendered {
    match r
    case None => Undefined
    case Some((text, _)) => Text(text)
  }

  lemma StepOfExtended(env: Env, conv: char, st: State)
    requires IsExtended(conv)
    ensures StepOf(StepperOf(env), Segment("", Extended(conv)), st) == ExtendedStep(env.lib, env.slots, conv, st)
  {
    ExtendedSegmentStep(env, Segment("", Extended(conv)), st);
    var r := ExtendedStep(env.lib, env.slots, conv, st);
    assert r.Some? ==> "" + r.value.0 == r.value.0;
  }

  lemma OneText(conv: char)
    requires IsExtended(conv)
    ensures var f := Format([Segment("", Extended(conv))], ""); NothingSwallowed(f) && FormatText(f) == "%" + [conv]
  {
    var f := Format([Segment("", Extended(conv))], "");
    assert f.segments[1..] == [];
    assert SegmentsText(f.segments) == SegmentText(f.segments[0]) + SegmentsText([]);
    assert Rest(f, 1) == SegmentsText([]) + "";
  }

  lemma RunOne(env: Env, conv: char, args: seq<Arg>)
    requires IsExtended(conv)
    ensures Run(env, "%" + [conv], args) == After(ExtendedStep(env.lib, env.slots, conv, Start(args)))
  {
    var f := Format([Segment("", Extended(conv))], "");
    OneText(conv);
    RunKnown(env, f, args);
    StepOfExtended(env, conv, Start(args));
    var r := StepOf(StepperOf(env), f.segments[0], Start(args));
    if r.Some? {
      assert Steps(StepperOf(env), f, 1, r.value.1) == Text("");
      assert r.value.0 + "" == r.value.0;
    }
  }

  /** The state behind a %J or a %K with this argument, when more are left. */
  function Changed(conv: char, family: int, more: seq<Arg>, st: State): State {
    if conv == 'J' then State(more, st.stars, family, st.ctxFamily) else State(more, st.stars, st.errFamily, family)
  }

  lemma ChangeStep(env: Env, conv: char, family: int, more: seq<Arg>, st: State)
    requires conv in {'J', 'K'} && st.args == [IntArg(family)] + more
    ensures StepOf(StepperOf(env), Segment("", Extended(conv)), st) == Some(("", Changed(conv, family, more, st)))
  {
    StepOfExtended(env, conv, st);
    assert st.args[1..] == more;
  }

  function Three(a: char, b: char, c: char): Format
    requires IsExtended(a) && IsExtended(b) && IsExtended(c)
  {
    Format([Segment("", Extended(a)), Segment("", Extended(b)), Segment("", Extended(c))], "")
  }

  lemma ThreeText(a: char, b: char, c: char)
    requires IsExtended(c) && a in {'J', 'K'} && b in {'J', 'K'}
    ensures NothingSwallowed(Three(a, b, c)) && FormatText(Three(a, b, c)) == "%" + [a] + "%" + [b] + "%" + [c]
  {
    ThreeSpelled(a, b, c);
    ThreeSwallowNothing(a, b, c);
  }

  lemma ThreeSwallowNothing(a: char, b: char, c: char)
    requires IsExtended(c) && a in {'J', 'K'} && b in {'J', 'K'}
    ensures NothingSwallowed(Three(a, b, c))
  {
    var f := Three(a, b, c);
    RestAtEnd(f);
    assert !Swallows(f.segments[2].directive, CharAt(Rest(f, 3), 0));
  }

  lemma ThreeSpelled(a: char, b: char, c: char)
    requires IsExtended(a) && IsExtended(b) && IsExtended(c)
    ensures FormatText(Three(a, b, c)) == "%" + [a] + "%" + [b] + "%" + [c]
  {
    var x, y, z := Segment("", Extended(a)), Segment("", Extended(b)), Segment("", Extended(c));
    var one, two := [z], [y] + [z];
    TextCons(z, []);
    assert [z] + [] == one;
    TextCons(y, one);
    TextCons(x, two);
    assert Three(a, b, c).segments == [x] + two;
    Joined([a], [b], [c]);
  }

  lemma Joined(a: string, b: string, c: string)
    ensures "%" + a + ("%" + b + ("%" + c + "")) + "" == "%" + a + "%" + b + "%" + c
  {
  }

  lemma TextCons(seg: Segment, segs: seq<Segment>)
    requires seg.literal == "" && seg.directive.Extended?
    ensures SegmentsText([seg] + segs) == "%" + [seg.directive.conv] + SegmentsText(segs)
  {
    assert ([seg] + segs)[1..] == segs;
  }

  lemma ThreeSteps(env: Env, a: char, b: char, c: char, first: int, second: int, more: seq<Arg>)
    requires IsExtended(c) && a in {'J', 'K'} && b in {'J', 'K'}
    ensures var args := [IntArg(first), IntArg(second)] + more;
            var st := Changed(b, second, more, Changed(a, first, [IntArg(second)] + more, Start(args)));
            Steps(StepperOf(env), Three(a, b, c), 0, Start(args))
            == After(StepOf(StepperOf(env), Segment("", Extended(c)), st))
  {
    var args, later := [IntArg(first), IntArg(second)] + more, [IntArg(second)] + more;
    var st1 := Changed(a, first, later, Start(args));
    assert args == [IntArg(first)] + later;
    ChangeStep(env, a, first, later, Start(args));
    ChangeStep(env, b, second, more, st1);
    StepsOfThree(StepperOf(env), Three(a, b, c), Start(args), st1, Changed(b, second, more, st1));
  }

  /** Two changes of a family, and then a conversion in the state they leave. */
  lemma RunThree(env: Env, a: char, b: char, c: char, first: int, second: int, more: seq<Arg>)
    requires IsExtended(c) && a in {'J', 'K'} && b in {'J', 'K'}
    ensures var args := [IntArg(first), IntArg(second)] + more;
            var st := Changed(b, second, more, Changed(a, first, [IntArg(second)] + more, Start(args)));
            Run(env, "%" + [a] + "%" + [b] + "%" + [c], args) == After(ExtendedStep(env.lib, env.slots, c, st))
  {
    var args := [IntArg(first), IntArg(second)] + more;
    ThreeText(a, b, c);
    RunKnown(env, Three(a, b, c), args);
    ThreeSteps(env, a, b, c, first, second, more);
    StepOfExtended(env, c, Changed(b, second, more, Changed(a, first, [IntArg(second)] + more, Start(args))));
  }

  lemma StepsOfThree(step: Stepper, f: Format, st: State, st1: State, st2: State)
    requires |f.segments| == 3 && f.tail == ""
    requires StepOf(step, f.segments[0], st) == Some(("", st1)) && StepOf(step, f.segments[1], st1) == Some(("", st2))
    ensures Steps(step, f, 0, st) == After(StepOf(step, f.segments[2], st2))
  {
    var r := StepOf(step, f.segments[2], st2);
    if r.Some? {
      assert Steps(step, f, 3, r.value.1) == Text("");
      assert r.value.0 + "" == r.value.0;
      assert Steps(step, f, 2, st2) == Text(r.value.0);
      assert "" + r.value.0 == r.value.0;
      assert Steps(step, f, 1, st1) == Text(r.value.0);
    } else {
      assert Steps(step, f, 2, st2) == Undefined;
      assert Steps(step, f, 1, st1) == Undefined;
    }
  }

  // ---------------------------------------------------------------- a status: number, label and message

  /** w is what an int holds after a long n was stored in it. */
  ghost predicate StoredInInt(n: int, w: int) {
    -0x8000_0000 <= w < 0x8000_0000 && exists k: int :: n == w + k * 0x1_0000_0000
  }

  lemma StoredIsToInt(n: int, w: int)
    requires StoredInInt(n, w)
    ensures ToInt(n) == w
  {
    var k: int :| n == w + k * 0x1_0000_0000;
    var x := w + 0x8000_0000;
    assert n + 0x8000_0000 == k * 0x1_0000_0000 + x;
    assert (n + 0x8000_0000) % 0x1_0000_0000 == x by {
      assert 0 <= x < 0x1_0000_0000;
      ModUnique(n + 0x8000_0000, k, x);
    }
  }

  lemma ModUnique(v: int, k: int, x: int)
    requires 0 <= x < 0x1_0000_0000 && v == k * 0x1_0000_0000 + x
    ensures v % 0x1_0000_0000 == x
  {
  }

  lemma StatusIsTaken(n: int, w: int, tag: string, msg: string, more: seq<Arg>)
    requires StoredInInt(n, w)
    ensures VaStatus([LongArg(n), PointerArg(tag), PointerArg(msg)] + more) == Some(Status(w, tag, msg, more))
  {
    var args := [LongArg(n), PointerArg(tag), PointerArg(msg)] + more;
    StoredIsToInt(n, w);
    assert args[1..] == [PointerArg(tag), PointerArg(msg)] + more;
    assert args[1..][1..] == [PointerArg(msg)] + more;
    assert args[1..][1..][1..] == more;
  }

  lemma Glue(a: string, d: string, m: string)
    ensures a + "(" + d + ")" + " : '" + m + "'" == a + "(" + d + ") : '" + m + "'"
  {
    assert ")" + " : '" == ") : '";
    Associate(a + "(" + d, ")", " : '");
  }

  /** %b and %h: label(number). */
  lemma ShortStatus(env: Env, conv: char, n: int, w: int, tag: string, msg: string)
    requires conv in {'b', 'h'} && StoredInInt(n, w)
    ensures Run(env, "%" + [conv], [LongArg(n), PointerArg(tag), PointerArg(msg)])
         == Text(tag + "(" + env.lib.decimal(w) + ")")
  {
    var args := [LongArg(n), PointerArg(tag), PointerArg(msg)];
    StatusIsTaken(n, w, tag, msg, []);
    assert args + [] == args;
    RunOne(env, conv, args);
  }

  /** %B and %H: label(number) : 'message'. */
  lemma LongStatus(env: Env, conv: char, n: int, w: int, tag: string, msg: string)
    requires conv in {'B', 'H'} && StoredInInt(n, w)
    ensures Run(env, "%" + [conv], [LongArg(n), PointerArg(tag), PointerArg(msg)])
         == Text(tag + "(" + env.lib.decimal(w) + ") : '" + msg + "'")
  {
    var args := [LongArg(n), PointerArg(tag), PointerArg(msg)];
    StatusIsTaken(n, w, tag, msg, []);
    assert args + [] == args;
    RunOne(env, conv, args);
    Glue(tag, env.lib.decimal(w), msg);
  }

  lemma TwoStatuses(n: int, w: int, tag: string, msg: string, n2: int, w2: int, tag2: string, msg2: string)
    requires StoredInInt(n, w) && StoredInInt(n2, w2)
    ensures var second := [LongArg(n2), PointerArg(tag2), PointerArg(msg2)];
            && VaStatus([LongArg(n), PointerArg(tag), PointerArg(msg)] + second) == Some(Status(w, tag, msg, second))
            && VaStatus(second) == Some(Status(w2, tag2, msg2, []))
  {
    var second := [LongArg(n2), PointerArg(tag2), PointerArg(msg2)];
    StatusIsTaken(n, w, tag, msg, second);
    StatusIsTaken(n2, w2, tag2, msg2, []);
    assert second + [] == second;
  }

  /** %y: the first label, then label(number) of the second status. */
  lemma ShortError(env: Env, n: int, w: int, tag: string, msg: string, n2: int, w2: int, tag2: string, msg2: string)
    requires StoredInInt(n, w) && StoredInInt(n2, w2)
    ensures Run(env, "%y", [LongArg(n), PointerArg(tag), PointerArg(msg)] + [LongArg(n2), PointerArg(tag2), PointerArg(msg2)])
         == Text(tag + " " + tag2 + "(" + env.lib.decimal(w2) + ")")
  {
    var args := [LongArg(n), PointerArg(tag), PointerArg(msg)] + [LongArg(n2), PointerArg(tag2), PointerArg(msg2)];
    TwoStatuses(n, w, tag, msg, n2, w2, tag2, msg2);
    RunOne(env, 'y', args);
    assert "%" + ['y'] == "%y";
    Join4(tag + " ", tag2, "(", env.lib.decimal(w2), ")");
  }

  lemma Join4(x: string, a: string, b: string, c: string, d: string)
    ensures x + (a + b + c + d) == x + a + b + c + d
  {
    Associate(x, a + b + c, d);
    Associate(x, a + b, c);
    Associate(x, a, b);
  }

  /** %Y: both statuses in full, with an arrow between them. */
  lemma LongError(env: Env, n: int, w: int, tag: string, msg: string, n2: int, w2: int, tag2: string, msg2: string)
    requires StoredInInt(n, w) && StoredInInt(n2, w2)
    ensures Run(env, "%Y", [LongArg(n), PointerArg(tag), PointerArg(msg)] + [LongArg(n2), PointerArg(tag2), PointerArg(msg2)])
         == Text((tag + "(" + env.lib.decimal(w) + ") : '" + msg + "'") + " -> "
                 + (tag2 + "(" + env.lib.decimal(w2) + ") : '" + msg2 + "'"))
  {
    var args := [LongArg(n), PointerArg(tag), PointerArg(msg)] + [LongArg(n2), PointerArg(tag2), PointerArg(msg2)];
    TwoStatuses(n, w, tag, msg, n2, w2, tag2, msg2);
    RunOne(env, 'Y', args);
    assert "%" + ['Y'] == "%Y";
    Glue(tag, env.lib.decimal(w), msg);
    Glue(tag2, env.lib.decimal(w2), msg2);
  }

  // ---------------------------------------------------------------- a number of a family

  /** Slot i is the first one of the family; its table is tab, and e its first entry with the number or the end mark -1. */
  ghost predicate Shows(slots: seq<Slot>, family: int, n: int, e: ErrorEntry) {
    exists i: nat, tab: ErrorTable, k: nat ::
      && i < |slots| && slots[i].num == family && slots[i].tab == Some(tab)
      && (forall j :: 0 <= j < i ==> slots[j].num != family)
      && k < |tab| && tab[k] == e && (e.numero == n || e.numero == -1)
      && (forall j :: 0 <= j < k ==> tab[j].numero != n && tab[j].numero != -1)
  }

  lemma ShowsIsFound(slots: seq<Slot>, family: int, n: int, e: ErrorEntry)
    requires Shows(slots, family, n, e)
    ensures Lookup(slots, family).Some? && FindError(Lookup(slots, family).value, n) == Some(e)
  {
    var i: nat, tab: ErrorTable, k: nat :|
      && i < |slots| && slots[i].num == family && slots[i].tab == Some(tab)
      && (forall j :: 0 <= j < i ==> slots[j].num != family)
      && k < |tab| && tab[k] == e && (e.numero == n || e.numero == -1)
      && (forall j :: 0 <= j < k ==> tab[j].numero != n && tab[j].numero != -1);
    FindUnique(slots, family, i);
    FindErrorMeaning(tab, n, k);
  }

  lemma FamilyText(lib: Library, slots: seq<Slot>, conv: char, family: int, n: int, e: ErrorEntry)
    requires Shows(slots, family, n, e) && conv in {'r', 'R', 'v', 'V', 'w', 'W'}
    ensures var r := FamilyStep(lib, slots, conv, family, [IntArg(n)]);
            && (conv in {'r', 'v', 'w'} ==> r == Some((e.labelText + "(" + lib.decimal(e.numero) + ")", [])))
            && (conv == 'R' ==> r == Some((e.labelText + "(" + lib.decimal(e.numero) + ") : '" + e.msg + "'", [])))
            && (conv == 'V' ==> r == Some((e.labelText + "(" + lib.decimal(n) + ") : '" + e.msg + "'", [])))
            && (conv == 'W' ==> r == Some((e.labelText + "(" + lib.decimal(e.numero) + ") : '" + lib.strerror(n) + "'", [])))
  {
    ShowsIsFound(slots, family, n, e);
    assert [IntArg(n)][1..] == [];
    Glue(e.labelText, lib.decimal(e.numero), e.msg);
    Glue(e.labelText, lib.decimal(n), e.msg);
    Glue(e.labelText, lib.decimal(e.numero), lib.strerror(n));
  }

  /**
   %r, %R: the entry of the family the last %J gave, by its own number. %v, %V: that of the family the
   last %K gave, %V with the number asked for. %w, %W: that of family 1, whatever was given, %W with
   the text of strerror.
   */
  lemma FamilyConversions(env: Env, conv: char, errFamily: int, ctxFamily: int, n: int, e: ErrorEntry)
    requires conv in {'r', 'R', 'v', 'V', 'w', 'W'}
    requires Shows(env.slots, if conv in {'r', 'R'} then errFamily else if conv in {'v', 'V'} then ctxFamily else 1, n, e)
    ensures var r := Run(env, "%J%K%" + [conv], [IntArg(errFamily), IntArg(ctxFamily)] + [IntArg(n)]);
            && (conv in {'r', 'v', 'w'} ==> r == Text(e.labelText + "(" + env.lib.decimal(e.numero) + ")"))
            && (conv == 'R' ==> r == Text(e.labelText + "(" + env.lib.decimal(e.numero) + ") : '" + e.msg + "'"))
            && (conv == 'V' ==> r == Text(e.labelText + "(" + env.lib.decimal(n) + ") : '" + e.msg + "'"))
            && (conv == 'W' ==> r == Text(e.labelText + "(" + env.lib.decimal(e.numero) + ") : '" + env.lib.strerror(n) + "'"))
  {
    RunThree(env, 'J', 'K', conv, errFamily, ctxFamily, [IntArg(n)]);
    assert "%" + ['J'] + "%" + ['K'] + "%" + [conv] == "%J%K%" + [conv];
    FamilyText(env.lib, env.slots, conv,
               if conv in {'r', 'R'} then errFamily else if conv in {'v', 'V'} then ctxFamily else 1, n, e);
  }

  /** With several changes the last one counts: "%J%J%r" and "%K%K%v". */
  lemma LastChangeCounts(env: Env, change: char, conv: char, first: int, last: int, n: int, e: ErrorEntry)
    requires Shows(env.slots, last, n, e) && ((change == 'J' && conv == 'r') || (change == 'K' && conv == 'v'))
    ensures Run(env, "%" + [change] + "%" + [change] + "%" + [conv], [IntArg(first), IntArg(last)] + [IntArg(n)])
         == Text(e.labelText + "(" + env.lib.decimal(e.numero) + ")")
  {
    RunThree(env, change, change, conv, first, last, [IntArg(n)]);
    FamilyText(env.lib, env.slots, conv, last, n, e);
  }

  /** Without a change errors are of family 1 and contexts of family 0. */
  lemma DefaultFamilies(env: Env, n: int, e: ErrorEntry)
    ensures Shows(env.slots, 1, n, e) ==>
              Run(env, "%r", [IntArg(n)]) == Text(e.labelText + "(" + env.lib.decimal(e.numero) + ")")
    ensures Shows(env.slots, 0, n, e) ==>
              Run(env, "%v", [IntArg(n)]) == Text(e.labelText + "(" + env.lib.decimal(e.numero) + ")")
  {
    RunOne(env, 'r', [IntArg(n)]);
    RunOne(env, 'v', [IntArg(n)]);
    assert "%" + ['r'] == "%r" && "%" + ['v'] == "%v";
    if Shows(env.slots, 1, n, e) {
      FamilyText(env.lib, env.slots, 'r', 1, n, e);
    }
    if Shows(env.slots, 0, n, e) {
      FamilyText(env.lib, env.slots, 'v', 0, n, e);
    }
  }
}
