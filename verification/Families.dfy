/** The error families of the log module: a fixed table of slots, searched from the front. */
module Families {
  import opened Sequences

  const MAX_NUM_FAMILY := 50
  const UNUSED_SLOT := -1
  const ERR_NULL := -1
  const ERR_SYS := 0
  const ERR_POSIX := 1

  /** family_error_t */
  datatype ErrorEntry = ErrorEntry(numero: int, labelText: string, msg: string)

  /** A table of errors ends with an entry numbered ERR_NULL; nothing behind that is looked at. */
  type ErrorTable = seq<ErrorEntry>

  predicate Terminated(tab: ErrorTable) {
    exists i :: 0 <= i < |tab| && tab[i].numero == ERR_NULL
  }

  /** family_t; a tab of None is a NULL tab_err. */
  datatype Slot = Slot(num: int, name: string, tab: Option<ErrorTable>)

  // ---------------------------------------------------------------- looking up

  /** The first slot with this number, the length of the table if there is none. */
  function Find(slots: seq<Slot>, num: int): (i: nat)
    ensures i <= |slots|
    ensures i < |slots| ==> slots[i].num == num
    ensures forall j :: 0 <= j < i ==> slots[j].num != num
  {
    if slots == [] || slots[0].num == num then 0 else 1 + Find(slots[1..], num)
  }

  lemma FindUnique(slots: seq<Slot>, num: int, i: nat)
    requires i <= |slots| && (i < |slots| ==> slots[i].num == num)
    requires forall j :: 0 <= j < i ==> slots[j].num != num
    ensures Find(slots, num) == i
  {
  }

  predicate Registered(slots: seq<Slot>, num: int) {
    Find(slots, num) < |slots|
  }

  function Lookup(slots: seq<Slot>, num: int): Option<ErrorTable> {
    if Registered(slots, num) then slots[Find(slots, num)].tab else None
  }

  function FindError(tab: ErrorTable, num: int): Option<ErrorEntry> {
    if tab == [] then None
    else if tab[0].numero == num || tab[0].numero == ERR_NULL then Some(tab[0])
    else FindError(tab[1..], num)
  }

  /** The first entry that carries the number or ends the table. */
  lemma {:induction false} FindErrorMeaning(tab: ErrorTable, num: int, k: nat)
    requires k <= |tab| && forall i :: 0 <= i < k ==> tab[i].numero != num && tab[i].numero != ERR_NULL
    requires k < |tab| ==> tab[k].numero == num || tab[k].numero == ERR_NULL
    ensures FindError(tab, num) == if k < |tab| then Some(tab[k]) else None
  {
    if k > 0 {
      FindErrorMeaning(tab[1..], num, k - 1);
    }
  }

  /** A table that has its end marker answers for every number. */
  lemma TerminatedAnswers(tab: ErrorTable, num: int)
    requires Terminated(tab)
    ensures FindError(tab, num).Some?
  {
    var end :| 0 <= end < |tab| && tab[end].numero == ERR_NULL;
    var k := 0;
    while tab[k].numero != num && tab[k].numero != ERR_NULL
      invariant 0 <= k <= end
      invariant forall i :: 0 <= i < k ==> tab[i].numero != num && tab[i].numero != ERR_NULL
      decreases end - k
    {
      k := k + 1;
    }
    FindErrorMeaning(tab, num, k);
  }

  /** What AddFamilyError answers, and the table it leaves. */
  function Add(slots: seq<Slot>, num: int, name: string, tab: Option<ErrorTable>): (int, seq<Slot>) {
    var i := Find(slots, UNUSED_SLOT);
    if num < -1 || num >= MAX_NUM_FAMILY || num == 0 || i == |slots| then (-1, slots) else
    var given := if num != -1 then num else i;
    (given, slots[i := Slot(given, name, tab)])
  }

  /** The unused slots are the last ones and hold no table. */
  predicate Packed(slots: seq<Slot>) {
    && (forall j, k :: 0 <= j < k < |slots| && slots[j].num == UNUSED_SLOT ==> slots[k].num == UNUSED_SLOT)
    && (forall j :: 0 <= j < |slots| && slots[j].num == UNUSED_SLOT ==> slots[j].tab == None)
  }

  /** Every table has its end marker. */
  predicate AllTerminated(slots: seq<Slot>) {
    forall i :: 0 <= i < |slots| && slots[i].tab.Some? ==> Terminated(slots[i].tab.value)
  }

  lemma AddKeepsPacked(slots: seq<Slot>, num: int, name: string, tab: Option<ErrorTable>)
    requires Packed(slots)
    ensures Packed(Add(slots, num, name, tab).1)
  {
  }

  /** Whatever is added later, a number that is registered keeps the table it had. */
  lemma LaterAddsKeepLookups(slots: seq<Slot>, num: int, name: string, tab: Option<ErrorTable>, family: int)
    requires Packed(slots) && Registered(slots, family) && (family == UNUSED_SLOT ==> Lookup(slots, family).Some?)
    ensures var (_, slots') := Add(slots, num, name, tab);
            Registered(slots', family) && Lookup(slots', family) == Lookup(slots, family)
  {
    var (_, slots') := Add(slots, num, name, tab);
    FindUnique(slots', family, Find(slots, family));
  }

  /** The number a call of AddFamilyError asks for: its argument, or for -1 the index of the first free slot. */
  function NumberFor(slots: seq<Slot>, num: int): int {
    if num == -1 then Find(slots, UNUSED_SLOT) else num
  }

  /** What AddFamilyError accepts, when it is called. */
  predicate Accepts(slots: seq<Slot>, num: int) {
    -1 <= num < MAX_NUM_FAMILY && num != 0 && Registered(slots, UNUSED_SLOT)
  }

  /**
   An accepted call gives out the number asked for, and the number stands for the new slot if and
   only if it was not registered before the call. Otherwise it keeps its old table.
   */
  lemma AddedOrShadowed(slots: seq<Slot>, num: int, name: string, tab: Option<ErrorTable>)
    requires Packed(slots) && Accepts(slots, num)
    ensures var number, (given, slots') := NumberFor(slots, num), Add(slots, num, name, tab);
            && given == number
            && slots' == slots[Find(slots, -1) := Slot(number, name, tab)]
            && (Find(slots', number) == Find(slots, UNUSED_SLOT) <==> !Registered(slots, number))
            && Lookup(slots', number) == if Registered(slots, number) then Lookup(slots, number) else tab
  {
    var (given, slots') := Add(slots, num, name, tab);
    if Registered(slots, given) {
      FindUnique(slots', given, Find(slots, given));
    } else {
      FindUnique(slots', given, Find(slots, UNUSED_SLOT));
    }
  }

  lemma RefusedUnlessAccepted(slots: seq<Slot>, num: int, name: string, tab: Option<ErrorTable>)
    ensures Add(slots, num, name, tab) == (-1, slots) <==> !Accepts(slots, num)
    ensures Accepts(slots, num) <==> (num == -1 || 0 < num < 50) && exists i :: 0 <= i < |slots| && slots[i].num == -1
  {
    if Accepts(slots, num) {
      assert Add(slots, num, name, tab).0 != -1;
    }
  }

  /** tab_family after InitLogging. */
  function InitialSlots(systemErrors: ErrorTable): seq<Slot> {
    [Slot(0, "Errors Systeme UNIX", Some(systemErrors))]
    + seq(MAX_NUM_FAMILY - 1, _ => Slot(UNUSED_SLOT, "", None))
  }

  /** Register a family under 2, then one under any number: the second is given 2 as well, and is not found. */
  lemma IndexIsTaken(systemErrors: ErrorTable, name: string, first: ErrorTable, second: ErrorTable)
    ensures var slots := Add(InitialSlots(systemErrors), 2, name, Some(first)).1;
            var (given, slots') := Add(slots, -1, name, Some(second));
            given == 2 && Lookup(slots', 2) == Some(first)
  {
    var slots0 := InitialSlots(systemErrors);
    FindUnique(slots0, UNUSED_SLOT, 1);
    var slots1 := slots0[1 := Slot(2, name, Some(first))];
    FindUnique(slots1, UNUSED_SLOT, 2);
    FindUnique(slots1[2 := Slot(2, name, Some(second))], 2, 1);
  }

  /** The static array tab_family. */
  class FamilyTable {
    const slots: array<Slot>

    ghost predicate Valid()
      reads this, slots
    {
      slots.Length == MAX_NUM_FAMILY && Packed(slots[..])
    }

    /** InitLogging, as far as the table goes. */
    constructor (systemErrors: ErrorTable)
      ensures Valid() && fresh(slots) && slots[..] == InitialSlots(systemErrors)
      ensures slots.Length == 50 && Lookup(slots[..], 0) == Some(systemErrors)
      ensures forall family :: family != ERR_SYS && family != UNUSED_SLOT ==> !Registered(slots[..], family)
    {
      var table := new Slot[MAX_NUM_FAMILY](_ => Slot(0, "", None));
      table[0] := Slot(0, "Errors Systeme UNIX", Some(systemErrors));
      for i := 1 to MAX_NUM_FAMILY
        invariant table[0] == Slot(0, "Errors Systeme UNIX", Some(systemErrors))
        invariant forall j :: 1 <= j < i ==> table[j].num == UNUSED_SLOT
        invariant forall j :: 1 <= j < table.Length ==> table[j].tab == None && table[j].name == ""
      {
        table[i] := table[i].(num := UNUSED_SLOT);
      }
      slots := table;
      new;
      FindUnique(slots[..], ERR_SYS, 0);
    }

    method AddFamilyError(num: int, name: string, tab: Option<ErrorTable>) returns (given: int)
      requires Valid()
      modifies slots
      ensures Valid()
      ensures (given, slots[..]) == Add(old(slots[..]), num, name, tab)
    {
      if num < -1 || num >= MAX_NUM_FAMILY {
        return -1;
      }
      if num == 0 {
        return -1;
      }
      var i := 0;
      while i < MAX_NUM_FAMILY && slots[i].num != UNUSED_SLOT
        invariant 0 <= i <= MAX_NUM_FAMILY
        invariant forall j :: 0 <= j < i ==> slots[j].num != UNUSED_SLOT
      {
        i := i + 1;
      }
      FindUnique(slots[..], UNUSED_SLOT, i);
      AddKeepsPacked(slots[..], num, name, tab);
      if i == MAX_NUM_FAMILY {
        return -1;
      }
      slots[i] := Slot(if num != -1 then num else i, name, tab);
      given := slots[i].num;
    }

    /** TrouveTabErr */
    method FindTable(num: int) returns (tab: Option<ErrorTable>)
      requires Valid()
      ensures tab == Lookup(slots[..], num)
    {
      var i := 0;
      while i < MAX_NUM_FAMILY
        invariant 0 <= i <= MAX_NUM_FAMILY
        invariant forall j :: 0 <= j < i ==> slots[j].num != num
      {
        if slots[i].num == num {
          FindUnique(slots[..], num, i);
          return slots[i].tab;
        }
        i := i + 1;
      }
      FindUnique(slots[..], num, MAX_NUM_FAMILY);
      tab := None;
    }
  }

  /** TrouveErr; the scan has no bound of its own, so the table must have its end marker. */
  method FindErrorEntry(tab: ErrorTable, num: int) returns (e: ErrorEntry)
    requires Terminated(tab)
    ensures FindError(tab, num) == Some(e)
  {
    ghost var end :| 0 <= end < |tab| && tab[end].numero == ERR_NULL;
    var i := 0;
    while tab[i].numero != num && tab[i].numero != ERR_NULL
      invariant 0 <= i <= end
      invariant forall j :: 0 <= j < i ==> tab[j].numero != num && tab[j].numero != ERR_NULL
      decreases end - i
    {
      i := i + 1;
    }
    FindErrorMeaning(tab, num, i);
    e := tab[i];
  }
}
