/** Amounts added to the ring, and what reading it makes of the amounts in the log. */
module Window {
  import opened Text
  import opened Ring
  import opened Sums
  import Q = Quota

  /** Everything ever added. */
  ghost function SumOfAll(log: Log<int>): int
  {
    if log == [] then 0 else SumOfAll(log[..|log| - 1]) + log[|log| - 1].item
  }

  /** Everything added in the hours of a window. */
  ghost function SumWithin(log: Log<int>, current: int): int
  {
    if log == [] then 0
    else
      var n := |log| - 1;
      SumWithin(log[..n], current) + if InWindow(log[n].hour, current) then log[n].item else 0
  }

  /** What the first slots of the ring add up to. */
  ghost function SumFound(log: Log<int>, current: int, slots: nat): int
  {
    if slots == 0 then 0 else SumFound(log, current, slots - 1) + Sum(Found(log, slots - 1, current))
  }

  /** What the log has for the hours of those slots. */
  ghost function SumLogged(log: Log<int>, current: int, slots: nat): int
  {
    if slots == 0 then 0 else SumLogged(log, current, slots - 1) + Sum(Logged(log, HourIn(slots - 1, current)))
  }

  /** One more addition counts in the one slot its hour has in the window, if any. */
  lemma {:induction false} SumLoggedGrows(log: Log<int>, e: Entry<int>, current: int, slots: nat)
    requires slots <= HOURS
    ensures SumLogged(log + [e], current, slots) ==
              SumLogged(log, current, slots) + if InWindow(e.hour, current) && e.hour % HOURS < slots then e.item else 0
  {
    hide InWindow, HourIn, Sum, Logged, Held, Kept;
    if slots > 0 {
      SumLoggedGrows(log, e, current, slots - 1);
      var hour := HourIn(slots - 1, current);
      OneMore(log, e, slots - 1, hour);
      SumOneMore(Logged(log, hour), e.item);
      TheHourIn(e.hour, slots - 1, current);
      assert Logged(log, hour) + [] == Logged(log, hour);
    }
  }

  lemma TheHourIn(hour: int, slot: nat, current: int)
    requires slot < HOURS
    ensures hour == HourIn(slot, current) <==> InWindow(hour, current) && hour % HOURS == slot
  {
  }

  lemma {:induction false} NothingLogged(current: int, slots: nat)
    ensures SumLogged([], current, slots) == 0
  {
    if slots > 0 {
      NothingLogged(current, slots - 1);
    }
  }

  /** The hours of a window, one for each slot, cover it. */
  lemma {:induction false} SlotsCoverTheWindow(log: Log<int>, current: int)
    ensures SumLogged(log, current, HOURS) == SumWithin(log, current)
  {
    hide InWindow, SumLogged;
    if log == [] {
      NothingLogged(current, HOURS);
    } else {
      var n := |log| - 1;
      SlotsCoverTheWindow(log[..n], current);
      SumLoggedGrows(log[..n], log[n], current, HOURS);
      assert log == log[..n] + [log[n]];
    }
  }

  lemma {:induction false} FoundIsSummed(log: Log<int>, current: int, slots: nat)
    requires Undisturbed(log, current) && slots <= HOURS
    ensures SumFound(log, current, slots) == SumLogged(log, current, slots)
  {
    hide Undisturbed, Found, Logged, HourIn;
    if slots > 0 {
      FoundIsSummed(log, current, slots - 1);
      FoundIsLogged(log, slots - 1, current);
    }
  }

  /** What the ring adds up to is what was added in the window, unless the window was disturbed. */
  lemma RingSumIsLogSum(log: Log<int>, current: int)
    requires Undisturbed(log, current)
    ensures SumFound(log, current, HOURS) == SumWithin(log, current)
  {
    FoundIsSummed(log, current, HOURS);
    SlotsCoverTheWindow(log, current);
  }

  ghost predicate AllPositive(log: Log<int>)
  {
    forall i :: 0 <= i < |log| ==> log[i].item > 0
  }

  lemma {:induction false} LoggedArePositive(log: Log<int>, hour: int)
    requires AllPositive(log)
    ensures forall i :: 0 <= i < |Logged(log, hour)| ==> Logged(log, hour)[i] > 0
  {
    if log != [] {
      var before := log[..|log| - 1];
      assert forall i :: 0 <= i < |before| ==> before[i] == log[i];
      LoggedArePositive(before, hour);
    }
  }

  lemma FoundIsAtMostLogged(log: Log<int>, slot: nat, current: int)
    requires AllPositive(log) && slot < HOURS
    ensures var hour := HourIn(slot, current);
            Sum(Found(log, slot, current)) <= Sum(Logged(log, hour)) &&
            (Sum(Found(log, slot, current)) == Sum(Logged(log, hour)) ==>
              Found(log, slot, current) == Logged(log, hour))
  {
    hide Held, Kept, Logged, HourIn, InWindow;
    var hour := HourIn(slot, current);
    LoggedArePositive(log, hour);
    SumOfPositives(Logged(log, hour));
    if Found(log, slot, current) != [] {
      HeldIsInSlot(log, slot);
      TheHourIn(Held(log, slot), slot, current);
      var lost := KeptIsLatest(log, slot, hour);
      assert lost == Logged(log, hour)[..|lost|];
      SumOfPositives(lost);
      SumSplits(lost, Kept(log, slot));
    } else {
      NothingSums();
    }
  }

  lemma {:induction false} SumFoundIsAtMostLogged(log: Log<int>, current: int, slots: nat)
    requires AllPositive(log) && slots <= HOURS
    ensures SumFound(log, current, slots) <= SumLogged(log, current, slots)
    ensures SumFound(log, current, slots) == SumLogged(log, current, slots) ==>
              forall slot: nat :: slot < slots ==> Found(log, slot, current) == Logged(log, HourIn(slot, current))
  {
    hide Found, Logged, HourIn;
    if slots > 0 {
      SumFoundIsAtMostLogged(log, current, slots - 1);
      FoundIsAtMostLogged(log, slots - 1, current);
    }
  }

  /**
   * Where every addition counts something, the ring adds up to what was added in the window if and only if
   * the window is undisturbed, and to less otherwise.
   */
  lemma RingSumExactly(log: Log<int>, current: int)
    requires AllPositive(log)
    ensures SumFound(log, current, HOURS) <= SumWithin(log, current)
    ensures SumFound(log, current, HOURS) == SumWithin(log, current) <==> Undisturbed(log, current)
  {
    hide Found, Logged, HourIn, Undisturbed, SumFound, SumLogged, SumWithin;
    SlotsCoverTheWindow(log, current);
    SumFoundIsAtMostLogged(log, current, HOURS);
    ReadIsExact(log, current);
    if Undisturbed(log, current) {
      RingSumIsLogSum(log, current);
    }
  }

  lemma WrapAdds(a: int, b: int)
    ensures Wrap64(Wrap64(a) + b) == Wrap64(a + b)
    ensures Wrap64(a + Wrap64(b)) == Wrap64(a + b)
  {
    WrapOnce(a, b);
    WrapOnce(b, a);
  }

  lemma WrapOnce(a: int, b: int)
    ensures Wrap64(Wrap64(a) + b) == Wrap64(a + b)
  {
    var k := (a - Wrap64(a)) / 0x1_0000_0000_0000_0000;
    assert a == Wrap64(a) + k * 0x1_0000_0000_0000_0000;
    hide Wrap64;
    WrapTurns(Wrap64(a) + b, k);
  }

  lemma WrapTurns(n: int, turns: int)
    ensures Wrap64(n + turns * 0x1_0000_0000_0000_0000) == Wrap64(n)
  {
  }

  /** What the slot of an addition comes to hold. */
  lemma SlotGrows(log: Log<int>, e: Entry<int>, slot: nat)
    requires slot < HOURS && e.hour % HOURS == slot
    ensures var after := log + [e];
            && Held(after, slot) == e.hour
            && Wrap64(Sum(Kept(after, slot))) ==
                 Wrap64((if Held(log, slot) != e.hour then 0 else Wrap64(Sum(Kept(log, slot)))) + e.item)
  {
    hide Held, Kept, Sum, Wrap64, HourOf, InWindow;
    var kept := if Held(log, slot) != e.hour then [] else Kept(log, slot);
    OneMore(log, e, slot, e.hour);
    assert Kept(log + [e], slot) == kept + [e.item];
    NothingSums();
    SumOneMore(kept, e.item);
    WrapAdds(Sum(kept), e.item);
  }

  lemma TotalGrows(log: Log<int>, e: Entry<int>)
    ensures Wrap64(SumOfAll(log + [e])) == Wrap64(Wrap64(SumOfAll(log)) + e.item)
  {
    hide Wrap64;
    assert (log + [e])[..|log|] == log;
    WrapAdds(SumOfAll(log), e.item);
  }

  class Window {
    var total: Q.Int64
    const slots: array<Q.Int64>
    const hours: array<int>
    ghost var log: Log<int>

    ghost predicate Valid()
      reads this, slots, hours
    {
      && slots.Length == hours.Length == HOURS
      && total == Wrap64(SumOfAll(log))
      && forall slot :: 0 <= slot < HOURS ==> SlotOk(slot)
    }

    ghost predicate SlotOk(slot: nat)
      requires slot < slots.Length && slot < hours.Length
      reads this, slots, hours
    {
      hours[slot] == Held(log, slot) && slots[slot] == Wrap64(Sum(Kept(log, slot)))
    }

    constructor ()
      ensures Valid() && fresh(slots) && fresh(hours) && log == []
    {
      total := 0;
      slots := new Q.Int64[HOURS](_ => 0);
      hours := new int[HOURS](_ => 0);
      log := [];
    }

    /** Extends the log by one amount, and the slots and the total with it, unless the index is out of bounds. */
    method Add(n: Q.Int64, unix: Q.Int64) returns (inBounds: bool)
      requires Valid()
      modifies this, slots, hours
      ensures inBounds <==> SlotOf(HourOf(unix)) >= 0
      ensures Valid() && log == if inBounds then old(log) + [Entry(HourOf(unix), n)] else old(log)
    {
      hide Held, Kept, Sum, SumOfAll, Wrap64, HourOf;
      var hour := HourOf(unix);
      var slot := SlotOf(hour);
      if slot < 0 {
        return false;
      }
      SlotIsResidue(hour);
      hide SlotOf;
      ghost var before, after := log, log + [Entry(hour, n)];
      assert SlotOk(slot);
      SlotGrows(before, Entry(hour, n), slot);
      TotalGrows(before, Entry(hour, n));
      if hours[slot] != hour {
        hours[slot], slots[slot] := hour, 0;
      }
      slots[slot] := Wrap64(slots[slot] + n);
      total := Wrap64(total + n);
      log := after;
      forall other | 0 <= other < HOURS
        ensures SlotOk(other)
      {
        if other != slot {
          assert old(SlotOk(other));
          OneMore(before, Entry(hour, n), other, hour);
        }
      }
      return true;
    }

    /** The sum a read of the ring finds: that of the log over the same window, unless the window was disturbed. */
    method Last24h(unix: Q.Int64) returns (sum: Q.Int64)
      requires Valid()
      ensures sum == Wrap64(SumFound(log, HourOf(unix), HOURS))
      ensures Undisturbed(log, HourOf(unix)) ==> sum == Wrap64(SumWithin(log, HourOf(unix)))
      ensures LagsLittle(log) && UpToDate(log, HourOf(unix)) ==> sum == Wrap64(SumWithin(log, HourOf(unix)))
    {
      hide Held, Kept, Sum, Wrap64, HourOf, Undisturbed, LagsLittle, UpToDate;
      var hour := HourOf(unix);
      sum := 0;
      NothingSums();
      for slot := 0 to HOURS
        invariant sum == Wrap64(SumFound(log, hour, slot))
      {
        assert SlotOk(slot);
        WrapAdds(SumFound(log, hour, slot), Wrap64(Sum(Kept(log, slot))));
        WrapAdds(SumFound(log, hour, slot), Sum(Kept(log, slot)));
        if InWindow(hours[slot], hour) {
          sum := Wrap64(sum + slots[slot]);
        }
      }
      if LagsLittle(log) && UpToDate(log, hour) {
        LittleLagIsHarmless(log, hour);
      }
      if Undisturbed(log, hour) {
        RingSumIsLogSum(log, hour);
      }
    }
  }

  lemma NothingSums()
    ensures Sum([]) == 0 && Wrap64(0) == 0
  {
  }
}
