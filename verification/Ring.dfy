/** A ring of hourly slots, cleared only when reused, against the full log of what was ever added to it. */
module Ring {
  import opened Text

  /** How many slots the ring has, and how many hours a window spans. */
  const HOURS := 25

  /** One addition: its hour, and what was added. */
  datatype Entry<T> = Entry(hour: int, item: T)

  type Log<T> = seq<Entry<T>>

  // ---- hours and slots ------------------------------------------------------------------------

  /** The hour of a Unix time; Go divides toward zero. */
  function HourOf(unix: int): (hour: int)
    ensures unix >= 0 ==> hour * 3600 <= unix < (hour + 1) * 3600
    ensures unix < 0 ==> (hour - 1) * 3600 < unix <= hour * 3600
  {
    if unix >= 0 then unix / 3600 else -((-unix) / 3600)
  }

  /** Go's remainder: negative for a negative hour, which is then no slot at all. */
  function SlotOf(hour: int): int
  {
    if hour >= 0 then hour % HOURS else -((-hour) % HOURS)
  }

  lemma SlotIsResidue(hour: int)
    requires SlotOf(hour) >= 0
    ensures SlotOf(hour) == hour % HOURS
  {
  }

  /** An addition is out of bounds exactly before the epoch, in an hour that is no multiple of 25. */
  lemma OutOfBoundsExactly(unix: int)
    ensures SlotOf(HourOf(unix)) < 0 <==> unix < 0 && HourOf(unix) % HOURS != 0
    ensures SlotOf(HourOf(unix)) < HOURS
  {
  }

  predicate InWindow(held: int, current: int)
  {
    held <= current && current - held < HOURS
  }

  /** A window reaches back at least 24 hours from a read, and never as far as 25. */
  lemma WindowCoversADay(added: nat, read: nat)
    requires added <= read
    ensures read - added <= 24 * 3600 ==> InWindow(HourOf(added), HourOf(read))
    ensures InWindow(HourOf(added), HourOf(read)) ==> read - added < 25 * 3600
  {
  }

  /** The one hour of a window that lives in a slot. */
  function HourIn(slot: nat, current: int): (hour: int)
    ensures InWindow(hour, current) && (slot < HOURS ==> hour % HOURS == slot)
  {
    current - (current - slot) % HOURS
  }

  lemma OnlyHourIn(slot: nat, current: int, hour: int)
    requires slot < HOURS && InWindow(hour, current) && hour % HOURS == slot
    ensures hour == HourIn(slot, current)
  {
  }

  // ---- what the ring holds --------------------------------------------------------------------

  /** The hour a slot holds: that of the last addition to it, or zero. */
  ghost function Held<T>(log: Log<T>, slot: nat): int
  {
    if log == [] then 0
    else
      var n := |log| - 1;
      if log[n].hour % HOURS == slot then log[n].hour else Held(log[..n], slot)
  }

  /** What a slot holds: everything added to it since it was last cleared. */
  ghost function Kept<T>(log: Log<T>, slot: nat): seq<T>
  {
    if log == [] then []
    else
      var n := |log| - 1;
      var before := log[..n];
      if log[n].hour % HOURS != slot then Kept(before, slot)
      else (if Held(before, slot) != log[n].hour then [] else Kept(before, slot)) + [log[n].item]
  }

  /** Everything the log has for an hour. */
  ghost function Logged<T>(log: Log<T>, hour: int): seq<T>
  {
    if log == [] then []
    else
      var n := |log| - 1;
      Logged(log[..n], hour) + if log[n].hour == hour then [log[n].item] else []
  }

  /** What a read finds in a slot. */
  ghost function Found<T>(log: Log<T>, slot: nat, current: int): seq<T>
  {
    if InWindow(Held(log, slot), current) then Kept(log, slot) else []
  }

  predicate SameSlot(hour: int, other: int)
  {
    hour % HOURS == other % HOURS
  }

  /** No addition of an hour in the window was followed by one of another hour in the same slot. */
  ghost predicate Undisturbed<T>(log: Log<T>, current: int)
  {
    forall i, j :: 0 <= i < j < |log| && InWindow(log[i].hour, current) && SameSlot(log[i].hour, log[j].hour) ==>
      log[i].hour == log[j].hour
  }

  lemma OneMore<T>(log: Log<T>, e: Entry<T>, slot: nat, hour: int)
    ensures Held(log + [e], slot) == if e.hour % HOURS == slot then e.hour else Held(log, slot)
    ensures Kept(log + [e], slot) ==
              if e.hour % HOURS != slot then Kept(log, slot)
              else (if Held(log, slot) != e.hour then [] else Kept(log, slot)) + [e.item]
    ensures Logged(log + [e], hour) == Logged(log, hour) + if e.hour == hour then [e.item] else []
  {
  }

  lemma {:induction false} HeldIsInSlot<T>(log: Log<T>, slot: nat)
    requires Kept(log, slot) != []
    ensures Held(log, slot) % HOURS == slot
  {
    var n := |log| - 1;
    if log[n].hour % HOURS != slot {
      HeldIsInSlot(log[..n], slot);
    }
  }

  lemma {:induction false} LoggedSomewhere<T>(log: Log<T>, hour: int)
    ensures Logged(log, hour) != [] <==> exists i :: 0 <= i < |log| && log[i].hour == hour
  {
    if log != [] {
      var n := |log| - 1;
      LoggedSomewhere(log[..n], hour);
      assert log[n].hour == hour ==> Logged(log, hour)[|Logged(log, hour)| - 1] == log[n].item;
      var before := log[..n];
      assert forall i :: 0 <= i < n ==> before[i] == log[i];
    }
  }

  lemma UndisturbedBefore<T>(log: Log<T>, current: int)
    requires log != [] && Undisturbed(log, current)
    ensures Undisturbed(log[..|log| - 1], current)
  {
  }

  /** An undisturbed slot holds exactly what the log has for its hour of the window. */
  lemma {:induction false} SlotHoldsItsHour<T>(log: Log<T>, slot: nat, current: int)
    requires slot < HOURS && Undisturbed(log, current)
    ensures var hour := HourIn(slot, current);
            Logged(log, hour) == if Held(log, slot) == hour then Kept(log, slot) else []
  {
    if log != [] {
      var n, hour := |log| - 1, HourIn(slot, current);
      UndisturbedBefore(log, current);
      SlotHoldsItsHour(log[..n], slot, current);
      if log[n].hour % HOURS == slot && log[n].hour != hour {
        LoggedSomewhere(log[..n], hour);
        if i :| 0 <= i < n && log[i].hour == hour {
          assert false;
        }
        assert forall i :: 0 <= i < n ==> log[..n][i] == log[i];
      }
    }
  }

  /** A read finds in an undisturbed slot exactly what the log has for its hour of the window. */
  lemma FoundIsLogged<T>(log: Log<T>, slot: nat, current: int)
    requires slot < HOURS && Undisturbed(log, current)
    ensures Found(log, slot, current) == Logged(log, HourIn(slot, current))
  {
    SlotHoldsItsHour(log, slot, current);
    if Kept(log, slot) != [] {
      HeldIsInSlot(log, slot);
      if InWindow(Held(log, slot), current) {
        OnlyHourIn(slot, current, Held(log, slot));
      }
    }
  }

  /** A slot that came back to an hour after holding another has lost some of what the log has for it. */
  lemma {:induction false} DisturbedLoses<T>(log: Log<T>, slot: nat, hour: int, i: nat, j: nat)
    requires i < j < |log| && log[i].hour == hour && log[j].hour != hour
    requires hour % HOURS == slot && log[j].hour % HOURS == slot && Held(log, slot) == hour
    ensures |Kept(log, slot)| < |Logged(log, hour)|
  {
    var n := |log| - 1;
    var before := log[..n];
    assert before[i] == log[i];
    if log[n].hour % HOURS != slot || Held(before, slot) == hour {
      assert before[j] == log[j];
      DisturbedLoses(before, slot, hour, i, j);
    } else {
      LoggedSomewhere(before, hour);
    }
  }

  /** A slot that holds an hour holds the latest of what the log has for it. */
  lemma {:induction false} KeptIsLatest<T>(log: Log<T>, slot: nat, hour: int) returns (lost: seq<T>)
    requires Held(log, slot) == hour && hour % HOURS == slot
    ensures Logged(log, hour) == lost + Kept(log, slot)
  {
    if log == [] {
      lost := [];
    } else {
      var n := |log| - 1;
      if log[n].hour % HOURS != slot || Held(log[..n], slot) == hour {
        lost := KeptIsLatest(log[..n], slot, hour);
      } else {
        lost := Logged(log[..n], hour);
      }
    }
  }

  lemma DisturbedShows<T>(log: Log<T>, current: int, i: nat, j: nat)
    requires i < j < |log| && InWindow(log[i].hour, current)
    requires log[i].hour % HOURS == log[j].hour % HOURS && log[i].hour != log[j].hour
    ensures var slot := log[i].hour % HOURS; Found(log, slot, current) != Logged(log, HourIn(slot, current))
  {
    hide Held, Kept, Logged, HourIn, InWindow;
    var hour := log[i].hour;
    var slot := hour % HOURS;
    OnlyHourIn(slot, current, hour);
    if Held(log, slot) == hour {
      DisturbedLoses(log, slot, hour, i, j);
    } else {
      LoggedSomewhere(log, hour);
      if Found(log, slot, current) != [] {
        HeldIsInSlot(log, slot);
        OnlyHourIn(slot, current, Held(log, slot));
      }
    }
  }

  /** A read finds exactly what the log has for each hour of its window if and only if the window is undisturbed. */
  lemma ReadIsExact<T>(log: Log<T>, current: int)
    ensures (forall slot: nat :: slot < HOURS ==> Found(log, slot, current) == Logged(log, HourIn(slot, current)))
            <==> Undisturbed(log, current)
  {
    hide Found, Logged, HourIn, InWindow;
    if Undisturbed(log, current) {
      forall slot: nat | slot < HOURS
        ensures Found(log, slot, current) == Logged(log, HourIn(slot, current))
      {
        FoundIsLogged(log, slot, current);
      }
    } else {
      var i, j :| 0 <= i < j < |log| && InWindow(log[i].hour, current)
                  && log[i].hour % HOURS == log[j].hour % HOURS && log[i].hour != log[j].hour;
      DisturbedShows(log, current, i, j);
    }
  }

  /** Every addition lags the largest hour before it by less than a day and an hour. */
  ghost predicate LagsLittle<T>(log: Log<T>)
  {
    forall i, j :: 0 <= i < j < |log| ==> log[i].hour - log[j].hour < HOURS
  }

  /** A read comes no earlier than anything added before it. */
  ghost predicate UpToDate<T>(log: Log<T>, current: int)
  {
    forall i :: 0 <= i < |log| ==> log[i].hour <= current
  }

  lemma LittleLagIsHarmless<T>(log: Log<T>, current: int)
    requires LagsLittle(log) && UpToDate(log, current)
    ensures Undisturbed(log, current)
  {
  }
}
