/** Hashes added to the ring, and what the sketches in its slots show of the hashes in the log. */
module SketchWindow {
  import opened Ring
  import S = Sketch
  import Q = Quota

  function AsSet(items: seq<S.Hash>): set<S.Hash>
  {
    set item | item in items
  }

  /** Every value ever added. */
  ghost function Everything(log: Log<S.Hash>): set<S.Hash>
  {
    set i | 0 <= i < |log| :: log[i].item
  }

  /** Every value added in the hours of a window. */
  ghost function Within(log: Log<S.Hash>, current: int): set<S.Hash>
  {
    set i | 0 <= i < |log| && InWindow(log[i].hour, current) :: log[i].item
  }

  /** What a read finds in the first slots. */
  ghost function FoundIn(log: Log<S.Hash>, current: int, slots: nat): set<S.Hash>
  {
    if slots == 0 then {} else FoundIn(log, current, slots - 1) + AsSet(Found(log, slots - 1, current))
  }

  lemma {:induction false} IsFound(log: Log<S.Hash>, current: int, slots: nat, item: S.Hash)
    ensures item in FoundIn(log, current, slots) <==>
            exists slot: nat :: slot < slots && item in Found(log, slot, current)
  {
    if slots > 0 {
      IsFound(log, current, slots - 1, item);
    }
  }

  lemma {:induction false} IsLogged(log: Log<S.Hash>, hour: int, item: S.Hash)
    ensures item in Logged(log, hour) <==> exists i :: 0 <= i < |log| && log[i].hour == hour && log[i].item == item
  {
    if log != [] {
      var before := log[..|log| - 1];
      IsLogged(before, hour, item);
      assert forall i :: 0 <= i < |before| ==> before[i] == log[i];
    }
  }

  lemma FoundIsLoggedItem(log: Log<S.Hash>, current: int, item: S.Hash)
    requires Undisturbed(log, current)
    ensures item in FoundIn(log, current, HOURS) <==> item in Within(log, current)
  {
    hide Found, Logged, HourIn;
    IsFound(log, current, HOURS, item);
    if slot: nat :| slot < HOURS && item in Found(log, slot, current) {
      FoundIsLogged(log, slot, current);
      IsLogged(log, HourIn(slot, current), item);
    }
    if item in Within(log, current) {
      var i :| 0 <= i < |log| && InWindow(log[i].hour, current) && log[i].item == item;
      var slot := log[i].hour % HOURS;
      OnlyHourIn(slot, current, log[i].hour);
      FoundIsLogged(log, slot, current);
      IsLogged(log, HourIn(slot, current), item);
    }
  }

  /** The slots of an undisturbed window hold, between them, exactly the values added in its hours. */
  lemma FoundIsWithin(log: Log<S.Hash>, current: int)
    requires Undisturbed(log, current)
    ensures FoundIn(log, current, HOURS) == Within(log, current)
  {
    hide FoundIn, Within, Undisturbed;
    forall item
      ensures item in FoundIn(log, current, HOURS) <==> item in Within(log, current)
    {
      FoundIsLoggedItem(log, current, item);
    }
  }

  class SketchWindow {
    const total: S.Sketch
    const slots: seq<S.Sketch>
    const hours: array<int>
    ghost var log: Log<S.Hash>

    ghost function Parts(): set<object>
    {
      {this, hours, total, total.registers} + (set slot | slot in slots) + (set slot | slot in slots :: slot.registers)
    }

    ghost predicate Apart()
    {
      && |slots| == HOURS == hours.Length && total !in slots
      && (forall j :: 0 <= j < HOURS ==> slots[j].registers != total.registers)
      && (forall j, k :: 0 <= j < k < HOURS ==> slots[j] != slots[k] && slots[j].registers != slots[k].registers)
    }

    ghost predicate SlotOk(slot: nat)
      requires slot < |slots| && slot < hours.Length
      reads hours, slots[slot], slots[slot].registers
      reads this
    {
      slots[slot].Valid() && hours[slot] == Held(log, slot) && slots[slot].shown == AsSet(Kept(log, slot))
    }

    ghost predicate Valid()
      reads Parts()
    {
      && Apart()
      && total.Valid() && total.shown == Everything(log)
      && forall slot :: 0 <= slot < HOURS ==> SlotOk(slot)
    }

    constructor ()
      ensures Valid() && log == [] && fresh(Parts())
    {
      hide S.Shows, Held, Kept;
      NothingYet();
      var sketches: seq<S.Sketch> := [];
      var first := new S.Sketch();
      for i := 0 to HOURS
        invariant |sketches| == i && fresh(first) && fresh(first.registers) && first.Valid() && first.shown == {}
        invariant forall j :: 0 <= j < i ==> fresh(sketches[j]) && fresh(sketches[j].registers)
        invariant forall j :: 0 <= j < i ==> sketches[j].Valid() && sketches[j].shown == {}
        invariant forall j :: 0 <= j < i ==> sketches[j] != first && sketches[j].registers != first.registers
        invariant forall j, k :: 0 <= j < k < i ==>
                    sketches[j] != sketches[k] && sketches[j].registers != sketches[k].registers
      {
        var sketch := new S.Sketch();
        sketches := sketches + [sketch];
      }
      total := first;
      slots := sketches;
      hours := new int[HOURS](_ => 0);
      log := [];
    }

    /** Extends the log by one hash, and the sketches with it, unless the index is out of bounds. */
    method Add(hash: S.Hash, unix: Q.Int64) returns (inBounds: bool)
      requires Valid()
      modifies Parts()
      ensures inBounds <==> SlotOf(HourOf(unix)) >= 0
      ensures Valid() && log == if inBounds then old(log) + [Entry(HourOf(unix), hash)] else old(log)
    {
      hide Held, Kept, HourOf, Everything, S.Shows;
      var hour := HourOf(unix);
      var slot := SlotOf(hour);
      if slot < 0 {
        return false;
      }
      SlotIsResidue(hour);
      hide SlotOf;
      ghost var after := log + [Entry(hour, hash)];
      assert SlotOk(slot);
      assert AsSet([] + [hash]) == {} + {hash};
      assert AsSet(Kept(log, slot) + [hash]) == AsSet(Kept(log, slot)) + {hash};
      forall other | 0 <= other < HOURS
        ensures SlotOk(other)
        ensures Held(after, other) == if other == slot then hour else Held(log, other)
        ensures Kept(after, other) ==
                  if other != slot then Kept(log, other)
                    else (if Held(log, slot) != hour then [] else Kept(log, slot)) + [hash]
      {
        OneMore(log, Entry(hour, hash), other, hour);
      }
      EverythingGrows(log, Entry(hour, hash));
      if hours[slot] != hour {
        hours[slot] := hour;
        slots[slot].Reset();
      }
      slots[slot].Add(hash);
      total.Add(hash);
      log := after;
      forall other | 0 <= other < HOURS
        ensures SlotOk(other)
      {
        if other != slot {
          assert old(SlotOk(other));
        }
      }
      return true;
    }

    /** The registers that the two estimates are made from. */
    method Counts(unix: Q.Int64) returns (all: seq<S.Register>, recent: seq<S.Register>)
      requires Valid()
      ensures S.Shows(all, Everything(log))
      ensures S.Shows(recent, FoundIn(log, HourOf(unix), HOURS))
      ensures Undisturbed(log, HourOf(unix)) ==> S.Shows(recent, Within(log, HourOf(unix)))
      ensures LagsLittle(log) && UpToDate(log, HourOf(unix)) ==> S.Shows(recent, Within(log, HourOf(unix)))
    {
      hide Held, Kept, HourOf, Everything, S.Shows, Undisturbed, LagsLittle, UpToDate, Within;
      var hour := HourOf(unix);
      var merged := new S.Sketch();
      for slot := 0 to HOURS
        invariant merged.Valid() && fresh(merged) && fresh(merged.registers) && merged.shown == FoundIn(log, hour, slot)
        invariant Valid()
      {
        assert SlotOk(slot);
        assert AsSet([]) == {};
        if InWindow(hours[slot], hour) {
          merged.Merge(slots[slot]);
        }
      }
      if LagsLittle(log) && UpToDate(log, hour) {
        LittleLagIsHarmless(log, hour);
      }
      if Undisturbed(log, hour) {
        FoundIsWithin(log, hour);
      }
      all := total.registers[..];
      recent := merged.registers[..];
    }
  }

  lemma NothingYet()
    ensures Everything([]) == {} && AsSet([]) == {}
    ensures forall slot: nat :: Held<S.Hash>([], slot) == 0 && Kept<S.Hash>([], slot) == []
  {
  }

  lemma EverythingGrows(log: Log<S.Hash>, e: Entry<S.Hash>)
    ensures Everything(log + [e]) == Everything(log) + {e.item}
  {
    var after := log + [e];
    assert after[|log|] == e;
    assert forall i :: 0 <= i < |log| ==> after[i] == log[i];
    forall item | item in Everything(log)
      ensures item in Everything(after)
    {
      var i :| 0 <= i < |log| && log[i].item == item;
      assert after[i].item == item;
    }
  }
}
