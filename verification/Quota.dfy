/** The upload allowance of a key for a UTC day: one counter file for each, in the var directory. */
module Quota {
  import opened Text
  import opened VarDir
  import opened Calendar

  type Int64 = n: int | MIN_INT64 <= n <= MAX_INT64

  // ---- counter files --------------------------------------------------------------------------

  predicate Plain(c: Octet)
  {
    'a' <= c <= 'z' || 'A' <= c <= 'Z' || IsDigit(c) || c == '.' || c == '_' || c == '-'
  }

  /** A text with every rune that may not stand in a file name replaced by one underscore. */
  function Replaced(key: Octets): Octets
    decreases |key|
  {
    if key == [] then []
    else if Plain(key[0]) then [key[0]] + Replaced(key[1..])
    else ['_'] + Replaced(key[RuneLength(key)..])
  }

  /** A key id as part of a file name. */
  function SafeKey(key: Octets): Octets
  {
    if key == [] then "key" else Replaced(key)
  }

  lemma {:induction false} ReplacedIsPlain(key: Octets)
    ensures forall c :: c in Replaced(key) ==> Plain(c)
    ensures key != [] ==> Replaced(key) != []
    ensures (forall c :: c in key ==> Plain(c)) ==> Replaced(key) == key
    decreases |key|
  {
    if key != [] {
      if Plain(key[0]) {
        ReplacedIsPlain(key[1..]);
        assert key == [key[0]] + key[1..];
      } else {
        ReplacedIsPlain(key[RuneLength(key)..]);
      }
    }
  }

  /** A safe key id is a plain, non-empty piece of a file name, and a key id that is one already stays as it is. */
  lemma SafeKeyIsPlain(key: Octets)
    ensures SafeKey(key) != [] && forall c :: c in SafeKey(key) ==> Plain(c)
    ensures key != [] && (forall c :: c in key ==> Plain(c)) ==> SafeKey(key) == key
  {
    ReplacedIsPlain(key);
  }

  /** The UTF-8 form of one rune. */
  predicate IsRune(r: Octets)
  {
    r != [] && RuneLength(r) == |r| && (|r| == 1 ==> r[0] as int < 0x80)
  }

  function Concat(runes: seq<Octets>): Octets
  {
    if runes == [] then [] else runes[0] + Concat(runes[1..])
  }

  lemma RuneIsRead(r: Octets, rest: Octets)
    requires IsRune(r)
    ensures RuneLength(r + rest) == |r| && (r + rest)[|r|..] == rest
    ensures Plain((r + rest)[0]) ==> |r| == 1
  {
    var whole := r + rest;
    assert forall i :: 0 <= i < |r| ==> whole[i] == r[i];
  }

  /** What a rune becomes in a file name. */
  function InName(r: Octets): Octet
    requires r != []
  {
    if |r| == 1 && Plain(r[0]) then r[0] else '_'
  }

  lemma RuneIsReplaced(r: Octets, rest: Octets)
    requires IsRune(r)
    ensures Replaced(r + rest) == [InName(r)] + Replaced(rest)
  {
    RuneIsRead(r, rest);
    hide RuneLength, IsRune, Plain;
    assert (r + rest)[0] == r[0];
  }

  /** A key id contributes one character for each of its runes: the rune itself if it may stand, else an underscore. */
  lemma {:induction false} OneForEachRune(runes: seq<Octets>)
    requires forall i :: 0 <= i < |runes| ==> IsRune(runes[i])
    ensures |Replaced(Concat(runes))| == |runes|
    ensures forall i :: 0 <= i < |runes| ==>
              Replaced(Concat(runes))[i] == if |runes[i]| == 1 && Plain(runes[i][0]) then runes[i][0] else '_'
  {
    hide Replaced, Plain;
    if runes == [] {
      NothingReplaced();
    } else {
      OneForEachRune(runes[1..]);
      RuneIsReplaced(runes[0], Concat(runes[1..]));
      hide IsRune, Concat;
      forall i | 0 <= i < |runes|
        ensures Replaced(Concat(runes))[i] == InName(runes[i])
      {
        assert i > 0 ==> runes[i] == runes[1..][i - 1];
      }
    }
  }

  lemma NothingReplaced()
    ensures Replaced([]) == []
  {
  }

  function Zeros(n: nat): (s: Octets)
    ensures |s| == n && AllDigits(s)
  {
    if n == 0 then [] else ['0'] + Zeros(n - 1)
  }

  /** A number with leading zeros up to a width. */
  function Padded(n: nat, width: nat): (s: Octets)
    ensures |s| >= width && AllDigits(s)
  {
    var digits := Decimal(n);
    if |digits| >= width then digits else Zeros(width - |digits|) + digits
  }

  function Stamp(date: Date): (s: Octets)
    ensures AllDigits(s)
  {
    Padded(date.year, 4) + Padded(date.month, 2) + Padded(date.day, 2)
  }

  function DayEnding(date: Date): Octets
  {
    "-" + Stamp(date) + ".txt"
  }

  function CounterName(key: Octets, date: Date): Octets
  {
    "quota-" + SafeKey(key) + DayEnding(date)
  }

  /** The counter of a key that an instant falls on: the path that Consume and Refund work out. */
  function CounterAt(key: Octets, at: nat): Octets
  {
    CounterName(key, DateAt(at))
  }

  predicate HasSuffix(s: Octets, suffix: Octets)
  {
    |suffix| <= |s| && s[|s| - |suffix|..] == suffix
  }

  lemma {:induction false} ValueAfterZeros(n: nat, s: Octets)
    requires AllDigits(s)
    ensures Value(Zeros(n) + s) == Value(s)
    decreases n, |s|
  {
    var whole := Zeros(n) + s;
    if n > 0 && s == [] {
      ValueAfterZeros(n - 1, []);
      AllZeros(n);
      assert whole == Zeros(n) && Zeros(n)[..n - 1] == Zeros(n - 1) && Zeros(n - 1) + [] == Zeros(n - 1);
    } else if s != [] {
      ValueAfterZeros(n, s[..|s| - 1]);
      assert whole[..|whole| - 1] == Zeros(n) + s[..|s| - 1];
    } else {
      assert whole == s;
    }
  }

  lemma {:induction false} AllZeros(n: nat)
    requires n > 0
    ensures Zeros(n) == Zeros(n - 1) + ['0']
  {
    if n > 1 {
      AllZeros(n - 1);
      assert ['0'] + (Zeros(n - 2) + ['0']) == (['0'] + Zeros(n - 2)) + ['0'];
    }
  }

  lemma ValueOfPadded(n: nat, width: nat)
    ensures Value(Padded(n, width)) == n
  {
    hide Value, Decimal, Zeros;
    ValueOfDecimal(n);
    var digits := Decimal(n);
    if |digits| < width {
      ValueAfterZeros(width - |digits|, digits);
    }
  }

  lemma StampTellsTheDay(a: Date, b: Date)
    requires a.Valid() && b.Valid() && Stamp(a) == Stamp(b)
    ensures a == b
  {
    ValueOfPadded(a.year, 4);
    ValueOfPadded(b.year, 4);
    ValueOfPadded(a.month, 2);
    ValueOfPadded(b.month, 2);
    ValueOfPadded(a.day, 2);
    ValueOfPadded(b.day, 2);
    TwoDigits(a.month);
    TwoDigits(b.month);
    TwoDigits(a.day);
    TwoDigits(b.day);
    ThreeParts(Padded(a.year, 4), Padded(a.month, 2), Padded(a.day, 2), Padded(b.year, 4), Padded(b.month, 2),
      Padded(b.day, 2));
  }

  lemma TwoDigits(n: nat)
    requires n < 100
    ensures |Padded(n, 2)| == 2
  {
    assert n < 10 ==> |Decimal(n)| == 1;
    assert n >= 10 ==> Decimal(n) == Decimal(n / 10) + [(n % 10 + '0' as int) as char] && n / 10 < 10;
  }

  lemma ValueOfOneMore(s: Octets, c: Octet)
    requires AllDigits(s) && IsDigit(c)
    ensures Value(s + [c]) == Value(s) * 10 + (c as int - '0' as int)
  {
    assert (s + [c])[..|s|] == s;
  }

  lemma ValueOfNothing()
    ensures Value([]) == 0
  {
  }

  lemma ValueOfTwoMore(s: Octets, two: Octets)
    requires AllDigits(s) && AllDigits(two) && |two| == 2
    ensures Value(s + two) == Value(s) * 100 + Value(two)
  {
    hide Value;
    ValueOfNothing();
    ValueOfOneMore(s, two[0]);
    ValueOfOneMore(s + [two[0]], two[1]);
    ValueOfOneMore([], two[0]);
    ValueOfOneMore([two[0]], two[1]);
    assert s + two == s + [two[0]] + [two[1]] && two == [two[0]] + [two[1]] && [] + [two[0]] == [two[0]];
  }

  /** Read as a number, a day's stamp is its year, month and day, four, two and two digits wide. */
  lemma StampIsTheDate(date: Date)
    requires date.Valid()
    ensures Value(Stamp(date)) == date.year * 10000 + date.month * 100 + date.day
    ensures |Stamp(date)| >= 8
  {
    hide Value, Padded;
    var y, m, d := Padded(date.year, 4), Padded(date.month, 2), Padded(date.day, 2);
    ValueOfPadded(date.year, 4);
    ValueOfPadded(date.month, 2);
    ValueOfPadded(date.day, 2);
    TwoDigits(date.month);
    TwoDigits(date.day);
    ValueOfTwoMore(y + m, d);
    ValueOfTwoMore(y, m);
  }

  lemma ThreeParts(a: Octets, b: Octets, c: Octets, x: Octets, y: Octets, z: Octets)
    requires a + b + c == x + y + z && |b| == |y| && |c| == |z|
    ensures a == x && b == y && c == z
  {
    var s, t := a + b + c, x + y + z;
    assert a == s[..|a|] && x == t[..|x|];
    assert b == s[|a|..|a| + |b|] && y == t[|x|..|x| + |y|];
    assert c == s[|a| + |b|..] && z == t[|x| + |y|..];
  }

  lemma NoDashAfter(a: Octets, x: Octets)
    requires AllDigits(x)
    ensures var s := a + ("-" + x + ".txt"); forall i :: |a| < i < |s| ==> s[i] != '-'
  {
  }

  /** Texts that end in a dash, digits and a fixed tail agree only if those digits and what precedes them do. */
  lemma LastDash(a: Octets, x: Octets, b: Octets, y: Octets)
    requires AllDigits(x) && AllDigits(y) && a + ("-" + x + ".txt") == b + ("-" + y + ".txt")
    ensures a == b && x == y
  {
    var s, t := a + ("-" + x + ".txt"), b + ("-" + y + ".txt");
    assert s[|a|] == '-' && t[|b|] == '-';
    NoDashAfter(a, x);
    NoDashAfter(b, y);
    assert a == s[..|a|] && b == t[..|b|];
    assert x == s[|a| + 1..|s| - 4] && y == t[|b| + 1..|t| - 4];
  }

  /** Two keys share a counter file exactly when their ids read alike once made safe, on the same day. */
  lemma CountersAreShared(key: Octets, date: Date, other: Octets, day: Date)
    requires date.Valid() && day.Valid()
    ensures CounterName(key, date) == CounterName(other, day) <==> SafeKey(key) == SafeKey(other) && date == day
  {
    if CounterName(key, date) == CounterName(other, day) {
      var a, b := "quota-" + SafeKey(key), "quota-" + SafeKey(other);
      LastDash(a, Stamp(date), b, Stamp(day));
      assert SafeKey(key) == a[6..] && SafeKey(other) == b[6..];
      StampTellsTheDay(date, day);
    }
  }

  /** The ending that forgetStaleGates looks for singles out the counters of its day, whatever the keys. */
  lemma EndingTellsTheDay(key: Octets, date: Date, today: Date)
    requires date.Valid() && today.Valid()
    ensures HasSuffix(CounterName(key, date), DayEnding(today)) <==> date == today
  {
    var name, head := CounterName(key, date), "quota-" + SafeKey(key);
    assert name == head + DayEnding(date);
    if HasSuffix(name, DayEnding(today)) {
      var n := |name| - |DayEnding(today)|;
      assert name == name[..n] + DayEnding(today);
      LastDash(head, Stamp(date), name[..n], Stamp(today));
      StampTellsTheDay(date, today);
    } else {
      assert name[|head|..] == DayEnding(date);
    }
  }

  /** At any time, the counters of that day, and no others, have that ending. */
  lemma EndingTellsThePeriod(key: Octets, at: nat, now: nat)
    ensures HasSuffix(CounterAt(key, at), DayEnding(DateAt(now))) <==> at / DAY == now / DAY
  {
    hide CounterName, DayEnding, HasSuffix, DateAt;
    DateIsValid(at);
    DateIsValid(now);
    SameDate(at, now);
    EndingTellsTheDay(key, DateAt(at), DateAt(now));
  }

  // ---- what a counter file says ---------------------------------------------------------------

  function Clamped(n: int): Int64
  {
    if n > MAX_INT64 then MAX_INT64 else if n < MIN_INT64 then MIN_INT64 else n
  }

  /** strconv.ParseInt with its error dropped: zero for what is no number, the nearest end for what is too big. */
  function Parsed(s: Octets): Int64
  {
    if Signed(s).None? then 0 else Clamped(Signed(s).value)
  }

  /** What withLockedCounter reads a file as. */
  function Counter(text: Octets): Int64
  {
    Parsed(TrimSpace(text))
  }

  function FormatInt(n: Int64): Octets
  {
    if n < 0 then "-" + Decimal(0 - n) else Decimal(n)
  }

  /** A counter reads back as what was written, over the whole int64 range. */
  lemma CounterRoundTrip(n: Int64)
    ensures Counter(FormatInt(n)) == n
  {
    hide Value, Decimal, TrimSpace;
    var s, size := FormatInt(n), if n < 0 then 0 - n else n;
    var digits := Decimal(size);
    ValueOfDecimal(size);
    assert s[|s| - |digits|..] == digits;
    assert IsDigit(digits[0]) && IsDigit(digits[|digits| - 1]);
    TrimKeeps(s);
  }

  /** A missing counter file counts as zero. */
  function Used(files: map<Octets, Octets>, path: Octets): Int64
  {
    if path in files then Counter(files[path]) else 0
  }

  lemma EmptyCountsAsZero(files: map<Octets, Octets>, path: Octets, other: Octets)
    ensures path !in files ==> Used(files[path := []], other) == Used(files, other)
  {
  }

  lemma WrittenTwice<V>(files: map<Octets, V>, path: Octets, first: V, second: V)
    ensures files[path := first][path := second] == files[path := second]
  {
  }

  lemma UsedIsRead(files: map<Octets, Octets>, path: Octets)
    requires path in files
    ensures Used(files, path) == Counter(files[path])
  {
  }

  lemma UsedAfterWrite(files: map<Octets, Octets>, path: Octets, text: Octets)
    ensures Used(files[path := text], path) == Counter(text)
    ensures forall other :: other != path ==> Used(files[path := text], other) == Used(files, other)
  {
    hide Counter;
  }

  // ---- reservations ---------------------------------------------------------------------------

  /** What Consume makes of a counter. */
  function Reserve(limit: Int64, bytes: Int64, used: Int64): Option<Int64>
  {
    if Wrap64(used + bytes) > limit then None else Some(Wrap64(used + bytes))
  }

  /** What Refund makes of a counter. */
  function GiveBack(bytes: Int64, used: Int64): Option<Int64>
  {
    var next := Wrap64(used - bytes);
    Some(if next < 0 then 0 else next)
  }

  /** A refund undoes its own reservation, wrap-around and all, for every counter a reservation leaves behind. */
  lemma RefundUndoesReserve(limit: Int64, bytes: Int64, used: Int64)
    requires Reserve(limit, bytes, used).Some?
    ensures var after := Reserve(limit, bytes, used).value;
            GiveBack(bytes, after) == Some(used) <==> used >= 0
  {
  }

  /** A reservation takes a counter past the limit exactly when the sum no longer fits an int64. */
  lemma OvershootsExactly(limit: Int64, bytes: Int64, used: Int64)
    requires limit > 0 && bytes >= 0 && used >= 0
    ensures Reserve(limit, bytes, used).Some? && used + bytes > limit <==> used + bytes > MAX_INT64
    ensures used + bytes <= MAX_INT64 ==> (Reserve(limit, bytes, used) == if used + bytes <= limit
        then Some(used + bytes) else None)
  {
  }

  // ---- the accountant -------------------------------------------------------------------------

  /** How the file operations of one locked update turn out; a write cut short leaves part of the number. */
  datatype CounterIo = Fine | Refused | CannotTruncate | CutShort(kept: nat)

  /** An in-process mutex. */
  class Gate {}

  class Quota {
    const dir: Directory
    var locks: map<Octets, Gate>
    const quotaFor: Octets -> Int64

    constructor (dir: Directory, quotaFor: Octets -> Int64)
      ensures this.dir == dir && locks == map[] && this.quotaFor == quotaFor
    {
      this.dir := dir;
      this.locks := map[];
      this.quotaFor := quotaFor;
    }

    method GateFor(path: Octets) returns (gate: Gate)
      modifies this`locks
      ensures path in old(locks) ==> gate == old(locks)[path] && locks == old(locks)
      ensures path !in old(locks) ==> fresh(gate) && locks == old(locks)[path := gate]
    {
      if path in locks {
        gate := locks[path];
      } else {
        gate := new Gate;
        locks := locks[path := gate];
      }
    }

    /** Keeps today's gates and no others. */
    method ForgetStaleGates(now: nat)
      modifies this`locks
      ensures forall path :: path in locks <==> path in old(locks) && HasSuffix(path, DayEnding(DateAt(now)))
      ensures forall path :: path in locks ==> locks[path] == old(locks)[path]
    {
      hide HasSuffix, DayEnding, DateAt;
      var today := DateAt(now);
      var paths := locks.Keys;
      while paths != {}
        invariant paths <= old(locks).Keys
        invariant forall path ::
          path in locks <==> path in old(locks) && (path in paths || HasSuffix(path, DayEnding(today)))
        invariant forall path :: path in locks ==> locks[path] == old(locks)[path]
        decreases |paths|
      {
        var path :| path in paths;
        paths := paths - {path};
        if !HasSuffix(path, DayEnding(today)) {
          locks := locks - {path};
        }
      }
    }

    /**
     * One update of a counter under its lock. Success rewrites the file; a refusal by mutate or by the file
     * system changes no count, though it may leave an empty file behind; a write cut short leaves a shorter
     * number.
     */
    method WithLockedCounter(path: Octets, mutate: Int64 -> Option<Int64>, now: nat, io: CounterIo) returns (done: bool)
      requires dir.Valid()
      modifies this`locks, dir
      ensures dir.Valid()
      ensures done <==> io.Fine? && mutate(Used(old(dir.files), path)).Some?
      ensures done ==> Used(dir.files, path) == mutate(Used(old(dir.files), path)).value
      ensures done ==> dir.files == old(dir.files)[path := FormatInt(mutate(Used(old(dir.files), path)).value)]
      ensures done ==> dir.mtimes == old(dir.mtimes)[path := now]
      ensures io.CutShort? && mutate(Used(old(dir.files), path)).Some? ==>
                var text := FormatInt(mutate(Used(old(dir.files), path)).value);
                dir.files == old(dir.files)[path := text[..Min(io.kept, |text|)]]
      ensures !done && !io.CutShort? ==> Used(dir.files, path) == Used(old(dir.files), path)
      ensures forall other :: other != path ==>
                && (other in dir.files <==> other in old(dir.files))
                && Used(dir.files, other) == Used(old(dir.files), other)
                && (other in dir.files ==> dir.mtimes[other] == old(dir.mtimes)[other])
      ensures locks.Keys == old(locks).Keys + {path}
      ensures forall other :: other in old(locks) ==> locks[other] == old(locks)[other]
    {
      hide Used, Counter, FormatInt;
      ghost var before := dir.files;
      var _ := GateFor(path);
      if io.Refused? {
        return false;
      }
      EmptyCountsAsZero(before, path, path);
      UsedAfterWrite(before, path, []);
      if path !in dir.files {
        dir.Put(path, [], now);
      }
      var used := Counter(dir.files[path]);
      UsedIsRead(dir.files, path);
      var next := mutate(used);
      if next.None? {
        return false;
      }
      if io.CannotTruncate? {
        return false;
      }
      var text := FormatInt(next.value);
      CounterRoundTrip(next.value);
      if io.CutShort? {
        text := text[..Min(io.kept, |text|)];
      }
      UsedAfterWrite(before, path, text);
      WrittenTwice(before, path, [], text);
      WrittenTwice(old(dir.mtimes), path, now, now);
      dir.Put(path, text, now);
      return io.Fine?;
    }

    method Consume(key: Octets, bytes: Int64, at: nat, now: nat, dirOk: bool, io: CounterIo) returns (granted: bool)
      requires dir.Valid()
      modifies this`locks, dir
      ensures dir.Valid()
      ensures var limit, path, before := quotaFor(key), CounterAt(key, at), old(dir.files);
              if limit <= 0 then granted && dir.files == before
              else
                && (granted <==> dirOk && io.Fine? && Reserve(limit, bytes, Used(before, path)).Some?)
                && (granted ==> Used(dir.files, path) == Reserve(limit, bytes, Used(before, path)).value)
                && (!granted && !io.CutShort? ==> Used(dir.files, path) == Used(before, path))
                && forall other :: other != path ==> Used(dir.files, other) == Used(before, other)
    {
      hide Used, CounterAt;
      var limit := quotaFor(key);
      if limit <= 0 {
        return true;
      }
      var path := CounterAt(key, at);
      if !dirOk {
        return false;
      }
      granted := WithLockedCounter(path, used => Reserve(limit, bytes, used), now, io);
    }

    method Refund(key: Octets, bytes: Int64, at: nat, now: nat, io: CounterIo)
      requires dir.Valid()
      modifies this`locks, dir
      ensures dir.Valid()
      ensures var path, before := CounterAt(key, at), old(dir.files);
              if quotaFor(key) <= 0 || bytes <= 0 then dir.files == before
              else
                && (io.Fine? ==> Used(dir.files, path) == GiveBack(bytes, Used(before, path)).value)
                && (io.Refused? || io.CannotTruncate? ==> Used(dir.files, path) == Used(before, path))
                && forall other :: other != path ==> Used(dir.files, other) == Used(before, other)
    {
      hide Used, CounterAt;
      if quotaFor(key) <= 0 || bytes <= 0 {
        return;
      }
      var _ := WithLockedCounter(CounterAt(key, at), used => GiveBack(bytes, used), now, io);
    }
  }
}
