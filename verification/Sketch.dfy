/** A HyperLogLog counter: what its registers say about the values it was shown. */
module Sketch {
  const REGISTERS := 16384

  type Hash = bv64

  /** A bit of a hash, from zero at the bottom, or a number of bits. */
  type Position = bv8

  /** One octet of the register array. */
  type Register = n: nat | n < 256

  // ---- one hash -------------------------------------------------------------------------------

  predicate Bit(x: Hash, i: Position)
    requires i < 64
  {
    (x >> i) & 1 == 1
  }

  /** How many bits from the top down are zero, given that the first i are. */
  function ZerosFrom(x: Hash, i: Position): (zeros: Position)
    requires i <= 64
    ensures i <= zeros <= 64 && (zeros < 64 ==> Bit(x, 63 - zeros))
    decreases 64 - i
  {
    hide Bit;
    if i == 64 then 64 else if Bit(x, 63 - i) then i else ZerosFrom(x, i + 1)
  }

  lemma {:induction false} ZerosAreZero(x: Hash, i: Position, b: Position)
    requires i <= 64 && b < 64 - i && 63 - b < ZerosFrom(x, i)
    ensures !Bit(x, b)
    decreases 64 - i
  {
    hide Bit;
    if b != 63 - i {
      ZerosAreZero(x, i + 1, b);
    }
  }

  /** bits.LeadingZeros64. */
  function LeadingZeros(x: Hash): Position
  {
    ZerosFrom(x, 0)
  }

  /** The register a hash goes to: its top fourteen bits. */
  function Index(hash: Hash): (i: nat)
    ensures i < REGISTERS && i as bv64 == hash >> 50
  {
    var top := hash >> 50;
    assert top < 0x4000;
    top as nat
  }

  /** The other fifty bits, moved up, and a guard bit below them. */
  function Rest(hash: Hash): Hash
  {
    (hash << 14) | 0x2000
  }

  /** The register and the ranked bits come from different parts of a hash, and between them from all of it. */
  lemma PartsTellTheHash(a: Hash, b: Hash)
    ensures Index(a) == Index(b) && Rest(a) == Rest(b) ==> a == b
  {
    hide Index, Rest;
    if Index(a) == Index(b) && Rest(a) == Rest(b) {
      JoinParts(a, b);
    }
  }

  lemma JoinParts(a: Hash, b: Hash)
    requires a >> 50 == b >> 50 && Rest(a) == Rest(b)
    ensures a == b
  {
  }

  lemma RestKeepsBits(hash: Hash, i: Position)
    requires i < 50
    ensures Bit(Rest(hash), i + 14) == Bit(hash, i)
  {
  }

  lemma GuardIsSet(hash: Hash)
    ensures Bit(Rest(hash), 13)
  {
  }

  lemma ZerosStopAtGuard(hash: Hash)
    ensures LeadingZeros(Rest(hash)) <= 50
  {
    GuardIsSet(hash);
    hide Bit, Rest;
    if 50 < LeadingZeros(Rest(hash)) {
      ZerosAreZero(Rest(hash), 0, 13);
    }
  }

  function Rank(hash: Hash): (rank: nat)
    ensures 1 <= rank <= 51
  {
    ZerosStopAtGuard(hash);
    hide LeadingZeros, Rest;
    LeadingZeros(Rest(hash)) as nat + 1
  }

  /** The rank of a hash is one more than the zeros its low fifty bits start with. */
  lemma RankCountsZeros(hash: Hash) returns (zeros: Position)
    ensures Rank(hash) == zeros as nat + 1 && zeros <= 50
    ensures zeros < 50 ==> Bit(hash, 49 - zeros)
    ensures forall b :: b < 50 && 49 < b + zeros ==> !Bit(hash, b)
  {
    hide Bit, Rest;
    zeros := LeadingZeros(Rest(hash));
    ZerosStopAtGuard(hash);
    if zeros < 50 {
      RestKeepsBits(hash, 49 - zeros);
    }
    forall b | b < 50 && 49 < b + zeros
      ensures !Bit(hash, b)
    {
      RestKeepsBits(hash, b);
      ZerosAreZero(Rest(hash), 0, b + 14);
    }
  }

  // ---- many hashes ----------------------------------------------------------------------------

  /** Registers that hold, each, the highest rank among the hashes that go to it, and zero where none does. */
  ghost predicate Shows(registers: seq<Register>, hashes: set<Hash>)
  {
    && |registers| == REGISTERS
    && (forall hash :: hash in hashes ==> Rank(hash) <= registers[Index(hash)])
    && (forall i :: 0 <= i < REGISTERS ==> Attained(registers[i], i, hashes))
  }

  ghost predicate Attained(register: Register, i: nat, hashes: set<Hash>)
  {
    register == 0 || exists hash :: hash in hashes && Index(hash) == i && Rank(hash) == register
  }

  /** A sketch depends only on the set of values it was shown, and no register exceeds 51. */
  lemma ShowsOnlyTheSet(a: seq<Register>, b: seq<Register>, hashes: set<Hash>)
    requires Shows(a, hashes) && Shows(b, hashes)
    ensures a == b && forall i :: 0 <= i < REGISTERS ==> a[i] <= 51
  {
    hide Rank, Index;
    forall i | 0 <= i < REGISTERS
      ensures a[i] == b[i] && a[i] <= 51
    {
      AtMost(a, b, hashes, i);
      AtMost(b, a, hashes, i);
    }
  }

  lemma AtMost(a: seq<Register>, b: seq<Register>, hashes: set<Hash>, i: nat)
    requires Shows(a, hashes) && Shows(b, hashes) && i < REGISTERS
    ensures a[i] <= b[i] && a[i] <= 51
  {
  }

  function Larger(a: Register, b: Register): Register
  {
    if a > b then a else b
  }

  /** Taking the larger register everywhere shows the union. */
  lemma LargerShowsUnion(a: seq<Register>, b: seq<Register>, merged: seq<Register>, left: set<Hash>, right: set<Hash>)
    requires Shows(a, left) && Shows(b, right) && |merged| == REGISTERS
    requires forall i :: 0 <= i < REGISTERS ==> merged[i] == Larger(a[i], b[i])
    ensures Shows(merged, left + right)
  {
  }

  /** One register raised to a hash's rank shows that hash too. */
  lemma RaisedShowsOneMore(a: seq<Register>, raised: seq<Register>, hashes: set<Hash>, hash: Hash)
    requires Shows(a, hashes) && raised == a[Index(hash) := Larger(Rank(hash), a[Index(hash)])]
    ensures Shows(raised, hashes + {hash})
  {
    hide Rank, Index, Attained;
    forall i | 0 <= i < REGISTERS
      ensures Attained(raised[i], i, hashes + {hash})
    {
      assert Attained(a[i], i, hashes);
      if i == Index(hash) && Rank(hash) > a[i] {
        IsAttained(hash, i, hashes + {hash});
      } else {
        StillAttained(a[i], i, hashes, hash);
      }
    }
  }

  lemma IsAttained(hash: Hash, i: nat, hashes: set<Hash>)
    requires hash in hashes && Index(hash) == i
    ensures Attained(Rank(hash), i, hashes)
  {
    hide Rank, Index;
  }

  lemma StillAttained(register: Register, i: nat, hashes: set<Hash>, hash: Hash)
    requires Attained(register, i, hashes)
    ensures Attained(register, i, hashes + {hash})
  {
    hide Rank, Index;
    if register != 0 {
      var other :| other in hashes && Index(other) == i && Rank(other) == register;
      assert other in hashes + {hash};
    }
  }

  lemma EmptyShowsNothing(registers: seq<Register>)
    requires |registers| == REGISTERS && forall i :: 0 <= i < REGISTERS ==> registers[i] == 0
    ensures Shows(registers, {})
  {
  }

  class Sketch {
    const registers: array<Register>
    ghost var shown: set<Hash>

    ghost predicate Valid()
      reads this, registers
    {
      registers.Length == REGISTERS && Shows(registers[..], shown)
    }

    constructor ()
      ensures Valid() && fresh(registers) && shown == {}
    {
      registers := new Register[REGISTERS](_ => 0);
      shown := {};
      new;
      EmptyShowsNothing(registers[..]);
    }

    method Add(hash: Hash)
      requires Valid()
      modifies this`shown, registers
      ensures Valid() && shown == old(shown) + {hash}
    {
      hide Shows, Index, Rank;
      var index, rank := Index(hash), Rank(hash);
      ghost var before := registers[..];
      if rank > registers[index] {
        registers[index] := rank;
      }
      shown := shown + {hash};
      assert registers[..] == before[index := Larger(rank, before[index])];
      RaisedShowsOneMore(before, registers[..], old(shown), hash);
    }

    method Merge(other: Sketch)
      requires Valid() && other.Valid()
      modifies this`shown, registers
      ensures Valid() && shown == old(shown) + old(other.shown)
    {
      hide Shows, Index, Rank;
      ghost var a, b := registers[..], other.registers[..];
      for i := 0 to REGISTERS
        invariant forall j :: 0 <= j < i ==> registers[j] == Larger(a[j], b[j])
        invariant forall j :: i <= j < REGISTERS ==> registers[j] == a[j]
        invariant other.registers != registers ==> other.registers[..] == b
        invariant shown == old(shown) && other.shown == old(other.shown)
      {
        var rank := other.registers[i];
        if rank > registers[i] {
          registers[i] := rank;
        }
      }
      LargerShowsUnion(a, b, registers[..], shown, other.shown);
      shown := shown + old(other.shown);
    }

    method Reset()
      requires registers.Length == REGISTERS
      modifies this`shown, registers
      ensures Valid() && shown == {}
    {
      for i := 0 to REGISTERS
        invariant forall j :: 0 <= j < i ==> registers[j] == 0
      {
        registers[i] := 0;
      }
      EmptyShowsNothing(registers[..]);
      shown := {};
    }
  }
}
