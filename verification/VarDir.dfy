/** The var directory: small files, each with the time it was last written, that the quota and the sweep share. */
module VarDir {
  import opened Text

  predicate HasPrefix(name: Octets, prefix: Octets)
  {
    |prefix| <= |name| && name[..|prefix|] == prefix
  }

  /** The files of a prefix that were last written more than some time ago. */
  function Aged(mtimes: map<Octets, nat>, prefix: Octets, maxAge: nat, now: nat): set<Octets>
  {
    set name | name in mtimes && HasPrefix(name, prefix) && now > mtimes[name] + maxAge
  }

  lemma IsAged(mtimes: map<Octets, nat>, prefix: Octets, maxAge: nat, now: nat, name: Octets)
    requires name in mtimes
    ensures name in Aged(mtimes, prefix, maxAge, now) <==> HasPrefix(name, prefix) && now > mtimes[name] + maxAge
  {
  }

  lemma AgedAreThere(mtimes: map<Octets, nat>, prefix: Octets, maxAge: nat, now: nat)
    ensures Aged(mtimes, prefix, maxAge, now) <= mtimes.Keys
  {
  }

  lemma MinusOneMore<K, V>(m: map<K, V>, taken: set<K>, k: K)
    ensures (m - taken) - {k} == m - (taken + {k}) && m - {} == m
  {
  }

  class Directory {
    var files: map<Octets, Octets>
    var mtimes: map<Octets, nat>

    ghost predicate Valid()
      reads this
    {
      mtimes.Keys == files.Keys
    }

    constructor ()
      ensures Valid() && files == map[] && mtimes == map[]
    {
      files, mtimes := map[], map[];
    }

    method Put(name: Octets, text: Octets, now: nat)
      requires Valid()
      modifies this
      ensures Valid() && files == old(files)[name := text] && mtimes == old(mtimes)[name := now]
    {
      files, mtimes := files[name := text], mtimes[name := now];
    }

    /** reapByPrefix: old files of a prefix go, but for those that cannot be removed. */
    method ReapByPrefix(prefix: Octets, maxAge: nat, now: nat, stuck: set<Octets>) returns (removed: nat)
      requires Valid()
      modifies this
      ensures var gone := Aged(old(mtimes), prefix, maxAge, now) - stuck;
              Valid() && files == old(files) - gone && mtimes == old(mtimes) - gone && removed == |gone|
    {
      hide Aged, HasPrefix;
      ghost var taken: set<Octets> := {};
      removed := 0;
      var names := files.Keys;
      AgedAreThere(mtimes, prefix, maxAge, now);
      MinusOneMore(files, {}, prefix);
      MinusOneMore(mtimes, {}, prefix);
      while names != {}
        invariant names <= old(files).Keys && removed == |taken|
        invariant forall name ::
          name in taken <==> name in Aged(old(mtimes), prefix, maxAge, now) && name !in stuck && name !in names
        invariant files == old(files) - taken && mtimes == old(mtimes) - taken
        decreases |names|
      {
        var name :| name in names;
        names := names - {name};
        IsAged(old(mtimes), prefix, maxAge, now, name);
        if HasPrefix(name, prefix) && now > mtimes[name] + maxAge && name !in stuck {
          MinusOneMore(old(files), taken, name);
          MinusOneMore(old(mtimes), taken, name);
          files, mtimes := files - {name}, mtimes - {name};
          removed := removed + 1;
          taken := taken + {name};
        }
      }
      assert taken == Aged(old(mtimes), prefix, maxAge, now) - stuck;
    }
  }
}
