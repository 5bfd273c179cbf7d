/** API keys: how the configured map becomes an ordered list, and who a presented secret belongs to. */
module Keys {
  import opened Text

  const ANONYMOUS: Octets := "anonymous"

  datatype RawKey = RawKey(secret: Octets, quotaBytesPerDay: int, enabled: Option<bool>)

  datatype ApiKey = ApiKey(id: Octets, secret: Octets, quotaBytesPerDay: int, enabled: bool)

  // ---- the order of key ids -------------------------------------------------------------------

  /** Go's < on strings. */
  predicate Less(a: Octets, b: Octets)
  {
    if b == [] then false
    else if a == [] then true
    else if a[0] != b[0] then a[0] < b[0]
    else Less(a[1..], b[1..])
  }

  lemma {:induction false} LessIsTotal(a: Octets, b: Octets)
    ensures Less(a, b) || a == b || Less(b, a)
    ensures !(Less(a, b) && Less(b, a))
  {
    if a != [] && b != [] && a[0] == b[0] {
      LessIsTotal(a[1..], b[1..]);
      assert a == [a[0]] + a[1..] && b == [b[0]] + b[1..];
    }
  }

  lemma {:induction false} LessIsTransitive(a: Octets, b: Octets, c: Octets)
    requires Less(a, b) && Less(b, c)
    ensures Less(a, c)
  {
    if a != [] && a[0] == b[0] && b[0] == c[0] {
      LessIsTransitive(a[1..], b[1..], c[1..]);
    }
  }

  /** Listed by strictly rising id. */
  ghost predicate Rising(keys: seq<ApiKey>)
  {
    forall i, j :: 0 <= i < j < |keys| ==> Less(keys[i].id, keys[j].id)
  }

  // ---- normalising ----------------------------------------------------------------------------

  /** The entries that survive: not the reserved id, and with a secret. */
  predicate Kept(raw: map<Octets, RawKey>, id: Octets)
  {
    id in raw && id != ANONYMOUS && raw[id].secret != []
  }

  function Normal(id: Octets, spec: RawKey): ApiKey
  {
    var quota := if spec.quotaBytesPerDay < 0 then 0 else spec.quotaBytesPerDay;
    ApiKey(id, spec.secret, quota, spec.enabled.None? || spec.enabled.value)
  }

  ghost predicate Lists(raw: map<Octets, RawKey>, keys: seq<ApiKey>, ids: set<Octets>)
  {
    && (forall i :: 0 <= i < |keys| ==>
          keys[i].id in ids && Kept(raw, keys[i].id) && keys[i] == Normal(keys[i].id, raw[keys[i].id]))
    && (forall id :: id in ids && Kept(raw, id) ==> exists i :: 0 <= i < |keys| && keys[i].id == id)
  }

  /** The list the rest of the server sees: every kept entry once, in rising order of id. */
  ghost predicate IsNormalised(raw: map<Octets, RawKey>, keys: seq<ApiKey>)
  {
    Rising(keys) && Lists(raw, keys, raw.Keys)
  }

  /** A map iteration: every key of the map, once, in any order. */
  ghost predicate Iterates(order: seq<Octets>, raw: map<Octets, RawKey>)
  {
    && (forall i, j :: 0 <= i < j < |order| ==> order[i] != order[j])
    && (forall id :: id in order <==> id in raw)
  }

  lemma ListsOneMore(raw: map<Octets, RawKey>, keys: seq<ApiKey>, ids: set<Octets>, id: Octets)
    requires Lists(raw, keys, ids) && id in raw
    ensures Kept(raw, id) ==> Lists(raw, keys + [Normal(id, raw[id])], ids + {id})
    ensures !Kept(raw, id) ==> Lists(raw, keys, ids + {id})
  {
    if Kept(raw, id) {
      var more := keys + [Normal(id, raw[id])];
      forall other | other in ids + {id} && Kept(raw, other)
        ensures exists i :: 0 <= i < |more| && more[i].id == other
      {
        if other == id {
          assert more[|keys|].id == id;
        } else {
          var i :| 0 <= i < |keys| && keys[i].id == other;
          assert more[i].id == other;
        }
      }
    }
  }

  lemma ListsInAnyOrder(raw: map<Octets, RawKey>, keys: seq<ApiKey>, sorted: seq<ApiKey>, ids: set<Octets>)
    requires Lists(raw, keys, ids) && forall key :: key in sorted <==> key in keys
    ensures Lists(raw, sorted, ids)
  {
    forall i | 0 <= i < |sorted|
      ensures sorted[i] in keys
    {
    }
    forall id | id in ids && Kept(raw, id)
      ensures exists i :: 0 <= i < |sorted| && sorted[i].id == id
    {
      var i :| 0 <= i < |keys| && keys[i].id == id;
      assert keys[i] in sorted;
    }
  }

  method NormaliseKeys(raw: map<Octets, RawKey>, order: seq<Octets>) returns (keys: seq<ApiKey>)
    requires Iterates(order, raw)
    ensures IsNormalised(raw, keys)
  {
    keys := [];
    ghost var seen: set<Octets> := {};
    for n := 0 to |order|
      invariant forall id :: id in seen <==> id in order[..n]
      invariant Lists(raw, keys, seen)
      invariant forall i, j :: 0 <= i < j < |keys| ==> keys[i].id != keys[j].id
    {
      var id := order[n];
      assert id in raw && id !in seen;
      ListsOneMore(raw, keys, seen, id);
      seen := seen + {id};
      assert order[..n + 1] == order[..n] + [id];
      if id == ANONYMOUS {
        continue;
      }
      var spec := raw[id];
      if spec.secret == [] {
        continue;
      }
      var enabled := true;
      if spec.enabled.Some? {
        enabled := spec.enabled.value;
      }
      var quota := spec.quotaBytesPerDay;
      if quota < 0 {
        quota := 0;
      }
      hide Lists;
      keys := keys + [ApiKey(id, spec.secret, quota, enabled)];
    }
    assert order[..|order|] == order;
    assert seen == raw.Keys;
    ghost var unsorted := keys;
    keys := SortById(keys);
    ListsInAnyOrder(raw, unsorted, keys, seen);
  }

  /** sort.Slice by id, on a list without a repeated id. */
  method SortById(keys: seq<ApiKey>) returns (sorted: seq<ApiKey>)
    requires forall i, j :: 0 <= i < j < |keys| ==> keys[i].id != keys[j].id
    ensures Rising(sorted)
    ensures forall key :: key in sorted <==> key in keys
  {
    sorted := [];
    for n := 0 to |keys|
      invariant Rising(sorted)
      invariant forall key :: key in sorted <==> key in keys[..n]
    {
      var key := keys[n];
      var at := 0;
      while at < |sorted| && Less(sorted[at].id, key.id)
        invariant 0 <= at <= |sorted|
        invariant forall i :: 0 <= i < at ==> Less(sorted[i].id, key.id)
      {
        at := at + 1;
      }
      forall i | at <= i < |sorted|
        ensures Less(key.id, sorted[i].id)
      {
        assert sorted[at] in keys[..n];
        LessIsTotal(sorted[at].id, key.id);
        if i > at {
          LessIsTransitive(key.id, sorted[at].id, sorted[i].id);
        }
      }
      sorted := sorted[..at] + [key] + sorted[at..];
      assert keys[..n + 1] == keys[..n] + [key];
    }
    assert keys[..|keys|] == keys;
  }

  /** Only one list is normalised for a map, so no iteration order of the map can be seen in it. */
  lemma {:induction false} OrderDoesNotMatter(raw: map<Octets, RawKey>, a: seq<ApiKey>, b: seq<ApiKey>,
      ids: set<Octets>)
    requires Rising(a) && Rising(b) && Lists(raw, a, ids) && Lists(raw, b, ids)
    ensures a == b
    decreases |a|
  {
    hide Rising, Lists;
    if a == [] {
      if b != [] {
        SameHead(raw, b, a, ids);
      }
    } else {
      SameHead(raw, a, b, ids);
      TailLists(raw, a, ids);
      TailLists(raw, b, ids);
      OrderDoesNotMatter(raw, a[1..], b[1..], ids - {a[0].id});
      assert a == [a[0]] + a[1..] && b == [b[0]] + b[1..];
    }
  }

  lemma SameHead(raw: map<Octets, RawKey>, a: seq<ApiKey>, b: seq<ApiKey>, ids: set<Octets>)
    requires Rising(a) && Rising(b) && Lists(raw, a, ids) && Lists(raw, b, ids) && a != []
    ensures b != [] && a[0] == b[0]
  {
    hide Less, Normal, Kept;
    assert a[0].id in ids && Kept(raw, a[0].id);
    var j :| 0 <= j < |b| && b[j].id == a[0].id;
    assert b[0].id in ids && Kept(raw, b[0].id);
    var i :| 0 <= i < |a| && a[i].id == b[0].id;
    LessIsTotal(a[0].id, b[0].id);
  }

  lemma TailLists(raw: map<Octets, RawKey>, keys: seq<ApiKey>, ids: set<Octets>)
    requires keys != [] && Rising(keys) && Lists(raw, keys, ids)
    ensures Rising(keys[1..]) && Lists(raw, keys[1..], ids - {keys[0].id})
  {
    var rest := keys[1..];
    forall i | 0 <= i < |rest|
      ensures rest[i].id != keys[0].id
    {
      assert Less(keys[0].id, keys[i + 1].id);
      LessIsTotal(keys[0].id, keys[0].id);
    }
    forall id | id in ids - {keys[0].id} && Kept(raw, id)
      ensures exists i :: 0 <= i < |rest| && rest[i].id == id
    {
      var i :| 0 <= i < |keys| && keys[i].id == id;
      assert rest[i - 1].id == id;
    }
  }

  // ---- identifying ----------------------------------------------------------------------------

  predicate Matches(key: ApiKey, presented: Octets)
  {
    key.secret == presented && key.enabled
  }

  /** The last key in the list that matches. */
  function LastMatch(keys: seq<ApiKey>, presented: Octets): Option<Octets>
  {
    if keys == [] then None
    else if Matches(keys[|keys| - 1], presented) then Some(keys[|keys| - 1].id)
    else LastMatch(keys[..|keys| - 1], presented)
  }

  function IdentifyIn(keys: seq<ApiKey>, presented: Octets): Option<Octets>
  {
    if presented == [] then None else LastMatch(keys, presented)
  }

  method Identify(keys: seq<ApiKey>, presented: Octets) returns (id: Option<Octets>)
    ensures id == IdentifyIn(keys, presented)
  {
    if presented == [] {
      return None;
    }
    var matched: Octets := "";
    var found := false;
    for i := 0 to |keys|
      invariant LastMatch(keys[..i], presented) == if found then Some(matched) else None
    {
      assert keys[..i + 1][..i] == keys[..i];
      var equal := keys[i].secret == presented;
      if equal && keys[i].enabled {
        matched, found := keys[i].id, true;
      }
    }
    assert keys[..|keys|] == keys;
    return if found then Some(matched) else None;
  }

  /** Whether an id may be used with a secret: a kept entry holding it, and not switched off. */
  predicate Holds(raw: map<Octets, RawKey>, id: Octets, presented: Octets)
  {
    Kept(raw, id) && raw[id].secret == presented && Normal(id, raw[id]).enabled
  }

  /** The greatest id that may be used with a secret. */
  ghost predicate Greatest(raw: map<Octets, RawKey>, presented: Octets, id: Octets)
  {
    Holds(raw, id, presented) && forall other :: Holds(raw, other, presented) && other != id ==> Less(other, id)
  }

  /** No key from some place on matches. */
  predicate Unmatched(keys: seq<ApiKey>, from: nat, presented: Octets)
  {
    forall i :: from <= i < |keys| ==> !Matches(keys[i], presented)
  }

  lemma {:induction false} LastMatchIsLast(keys: seq<ApiKey>, presented: Octets) returns (last: nat)
    ensures LastMatch(keys, presented).None? ==> Unmatched(keys, 0, presented)
    ensures LastMatch(keys, presented).Some? ==>
              && last < |keys| && Matches(keys[last], presented) && LastMatch(keys, presented) == Some(keys[last].id)
              && Unmatched(keys, last + 1, presented)
  {
    hide Matches;
    last := 0;
    if keys != [] {
      var n := |keys| - 1;
      if Matches(keys[n], presented) {
        last := n;
      } else {
        last := LastMatchIsLast(keys[..n], presented);
        var from := if LastMatch(keys, presented).Some? then last + 1 else 0;
        UnmatchedOneMore(keys, from, presented);
      }
    }
  }

  lemma UnmatchedOneMore(keys: seq<ApiKey>, from: nat, presented: Octets)
    requires keys != [] && Unmatched(keys[..|keys| - 1], from, presented) && !Matches(keys[|keys| - 1], presented)
    ensures Unmatched(keys, from, presented)
  {
  }

  lemma ListedMatch(raw: map<Octets, RawKey>, keys: seq<ApiKey>, presented: Octets, id: Octets) returns (i: nat)
    requires IsNormalised(raw, keys) && Holds(raw, id, presented)
    ensures i < |keys| && keys[i].id == id && Matches(keys[i], presented)
  {
    assert id in raw.Keys && Kept(raw, id);
    i :| 0 <= i < |keys| && keys[i].id == id;
  }

  /**
   * Over a normalised list, a presented secret is identified as the greatest id that may be used with
   * it, and as nobody exactly when there is none. It is never identified as the anonymous owner.
   */
  lemma IdentifiesTheGreatest(raw: map<Octets, RawKey>, keys: seq<ApiKey>, presented: Octets)
    requires IsNormalised(raw, keys)
    ensures IdentifyIn(keys, presented).None? <==> forall id :: !Holds(raw, id, presented)
    ensures forall id :: IdentifyIn(keys, presented) == Some(id) <==> Greatest(raw, presented, id)
    ensures IdentifyIn(keys, presented) != Some(ANONYMOUS)
  {
    var i := LastMatchIsLast(keys, presented);
    var found := IdentifyIn(keys, presented);
    if found.Some? {
      assert Holds(raw, found.value, presented);
      forall other | Holds(raw, other, presented) && other != found.value
        ensures Less(other, found.value) && !Less(found.value, other)
      {
        var j := ListedMatch(raw, keys, presented, other);
        assert j < i;
        LessIsTotal(other, found.value);
      }
    } else {
      forall id
        ensures !Holds(raw, id, presented)
      {
        if Holds(raw, id, presented) {
          var _ := ListedMatch(raw, keys, presented, id);
        }
      }
    }
  }

  // ---- quotas ---------------------------------------------------------------------------------

  method QuotaFor(keys: seq<ApiKey>, openQuota: int, keyId: Octets, ghost raw: map<Octets, RawKey>) returns (quota: int)
    requires IsNormalised(raw, keys)
    ensures quota == if keyId == ANONYMOUS then openQuota
                     else if Kept(raw, keyId) then Normal(keyId, raw[keyId]).quotaBytesPerDay
                     else 0
  {
    if keyId == ANONYMOUS {
      return openQuota;
    }
    for i := 0 to |keys|
      invariant forall j :: 0 <= j < i ==> keys[j].id != keyId
    {
      if keys[i].id == keyId {
        return keys[i].quotaBytesPerDay;
      }
    }
    assert keyId in raw.Keys ==> !Kept(raw, keyId);
    return 0;
  }
}
