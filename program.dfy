/** The lowered program (chalk's `Program`), reduced to what the verification
    queries read: the trait, struct and impl maps. They are `BTreeMap`s, so
    `keys()` yields their ids in ascending order. */
module Programs {

  /** Every item id wraps one `RawId` index and is ordered by it. */
  type RawId = nat
  type TraitId = RawId
  type StructId = RawId
  type ImplId = RawId

  /** Declaration contents: only the collaborators look inside them. */
  type TraitDatum
  type StructDatum
  type ImplDatumBound

  /** Whether an impl is declared in this program or pulled in from elsewhere. */
  datatype ImplType = Local | External

  datatype ImplDatum = ImplDatum(binders: ImplDatumBound, implType: ImplType)

  datatype Program = Program(
    traitData: map<TraitId, TraitDatum>,
    structData: map<StructId, StructDatum>,
    implData: map<ImplId, ImplDatum>)
  {
    /** `trait_data.keys()` */
    function TraitIds(): seq<TraitId> {
      SortedKeys(traitData.Keys)
    }

    /** `struct_data.keys()` */
    function StructIds(): seq<StructId> {
      SortedKeys(structData.Keys)
    }

    /** `impl_data.keys()` */
    function ImplIds(): seq<ImplId> {
      SortedKeys(implData.Keys)
    }

    /** `local_impl_ids()`: the ids of the impls declared locally, in key order. */
    function LocalImplIds(): seq<ImplId> {
      SortedKeysSpec(implData.Keys);
      KeepLocal(ImplIds())
    }

    /** The local impls are listed once each, in ascending order. */
    lemma LocalImplIdsSpec()
      ensures StrictlyIncreasing(LocalImplIds())
      ensures forall id :: id in LocalImplIds() <==> id in implData && implData[id].implType == Local
    {
      SortedKeysSpec(implData.Keys);
      KeptInOrder(ImplIds());
    }

    function KeepLocal(ids: seq<ImplId>): (kept: seq<ImplId>)
      requires forall id :: id in ids ==> id in implData
      ensures forall id :: id in kept <==> id in ids && implData[id].implType == Local
    {
      if ids == [] then []
      else
        var rest := KeepLocal(ids[1..]);
        assert forall id :: id in rest ==> id in ids[1..];
        if implData[ids[0]].implType == Local then [ids[0]] + rest else rest
    }

    lemma {:induction false} KeptInOrder(ids: seq<ImplId>)
      requires forall id :: id in ids ==> id in implData
      requires StrictlyIncreasing(ids)
      ensures StrictlyIncreasing(KeepLocal(ids))
    {
      if ids != [] {
        assert StrictlyIncreasing(ids[1..]);
        KeptInOrder(ids[1..]);
        var rest := KeepLocal(ids[1..]);
        var kept := KeepLocal(ids);
        if implData[ids[0]].implType == Local {
          assert kept == [ids[0]] + rest;
          forall i, j | 0 <= i < j < |kept|
            ensures kept[i] < kept[j]
          {
            assert kept[j] == rest[j - 1] && rest[j - 1] in ids[1..];
            if i > 0 {
              assert kept[i] == rest[i - 1];
            }
          }
        }
      }
    }
  }

  ghost predicate StrictlyIncreasing(s: seq<RawId>) {
    forall i, j :: 0 <= i < j < |s| ==> s[i] < s[j]
  }

  predicate IsLeast(m: RawId, s: set<RawId>) {
    m in s && forall x :: x in s ==> m <= x
  }

  lemma {:induction false} MinimumExists(s: set<RawId>)
    requires s != {}
    ensures exists m :: IsLeast(m, s)
  {
    var y :| y in s;
    var rest := s - {y};
    if rest == {} {
      assert s == {y};
      assert IsLeast(y, s);
    } else {
      MinimumExists(rest);
      var m :| IsLeast(m, rest);
      var least := if y < m then y else m;
      forall x | x in s
        ensures least <= x
      {
        if x != y {
          assert x in rest;
        }
      }
      assert IsLeast(least, s);
    }
  }

  function Minimum(s: set<RawId>): (m: RawId)
    requires s != {}
    ensures IsLeast(m, s)
  {
    MinimumExists(s);
    var m :| IsLeast(m, s);
    m
  }

  /** The keys of a `BTreeMap` in iteration order. */
  function SortedKeys(keys: set<RawId>): seq<RawId> {
    if keys == {} then [] else var m := Minimum(keys); [m] + SortedKeys(keys - {m})
  }

  /** Each key once, in ascending order. */
  lemma {:induction false} SortedKeysSpec(keys: set<RawId>)
    ensures StrictlyIncreasing(SortedKeys(keys))
    ensures forall id :: id in SortedKeys(keys) <==> id in keys
    ensures |SortedKeys(keys)| == |keys|
  {
    if keys != {} {
      var m := Minimum(keys);
      SortedKeysSpec(keys - {m});
      var rest := SortedKeys(keys - {m});
      assert SortedKeys(keys) == [m] + rest;
      forall j | 0 <= j < |rest|
        ensures m < rest[j]
      {
        assert rest[j] in keys - {m};
      }
    }
  }
}
