/**
 * The activation sweep: every cache generation whose name is not one of the
 * current version's three names is deleted; the others are kept untouched.
 */
module Activation {
  import opened Storage

  /** A name the current version owns. */
  predicate IsKnown(name: string) {
    name == STATIC_CACHE_NAME || name == DYNAMIC_CACHE_NAME || name == CACHE_NAME
  }

  /** The names the sweep leaves behind, in their original order. */
  function Surviving(names: seq<string>): seq<string>
  {
    if names == [] then []
    else
      var last := names[|names| - 1];
      Surviving(names[..|names| - 1]) + if IsKnown(last) then [last] else []
  }

  /** The sweep keeps exactly the known names and deletes every other one. */
  lemma {:induction false} SurvivorsAreExactlyTheKnownNames(names: seq<string>)
    ensures forall n :: n in Surviving(names) <==> n in names && IsKnown(n)
  {
    if names != [] {
      var init := names[..|names| - 1];
      SurvivorsAreExactlyTheKnownNames(init);
      assert names == init + [names[|names| - 1]];
    }
  }

  /** The sweep keeps a list exactly when every name in it is known. */
  lemma {:induction false} SurvivingKeepsExactlyKnownLists(names: seq<string>)
    ensures Surviving(names) == names <==> forall i :: 0 <= i < |names| ==> IsKnown(names[i])
  {
    if names != [] {
      var init := names[..|names| - 1];
      SurvivingKeepsExactlyKnownLists(init);
      SurvivorsAreExactlyTheKnownNames(init);
      if forall i :: 0 <= i < |names| ==> IsKnown(names[i]) {
        assert forall i :: 0 <= i < |init| ==> IsKnown(init[i]) by {
          forall i | 0 <= i < |init|
            ensures IsKnown(init[i])
          {
            assert init[i] == names[i];
          }
        }
        assert init + [names[|names| - 1]] == names;
      } else {
        var i :| 0 <= i < |names| && !IsKnown(names[i]);
        assert names[i] in names;
      }
    }
  }

  /** A second sweep deletes nothing. */
  lemma SweepIsIdempotent(names: seq<string>)
    ensures Surviving(Surviving(names)) == Surviving(names)
  {
    var r := Surviving(names);
    SurvivorsAreExactlyTheKnownNames(names);
    assert forall i :: 0 <= i < |r| ==> IsKnown(r[i]) by {
      forall i | 0 <= i < |r|
        ensures IsKnown(r[i])
      {
        assert r[i] in r;
      }
    }
    SurvivingKeepsExactlyKnownLists(r);
  }

  /** Sweeping one more name extends the survivors by that name exactly when it is known. */
  lemma SurvivingAppend(names: seq<string>, name: string)
    ensures Surviving(names + [name]) == Surviving(names) + if IsKnown(name) then [name] else []
  {
    assert (names + [name])[..|names|] == names;
  }

  /** The sweep over a store holding an old version's generation next to the current ones. */
  lemma OldVersionIsSwept()
    ensures Surviving(["ieumcarelife-v0.9.0", STATIC_CACHE_NAME, DYNAMIC_CACHE_NAME])
            == [STATIC_CACHE_NAME, DYNAMIC_CACHE_NAME]
  {
    var legacy := "ieumcarelife-v0.9.0";
    assert !IsKnown(legacy) by {
      assert legacy[14] != CACHE_NAME[14];
      assert |legacy| != |STATIC_CACHE_NAME| && |legacy| != |DYNAMIC_CACHE_NAME|;
    }
    SurvivingAppend([], legacy);
    SurvivingAppend([legacy], STATIC_CACHE_NAME);
    SurvivingAppend([legacy, STATIC_CACHE_NAME], DYNAMIC_CACHE_NAME);
    assert [legacy] + [STATIC_CACHE_NAME] == [legacy, STATIC_CACHE_NAME];
    assert [legacy, STATIC_CACHE_NAME] + [DYNAMIC_CACHE_NAME] == [legacy, STATIC_CACHE_NAME, DYNAMIC_CACHE_NAME];
  }

  /** The generations of `generations` that a sweep over `swept` leaves. */
  function Kept(generations: map<string, Cache>, swept: seq<string>): map<string, Cache>
  {
    map n | n in generations && (n in swept ==> IsKnown(n)) :: generations[n]
  }

  /**
   * Once every generation's name has been swept, the store holds exactly the
   * known generations it held before, each still the same cache: nothing known
   * is lost and nothing unknown survives.
   */
  lemma SweptStoreKeepsExactlyKnownGenerations(generations: map<string, Cache>, names: seq<string>)
    requires forall n :: n in generations ==> n in names
    ensures forall n :: n in Kept(generations, names) <==> n in generations && IsKnown(n)
    ensures forall n :: n in Kept(generations, names) ==> Kept(generations, names)[n] == generations[n]
  {
  }

  /**
   * The `activate` handler's cache clean-up: enumerate the generations and
   * delete every one whose name is not known. Afterwards the store holds
   * exactly the known generations it held before, each the same cache object.
   */
  method Activate(storage: CacheStorage)
    requires storage.Valid()
    modifies storage
    ensures storage.Valid()
    ensures storage.names == Surviving(old(storage.names))
    ensures storage.generations == Kept(old(storage.generations), old(storage.names))
  {
    var cacheNames := storage.Keys();
    ghost var before := storage.generations;
    var i := 0;
    while i < |cacheNames|
      invariant 0 <= i <= |cacheNames|
      invariant storage.Valid()
      invariant storage.names == Surviving(cacheNames[..i]) + cacheNames[i..]
      invariant storage.generations == Kept(before, cacheNames[..i])
    {
      ghost var names, generations := storage.names, storage.generations;
      RetireIfUnknown(storage, cacheNames[i]);
      SweepAdvances(before, cacheNames, i, names, generations, storage.names, storage.generations);
      i := i + 1;
    }
    assert cacheNames[..i] == cacheNames && cacheNames[i..] == [];
  }

  /** The callback the sweep maps over the names: delete the generation unless its name is known. */
  method RetireIfUnknown(storage: CacheStorage, cacheName: string)
    requires storage.Valid()
    modifies storage
    ensures storage.Valid()
    ensures IsKnown(cacheName) ==> storage.names == old(storage.names) && storage.generations == old(storage.generations)
    ensures !IsKnown(cacheName) ==>
              storage.names == Without(old(storage.names), cacheName)
              && storage.generations == old(storage.generations) - {cacheName}
  {
    if !IsKnown(cacheName) {
      var _ := storage.Delete(cacheName);
    }
  }

  /** The name at `i` occurs nowhere else in a list without repetitions. */
  lemma OccursOnlyAt(names: seq<string>, i: nat)
    requires Distinct(names) && i < |names|
    ensures names[i] !in names[..i] && names[i] !in names[i + 1..]
  {
    forall k | 0 <= k < |names| && k != i
      ensures names[k] != names[i]
    {
    }
  }

  /** One call of the callback moves the sweep past one more name. */
  lemma SweepAdvances(before: map<string, Cache>, cacheNames: seq<string>, i: nat,
                      names: seq<string>, generations: map<string, Cache>,
                      names': seq<string>, generations': map<string, Cache>)
    requires Distinct(cacheNames) && i < |cacheNames|
    requires names == Surviving(cacheNames[..i]) + cacheNames[i..]
    requires generations == Kept(before, cacheNames[..i])
    requires IsKnown(cacheNames[i]) ==> names' == names && generations' == generations
    requires !IsKnown(cacheNames[i]) ==>
               names' == Without(names, cacheNames[i]) && generations' == generations - {cacheNames[i]}
    ensures names' == Surviving(cacheNames[..i + 1]) + cacheNames[i + 1..]
    ensures generations' == Kept(before, cacheNames[..i + 1])
  {
    if IsKnown(cacheNames[i]) {
      SweepKeepsKnownName(before, cacheNames, i);
    } else {
      SweepDropsUnknownName(before, cacheNames, i);
    }
  }

  /** A known name survives its iteration of the sweep. */
  lemma SweepKeepsKnownName(before: map<string, Cache>, cacheNames: seq<string>, i: nat)
    requires i < |cacheNames| && IsKnown(cacheNames[i])
    ensures Surviving(cacheNames[..i + 1]) + cacheNames[i + 1..] == Surviving(cacheNames[..i]) + cacheNames[i..]
    ensures Kept(before, cacheNames[..i + 1]) == Kept(before, cacheNames[..i])
  {
    var name := cacheNames[i];
    assert cacheNames[..i + 1] == cacheNames[..i] + [name];
    assert cacheNames[i..] == [name] + cacheNames[i + 1..];
    SurvivingAppend(cacheNames[..i], name);
  }

  /** An unknown name is removed from the list and its generation from the store. */
  lemma SweepDropsUnknownName(before: map<string, Cache>, cacheNames: seq<string>, i: nat)
    requires Distinct(cacheNames) && i < |cacheNames| && !IsKnown(cacheNames[i])
    ensures Surviving(cacheNames[..i + 1]) + cacheNames[i + 1..]
            == Without(Surviving(cacheNames[..i]) + cacheNames[i..], cacheNames[i])
    ensures Kept(before, cacheNames[..i + 1]) == Kept(before, cacheNames[..i]) - {cacheNames[i]}
  {
    var name := cacheNames[i];
    var survivors := Surviving(cacheNames[..i]);
    assert cacheNames[..i + 1] == cacheNames[..i] + [name];
    assert survivors + cacheNames[i..] == survivors + [name] + cacheNames[i + 1..];
    SurvivingAppend(cacheNames[..i], name);
    OccursOnlyAt(cacheNames, i);
    SurvivorsAreExactlyTheKnownNames(cacheNames[..i]);
    WithoutSingle(survivors, name, cacheNames[i + 1..]);
  }
}
