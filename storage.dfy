/**
 * The cache store: named cache generations, each a mutable map from request to
 * stored response, and the storage that owns them by name.
 */
module Storage {
  import opened Http

  /** The generation names of the current version. */
  const CACHE_NAME: string := "ieumcarelife-v1.0.0"
  const STATIC_CACHE_NAME: string := "ieumcarelife-static-v1.0.0"
  const DYNAMIC_CACHE_NAME: string := "ieumcarelife-dynamic-v1.0.0"

  /** One cache generation: request keys to response snapshots. */
  class Cache {
    var entries: map<Request, Response>

    constructor ()
      ensures entries == map[]
    {
      entries := map[];
    }

    /** `cache.match(request)`: the stored snapshot, or nothing. */
    method Match(request: Request) returns (r: Option<Response>)
      ensures request in entries ==> r == Some(entries[request])
      ensures request !in entries ==> r == None
    {
      if request in entries {
        r := Some(entries[request]);
      } else {
        r := None;
      }
    }

    /** `cache.put(request, response)`: replaces the snapshot under `request` wholesale. */
    method Put(request: Request, response: Response)
      modifies this
      ensures entries == old(entries)[request := response]
    {
      entries := entries[request := response];
    }
  }

  /** `names` without any occurrence of `name`. */
  function Without(names: seq<string>, name: string): (r: seq<string>)
    ensures forall n :: n in r <==> n in names && n != name
    ensures |r| <= |names|
  {
    if names == [] then []
    else if names[0] == name then Without(names[1..], name)
    else [names[0]] + Without(names[1..], name)
  }

  predicate Distinct(names: seq<string>) {
    forall i, j :: 0 <= i < j < |names| ==> names[i] != names[j]
  }

  /**
   * The store of generations. `names` lists the generation names in creation
   * order (what `caches.keys()` enumerates); `generations` maps each name to its cache.
   */
  class CacheStorage {
    var names: seq<string>
    var generations: map<string, Cache>

    /** Names are listed once each, exactly the stored generations, and no two names share a cache. */
    ghost predicate Valid()
      reads this
    {
      && Distinct(names)
      && (forall n :: n in names <==> n in generations)
      && (forall m, n :: m in generations && n in generations && m != n ==> generations[m] != generations[n])
    }

    constructor ()
      ensures Valid() && names == [] && generations == map[]
    {
      names := [];
      generations := map[];
    }

    /** The entries of generation `name`; a generation that does not exist reads as empty. */
    ghost function EntriesOf(name: string): map<Request, Response>
      reads this, generations.Values
    {
      if name in generations then generations[name].entries else map[]
    }

    /** `caches.keys()`: every generation name, in creation order. */
    method Keys() returns (r: seq<string>)
      requires Valid()
      ensures r == names
      ensures Distinct(r) && forall n :: n in r <==> n in generations
    {
      r := names;
    }

    /** `caches.open(name)`: the generation of that name, created empty the first time. */
    method Open(name: string) returns (c: Cache)
      requires Valid()
      modifies this
      ensures Valid()
      ensures name in generations && c == generations[name]
      ensures name in old(generations) ==> generations == old(generations) && names == old(names)
      ensures name !in old(generations) ==>
                fresh(c) && c.entries == map[]
                && generations == old(generations)[name := c] && names == old(names) + [name]
    {
      if name in generations {
        c := generations[name];
      } else {
        c := new Cache();
        generations := generations[name := c];
        names := names + [name];
      }
    }

    /** `caches.delete(name)`: drops the generation; reports whether there was one. */
    method Delete(name: string) returns (deleted: bool)
      requires Valid()
      modifies this
      ensures Valid()
      ensures deleted == (name in old(generations))
      ensures generations == old(generations) - {name}
      ensures names == Without(old(names), name)
    {
      deleted := name in generations;
      WithoutKeepsDistinct(names, name);
      names := Without(names, name);
      generations := generations - {name};
    }
  }

  lemma {:induction false} WithoutKeepsDistinct(names: seq<string>, name: string)
    requires Distinct(names)
    ensures Distinct(Without(names, name))
  {
    if names != [] {
      assert Distinct(names[1..]);
      WithoutKeepsDistinct(names[1..], name);
      var rest := Without(names[1..], name);
      assert names[0] !in names[1..];
      if names[0] != name {
        var r := [names[0]] + rest;
        forall i, j | 0 <= i < j < |r|
          ensures r[i] != r[j]
        {
          assert r[j] == rest[j - 1];
          if i > 0 {
            assert r[i] == rest[i - 1];
          }
        }
      }
    }
  }

  /** Removing a name that is not there changes nothing. */
  lemma {:induction false} WithoutAbsent(names: seq<string>, name: string)
    requires name !in names
    ensures Without(names, name) == names
  {
    if names != [] {
      WithoutAbsent(names[1..], name);
      assert [names[0]] + names[1..] == names;
    }
  }

  /** Removing a name that occurs once, between `before` and `after`, closes the gap. */
  lemma {:induction false} WithoutSingle(before: seq<string>, name: string, after: seq<string>)
    requires name !in before && name !in after
    ensures Without(before + [name] + after, name) == before + after
  {
    if before == [] {
      assert before + [name] + after == [name] + after;
      assert ([name] + after)[1..] == after;
      WithoutAbsent(after, name);
    } else {
      var whole := before + [name] + after;
      assert whole[0] == before[0];
      assert whole[1..] == before[1..] + [name] + after;
      WithoutSingle(before[1..], name, after);
      assert [before[0]] + (before[1..] + after) == before + after;
    }
  }
}
