/**
 * The caching key-value store shared by both registries: a read-through
 * cache in front of the device's persistent storage, which is opened lazily
 * the first time the store is used.
 */
module Storage {
  import opened Wrappers
  import opened Models

  /** What the app keeps under a storage key: a task list or a category list. */
  datatype Stored = TaskList(tasks: seq<Task>) | CategoryList(categories: seq<Category>)

  /** What the persistent medium hands back for `key`: its entry, or `None` (null) when there is none. */
  function Read(medium: map<string, Stored>, key: string): (r: Option<Stored>)
    ensures r.Some? <==> key in medium
    ensures r.Some? ==> r.value == medium[key]
  {
    if key in medium then Some(medium[key]) else None
  }

  class StorageService {
    /** Whether `create()` has been called on the medium. */
    var initialized: bool
    /** Values already read or written, keyed by storage key; `None` caches a null read. */
    var cache: map<string, Option<Stored>>
    /** The contents of the persistent medium. */
    var medium: map<string, Stored>

    /** How many times the medium's `create()` has been called. */
    ghost var createCalls: nat
    /** The keys read from the medium, in order. */
    ghost var mediumReads: seq<string>

    ghost predicate Valid()
      reads this
    {
      && createCalls == (if initialized then 1 else 0)
      && (forall i, j :: 0 <= i < j < |mediumReads| ==> mediumReads[i] != mediumReads[j])
      && (forall i :: 0 <= i < |mediumReads| ==> mediumReads[i] in cache)
    }

    /** What `Get(key)` would return in the current state. */
    ghost function Peek(key: string): Option<Stored>
      reads this
    {
      if key in cache then cache[key] else Read(medium, key)
    }

    /** The state `Set(key, v)` leaves behind, starting from `oldCache` and `oldMedium`. */
    ghost predicate Wrote(oldCache: map<string, Option<Stored>>, oldMedium: map<string, Stored>, key: string, v: Stored)
      reads this
    {
      cache == oldCache[key := Some(v)] && medium == oldMedium[key := v]
    }

    /**
     * The state `Get(key)` leaves behind, starting from `oldCache`, `oldMedium`
     * and `oldReads`: the medium is untouched, and only an uncached key is
     * read from it and cached.
     */
    ghost predicate ReadThrough(oldCache: map<string, Option<Stored>>, oldMedium: map<string, Stored>, oldReads: seq<string>, key: string)
      reads this
    {
      && medium == oldMedium
      && (key in oldCache ==> cache == oldCache && mediumReads == oldReads)
      && (key !in oldCache ==> cache == oldCache[key := Read(oldMedium, key)] && mediumReads == oldReads + [key])
    }

    /** A store over a medium that holds `medium`; nothing is opened or cached yet. */
    constructor (medium: map<string, Stored>)
      ensures Valid()
      ensures !initialized && cache == map[] && this.medium == medium
      ensures createCalls == 0 && mediumReads == []
    {
      initialized := false;
      cache := map[];
      this.medium := medium;
      createCalls := 0;
      mediumReads := [];
    }

    /** Calls `create()` on the medium unless that has already happened. */
    method EnsureInitialized()
      requires Valid()
      modifies this`initialized, this`createCalls
      ensures Valid() && initialized
      ensures old(initialized) ==> createCalls == old(createCalls)
    {
      if !initialized {
        createCalls := createCalls + 1;
        initialized := true;
      }
    }

    /**
     * The value under `key`: the cached one when the key is cached, otherwise
     * the medium's (null when absent), which is then cached.
     */
    method Get(key: string) returns (r: Option<Stored>)
      requires Valid()
      modifies this`initialized, this`createCalls, this`cache, this`mediumReads
      ensures Valid() && initialized
      ensures r == old(Peek(key))
      ensures key in cache && cache[key] == r
      ensures ReadThrough(old(cache), old(medium), old(mediumReads), key)
    {
      EnsureInitialized();
      if key !in cache {
        var value := Read(medium, key);
        mediumReads := mediumReads + [key];
        cache := cache[key := value];
      }
      r := cache[key];
    }

    /** Stores `v` under `key`, first in the cache and then in the medium. */
    method Set(key: string, v: Stored)
      requires Valid()
      modifies this`initialized, this`createCalls, this`cache, this`medium
      ensures Valid() && initialized
      ensures Wrote(old(cache), old(medium), key, v)
      ensures mediumReads == old(mediumReads)
    {
      EnsureInitialized();
      cache := cache[key := Some(v)];
      medium := medium[key := v];
    }
  }
}
