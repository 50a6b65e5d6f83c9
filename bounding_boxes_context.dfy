/** The annotation cache shared through the React context: a map from frame
    index to the boxes drawn on that frame, mirrored to the browser's local
    storage under one fixed key. Local storage is modelled as a map from key
    to the stored cache value; the JSON text in between is not modelled. */
module BoundingBoxesContext {
  import opened Geometry
  import opened Wrappers

  /** Frame index to the boxes of that frame, in drawing order. */
  type Cache = map<int, seq<Box>>

  /** The local-storage area: key to stored snapshot. */
  type Storage = map<string, Cache>

  /** The one key the provider reads and writes. */
  const StorageKey: string := "bounding-boxes-cache"

  /** The updater passed to `setBoundingBoxesCache` by
      `updateBoundingBoxesCache(frame, boxes)`: `{...prev, [frame]: boxes}`. */
  function Update(cache: Cache, frame: int, boxes: seq<Box>): (r: Cache)
    ensures r.Keys == cache.Keys + {frame}
    // a full replacement of the frame's entry, not an append
    ensures r[frame] == boxes
    // every other frame keeps its entry
    ensures forall g :: g in cache && g != frame ==> r[g] == cache[g]
  {
    cache[frame := boxes]
  }

  /** `boundingBoxesCache[frame] || []`: the frame's boxes, or none when the
      frame has no entry (an entry, even an empty array, is always truthy). */
  function BoxesFor(cache: Cache, frame: int): seq<Box> {
    if frame in cache then cache[frame] else []
  }

  /** `localStorage.getItem(key)`, with absence as None. */
  function GetItem(storage: Storage, key: string): Option<Cache> {
    if key in storage then Some(storage[key]) else None
  }

  /** The storage after the save effect has run on `cache`: only a cache with
      at least one key is written, and then under StorageKey alone. */
  function Persisted(storage: Storage, cache: Cache): (r: Storage)
    ensures |cache| == 0 ==> r == storage
    ensures |cache| > 0 ==> r.Keys == storage.Keys + {StorageKey} && r[StorageKey] == cache
    ensures forall k :: k in storage && k != StorageKey ==> k in r && r[k] == storage[k]
  {
    if |cache| > 0 then storage[StorageKey := cache] else storage
  }

  /** The cache after the load effect has seen the stored item `stored`.
      The source tests `Object.keys(getItem(key) || {}).length > 0`: an absent
      item becomes `{}` and is skipped, while a present item is the JSON text
      of an object, which is never the empty string, so it always passes the
      test and its parsed value replaces the cache. */
  function Hydrated(cache: Cache, stored: Option<Cache>): (r: Cache)
    ensures stored.None? ==> r == cache
    ensures stored.Some? ==> r == stored.value
  {
    match stored
    case None => cache
    case Some(snapshot) => snapshot
  }

  /** What committing `box` on `frame` does to the cache: the frame's current
      boxes followed by the new one become the frame's entry. */
  function CommitBox(cache: Cache, frame: int, box: Box): Cache {
    Update(cache, frame, BoxesFor(cache, frame) + [box])
  }

  /** Committing `boxes` one after another on the same frame. */
  function CommitAll(cache: Cache, frame: int, boxes: seq<Box>): Cache
    decreases |boxes|
  {
    if boxes == [] then cache
    else CommitAll(CommitBox(cache, frame, boxes[0]), frame, boxes[1..])
  }

  /** Reading a frame after an update gives the new boxes for that frame and
      the old answer for every other frame. */
  lemma BoxesForUpdate(cache: Cache, frame: int, boxes: seq<Box>, g: int)
    ensures BoxesFor(Update(cache, frame, boxes), g) == if g == frame then boxes else BoxesFor(cache, g)
  {
  }

  /** After any update the cache has a key, so the save effect writes it. */
  lemma UpdateIsPersisted(storage: Storage, cache: Cache, frame: int, boxes: seq<Box>)
    ensures |Update(cache, frame, boxes)| > 0
    ensures GetItem(Persisted(storage, Update(cache, frame, boxes)), StorageKey) == Some(Update(cache, frame, boxes))
  {
    assert frame in Update(cache, frame, boxes);
  }

  /** The initial empty state never overwrites a stored snapshot. */
  lemma EmptyCacheNeverWritten(storage: Storage)
    ensures Persisted(storage, map[]) == storage
  {
  }

  /** Saving a non-empty cache and loading it into a fresh, empty provider
      gives back the same cache: same frames, same boxes in the same order. */
  lemma PersistHydrateRoundTrip(storage: Storage, cache: Cache)
    requires |cache| > 0
    ensures Hydrated(map[], GetItem(Persisted(storage, cache), StorageKey)) == cache
  {
  }

  /** Boxes committed one after another on one frame are read back in call
      order after the boxes the frame already had; other frames are untouched. */
  lemma {:induction false} CommitAllInOrder(cache: Cache, frame: int, boxes: seq<Box>, g: int)
    ensures BoxesFor(CommitAll(cache, frame, boxes), g)
         == if g == frame then BoxesFor(cache, frame) + boxes else BoxesFor(cache, g)
    decreases |boxes|
  {
    if boxes != [] {
      var next := CommitBox(cache, frame, boxes[0]);
      CommitAllInOrder(next, frame, boxes[1..], g);
      BoxesForUpdate(cache, frame, BoxesFor(cache, frame) + [boxes[0]], g);
      assert [boxes[0]] + boxes[1..] == boxes;
    }
  }

  /** The provider component: its `boundingBoxesCache` state cell and the
      local storage it reads on mount and writes after every change. */
  class Provider {
    var cache: Cache
    var storage: Storage

    /** Mounting with `useState({})` over whatever storage already holds. */
    constructor (storage: Storage)
      ensures cache == map[] && this.storage == storage
    {
      cache := map[];
      this.storage := storage;
    }

    /** The load effect. */
    method HydrateEffect()
      modifies this
      ensures cache == Hydrated(old(cache), GetItem(old(storage), StorageKey))
      ensures storage == old(storage)
    {
      var stored := GetItem(storage, StorageKey);
      if stored.Some? {
        cache := stored.value;
      }
    }

    /** The save effect, run whenever the cache value changes. */
    method PersistEffect()
      modifies this
      ensures cache == old(cache)
      ensures storage == Persisted(old(storage), old(cache))
    {
      if |cache| > 0 {
        storage := storage[StorageKey := cache];
      }
    }

    /** `updateBoundingBoxesCache(frame, boxes)`. */
    method UpdateBoundingBoxesCache(frame: int, boxes: seq<Box>)
      modifies this
      ensures cache == Update(old(cache), frame, boxes)
      ensures storage == old(storage)
    {
      cache := cache[frame := boxes];
    }
  }

  /** A session start: the first render's save effect sees the initial `{}`,
      then the load effect's value is rendered and saved again. The stored
      snapshot is restored and storage ends as it began. */
  method Mount(initial: Storage) returns (cache: Cache, storage: Storage)
    ensures StorageKey in initial ==> cache == initial[StorageKey]
    ensures StorageKey !in initial ==> cache == map[]
    ensures storage == initial
  {
    var provider := new Provider(initial);
    provider.PersistEffect();
    provider.HydrateEffect();
    provider.PersistEffect();
    cache, storage := provider.cache, provider.storage;
    if StorageKey in initial {
      assert initial[StorageKey := initial[StorageKey]] == initial;
    }
  }
}
