/** The derived-token cache (cache/InMemoryCache.cs) over the observable
    behaviour of `MemoryCache`: an entry is live while the clock is before
    its absolute expiration, a lookup that finds an expired entry removes
    it, and an entry created already expired is not kept. */
module TokenCache {
  import opened Wrappers
  import opened CacheEntries

  const BytesPerMegabyte: int := 1024 * 1024

  /** C# `int` arithmetic in an unchecked context: the result wraps to 32 bits. */
  function Wrap32(x: int): (r: int)
    ensures IsInt32(r)
    ensures (r - x) % 0x1_0000_0000 == 0
    ensures IsInt32(x) ==> r == x
  {
    var m := x % 0x1_0000_0000;
    if m > Int32Max then m - 0x1_0000_0000 else m
  }

  /** The size limit as cache/InMemoryCache.cs:11 computes it: the product
      is taken in `int` and only then widened to the `long` limit. */
  function SizeLimitAsWritten(megabytes: int): (limit: int)
    requires IsInt32(megabytes)
    ensures IsInt32(limit)
    ensures (limit - megabytes * BytesPerMegabyte) % 0x1_0000_0000 == 0
  {
    var kilobytes := Wrap32(megabytes * 1024);
    var limit := Wrap32(kilobytes * 1024);
    WrappedProductCongruent(megabytes, kilobytes, limit);
    limit
  }

  /** Wrapping after each of the two multiplications leaves the product
      congruent to the exact one modulo 2^32. */
  lemma WrappedProductCongruent(megabytes: int, kilobytes: int, limit: int)
    requires (kilobytes - megabytes * 1024) % 0x1_0000_0000 == 0
    requires (limit - kilobytes * 1024) % 0x1_0000_0000 == 0
    ensures (limit - megabytes * BytesPerMegabyte) % 0x1_0000_0000 == 0
  {
    var q1 := (kilobytes - megabytes * 1024) / 0x1_0000_0000;
    var q2 := (limit - kilobytes * 1024) / 0x1_0000_0000;
    assert kilobytes == megabytes * 1024 + q1 * 0x1_0000_0000;
    assert limit == kilobytes * 1024 + q2 * 0x1_0000_0000;
    assert limit - megabytes * BytesPerMegabyte == (q1 * 1024 + q2) * 0x1_0000_0000;
  }

  /** From 2048 MB on, the computed limit is negative (the options setter
      then throws) or zero (no entry with a positive size fits). */
  lemma SizeLimitAsWrittenOverflows()
    ensures SizeLimitAsWritten(2048) < 0
    ensures SizeLimitAsWritten(4096) == 0
  {
  }

  /** The intended size limit: the configured megabytes, in bytes. */
  function SizeLimit(megabytes: int): (bytes: int)
    requires 0 < megabytes
    ensures bytes > 0 && bytes % BytesPerMegabyte == 0 && bytes / BytesPerMegabyte == megabytes
  {
    megabytes * BytesPerMegabyte
  }

  /** The two agree exactly where the `int` product does not overflow. */
  lemma SizeLimitAsWrittenBelow2048(megabytes: int)
    requires 0 < megabytes < 2048
    ensures SizeLimitAsWritten(megabytes) == SizeLimit(megabytes)
  {
    assert megabytes * 1024 < 2048 * 1024;
    assert megabytes * 1024 * 1024 < 2048 * 1024 * 1024;
    assert IsInt32(megabytes * 1024);
    assert IsInt32(megabytes * 1024 * 1024);
  }

  /** One `MemoryCache` slot: the value and the options set on its entry. */
  datatype Slot = Slot(value: CacheEntry, absoluteExpiration: int, size: int)

  /** Every slot carries the expiry and the size of its own value. */
  predicate WellFormed(m: map<string, Slot>) {
    forall k :: k in m ==> m[k].absoluteExpiration == m[k].value.expiry && m[k].size == m[k].value.Length()
  }

  /** `TryGetValue` at time `now`: only a live entry is found. */
  function LookupIn(m: map<string, Slot>, key: string, now: int): (r: Option<CacheEntry>)
    ensures r.Some? <==> key in m && now < m[key].absoluteExpiration
    ensures r.Some? ==> r.value == m[key].value
  {
    if key in m && now < m[key].absoluteExpiration then Some(m[key].value) else None
  }

  /** The slot `GetOrCreateAsync`'s factory leaves for a created value. */
  function SlotFor(e: CacheEntry): Slot {
    Slot(e, e.expiry, e.Length())
  }

  /** The map after a miss on `key` at time `now` whose factory produced `r`:
      any expired entry for `key` is gone, and a value is kept only if it
      is not already expired. A factory that throws stores nothing. */
  function AfterMiss(m: map<string, Slot>, key: string, now: int, r: Result<CacheEntry>): (after: map<string, Slot>)
    ensures key in after <==> r.Ok? && now < r.value.expiry
    ensures key in after ==> after[key] == SlotFor(r.value)
    ensures forall k :: k != key ==> (k in after <==> k in m)
    ensures forall k :: k != key && k in m ==> after[k] == m[k]
  {
    var cleared := m - {key};
    match r
    case Ok(e) => if now < e.expiry then cleared[key := SlotFor(e)] else cleared
    case Err(_) => cleared
  }

  /** A miss keeps every slot well formed. */
  lemma AfterMissWellFormed(m: map<string, Slot>, key: string, now: int, r: Result<CacheEntry>)
    requires WellFormed(m)
    ensures WellFormed(AfterMiss(m, key, now, r))
  {
  }

  /** Reading a key right after it was filled returns the very same entry,
      at every time before its expiry, and nothing from its expiry on. */
  lemma LookupAfterMiss(m: map<string, Slot>, key: string, now: int, e: CacheEntry, later: int)
    requires now < e.expiry && now <= later
    ensures later < e.expiry ==> LookupIn(AfterMiss(m, key, now, Ok(e)), key, later) == Some(e)
    ensures e.expiry <= later ==> LookupIn(AfterMiss(m, key, now, Ok(e)), key, later) == None
  {
  }

  /** A miss on `key` leaves what every other key reads unchanged. */
  lemma AfterMissKeepsOtherKeys(m: map<string, Slot>, key: string, now: int, r: Result<CacheEntry>, other: string, t: int)
    requires other != key
    ensures LookupIn(AfterMiss(m, key, now, r), other, t) == LookupIn(m, other, t)
  {
  }

  /** A found entry is never past its own recorded expiry. */
  lemma LookupIsUnexpired(m: map<string, Slot>, key: string, now: int)
    requires WellFormed(m) && LookupIn(m, key, now).Some?
    ensures now < LookupIn(m, key, now).value.expiry
  {
  }

  class InMemoryCache {
    /** `MemoryCacheOptions.SizeLimit`, in bytes. */
    const sizeLimit: int
    var entries: map<string, Slot>

    ghost predicate Valid()
      reads this
    {
      sizeLimit > 0 && WellFormed(entries)
    }

    function Lookup(key: string, now: int): Option<CacheEntry>
      reads this
    {
      LookupIn(entries, key, now)
    }

    /** The constructor; the broker builds the cache only when the configured
        size is positive (Program.cs:23). The limit is the corrected
        `SizeLimit`; see `SizeLimitAsWritten` for what line 11 computes. */
    constructor (sizeInMegabytes: int)
      requires 0 < sizeInMegabytes
      ensures Valid()
      ensures sizeLimit == SizeLimit(sizeInMegabytes) && entries == map[]
    {
      sizeLimit := SizeLimit(sizeInMegabytes);
      entries := map[];
    }

    /** `GetOrSetAsync(key, onGet, onSet)` at time `now`. `created` is the
        flag the factory sets: on a miss `onSet` runs once and its value is
        stored with its expiry and size; on a hit `onGet`, when given, runs
        on the cached value and may throw instead of it being returned. */
    method GetOrSet(key: string, onGet: Option<CacheEntry -> Outcome>, onSet: () -> Result<CacheEntry>, now: int)
      returns (r: Result<CacheEntry>, created: bool)
      requires Valid()
      modifies this
      ensures Valid()
      ensures created <==> old(Lookup(key, now)).None?
      ensures created ==> r == onSet() && entries == AfterMiss(old(entries), key, now, r)
      ensures !created ==> entries == old(entries)
      ensures !created ==> var cached := old(Lookup(key, now)).value;
        r == match onGet
             case None => Ok(cached)
             case Some(f) => (match f(cached) case Pass => Ok(cached) case Raise(x) => Err(x))
    {
      var found := LookupIn(entries, key, now);
      created := false;
      var value: CacheEntry;
      if found.Some? {
        value := found.value;
      } else {
        created := true;
        var result := onSet();
        AfterMissWellFormed(entries, key, now, result);
        entries := AfterMiss(entries, key, now, result);
        if result.Err? {
          return result, created;
        }
        value := result.value;
      }
      r := Ok(value);
      if !created && onGet.Some? {
        var outcome := onGet.value(value);
        if outcome.Raise? {
          r := Err(outcome.failure);
        }
      }
    }
  }
}
