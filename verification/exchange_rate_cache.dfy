/** The rate cache facade (backend/src/cache/exchangeRateCache.ts): every
    operation addresses one entry of the underlying store through a key made
    of the lower-cased provider name and the two currency codes. The
    underlying `CacheService` is not part of this model; its contents are
    abstracted as a map from key to record. */
module RateCache {
  import opened Common
  import opened Text
  import opened ApiTypes

  class ExchangeRateCache {
    /** The live entries of the underlying store. */
    var entries: map<string, ExchangeRate>
    /** The configuration handed to the store: time-to-live and capacity. */
    const defaultTtlMs: nat
    const maxSize: nat

    /** Creates an empty store configured for 60 s entries and at most 100 of them. */
    constructor ()
      ensures entries == map[]
      ensures defaultTtlMs == 60 * 1000 && maxSize == 100
    {
      entries := map[];
      defaultTtlMs := 60 * 1000;
      maxSize := 100;
    }

    /** `generateKey`: `provider-from-to`, the provider lower-cased, the
        codes as given. */
    static function GenerateKey(provider: string, from: string, to: string): (k: string)
      ensures var p := |provider|;
        && |k| == p + |from| + |to| + 2
        && k[..p] == ToLower(provider) && k[p] == '-'
        && k[p + 1..p + 1 + |from|] == from && k[p + 1 + |from|] == '-'
        && k[p + 2 + |from|..] == to
    {
      ToLower(provider) + "-" + from + "-" + to
    }

    /** `get`: the entry at the generated key, if any. */
    method Get(provider: string, from: string, to: string) returns (r: Option<ExchangeRate>)
      ensures var key := GenerateKey(provider, from, to);
        r == if key in entries then Some(entries[key]) else None
    {
      var key := GenerateKey(provider, from, to);
      r := if key in entries then Some(entries[key]) else None;
    }

    /** `set`: stores `data` at the generated key; every other entry stays. */
    method Set(provider: string, from: string, to: string, data: ExchangeRate)
      modifies this
      ensures entries == old(entries)[GenerateKey(provider, from, to) := data]
    {
      var key := GenerateKey(provider, from, to);
      entries := entries[key := data];
    }

    /** `has`: whether an entry sits at the generated key. */
    method Has(provider: string, from: string, to: string) returns (b: bool)
      ensures b <==> GenerateKey(provider, from, to) in entries
    {
      var key := GenerateKey(provider, from, to);
      b := key in entries;
    }

    /** `clear`: empties the whole store. */
    method Clear()
      modifies this
      ensures entries == map[]
    {
      entries := map[];
    }
  }

  /** Provider names that differ only in letter case address the same entry. */
  lemma KeyIgnoresProviderCase(p1: string, p2: string, from: string, to: string)
    requires ToLower(p1) == ToLower(p2)
    ensures ExchangeRateCache.GenerateKey(p1, from, to) == ExchangeRateCache.GenerateKey(p2, from, to)
  {
  }

  /** When the codes hold no dash (every validated code is letters only),
      the key determines the lower-cased provider and both codes: distinct
      pairs never share an entry, whatever the provider name contains. */
  lemma {:induction false} KeyDeterminesEntry(p1: string, f1: string, t1: string, p2: string, f2: string, t2: string)
    requires '-' !in f1 && '-' !in t1 && '-' !in f2 && '-' !in t2
    requires ExchangeRateCache.GenerateKey(p1, f1, t1) == ExchangeRateCache.GenerateKey(p2, f2, t2)
    ensures ToLower(p1) == ToLower(p2) && f1 == f2 && t1 == t2
  {
    var a1, a2 := ToLower(p1) + "-" + f1, ToLower(p2) + "-" + f2;
    assert ExchangeRateCache.GenerateKey(p1, f1, t1) == a1 + ['-'] + t1;
    assert ExchangeRateCache.GenerateKey(p2, f2, t2) == a2 + ['-'] + t2;
    SplitAtLastSeparator(a1, t1, a2, t2, '-');
    assert a1 == ToLower(p1) + ['-'] + f1 && a2 == ToLower(p2) + ['-'] + f2;
    SplitAtLastSeparator(ToLower(p1), f1, ToLower(p2), f2, '-');
  }

  /** The codes are not case-folded: "TON" and "ton" are different entries. */
  lemma CodesAreCaseSensitive(provider: string, to: string)
    ensures ExchangeRateCache.GenerateKey(provider, "TON", to) != ExchangeRateCache.GenerateKey(provider, "ton", to)
  {
    var n := |provider| + 1;
    assert ExchangeRateCache.GenerateKey(provider, "TON", to)[n] == 'T';
    assert ExchangeRateCache.GenerateKey(provider, "ton", to)[n] == 't';
  }
}
