/**
 * How an equalizer preset index turns into band levels. An index below the number of
 * presets selects a row of the factory table (an index outside the table makes the Java
 * array access throw); any other index is the "User" preset, whose levels are the
 * per-band user levels kept in the scope's file.
 */
module Presets {
  import opened Wrappers
  import opened Keys
  import opened JavaTypes
  import opened Prefs
  import opened Capabilities

  /** Every band of `Arrays.copyOf(EQUALIZER_PRESET_USER_BAND_LEVEL_DEFAULT, n)` holds 0. */
  const USER_BAND_LEVEL_DEFAULT := 0

  /** `Arrays.copyOf(a, n)`: the first n elements of a, padded with zeros past its end. */
  function CopyOf(a: seq<int>, n: nat): (r: seq<int>)
    ensures |r| == n
    ensures forall i :: 0 <= i < n ==> r[i] == if i < |a| then a[i] else 0
  {
    if n == 0 then [] else CopyOf(a, n - 1) + [if n - 1 < |a| then a[n - 1] else 0]
  }

  /** The copied default array each band loop indexes holds USER_BAND_LEVEL_DEFAULT in every band. */
  lemma UserDefaultCopy(n: nat)
    ensures forall i :: 0 <= i < n ==> CopyOf(EQUALIZER_PRESET_USER_BAND_LEVEL_DEFAULT, n)[i] == USER_BAND_LEVEL_DEFAULT
  {
  }

  function BandLevelKey(band: int): Key {
    Key(EqBandLevel, At(band))
  }

  function UserLevelKey(band: int): Key {
    Key(EqPresetUserBandLevel, At(band))
  }

  /** The user's level for a band, through the `(short)` cast the source applies. */
  function UserLevel(b: Bucket, band: int): int {
    Int16(GetInt(b, UserLevelKey(band), USER_BAND_LEVEL_DEFAULT))
  }

  /** The band count recorded in a scope's file (unset: EQUALIZER_NUMBER_BANDS_DEFAULT). */
  function StoredNumBands(b: Bucket): int {
    GetInt(b, Key(EqNumBands, Plain), EQUALIZER_NUMBER_BANDS_DEFAULT)
  }

  /** The preset count recorded in a scope's file (unset: EQUALIZER_NUMBER_PRESETS_DEFAULT). */
  function StoredNumPresets(b: Bucket): int {
    GetInt(b, Key(EqNumPresets, Plain), EQUALIZER_NUMBER_PRESETS_DEFAULT)
  }

  /** The selected preset: `(short)` of the stored index, the "User" preset when unset. */
  function StoredPreset(b: Bucket, caps: Caps): int {
    Int16(GetInt(b, Key(EqCurrentPreset, Plain), UserPreset(caps)))
  }

  /**
   * The level of one band under `preset`, where `numPresets` is the count the caller
   * compares against. None is an index the source's arrays reject: a factory preset or
   * band outside the table, or a band past SHORT_MAX, where the `short` loop counter has
   * wrapped to a negative index.
   */
  function ResolveBand(b: Bucket, caps: Caps, preset: int, numPresets: int, band: int): Option<int>
  {
    if SHORT_MAX < band then None
    else if preset < numPresets then
      if 0 <= preset < caps.numPresets && 0 <= band < caps.numBands
      then Some(caps.presetLevels[preset][band])
      else None
    else
      Some(UserLevel(b, band))
  }

  /**
   * The levels of bands from, from + 1, ... up to n, as far as they resolve: the
   * prefix of bands a band-by-band loop gets through before the first failure.
   */
  function ResolvedFrom(b: Bucket, caps: Caps, preset: int, numPresets: int, from: nat, n: nat): seq<int>
    decreases n - from
  {
    if from >= n then []
    else match ResolveBand(b, caps, preset, numPresets, from)
      case None => []
      case Some(level) => [level] + ResolvedFrom(b, caps, preset, numPresets, from + 1, n)
  }

  /** The levels resolved for bands 0 .. n - 1, as far as they go; nothing for a negative count. */
  function BandLevels(b: Bucket, caps: Caps, preset: int, numPresets: int, n: int): seq<int>
  {
    if n < 0 then [] else ResolvedFrom(b, caps, preset, numPresets, 0, n)
  }

  /**
   * The band loop completes: all n bands resolve (a negative n makes `Arrays.copyOf`
   * throw), and n is at most SHORT_MAX. At n > SHORT_MAX the `short` counter wraps from
   * SHORT_MAX to -32768, which is still below n, and the next array access throws once
   * bands 0 .. SHORT_MAX are done.
   */
  predicate Resolves(b: Bucket, caps: Caps, preset: int, numPresets: int, n: int)
  {
    0 <= n <= SHORT_MAX && |BandLevels(b, caps, preset, numPresets, n)| == n
  }

  /**
   * ResolvedFrom is exactly the run of successful resolutions starting at `from`,
   * and it stops at the first band that fails.
   */
  lemma {:induction false} ResolvedFromSpec(b: Bucket, caps: Caps, preset: int, numPresets: int, from: nat, n: nat)
    requires from <= n
    ensures var r := ResolvedFrom(b, caps, preset, numPresets, from, n);
      && |r| <= n - from
      && (forall k :: 0 <= k < |r| ==> ResolveBand(b, caps, preset, numPresets, from + k) == Some(r[k]))
      && (|r| < n - from ==> ResolveBand(b, caps, preset, numPresets, from + |r|).None?)
    decreases n - from
  {
    if from < n && ResolveBand(b, caps, preset, numPresets, from).Some? {
      ResolvedFromSpec(b, caps, preset, numPresets, from + 1, n);
    }
  }

  /**
   * A run of successful resolutions of bands 0 .. |done| - 1 that ends at n or at a
   * failing band is exactly BandLevels.
   */
  lemma PrefixIsBandLevels(b: Bucket, caps: Caps, preset: int, numPresets: int, n: nat, done: seq<int>)
    requires |done| <= n
    requires forall k :: 0 <= k < |done| ==> ResolveBand(b, caps, preset, numPresets, k) == Some(done[k])
    requires |done| < n ==> ResolveBand(b, caps, preset, numPresets, |done|).None?
    ensures BandLevels(b, caps, preset, numPresets, n) == done
  {
    ResolvedFromSpec(b, caps, preset, numPresets, 0, n);
    var r := BandLevels(b, caps, preset, numPresets, n);
    forall k | 0 <= k < |r|
      ensures ResolveBand(b, caps, preset, numPresets, k).Some?
    {
      assert ResolveBand(b, caps, preset, numPresets, 0 + k) == Some(r[k]);
    }
    if |r| < |done| {
      assert false;
    } else if |done| < |r| {
      assert false;
    }
    forall k | 0 <= k < |r|
      ensures r[k] == done[k]
    {
      assert ResolveBand(b, caps, preset, numPresets, 0 + k) == Some(r[k]);
    }
  }

  /**
   * The loop completes exactly when the count fits the `short` counter and no single band
   * fails, and then each level is that band's.
   */
  lemma ResolvesIff(b: Bucket, caps: Caps, preset: int, numPresets: int, n: int)
    ensures Resolves(b, caps, preset, numPresets, n) <==>
      0 <= n <= SHORT_MAX && forall k :: 0 <= k < n ==> ResolveBand(b, caps, preset, numPresets, k).Some?
    ensures Resolves(b, caps, preset, numPresets, n) ==>
      forall k :: 0 <= k < n ==>
        BandLevels(b, caps, preset, numPresets, n)[k] == ResolveBand(b, caps, preset, numPresets, k).value
  {
    if 0 <= n {
      ResolvedFromSpec(b, caps, preset, numPresets, 0, n);
      var r := BandLevels(b, caps, preset, numPresets, n);
      forall k | 0 <= k < |r|
        ensures ResolveBand(b, caps, preset, numPresets, k) == Some(r[k])
      {
        assert 0 + k == k;
      }
      if |r| < n {
        assert ResolveBand(b, caps, preset, numPresets, 0 + |r|).None?;
      }
    }
  }

  /** A factory preset inside the table resolves every band it has to the table's row. */
  lemma FactoryLevels(b: Bucket, caps: Caps, preset: int, numPresets: int, n: int)
    requires 0 <= preset < numPresets && preset < caps.numPresets
    requires 0 <= n <= caps.numBands
    ensures Resolves(b, caps, preset, numPresets, n)
    ensures BandLevels(b, caps, preset, numPresets, n) == caps.presetLevels[preset][..n]
  {
    ResolvesIff(b, caps, preset, numPresets, n);
  }

  /** The "User" preset resolves every band to the user's stored level (0 when unset). */
  lemma UserLevels(b: Bucket, caps: Caps, preset: int, numPresets: int, n: int)
    requires numPresets <= preset && 0 <= n <= SHORT_MAX
    ensures Resolves(b, caps, preset, numPresets, n)
    ensures forall k :: 0 <= k < n ==> BandLevels(b, caps, preset, numPresets, n)[k] == UserLevel(b, k)
  {
    ResolvesIff(b, caps, preset, numPresets, n);
  }

  /**
   * When all n bands resolve: a factory preset yields the first n levels of its row of
   * the table, the "User" preset the user's levels.
   */
  lemma ResolvedValues(b: Bucket, caps: Caps, preset: int, numPresets: int, n: int)
    requires Resolves(b, caps, preset, numPresets, n)
    ensures |BandLevels(b, caps, preset, numPresets, n)| == n
    ensures preset < numPresets && 0 < n ==>
      && 0 <= preset < caps.numPresets && n <= caps.numBands
      && BandLevels(b, caps, preset, numPresets, n) == caps.presetLevels[preset][..n]
    ensures numPresets <= preset ==>
      forall i :: 0 <= i < n ==> BandLevels(b, caps, preset, numPresets, n)[i] == UserLevel(b, i)
  {
    ResolveFailure(b, caps, preset, numPresets, n);
    if preset < numPresets && 0 < n {
      FactoryLevels(b, caps, preset, numPresets, n);
    } else if numPresets <= preset {
      UserLevels(b, caps, preset, numPresets, n);
    }
  }

  /**
   * Resolution fails exactly when the count is negative, when the index selects a
   * factory preset that is outside the table or has fewer bands than requested, or when
   * the "User" preset is asked for more bands than a `short` counter counts up to.
   */
  lemma ResolveFailure(b: Bucket, caps: Caps, preset: int, numPresets: int, n: int)
    ensures !Resolves(b, caps, preset, numPresets, n) <==>
      || n < 0
      || (0 < n && preset < numPresets && (preset < 0 || caps.numPresets <= preset || caps.numBands < n))
      || (numPresets <= preset && SHORT_MAX < n)
  {
    ResolvesIff(b, caps, preset, numPresets, n);
    if 0 < n && preset < numPresets && (preset < 0 || caps.numPresets <= preset) {
      assert ResolveBand(b, caps, preset, numPresets, 0).None?;
    } else if 0 < n && preset < numPresets && caps.numBands < n {
      assert ResolveBand(b, caps, preset, numPresets, caps.numBands).None?;
    }
  }

  /**
   * At a stored count of exactly SHORT_MAX + 1 the "User" preset sets every one of the
   * SHORT_MAX + 1 bands, and the loop then throws on the wrapped counter.
   */
  lemma WrappedCounter(b: Bucket, caps: Caps, preset: int, numPresets: int)
    requires numPresets <= preset
    ensures !Resolves(b, caps, preset, numPresets, SHORT_MAX + 1)
    ensures |BandLevels(b, caps, preset, numPresets, SHORT_MAX + 1)| == SHORT_MAX + 1
  {
    ResolvedFromSpec(b, caps, preset, numPresets, 0, SHORT_MAX + 1);
    if |BandLevels(b, caps, preset, numPresets, SHORT_MAX + 1)| < SHORT_MAX + 1 {
      assert false;
    }
  }

  /** Resolution reads the file only through the user levels of the bands it visits. */
  lemma {:induction false} ResolvedFromFrame(b1: Bucket, b2: Bucket, caps: Caps, preset: int, numPresets: int, from: nat, n: nat)
    requires forall k :: from <= k < n ==> UserLevel(b1, k) == UserLevel(b2, k)
    ensures ResolvedFrom(b1, caps, preset, numPresets, from, n) == ResolvedFrom(b2, caps, preset, numPresets, from, n)
    decreases n - from
  {
    if from < n {
      ResolvedFromFrame(b1, b2, caps, preset, numPresets, from + 1, n);
    }
  }
}
