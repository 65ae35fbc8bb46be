/**
 * Parameter keys of the effect control panel (ControlPanelEffect.Key) and the flat
 * string keys under which the preference store keeps them: the key's name followed
 * by its decimal index, or by two indices separated by an underscore.
 */
module Keys {

  /** The constants of ControlPanelEffect.Key, in declaration order. */
  datatype Name =
    | GlobalEnabled | VirtEnabled | VirtStrengthSupported | VirtStrength | VirtType | BbEnabled
    | BbStrength | TeEnabled | TeStrength | AvlEnabled | LmEnabled | LmStrength | EqEnabled
    | EqNumBands | EqLevelRange | EqCenterFreq | EqBandLevel
    | EqNumPresets | EqPresetName | EqPresetUserBandLevel
    | EqPresetUserBandLevelDefault | EqCurrentPreset
    | PrEnabled | PrCurrentPreset | SwEnabled | SwStrength
    | Bluetooth | Headset
  {
    /** The enum constant's `toString()`. */
    function Text(): string {
      match this
      case GlobalEnabled => "global_enabled"
      case VirtEnabled => "virt_enabled"
      case VirtStrengthSupported => "virt_strength_supported"
      case VirtStrength => "virt_strength"
      case VirtType => "virt_type"
      case BbEnabled => "bb_enabled"
      case BbStrength => "bb_strength"
      case TeEnabled => "te_enabled"
      case TeStrength => "te_strength"
      case AvlEnabled => "avl_enabled"
      case LmEnabled => "lm_enabled"
      case LmStrength => "lm_strength"
      case EqEnabled => "eq_enabled"
      case EqNumBands => "eq_num_bands"
      case EqLevelRange => "eq_level_range"
      case EqCenterFreq => "eq_center_freq"
      case EqBandLevel => "eq_band_level"
      case EqNumPresets => "eq_num_presets"
      case EqPresetName => "eq_preset_name"
      case EqPresetUserBandLevel => "eq_preset_user_band_level"
      case EqPresetUserBandLevelDefault => "eq_preset_user_band_level_default"
      case EqCurrentPreset => "eq_current_preset"
      case PrEnabled => "pr_enabled"
      case PrCurrentPreset => "pr_current_preset"
      case SwEnabled => "sw_enabled"
      case SwStrength => "sw_strength"
      case Bluetooth => "bluetooth"
      case Headset => "headset"
    }
  }

  /** No index (`key.toString()`), one index (`key + arg`) or two (`key + arg0 + "_" + arg1`). */
  datatype Index = Plain | At(i: int) | Pair(i: int, j: int)

  /** A logical store key: a parameter name with its optional indices. */
  datatype Key = Key(name: Name, index: Index)

  predicate IsNameChar(c: char) {
    ('a' <= c <= 'z') || c == '_'
  }

  predicate IsDigit(c: char) {
    '0' <= c <= '9'
  }

  /** A character Java's `Integer.toString` can produce. */
  predicate IsNumberChar(c: char) {
    IsDigit(c) || c == '-'
  }

  predicate All(p: char -> bool, s: string) {
    forall i :: 0 <= i < |s| ==> p(s[i])
  }

  function DigitChar(d: int): (c: char)
    requires 0 <= d < 10
    ensures IsDigit(c)
  {
    (48 + d) as char
  }

  /** Decimal digits of a natural number, most significant first, no leading zeros. */
  function NatText(n: nat): string
  {
    if n < 10 then [DigitChar(n)] else NatText(n / 10) + [DigitChar(n % 10)]
  }

  /** Java's `Integer.toString`, as used by string concatenation `key + index`. */
  function IntText(i: int): string
  {
    if i < 0 then "-" + NatText(-i) else NatText(i)
  }

  function IndexText(x: Index): string
  {
    match x
    case Plain => ""
    case At(i) => IntText(i)
    case Pair(i, j) => IntText(i) + "_" + IntText(j)
  }

  /** The flat string key under which the preference store keeps `k`. */
  function Encode(k: Key): string
  {
    k.name.Text() + IndexText(k.index)
  }

  // The characters of the names, one lemma per family of parameters: routing flags,
  // virtualizer, bass boost and treble, loudness, equalizer, presets and user levels.

  lemma RoutingNameChars(n: Name)
    requires n.GlobalEnabled? || n.Bluetooth? || n.Headset?
    ensures All(IsNameChar, n.Text())
  {
  }

  lemma VirtualizerNameChars(n: Name)
    requires n.VirtEnabled? || n.VirtStrengthSupported? || n.VirtStrength? || n.VirtType?
    ensures All(IsNameChar, n.Text())
  {
  }

  lemma BassNameChars(n: Name)
    requires n.BbEnabled? || n.BbStrength? || n.TeEnabled? || n.TeStrength?
    ensures All(IsNameChar, n.Text())
  {
  }

  lemma LoudnessNameChars(n: Name)
    requires n.AvlEnabled? || n.LmEnabled? || n.LmStrength? || n.SwEnabled? || n.SwStrength?
    ensures All(IsNameChar, n.Text())
  {
  }

  lemma EqualizerNameChars(n: Name)
    requires n.EqEnabled? || n.EqNumBands? || n.EqLevelRange? || n.EqCenterFreq? || n.EqBandLevel?
    ensures All(IsNameChar, n.Text())
  {
  }

  lemma PresetNameChars(n: Name)
    requires n.EqNumPresets? || n.EqPresetName? || n.EqCurrentPreset? || n.PrEnabled? || n.PrCurrentPreset?
    ensures All(IsNameChar, n.Text())
  {
  }

  lemma UserLevelNameChars(n: Name)
    requires n.EqPresetUserBandLevel? || n.EqPresetUserBandLevelDefault?
    ensures All(IsNameChar, n.Text())
  {
  }

  /** Every name is spelled with lower-case letters and underscores only. */
  lemma NameChars(n: Name)
    ensures All(IsNameChar, n.Text())
  {
    if n.GlobalEnabled? || n.Bluetooth? || n.Headset? {
      RoutingNameChars(n);
    } else if n.VirtEnabled? || n.VirtStrengthSupported? || n.VirtStrength? || n.VirtType? {
      VirtualizerNameChars(n);
    } else if n.BbEnabled? || n.BbStrength? || n.TeEnabled? || n.TeStrength? {
      BassNameChars(n);
    } else if n.AvlEnabled? || n.LmEnabled? || n.LmStrength? || n.SwEnabled? || n.SwStrength? {
      LoudnessNameChars(n);
    } else if n.EqEnabled? || n.EqNumBands? || n.EqLevelRange? || n.EqCenterFreq? || n.EqBandLevel? {
      EqualizerNameChars(n);
    } else if n.EqPresetUserBandLevel? || n.EqPresetUserBandLevelDefault? {
      UserLevelNameChars(n);
    } else {
      PresetNameChars(n);
    }
  }

  /** No two constants of the enum have the same `toString()`. */
  lemma NameTextInjective(n1: Name, n2: Name)
    requires n1.Text() == n2.Text()
    ensures n1 == n2
  {
  }

  lemma {:induction false} NatTextShape(n: nat)
    ensures 0 < |NatText(n)| && All(IsDigit, NatText(n))
    ensures 10 <= n ==> 2 <= |NatText(n)|
  {
    if 10 <= n {
      NatTextShape(n / 10);
    }
  }

  /** Distinct numbers have distinct decimal spellings. */
  lemma {:induction false} NatTextInjective(a: nat, b: nat)
    requires NatText(a) == NatText(b)
    ensures a == b
  {
    NatTextShape(a);
    NatTextShape(b);
    if 10 <= a && 10 <= b {
      var ta, tb := NatText(a), NatText(b);
      assert ta[..|ta| - 1] == NatText(a / 10);
      assert tb[..|tb| - 1] == NatText(b / 10);
      NatTextInjective(a / 10, b / 10);
      assert DigitChar(a % 10) == ta[|ta| - 1] == tb[|tb| - 1] == DigitChar(b % 10);
    }
  }

  lemma IntTextShape(i: int)
    ensures 0 < |IntText(i)| && All(IsNumberChar, IntText(i))
    ensures IsDigit(IntText(i)[0]) <==> 0 <= i
  {
    NatTextShape(if i < 0 then -i else i);
  }

  lemma IntTextInjective(a: int, b: int)
    requires IntText(a) == IntText(b)
    ensures a == b
  {
    IntTextShape(a);
    IntTextShape(b);
    if a < 0 && b < 0 {
      assert NatText(-a) == IntText(a)[1..] == IntText(b)[1..] == NatText(-b);
      NatTextInjective(-a, -b);
    } else if 0 <= a && 0 <= b {
      NatTextInjective(a, b);
    }
  }

  /** A longer left part forces the shorter one's right part to start inside its class. */
  lemma PrefixClash(p: char -> bool, a: string, b: string, c: string, d: string)
    requires All(p, c) && |a| < |c|
    requires a + b == c + d
    ensures |b| > 0 && p(b[0])
  {
    assert |a + b| == |c + d|;
    assert b[0] == (a + b)[|a|] == (c + d)[|a|] == c[|a|];
  }

  /**
   * If two concatenations agree and each left part is drawn from a character class
   * that the first character of the matching right part is not in, the parts agree.
   */
  lemma SplitAgree(p: char -> bool, a: string, b: string, c: string, d: string)
    requires All(p, a) && All(p, c)
    requires |b| > 0 ==> !p(b[0])
    requires |d| > 0 ==> !p(d[0])
    requires a + b == c + d
    ensures a == c && b == d
  {
    if |a| < |c| {
      PrefixClash(p, a, b, c, d);
      assert false;
    } else if |c| < |a| {
      PrefixClash(p, c, d, a, b);
      assert false;
    }
    assert a == (a + b)[..|a|] == (c + d)[..|c|] == c;
    assert b == (a + b)[|a|..] == (c + d)[|c|..] == d;
  }

  lemma IndexTextShape(x: Index)
    ensures |IndexText(x)| > 0 ==> !IsNameChar(IndexText(x)[0])
  {
    match x
    case Plain =>
    case At(i) => IntTextShape(i);
    case Pair(i, j) => IntTextShape(i);
  }

  /** A single index never reads like a pair: a number has no underscore. */
  lemma AtIsNotPair(i: int, j: int, k: int)
    ensures IntText(i) != IntText(j) + "_" + IntText(k)
  {
    IntTextShape(i);
    var t := IntText(j) + "_" + IntText(k);
    assert !IsNumberChar(t[|IntText(j)|]);
  }

  lemma PairTextInjective(i: int, j: int, k: int, l: int)
    requires IntText(i) + "_" + IntText(j) == IntText(k) + "_" + IntText(l)
    ensures i == k && j == l
  {
    IntTextShape(i);
    IntTextShape(k);
    assert IntText(i) + "_" + IntText(j) == IntText(i) + ("_" + IntText(j));
    assert IntText(k) + "_" + IntText(l) == IntText(k) + ("_" + IntText(l));
    SplitAgree(IsNumberChar, IntText(i), "_" + IntText(j), IntText(k), "_" + IntText(l));
    assert IntText(j) == ("_" + IntText(j))[1..] == ("_" + IntText(l))[1..] == IntText(l);
    IntTextInjective(i, k);
    IntTextInjective(j, l);
  }

  lemma IndexTextInjective(x: Index, y: Index)
    requires IndexText(x) == IndexText(y)
    ensures x == y
  {
    if x.Plain? || y.Plain? {
      if x.At? { IntTextShape(x.i); }
      if y.At? { IntTextShape(y.i); }
    } else if x.At? && y.At? {
      IntTextInjective(x.i, y.i);
    } else if x.At? {
      AtIsNotPair(x.i, y.i, y.j);
    } else if y.At? {
      AtIsNotPair(y.i, x.i, x.j);
    } else {
      PairTextInjective(x.i, x.j, y.i, y.j);
    }
  }

  /** Distinct logical keys are stored under distinct string keys. */
  lemma EncodeInjective(k1: Key, k2: Key)
    requires Encode(k1) == Encode(k2)
    ensures k1 == k2
  {
    NameChars(k1.name);
    NameChars(k2.name);
    IndexTextShape(k1.index);
    IndexTextShape(k2.index);
    SplitAgree(IsNameChar, k1.name.Text(), IndexText(k1.index), k2.name.Text(), IndexText(k2.index));
    NameTextInjective(k1.name, k2.name);
    IndexTextInjective(k1.index, k2.index);
  }
}
