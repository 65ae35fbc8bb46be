/**
 * The persisted preference files (SharedPreferences) of the control panel: one global
 * file holding the routing flags and one file per output scope. Each editor batch is
 * applied as one map update.
 */
module Prefs {
  import opened Wrappers
  import opened Keys

  /** GLOBAL_PREF_SCOPE and the three files of ALL_PREF_SCOPES. */
  datatype Scope = GlobalScope | SpeakerScope | HeadsetScope | BluetoothScope {
    /** The preference file's name. */
    function FileName(): string {
      match this
      case GlobalScope => "com.android.musicfx"
      case SpeakerScope => "com.android.musicfx.speaker"
      case HeadsetScope => "com.android.musicfx.headset"
      case BluetoothScope => "com.android.musicfx.bluetooth"
    }
  }

  /** The scopes whose files hold effect settings, in the order the source visits them. */
  const ALL_PREF_SCOPES: seq<Scope> := [SpeakerScope, HeadsetScope, BluetoothScope]

  /** A stored preference: the store keeps booleans, ints and strings. */
  datatype Value = BoolV(b: bool) | IntV(i: int) | StrV(s: string)

  type Bucket = map<Key, Value>

  /** The four preference files. */
  datatype Store = Store(global: Bucket, speaker: Bucket, headset: Bucket, bluetooth: Bucket) {

    function Get(s: Scope): Bucket {
      match s
      case GlobalScope => global
      case SpeakerScope => speaker
      case HeadsetScope => headset
      case BluetoothScope => bluetooth
    }

    /** Replaces one file; the other three are left as they were. */
    function Put(s: Scope, b: Bucket): (st: Store)
      ensures st.Get(s) == b
      ensures forall o :: o != s ==> st.Get(o) == Get(o)
    {
      match s
      case GlobalScope => this.(global := b)
      case SpeakerScope => this.(speaker := b)
      case HeadsetScope => this.(headset := b)
      case BluetoothScope => this.(bluetooth := b)
    }
  }

  const EmptyStore := Store(map[], map[], map[], map[])

  /** The four scopes are four different preference files. */
  lemma FileNamesDistinct(s1: Scope, s2: Scope)
    ensures s1.FileName() == s2.FileName() ==> s1 == s2
  {
  }

  // Typed reads with a caller-supplied default. A missing key reads as the default;
  // so does a key holding another type, where the platform store throws a
  // ClassCastException that the getters catch and answer with the same default.

  function GetBoolean(b: Bucket, k: Key, default: bool): bool {
    if k in b && b[k].BoolV? then b[k].b else default
  }

  function GetInt(b: Bucket, k: Key, default: int): int {
    if k in b && b[k].IntV? then b[k].i else default
  }

  function GetString(b: Bucket, k: Key, default: string): string {
    if k in b && b[k].StrV? then b[k].s else default
  }

  /** The entry stored under k, if any. */
  function Read(b: Bucket, k: Key): Option<Value> {
    if k in b then Some(b[k]) else None
  }

  /** `getInt` on a key that holds a boolean or a string throws ClassCastException. */
  predicate IntReadThrows(b: Bucket, k: Key) {
    k in b && !b[k].IntV?
  }

  /** getParameterBoolean: an unset flag reads as false. */
  function GetParameterBoolean(st: Store, scope: Scope, name: Name): bool {
    GetBoolean(st.Get(scope), Key(name, Plain), false)
  }

  /** The three getParameterInt overloads (no index, one index, two indices): unset reads as 0. */
  function GetParameterInt(st: Store, scope: Scope, k: Key): int {
    GetInt(st.Get(scope), k, 0)
  }

  /** The getParameterString overloads: unset reads as the empty string. */
  function GetParameterString(st: Store, scope: Scope, k: Key): string {
    GetString(st.Get(scope), k, "")
  }

  /** The getParameter* getters answer false, 0 or the empty string for a key that is unset or holds another type. */
  lemma GetParameterDefaults(st: Store, scope: Scope, name: Name, k: Key)
    ensures (Key(name, Plain) !in st.Get(scope) || !st.Get(scope)[Key(name, Plain)].BoolV?) ==>
              !GetParameterBoolean(st, scope, name)
    ensures (k !in st.Get(scope) || !st.Get(scope)[k].IntV?) ==> GetParameterInt(st, scope, k) == 0
    ensures (k !in st.Get(scope) || !st.Get(scope)[k].StrV?) ==> GetParameterString(st, scope, k) == ""
  {
  }

  /** A stored entry of the getter's type is what the getter answers; a flag reads true exactly when true is stored. */
  lemma GetParameterStored(st: Store, scope: Scope, name: Name, k: Key)
    ensures GetParameterBoolean(st, scope, name) <==> Read(st.Get(scope), Key(name, Plain)) == Some(BoolV(true))
    ensures Read(st.Get(scope), k).Some? && Read(st.Get(scope), k).value.IntV? ==>
              GetParameterInt(st, scope, k) == Read(st.Get(scope), k).value.i
    ensures Read(st.Get(scope), k).Some? && Read(st.Get(scope), k).value.StrV? ==>
              GetParameterString(st, scope, k) == Read(st.Get(scope), k).value.s
  {
  }

  /**
   * A value written into one file reads back through the getter of its type, and the
   * same key of every other file reads as before.
   */
  lemma GetParameterReadBack(st: Store, scope: Scope, k: Key, v: Value, other: Scope)
    requires other != scope
    ensures v.BoolV? && k.index == Plain ==> GetParameterBoolean(st.Put(scope, st.Get(scope)[k := v]), scope, k.name) == v.b
    ensures v.IntV? ==> GetParameterInt(st.Put(scope, st.Get(scope)[k := v]), scope, k) == v.i
    ensures v.StrV? ==> GetParameterString(st.Put(scope, st.Get(scope)[k := v]), scope, k) == v.s
    ensures GetParameterBoolean(st.Put(scope, st.Get(scope)[k := v]), other, k.name) == GetParameterBoolean(st, other, k.name)
    ensures GetParameterInt(st.Put(scope, st.Get(scope)[k := v]), other, k) == GetParameterInt(st, other, k)
    ensures GetParameterString(st.Put(scope, st.Get(scope)[k := v]), other, k) == GetParameterString(st, other, k)
  {
  }

  /** A value written under a key reads back, whatever default the reader passes. */
  lemma ReadBack(b: Bucket, k: Key, v: Value, d: Value)
    ensures v.BoolV? && d.BoolV? ==> GetBoolean(b[k := v], k, d.b) == v.b
    ensures v.IntV? && d.IntV? ==> GetInt(b[k := v], k, d.i) == v.i
    ensures v.StrV? && d.StrV? ==> GetString(b[k := v], k, d.s) == v.s
  {
  }

  /** Writing one key leaves every read of every other key as it was. */
  lemma ReadOther(b: Bucket, k: Key, v: Value, k': Key, d: Value)
    requires k' != k
    ensures d.BoolV? ==> GetBoolean(b[k := v], k', d.b) == GetBoolean(b, k', d.b)
    ensures d.IntV? ==> GetInt(b[k := v], k', d.i) == GetInt(b, k', d.i)
    ensures d.StrV? ==> GetString(b[k := v], k', d.s) == GetString(b, k', d.s)
  {
  }
}
