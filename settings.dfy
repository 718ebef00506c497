/**
 * The settings screen (app/components/Settings.tsx): four switches whose
 * values are loaded from and saved to browser storage under one key.
 *
 * Storage is a map from keys to the object `JSON.parse` gives back for the
 * stored text; a field that is missing or `null` there is `None`.
 */
module VaultSettings {
  import opened Wrappers

  /** The key everything is stored under. */
  const StorageKey: string := "vaultSettings"

  /** The four switches. */
  datatype Flags = Flags(faceIdEnabled: bool, fingerprintBackup: bool, autoLock: bool, stealthMode: bool)

  /** The `useState` initial values. */
  const Defaults: Flags := Flags(true, false, true, true)

  /** A parsed stored object: each field may be absent (or `null`). */
  datatype Saved = Saved(faceIdEnabled: Option<bool>, fingerprintBackup: Option<bool>,
                         autoLock: Option<bool>, stealthMode: Option<bool>)

  type Storage = map<string, Saved>

  /** `settings.x ?? default` for each field: only a missing value takes the default. */
  function Merge(s: Saved): (f: Flags)
    ensures s.faceIdEnabled.Some? ==> f.faceIdEnabled == s.faceIdEnabled.value
    ensures s.fingerprintBackup.Some? ==> f.fingerprintBackup == s.fingerprintBackup.value
    ensures s.autoLock.Some? ==> f.autoLock == s.autoLock.value
    ensures s.stealthMode.Some? ==> f.stealthMode == s.stealthMode.value
    ensures s.faceIdEnabled.None? ==> f.faceIdEnabled == Defaults.faceIdEnabled
    ensures s.fingerprintBackup.None? ==> f.fingerprintBackup == Defaults.fingerprintBackup
    ensures s.autoLock.None? ==> f.autoLock == Defaults.autoLock
    ensures s.stealthMode.None? ==> f.stealthMode == Defaults.stealthMode
  {
    Flags(s.faceIdEnabled.GetOr(true), s.fingerprintBackup.GetOr(false),
          s.autoLock.GetOr(true), s.stealthMode.GetOr(true))
  }

  /** The load effect on mount: the flags after it, starting from the defaults. */
  function Load(st: Storage): (f: Flags)
    ensures StorageKey !in st ==> f == Defaults
  {
    if StorageKey in st then Merge(st[StorageKey]) else Defaults
  }

  /** The object the save effect writes: all four flags, none missing. */
  function Encode(f: Flags): (s: Saved)
    ensures s.faceIdEnabled.Some? && s.fingerprintBackup.Some? && s.autoLock.Some? && s.stealthMode.Some?
  {
    Saved(Some(f.faceIdEnabled), Some(f.fingerprintBackup), Some(f.autoLock), Some(f.stealthMode))
  }

  /** The save effect: the key now holds the four flags, and no other key changes. */
  function Save(st: Storage, f: Flags): (r: Storage)
    ensures StorageKey in r && r[StorageKey] == Encode(f)
    ensures r.Keys == st.Keys + {StorageKey}
    ensures forall k :: k in st && k != StorageKey ==> r[k] == st[k]
  {
    st[StorageKey := Encode(f)]
  }

  /** Loading what save wrote gives back the same four flags, whatever was stored before. */
  lemma LoadAfterSave(st: Storage, f: Flags)
    ensures Load(Save(st, f)) == f
  {
  }

  /**
   * An explicitly stored `false` is kept even where the default is `true`;
   * only a missing field falls back, so a stored `Saved` with nothing in it
   * loads as the defaults.
   */
  lemma ExplicitFalseKept(st: Storage)
    requires StorageKey in st
    ensures st[StorageKey].faceIdEnabled == Some(false) ==> !Load(st).faceIdEnabled
    ensures st[StorageKey].autoLock == Some(false) ==> !Load(st).autoLock
    ensures st[StorageKey].stealthMode == Some(false) ==> !Load(st).stealthMode
    ensures st[StorageKey] == Saved(None, None, None, None) ==> Load(st) == Defaults
  {
  }

  /** Which switch was flipped. */
  datatype Switch = FaceId | Fingerprint | AutoLock | Stealth

  /** `onChange(!enabled)` for one switch. */
  function Flip(f: Flags, w: Switch): Flags {
    match w
    case FaceId => f.(faceIdEnabled := !f.faceIdEnabled)
    case Fingerprint => f.(fingerprintBackup := !f.fingerprintBackup)
    case AutoLock => f.(autoLock := !f.autoLock)
    case Stealth => f.(stealthMode := !f.stealthMode)
  }

  /** The value of one switch. */
  function Get(f: Flags, w: Switch): bool {
    match w
    case FaceId => f.faceIdEnabled
    case Fingerprint => f.fingerprintBackup
    case AutoLock => f.autoLock
    case Stealth => f.stealthMode
  }

  /** A flip negates its own switch, leaves the other three alone, and undoes itself. */
  lemma FlipOnlyItsSwitch(f: Flags, w: Switch, v: Switch)
    ensures Get(Flip(f, w), w) == !Get(f, w)
    ensures v != w ==> Get(Flip(f, w), v) == Get(f, v)
    ensures Flip(Flip(f, w), w) == f
  {
  }

  /** Flags agree when every switch does. */
  lemma FlagsBySwitch(f: Flags, g: Flags)
    requires forall w :: Get(f, w) == Get(g, w)
    ensures f == g
  {
    assert Get(f, FaceId) == Get(g, FaceId);
    assert Get(f, Fingerprint) == Get(g, Fingerprint);
    assert Get(f, AutoLock) == Get(g, AutoLock);
    assert Get(f, Stealth) == Get(g, Stealth);
  }

  class SettingsScreen {
    var flags: Flags
    var storage: Storage

    /**
     * Mounting: the save effect first writes the initial values, then the
     * load effect's values are rendered and saved; what remains is the
     * merged stored object, written back in full.
     */
    constructor (st: Storage)
      ensures flags == Load(st)
      ensures storage == Save(st, Load(st))
    {
      var loaded := Load(st);
      var first := Save(st, Defaults);
      flags := loaded;
      storage := Save(first, loaded);
    }

    /** A switch's `onChange(!enabled)`, then the save effect. */
    method Toggle(w: Switch)
      modifies this
      ensures flags == Flip(old(flags), w)
      ensures storage == Save(old(storage), flags)
    {
      flags := Flip(flags, w);
      storage := Save(storage, flags);
    }
  }

  /** After a toggle, reopening the screen shows the toggled flags. */
  lemma ToggleThenReopen(st: Storage, f: Flags, w: Switch)
    ensures Load(Save(st, Flip(f, w))) == Flip(f, w)
    ensures Get(Load(Save(st, Flip(f, w))), w) == !Get(f, w)
  {
    LoadAfterSave(st, Flip(f, w));
    FlipOnlyItsSwitch(f, w, w);
  }
}
