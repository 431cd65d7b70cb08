/** `SettingsPersistence`: a `Settings` object to and from the key/value
    properties file. The file is abstracted to its map of keys to values; the
    properties text format itself is not modelled. */
module SettingsPersistence {
  import opened Wrappers
  import opened JavaLang
  import opened UserSettings

  const DurationKey := "gameDurationSeconds"
  const FakeButtonsKey := "numFakeButtons"
  const MoveIntervalKey := "moveIntervalMs"
  const SoundKey := "soundEnabled"
  const WidthKey := "mainButtonStartWidth"
  const HeightKey := "mainButtonStartHeight"

  /** The keys in the order `load` reads them. */
  const SettingsKeys: seq<string> := [DurationKey, FakeButtonsKey, MoveIntervalKey, SoundKey, WidthKey, HeightKey]

  type Properties = map<string, string>

  /** The value of one field: `soundEnabled` is the one boolean. */
  datatype FieldValue = IntValue(i: Int32) | BoolValue(b: bool)

  predicate Fits(key: string, v: FieldValue) {
    if key == SoundKey then v.BoolValue? else v.IntValue?
  }

  predicate Distinct(keys: seq<string>) {
    forall i, j :: 0 <= i < j < |keys| ==> keys[i] != keys[j]
  }

  /** The field a key names. */
  function Field(c: Config, key: string): (v: FieldValue)
    requires key in SettingsKeys
    ensures Fits(key, v)
  {
    if key == DurationKey then IntValue(c.gameDurationSeconds)
    else if key == FakeButtonsKey then IntValue(c.numFakeButtons)
    else if key == MoveIntervalKey then IntValue(c.moveIntervalMs)
    else if key == SoundKey then BoolValue(c.soundEnabled)
    else if key == WidthKey then IntValue(c.mainButtonStartWidth)
    else IntValue(c.mainButtonStartHeight)
  }

  /** The setter a key names: it changes that one field. */
  function SetField(c: Config, key: string, v: FieldValue): (r: Config)
    requires key in SettingsKeys && Fits(key, v)
    ensures Field(r, key) == v
    ensures forall k :: k in SettingsKeys && k != key ==> Field(r, k) == Field(c, k)
  {
    if key == DurationKey then c.(gameDurationSeconds := v.i)
    else if key == FakeButtonsKey then c.(numFakeButtons := v.i)
    else if key == MoveIntervalKey then c.(moveIntervalMs := v.i)
    else if key == SoundKey then c.(soundEnabled := v.b)
    else if key == WidthKey then c.(mainButtonStartWidth := v.i)
    else c.(mainButtonStartHeight := v.i)
  }

  /** Two configurations that agree on every key are the same. */
  lemma FieldsDetermineConfig(a: Config, b: Config)
    requires forall k :: k in SettingsKeys ==> Field(a, k) == Field(b, k)
    ensures a == b
  {
    assert Field(a, DurationKey) == Field(b, DurationKey);
    assert Field(a, FakeButtonsKey) == Field(b, FakeButtonsKey);
    assert Field(a, MoveIntervalKey) == Field(b, MoveIntervalKey);
    assert Field(a, SoundKey) == Field(b, SoundKey);
    assert Field(a, WidthKey) == Field(b, WidthKey);
    assert Field(a, HeightKey) == Field(b, HeightKey);
  }

  /** `String.valueOf` of a field's value. */
  function FieldText(v: FieldValue): string {
    match v
    case IntValue(i) => DecimalText(i)
    case BoolValue(b) => BooleanText(b)
  }

  /** How `load` reads a key's value: `Boolean.parseBoolean` for
      `soundEnabled`, which never fails, and `Integer.parseInt` for the
      others, which fails on malformed text. */
  function ParseField(key: string, text: string): (r: Option<FieldValue>)
    requires key in SettingsKeys
    ensures key == SoundKey ==> r.Some?
    ensures r.Some? ==> Fits(key, r.value)
  {
    if key == SoundKey then Some(BoolValue(ParseBoolean(text)))
    else match ParseInt(text)
      case None => None
      case Some(i) => Some(IntValue(i))
  }

  lemma ParseFieldText(key: string, v: FieldValue)
    requires key in SettingsKeys && Fits(key, v)
    ensures ParseField(key, FieldText(v)) == Some(v)
  {
    if v.IntValue? {
      ParseDecimalText(v.i);
    }
  }

  /** `save`: the six fields under their six keys, as text. */
  function SaveProperties(c: Config): (p: Properties)
    ensures p.Keys == set k | k in SettingsKeys
    ensures forall k :: k in SettingsKeys ==> p[k] == FieldText(Field(c, k))
    ensures p[SoundKey] == "true" || p[SoundKey] == "false"
  {
    map[DurationKey := DecimalText(c.gameDurationSeconds),
        FakeButtonsKey := DecimalText(c.numFakeButtons),
        MoveIntervalKey := DecimalText(c.moveIntervalMs),
        SoundKey := BooleanText(c.soundEnabled),
        WidthKey := DecimalText(c.mainButtonStartWidth),
        HeightKey := DecimalText(c.mainButtonStartHeight)]
  }

  /** One `if (props.getProperty(key) != null) settings.setX(parse(...))`
      step: `None` is the `NumberFormatException` that ends the load. */
  function LoadKey(c: Config, props: Properties, key: string): Option<Config>
    requires key in SettingsKeys
  {
    if key !in props then Some(c)
    else match ParseField(key, props[key])
      case None => None
      case Some(v) => Some(SetField(c, key, v))
  }

  /** What a load leaves in the settings, and whether it reported an error. */
  datatype Loaded = Loaded(config: Config, failed: bool)

  /** The steps of a load, in the given key order, stopping at the first
      failure with the fields set so far kept. */
  function LoadKeys(c: Config, props: Properties, keys: seq<string>): Loaded
    requires forall i :: 0 <= i < |keys| ==> keys[i] in SettingsKeys
    decreases |keys|
  {
    if keys == [] then Loaded(c, false)
    else match LoadKey(c, props, keys[0])
      case None => Loaded(c, true)
      case Some(next) => LoadKeys(next, props, keys[1..])
  }

  function LoadProperties(c: Config, props: Properties): Loaded {
    LoadKeys(c, props, SettingsKeys)
  }

  /** The settings file: absent, present but unreadable, or its properties. */
  datatype StoredFile = Missing | Unreadable | Stored(props: Properties)

  /** `load`: nothing at all when the file is missing, an error and no change
      when it cannot be read, otherwise the key-by-key load. */
  function LoadFile(c: Config, file: StoredFile): (r: Loaded)
    ensures file.Missing? ==> r == Loaded(c, false)
    ensures file.Unreadable? ==> r == Loaded(c, true)
  {
    match file
    case Missing => Loaded(c, false)
    case Unreadable => Loaded(c, true)
    case Stored(props) => LoadProperties(c, props)
  }

  /** A load that runs to the end overwrites the field of every present key
      with its parsed value and leaves the field of every absent key, and of
      every key not in the list, as it was. */
  lemma {:induction false} LoadKeysFields(c: Config, props: Properties, keys: seq<string>)
    requires forall i :: 0 <= i < |keys| ==> keys[i] in SettingsKeys
    requires Distinct(keys)
    requires !LoadKeys(c, props, keys).failed
    ensures forall k :: k in keys && k in props ==>
      ParseField(k, props[k]) == Some(Field(LoadKeys(c, props, keys).config, k))
    ensures forall k :: k in keys && k !in props ==> Field(LoadKeys(c, props, keys).config, k) == Field(c, k)
    ensures forall k :: k in SettingsKeys && k !in keys ==> Field(LoadKeys(c, props, keys).config, k) == Field(c, k)
    decreases |keys|
  {
    if keys != [] {
      var key := keys[0];
      var next := LoadKey(c, props, key).value;
      var rest := keys[1..];
      assert Distinct(rest) by {
        forall i, j | 0 <= i < j < |rest| ensures rest[i] != rest[j] {
          assert rest[i] == keys[i + 1] && rest[j] == keys[j + 1];
        }
      }
      assert key !in rest by {
        forall i | 0 <= i < |rest| ensures rest[i] != key {
          assert rest[i] == keys[i + 1];
        }
      }
      LoadKeysFields(next, props, rest);
      assert forall k :: k in keys <==> k == key || k in rest;
    }
  }

  /** A load reports an error exactly when some key in the list is present
      with a value its parser rejects. */
  lemma {:induction false} LoadKeysFailure(c: Config, props: Properties, keys: seq<string>)
    requires forall i :: 0 <= i < |keys| ==> keys[i] in SettingsKeys
    ensures LoadKeys(c, props, keys).failed <==>
      exists i :: 0 <= i < |keys| && keys[i] in props && ParseField(keys[i], props[keys[i]]).None?
    decreases |keys|
  {
    if keys != [] {
      var key := keys[0];
      if LoadKey(c, props, key).Some? {
        LoadKeysFailure(LoadKey(c, props, key).value, props, keys[1..]);
        if LoadKeys(c, props, keys).failed {
          var i :| 0 <= i < |keys[1..]| && keys[1..][i] in props && ParseField(keys[1..][i], props[keys[1..][i]]).None?;
          assert keys[i + 1] == keys[1..][i];
        } else {
          forall i | 0 <= i < |keys| && keys[i] in props
            ensures ParseField(keys[i], props[keys[i]]).Some?
          {
            if i > 0 {
              assert keys[i] == keys[1..][i - 1];
            }
          }
        }
      }
    }
  }

  /** Loading runs the keys of a list in order: the load of `pre + post` is
      the load of `pre` followed, unless it failed, by the load of `post`. */
  lemma {:induction false} LoadKeysAppend(c: Config, props: Properties, pre: seq<string>, post: seq<string>)
    requires forall i :: 0 <= i < |pre| ==> pre[i] in SettingsKeys
    requires forall i :: 0 <= i < |post| ==> post[i] in SettingsKeys
    ensures forall i :: 0 <= i < |pre + post| ==> (pre + post)[i] in SettingsKeys
    ensures LoadKeys(c, props, pre + post) ==
      var first := LoadKeys(c, props, pre);
      if first.failed then first else LoadKeys(first.config, props, post)
    decreases |pre|
  {
    assert forall i :: 0 <= i < |pre + post| ==> (pre + post)[i] in SettingsKeys by {
      forall i | 0 <= i < |pre + post| ensures (pre + post)[i] in SettingsKeys {
        if i >= |pre| {
          assert (pre + post)[i] == post[i - |pre|];
        }
      }
    }
    if pre == [] {
      assert pre + post == post;
    } else {
      assert (pre + post)[0] == pre[0] && (pre + post)[1..] == pre[1..] + post;
      match LoadKey(c, props, pre[0])
      case None =>
      case Some(next) => LoadKeysAppend(next, props, pre[1..], post);
    }
  }

  lemma SettingsKeysDistinct()
    ensures Distinct(SettingsKeys)
  {
  }

  /** A malformed integer under the `i`-th key, with every earlier present key
      well formed, ends the load with an error: the earlier keys have been
      applied, that key and every later one have not. */
  lemma LoadStopsAtMalformed(c: Config, props: Properties, i: nat)
    requires i < |SettingsKeys|
    requires SettingsKeys[i] in props && ParseField(SettingsKeys[i], props[SettingsKeys[i]]).None?
    requires forall j :: 0 <= j < i && SettingsKeys[j] in props ==> ParseField(SettingsKeys[j], props[SettingsKeys[j]]).Some?
    ensures LoadProperties(c, props).failed
    ensures forall j :: 0 <= j < i && SettingsKeys[j] in props ==>
      ParseField(SettingsKeys[j], props[SettingsKeys[j]]) == Some(Field(LoadProperties(c, props).config, SettingsKeys[j]))
    ensures forall j :: 0 <= j < i && SettingsKeys[j] !in props ==>
      Field(LoadProperties(c, props).config, SettingsKeys[j]) == Field(c, SettingsKeys[j])
    ensures forall j :: i <= j < |SettingsKeys| ==>
      Field(LoadProperties(c, props).config, SettingsKeys[j]) == Field(c, SettingsKeys[j])
  {
    var pre, post := SettingsKeys[..i], SettingsKeys[i..];
    assert pre + post == SettingsKeys;
    SettingsKeysDistinct();
    assert Distinct(pre);
    LoadKeysFailure(c, props, pre);
    LoadKeysAppend(c, props, pre, post);
    var mid := LoadKeys(c, props, pre);
    assert !mid.failed;
    LoadKeysFields(c, props, pre);
    assert post[0] == SettingsKeys[i];
    assert LoadProperties(c, props) == Loaded(mid.config, true);
    forall j | 0 <= j < i
      ensures SettingsKeys[j] in pre
    {
      assert pre[j] == SettingsKeys[j];
    }
  }

  /** Saving a configuration and loading the result into any settings object
      reproduces that configuration, without an error. */
  lemma SaveLoadRoundTrip(prior: Config, c: Config)
    ensures LoadProperties(prior, SaveProperties(c)) == Loaded(c, false)
  {
    var props := SaveProperties(c);
    forall k | k in SettingsKeys
      ensures ParseField(k, props[k]) == Some(Field(c, k))
    {
      ParseFieldText(k, Field(c, k));
    }
    LoadKeysFailure(prior, props, SettingsKeys);
    SettingsKeysDistinct();
    LoadKeysFields(prior, props, SettingsKeys);
    var loaded := LoadProperties(prior, props).config;
    forall k | k in SettingsKeys
      ensures Field(loaded, k) == Field(c, k)
    {
    }
    FieldsDetermineConfig(loaded, c);
  }

  /** The settings file, and whether a write to it would succeed. */
  class SettingsFile {
    var stored: StoredFile
    var writable: bool

    constructor (stored: StoredFile, writable: bool)
      ensures this.stored == stored && this.writable == writable
    {
      this.stored := stored;
      this.writable := writable;
    }
  }

  /** `save`: writes the six properties; a write failure is reported and
      leaves the file as it was. The settings are only read. */
  method Save(settings: Settings, file: SettingsFile) returns (error: bool)
    modifies file`stored
    ensures error == !file.writable
    ensures file.stored == if error then old(file.stored) else Stored(SaveProperties(settings.Snapshot()))
  {
    var props := SaveProperties(settings.Snapshot());
    error := !file.writable;
    if !error {
      file.stored := Stored(props);
    }
  }

  /** One key of `load`: when the key is present, its value is parsed and
      handed to that field's setter; `ok` is false when the parse fails, and
      then nothing has changed. */
  method LoadKeyInto(settings: Settings, props: Properties, key: string) returns (ok: bool)
    requires key in SettingsKeys
    modifies settings
    ensures ok == LoadKey(old(settings.Snapshot()), props, key).Some?
    ensures settings.Snapshot() == if ok then LoadKey(old(settings.Snapshot()), props, key).value else old(settings.Snapshot())
  {
    if key !in props {
      return true;
    }
    if key == SoundKey {
      settings.SetSoundEnabled(ParseBoolean(props[key]));
      return true;
    }
    var v := ParseInt(props[key]);
    if v.None? {
      return false;
    }
    if key == DurationKey {
      settings.SetGameDurationSeconds(v.value);
    } else if key == FakeButtonsKey {
      settings.SetNumFakeButtons(v.value);
    } else if key == MoveIntervalKey {
      settings.SetMoveIntervalMs(v.value);
    } else if key == WidthKey {
      settings.SetMainButtonStartWidth(v.value);
    } else {
      settings.SetMainButtonStartHeight(v.value);
    }
    return true;
  }

  /** `load`: updates the settings in place, key by key, in the fixed key
      order, and reports an error on an unreadable file or at the first
      malformed integer. */
  method Load(settings: Settings, file: SettingsFile) returns (error: bool)
    modifies settings
    ensures settings.Snapshot() == LoadFile(old(settings.Snapshot()), file.stored).config
    ensures error == LoadFile(old(settings.Snapshot()), file.stored).failed
  {
    match file.stored
    case Missing =>
      return false;
    case Unreadable =>
      return true;
    case Stored(props) =>
      ghost var c0 := settings.Snapshot();
      var ok := LoadKeyInto(settings, props, DurationKey);
      if !ok {
        return true;
      }
      assert LoadProperties(c0, props) == LoadKeys(settings.Snapshot(), props, SettingsKeys[1..]);
      ok := LoadKeyInto(settings, props, FakeButtonsKey);
      if !ok {
        return true;
      }
      assert LoadProperties(c0, props) == LoadKeys(settings.Snapshot(), props, SettingsKeys[2..]);
      ok := LoadKeyInto(settings, props, MoveIntervalKey);
      if !ok {
        return true;
      }
      assert LoadProperties(c0, props) == LoadKeys(settings.Snapshot(), props, SettingsKeys[3..]);
      ok := LoadKeyInto(settings, props, SoundKey);
      assert LoadProperties(c0, props) == LoadKeys(settings.Snapshot(), props, SettingsKeys[4..]);
      ok := LoadKeyInto(settings, props, WidthKey);
      if !ok {
        return true;
      }
      assert LoadProperties(c0, props) == LoadKeys(settings.Snapshot(), props, SettingsKeys[5..]);
      ok := LoadKeyInto(settings, props, HeightKey);
      if !ok {
        return true;
      }
      assert LoadProperties(c0, props) == LoadKeys(settings.Snapshot(), props, SettingsKeys[6..]);
      return false;
  }

  /** Settings saved to a writable file and loaded into a fresh `Settings`
      come back field for field. */
  method SaveThenLoadFresh(settings: Settings) returns (loaded: Settings, error: bool)
    ensures fresh(loaded)
    ensures !error && loaded.Snapshot() == settings.Snapshot()
  {
    var file := new SettingsFile(Missing, true);
    var saveError := Save(settings, file);
    loaded := new Settings();
    SaveLoadRoundTrip(loaded.Snapshot(), settings.Snapshot());
    error := Load(loaded, file);
  }
}
