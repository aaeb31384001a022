/** `storageService.ts`: the key scheme of the persisted state and typed
    reads and writes of a string-valued key store that stands for the
    browser's `localStorage`. */
module StorageService {
  import opened Wrappers
  import opened JsString
  import opened Tiles

  // ------------------------------------------------------------- key scheme

  const Prefix := "tiles"

  const NotesKey := Prefix + "Notes"
  const RootElKey := Prefix + "RootEl"
  const ScaleElKey := Prefix + "ScaleEl"
  const TonesElKey := Prefix + "TonesEl"
  const TonesArrElKey := Prefix + "TonesArrEl"
  const BpmElKey := Prefix + "BpmEl"
  const SoundElKey := Prefix + "SoundEl"
  const ThemeKey := Prefix + "Theme"

  /** The seven keys `saveAppState` writes, in the order it writes them. */
  const StateKeys: seq<string> :=
    [NotesKey, RootElKey, ScaleElKey, TonesElKey, TonesArrElKey, BpmElKey, SoundElKey]

  /** Every key of the scheme. */
  const AllKeys: seq<string> := StateKeys + [ThemeKey]

  /** The eight keys are pairwise distinct, all start with the prefix, and
      the theme key is not one of the state keys. */
  lemma KeysDistinct()
    ensures |AllKeys| == 8
    ensures forall i, j :: 0 <= i < j < |AllKeys| ==> AllKeys[i] != AllKeys[j]
    ensures forall i :: 0 <= i < |AllKeys| ==> AllKeys[i][..|Prefix|] == Prefix
    ensures ThemeKey !in StateKeys
  {
    KeySpelling();
    assert AllKeys == ["tilesNotes", "tilesRootEl", "tilesScaleEl", "tilesTonesEl",
                       "tilesTonesArrEl", "tilesBpmEl", "tilesSoundEl", "tilesTheme"];
  }

  /** The keys as they are spelled out. */
  lemma KeySpelling()
    ensures NotesKey == "tilesNotes" && RootElKey == "tilesRootEl"
    ensures ScaleElKey == "tilesScaleEl" && TonesElKey == "tilesTonesEl"
    ensures TonesArrElKey == "tilesTonesArrEl" && BpmElKey == "tilesBpmEl"
    ensures SoundElKey == "tilesSoundEl" && ThemeKey == "tilesTheme"
  {
  }

  /** `DEFAULT_STATE`. */
  const DefaultState := TilesState(
    notes := "",
    rootEl := "C",
    scaleEl := "Major",
    tonesEl := "T - T - S - T - T - T - S",
    tonesArrEl := ["C", "D", "E", "F", "G", "A", "B", "C"],
    bpmEl := "100",
    soundEl := "Guitar")

  // ------------------------------------------------------------ typed values

  /** A value handed to `saveToStorage` or used as the default of
      `getFromStorage`; its variant is the JavaScript `typeof` the code
      dispatches on. The only objects the application stores are arrays of
      strings. */
  datatype StoredValue =
    | Text(text: string)
    | Number(number: NumberValue)
    | Flag(flag: bool)
    | List(list: seq<string>)

  predicate SameKind(a: StoredValue, b: StoredValue)
  {
    (a.Text? && b.Text?) || (a.Number? && b.Number?) ||
    (a.Flag? && b.Flag?) || (a.List? && b.List?)
  }

  /** `JSON.stringify` and `JSON.parse` on arrays of strings; `parse` yields
      None where `JSON.parse` throws. */
  datatype ListCodec = ListCodec(stringify: seq<string> -> string, parse: string -> Option<seq<string>>)

  /** The one fact the model assumes of JSON: parsing what was stringified
      gives the array back. */
  ghost predicate ParseInvertsStringify(json: ListCodec)
  {
    forall xs :: json.parse(json.stringify(xs)) == Some(xs)
  }

  /** The text `saveToStorage` writes: `JSON.stringify` for objects,
      `String(value)` for everything else. */
  function Serialize(json: ListCodec, value: StoredValue): (text: string)
    ensures value.Flag? ==> (text == "true" <==> value.flag)
    ensures value.Text? ==> text == value.text
  {
    match value
    case Text(s) => s
    case Number(n) => NumberToString(n)
    case Flag(b) => if b then "true" else "false"
    case List(xs) => json.stringify(xs)
  }

  /** How `getFromStorage` turns a stored text into a value of the default's
      type; a failing `JSON.parse` is caught and yields the default. */
  function Deserialize(json: ListCodec, item: string, default: StoredValue): (v: StoredValue)
    ensures SameKind(v, default)
    ensures default.Flag? ==> v == Flag(item == "true")
    ensures default.Text? ==> v == Text(item)
    ensures default.Number? ==> v == Number(ParseNumber(item))
    ensures default.List? ==> v == (match json.parse(item) case Some(xs) => List(xs) case None => default)
  {
    match default
    case List(_) =>
      (match json.parse(item)
       case Some(xs) => List(xs)
       case None => default)
    case Number(_) => Number(ParseNumber(item))
    case Flag(_) => Flag(item == "true")
    case Text(_) => Text(item)
  }

  /** What `getFromStorage(key, default)` returns for a store with contents
      `items`; an unreadable store throws, which is caught and yields the
      default. */
  function Retrieve(json: ListCodec, items: map<string, string>, readable: bool,
                    key: string, default: StoredValue): (v: StoredValue)
    ensures SameKind(v, default)
    ensures !readable || key !in items ==> v == default
  {
    if readable && key in items then Deserialize(json, items[key], default) else default
  }

  /** Whether `setItem(key, text)` succeeds on a store holding `items`; it
      throws when storage is denied or the text does not fit the quota, so
      the answer may depend on the key, the text and what is stored. */
  type Quota = (map<string, string>, string, string) -> bool

  /** The store after `saveToStorage(key, value)`; a throwing `setItem` is
      caught and leaves the store as it was. */
  function Store(json: ListCodec, items: map<string, string>, accepts: Quota,
                 key: string, value: StoredValue): (after: map<string, string>)
    ensures accepts(items, key, Serialize(json, value)) ==>
      after.Keys == items.Keys + {key} && after[key] == Serialize(json, value)
    ensures !accepts(items, key, Serialize(json, value)) ==> after == items
    ensures forall k :: k in items && k != key ==> k in after && after[k] == items[k]
  {
    var text := Serialize(json, value);
    if accepts(items, key, text) then items[key := text] else items
  }

  /** A value saved and read back with a default of the same type is the
      value saved: strings unchanged, booleans through "true"/"false",
      numbers through `String` and `Number`, arrays through JSON. */
  lemma SaveThenGet(json: ListCodec, items: map<string, string>, accepts: Quota, key: string,
                    value: StoredValue, default: StoredValue)
    requires ParseInvertsStringify(json)
    requires SameKind(value, default)
    requires accepts(items, key, Serialize(json, value))
    ensures Retrieve(json, Store(json, items, accepts, key, value), true, key, default) == value
  {
    match value
    case Number(n) => NumberRoundTrip(n);
    case List(xs) => assert json.parse(json.stringify(xs)) == Some(xs);
    case _ =>
  }

  // --------------------------------------------------------- whole state

  /** `loadAppState()`: every field read from its key with its default. */
  function LoadState(json: ListCodec, items: map<string, string>, readable: bool): (s: TilesState)
    ensures !readable ==> s == DefaultState
  {
    TilesState(
      notes := Retrieve(json, items, readable, NotesKey, Text(DefaultState.notes)).text,
      rootEl := Retrieve(json, items, readable, RootElKey, Text(DefaultState.rootEl)).text,
      scaleEl := Retrieve(json, items, readable, ScaleElKey, Text(DefaultState.scaleEl)).text,
      tonesEl := Retrieve(json, items, readable, TonesElKey, Text(DefaultState.tonesEl)).text,
      tonesArrEl := Retrieve(json, items, readable, TonesArrElKey, List(DefaultState.tonesArrEl)).list,
      bpmEl := Retrieve(json, items, readable, BpmElKey, Text(DefaultState.bpmEl)).text,
      soundEl := Retrieve(json, items, readable, SoundElKey, Text(DefaultState.soundEl)).text)
  }

  // ------------------------------------------------------ runs of writes

  /** One `saveToStorage(key, value)` call. */
  type Write = (string, StoredValue)

  /** The store after the writes, one after the other, each refused or
      taken on its own. */
  function StoreAll(json: ListCodec, items: map<string, string>, accepts: Quota,
                    writes: seq<Write>): map<string, string>
    decreases |writes|
  {
    if writes == [] then items
    else StoreAll(json, Store(json, items, accepts, writes[0].0, writes[0].1), accepts, writes[1..])
  }

  /** The keys the writes go to, in order. */
  function KeysOf(writes: seq<Write>): (keys: seq<string>)
    ensures |keys| == |writes|
    ensures forall i :: 0 <= i < |writes| ==> keys[i] == writes[i].0
  {
    if writes == [] then [] else [writes[0].0] + KeysOf(writes[1..])
  }

  /** No key is written twice. */
  predicate DistinctKeys(writes: seq<Write>)
  {
    writes == [] || (writes[0].0 !in KeysOf(writes[1..]) && DistinctKeys(writes[1..]))
  }

  /** `k` is present in `after` exactly when it was in `before`, with the
      same text. */
  predicate Unchanged(before: map<string, string>, after: map<string, string>, k: string)
  {
    (k in before <==> k in after) && (k in before ==> before[k] == after[k])
  }

  /** What a run of writes can have done to key `k`, written once with
      `text`: it holds `text` or is as it was; it holds `text` when the
      quota takes that write whatever is stored, and is as it was when the
      quota refuses it whatever is stored. */
  ghost predicate WriteOutcome(before: map<string, string>, after: map<string, string>,
                               accepts: Quota, k: string, text: string)
  {
    && ((k in after && after[k] == text) || Unchanged(before, after, k))
    && ((forall m :: accepts(m, k, text)) ==> k in after && after[k] == text)
    && ((forall m :: !accepts(m, k, text)) ==> Unchanged(before, after, k))
  }

  /** An outcome followed by writes that leave the key alone. */
  lemma OutcomeThenUnchanged(before: map<string, string>, mid: map<string, string>, after: map<string, string>,
                             accepts: Quota, k: string, text: string)
    requires WriteOutcome(before, mid, accepts, k, text) && Unchanged(mid, after, k)
    ensures WriteOutcome(before, after, accepts, k, text)
  {
  }

  /** Writes that leave the key alone followed by an outcome. */
  lemma UnchangedThenOutcome(before: map<string, string>, mid: map<string, string>, after: map<string, string>,
                             accepts: Quota, k: string, text: string)
    requires Unchanged(before, mid, k) && WriteOutcome(mid, after, accepts, k, text)
    ensures WriteOutcome(before, after, accepts, k, text)
  {
  }

  /** Every key of a run of distinct writes ends with the outcome of its
      own write, and every other key is as it was. */
  lemma {:induction false} StoreAllOutcome(json: ListCodec, items: map<string, string>, accepts: Quota,
                                           writes: seq<Write>)
    requires DistinctKeys(writes)
    ensures forall i :: 0 <= i < |writes| ==>
      WriteOutcome(items, StoreAll(json, items, accepts, writes), accepts, writes[i].0, Serialize(json, writes[i].1))
    ensures forall k :: k !in KeysOf(writes) ==> Unchanged(items, StoreAll(json, items, accepts, writes), k)
    decreases |writes|
  {
    if writes != [] {
      var k0 := writes[0].0;
      var t0 := Serialize(json, writes[0].1);
      var mid := Store(json, items, accepts, k0, writes[0].1);
      var rest := writes[1..];
      var after := StoreAll(json, items, accepts, writes);
      assert after == StoreAll(json, mid, accepts, rest);
      StoreAllOutcome(json, mid, accepts, rest);
      assert WriteOutcome(items, mid, accepts, k0, t0);
      OutcomeThenUnchanged(items, mid, after, accepts, k0, t0);
      forall i | 0 < i < |writes|
        ensures WriteOutcome(items, after, accepts, writes[i].0, Serialize(json, writes[i].1))
      {
        assert writes[i] == rest[i - 1];
        assert writes[i].0 == KeysOf(rest)[i - 1];
        assert Unchanged(items, mid, writes[i].0);
        UnchangedThenOutcome(items, mid, after, accepts, writes[i].0, Serialize(json, writes[i].1));
      }
      forall k | k !in KeysOf(writes)
        ensures Unchanged(items, after, k)
      {
        assert KeysOf(writes)[0] == k0;
        assert forall j :: 0 <= j < |KeysOf(rest)| ==> KeysOf(rest)[j] == KeysOf(writes)[j + 1];
        assert k !in KeysOf(rest);
      }
    }
  }

  /** A quota that takes every write. */
  ghost predicate AcceptsAll(accepts: Quota)
  {
    forall m, k, t :: accepts(m, k, t)
  }

  /** A quota that refuses every write. */
  ghost predicate RefusesAll(accepts: Quota)
  {
    forall m, k, t :: !accepts(m, k, t)
  }

  /** Writes that are all refused change nothing. */
  lemma {:induction false} StoreAllRefused(json: ListCodec, items: map<string, string>, accepts: Quota,
                                           writes: seq<Write>)
    requires RefusesAll(accepts)
    ensures StoreAll(json, items, accepts, writes) == items
    decreases |writes|
  {
    if writes != [] {
      assert !accepts(items, writes[0].0, Serialize(json, writes[0].1));
      StoreAllRefused(json, items, accepts, writes[1..]);
    }
  }

  /** Keys that differ pairwise by position are distinct in the recursive
      sense. */
  lemma {:induction false} DistinctByIndex(writes: seq<Write>)
    requires forall i, j :: 0 <= i < j < |writes| ==> writes[i].0 != writes[j].0
    ensures DistinctKeys(writes)
    decreases |writes|
  {
    if writes != [] {
      var rest := writes[1..];
      assert forall i, j :: 0 <= i < j < |rest| ==> rest[i].0 != rest[j].0 by {
        forall i, j | 0 <= i < j < |rest| ensures rest[i].0 != rest[j].0 {
          assert rest[i] == writes[i + 1] && rest[j] == writes[j + 1];
        }
      }
      DistinctByIndex(rest);
      forall j | 0 <= j < |rest| ensures KeysOf(rest)[j] != writes[0].0 {
        assert rest[j] == writes[j + 1];
      }
    }
  }

  // ------------------------------------------------------- saving the state

  /** The seven writes of `saveAppState(s)`, in order. */
  function StateWrites(s: TilesState): seq<Write>
  {
    [(NotesKey, Text(s.notes)), (RootElKey, Text(s.rootEl)), (ScaleElKey, Text(s.scaleEl)),
     (TonesElKey, Text(s.tonesEl)), (TonesArrElKey, List(s.tonesArrEl)),
     (BpmElKey, Text(s.bpmEl)), (SoundElKey, Text(s.soundEl))]
  }

  /** The store after `saveAppState(s)`: its seven writes, each of which
      may be refused on its own; a refusal is swallowed and the next write
      still runs. */
  function SaveState(json: ListCodec, items: map<string, string>, accepts: Quota, s: TilesState): map<string, string>
  {
    StoreAll(json, items, accepts, StateWrites(s))
  }

  /** The writes of `saveAppState` go to the seven state keys, once each. */
  lemma StateWritesKeys(s: TilesState)
    ensures KeysOf(StateWrites(s)) == StateKeys
    ensures DistinctKeys(StateWrites(s))
  {
    var w := StateWrites(s);
    assert KeysOf(w) == StateKeys;
    KeysDistinct();
    assert forall i :: 0 <= i < |w| ==> w[i].0 == AllKeys[i];
    DistinctByIndex(w);
  }

  /** The seven `saveToStorage` calls of `saveAppState`, one after the
      other, store `SaveState`. */
  lemma SaveStateSteps(json: ListCodec, accepts: Quota, s: TilesState,
                       m: map<string, string>, m1: map<string, string>, m2: map<string, string>,
                       m3: map<string, string>, m4: map<string, string>, m5: map<string, string>,
                       m6: map<string, string>, m7: map<string, string>)
    requires m1 == Store(json, m, accepts, NotesKey, Text(s.notes))
    requires m2 == Store(json, m1, accepts, RootElKey, Text(s.rootEl))
    requires m3 == Store(json, m2, accepts, ScaleElKey, Text(s.scaleEl))
    requires m4 == Store(json, m3, accepts, TonesElKey, Text(s.tonesEl))
    requires m5 == Store(json, m4, accepts, TonesArrElKey, List(s.tonesArrEl))
    requires m6 == Store(json, m5, accepts, BpmElKey, Text(s.bpmEl))
    requires m7 == Store(json, m6, accepts, SoundElKey, Text(s.soundEl))
    ensures m7 == SaveState(json, m, accepts, s)
  {
    var w := StateWrites(s);
    StoreAllStep(json, m, m1, accepts, w);
    StoreAllStep(json, m1, m2, accepts, w[1..]);
    StoreAllStep(json, m2, m3, accepts, w[2..]);
    StoreAllStep(json, m3, m4, accepts, w[3..]);
    StoreAllStep(json, m4, m5, accepts, w[4..]);
    StoreAllStep(json, m5, m6, accepts, w[5..]);
    StoreAllStep(json, m6, m7, accepts, w[6..]);
  }

  /** Running a list of writes is running its first write, then the rest. */
  lemma StoreAllStep(json: ListCodec, m: map<string, string>, m1: map<string, string>,
                     accepts: Quota, w: seq<Write>)
    requires w != [] && m1 == Store(json, m, accepts, w[0].0, w[0].1)
    ensures StoreAll(json, m, accepts, w) == StoreAll(json, m1, accepts, w[1..])
  {
  }

  /** The 28 pairs of distinct keys, written out for the map reasoning below. */
  lemma KeysPairwiseDistinct()
    ensures NotesKey != RootElKey && NotesKey != ScaleElKey && NotesKey != TonesElKey
    ensures NotesKey != TonesArrElKey && NotesKey != BpmElKey && NotesKey != SoundElKey
    ensures RootElKey != ScaleElKey && RootElKey != TonesElKey && RootElKey != TonesArrElKey
    ensures RootElKey != BpmElKey && RootElKey != SoundElKey
    ensures ScaleElKey != TonesElKey && ScaleElKey != TonesArrElKey
    ensures ScaleElKey != BpmElKey && ScaleElKey != SoundElKey
    ensures TonesElKey != TonesArrElKey && TonesElKey != BpmElKey && TonesElKey != SoundElKey
    ensures TonesArrElKey != BpmElKey && TonesArrElKey != SoundElKey
    ensures BpmElKey != SoundElKey
    ensures ThemeKey != NotesKey && ThemeKey != RootElKey && ThemeKey != ScaleElKey
    ensures ThemeKey != TonesElKey && ThemeKey != TonesArrElKey && ThemeKey != BpmElKey
    ensures ThemeKey != SoundElKey
  {
    KeysDistinct();
    assert AllKeys[0] == NotesKey && AllKeys[1] == RootElKey && AllKeys[2] == ScaleElKey;
    assert AllKeys[3] == TonesElKey && AllKeys[4] == TonesArrElKey && AllKeys[5] == BpmElKey;
    assert AllKeys[6] == SoundElKey && AllKeys[7] == ThemeKey;
  }

  /** Whatever the quota takes, each of the seven keys ends holding its
      serialized field or as it was before `saveAppState`, and every other
      key is as it was. */
  lemma SaveStateOutcome(json: ListCodec, items: map<string, string>, accepts: Quota, s: TilesState)
    ensures var after := SaveState(json, items, accepts, s);
      && WriteOutcome(items, after, accepts, NotesKey, s.notes)
      && WriteOutcome(items, after, accepts, RootElKey, s.rootEl)
      && WriteOutcome(items, after, accepts, ScaleElKey, s.scaleEl)
      && WriteOutcome(items, after, accepts, TonesElKey, s.tonesEl)
      && WriteOutcome(items, after, accepts, TonesArrElKey, json.stringify(s.tonesArrEl))
      && WriteOutcome(items, after, accepts, BpmElKey, s.bpmEl)
      && WriteOutcome(items, after, accepts, SoundElKey, s.soundEl)
      && (forall k :: k !in StateKeys ==> Unchanged(items, after, k))
  {
    var w := StateWrites(s);
    StateWritesKeys(s);
    StoreAllOutcome(json, items, accepts, w);
    assert w[0].0 == NotesKey && Serialize(json, w[0].1) == s.notes;
    assert w[1].0 == RootElKey && Serialize(json, w[1].1) == s.rootEl;
    assert w[2].0 == ScaleElKey && Serialize(json, w[2].1) == s.scaleEl;
    assert w[3].0 == TonesElKey && Serialize(json, w[3].1) == s.tonesEl;
    assert w[4].0 == TonesArrElKey && Serialize(json, w[4].1) == json.stringify(s.tonesArrEl);
    assert w[5].0 == BpmElKey && Serialize(json, w[5].1) == s.bpmEl;
    assert w[6].0 == SoundElKey && Serialize(json, w[6].1) == s.soundEl;
  }

  /** With every write taken, `saveAppState` adds exactly the seven state
      keys, each holding its serialized field. */
  lemma SaveStateFrame(json: ListCodec, items: map<string, string>, accepts: Quota, s: TilesState)
    requires AcceptsAll(accepts)
    ensures var after := SaveState(json, items, accepts, s);
      && after.Keys == items.Keys + {NotesKey, RootElKey, ScaleElKey, TonesElKey, TonesArrElKey, BpmElKey, SoundElKey}
      && after[NotesKey] == s.notes && after[RootElKey] == s.rootEl
      && after[ScaleElKey] == s.scaleEl && after[TonesElKey] == s.tonesEl
      && after[TonesArrElKey] == json.stringify(s.tonesArrEl)
      && after[BpmElKey] == s.bpmEl && after[SoundElKey] == s.soundEl
  {
    SaveStateOutcome(json, items, accepts, s);
    var after := SaveState(json, items, accepts, s);
    assert forall m :: accepts(m, NotesKey, s.notes);
    assert forall m :: accepts(m, RootElKey, s.rootEl);
    assert forall m :: accepts(m, ScaleElKey, s.scaleEl);
    assert forall m :: accepts(m, TonesElKey, s.tonesEl);
    assert forall m :: accepts(m, TonesArrElKey, json.stringify(s.tonesArrEl));
    assert forall m :: accepts(m, BpmElKey, s.bpmEl);
    assert forall m :: accepts(m, SoundElKey, s.soundEl);
    FrameKeys(items, after);
  }

  /** A store that holds the seven state keys and agrees with `items` on
      every other key has exactly the keys of `items` and the seven. */
  lemma FrameKeys(items: map<string, string>, after: map<string, string>)
    requires NotesKey in after && RootElKey in after && ScaleElKey in after && TonesElKey in after
    requires TonesArrElKey in after && BpmElKey in after && SoundElKey in after
    requires forall k :: k !in StateKeys ==> Unchanged(items, after, k)
    ensures after.Keys == items.Keys + {NotesKey, RootElKey, ScaleElKey, TonesElKey, TonesArrElKey, BpmElKey, SoundElKey}
  {
    var seven := {NotesKey, RootElKey, ScaleElKey, TonesElKey, TonesArrElKey, BpmElKey, SoundElKey};
    forall k | k !in seven
      ensures k in after <==> k in items
    {
      assert k !in StateKeys;
    }
  }

  /** Every key other than the seven, the theme key among them, keeps its
      value through `saveAppState`, whichever writes are refused. */
  lemma SaveStateKeepsOthers(json: ListCodec, items: map<string, string>, accepts: Quota, s: TilesState)
    ensures var after := SaveState(json, items, accepts, s);
      && (forall k :: k in items && k !in StateKeys ==> k in after && after[k] == items[k])
      && (ThemeKey in items ==> ThemeKey in after && after[ThemeKey] == items[ThemeKey])
  {
    SaveStateOutcome(json, items, accepts, s);
    KeysDistinct();
  }

  /** A store that refuses every write is left untouched by `saveAppState`. */
  lemma SaveStateFailureSwallowed(json: ListCodec, items: map<string, string>, accepts: Quota, s: TilesState)
    requires RefusesAll(accepts)
    ensures SaveState(json, items, accepts, s) == items
  {
    StoreAllRefused(json, items, accepts, StateWrites(s));
  }

  /** `loadAppState` after a `saveAppState(s)` whose writes were all taken
      returns `s`. */
  lemma LoadAfterSave(json: ListCodec, items: map<string, string>, accepts: Quota, s: TilesState)
    requires ParseInvertsStringify(json)
    requires AcceptsAll(accepts)
    ensures LoadState(json, SaveState(json, items, accepts, s), true) == s
  {
    SaveStateFrame(json, items, accepts, s);
    var after := SaveState(json, items, accepts, s);
    assert after[TonesArrElKey] == json.stringify(s.tonesArrEl);
    assert json.parse(json.stringify(s.tonesArrEl)) == Some(s.tonesArrEl);
  }

  /** A key that holds its written text or is as it was reads back as the
      value written or as what it read before. */
  lemma ReadKeptOrWritten(json: ListCodec, before: map<string, string>, after: map<string, string>,
                          accepts: Quota, k: string, value: StoredValue, default: StoredValue)
    requires ParseInvertsStringify(json)
    requires SameKind(value, default)
    requires WriteOutcome(before, after, accepts, k, Serialize(json, value))
    ensures var v := Retrieve(json, after, true, k, default);
      v == value || v == Retrieve(json, before, true, k, default)
  {
    if k in after && after[k] == Serialize(json, value) {
      match value
      case Number(n) => NumberRoundTrip(n);
      case List(xs) => assert json.parse(json.stringify(xs)) == Some(xs);
      case _ =>
    }
  }

  /** When some of the seven writes are refused, `loadAppState` returns
      each field either as saved or as it loaded before the save: a mix of
      new and old fields. */
  lemma LoadAfterPartialSave(json: ListCodec, items: map<string, string>, accepts: Quota, s: TilesState)
    requires ParseInvertsStringify(json)
    ensures var old_ := LoadState(json, items, true);
      var new_ := LoadState(json, SaveState(json, items, accepts, s), true);
      && (new_.notes == s.notes || new_.notes == old_.notes)
      && (new_.rootEl == s.rootEl || new_.rootEl == old_.rootEl)
      && (new_.scaleEl == s.scaleEl || new_.scaleEl == old_.scaleEl)
      && (new_.tonesEl == s.tonesEl || new_.tonesEl == old_.tonesEl)
      && (new_.tonesArrEl == s.tonesArrEl || new_.tonesArrEl == old_.tonesArrEl)
      && (new_.bpmEl == s.bpmEl || new_.bpmEl == old_.bpmEl)
      && (new_.soundEl == s.soundEl || new_.soundEl == old_.soundEl)
  {
    var after := SaveState(json, items, accepts, s);
    SaveStateOutcome(json, items, accepts, s);
    ReadKeptOrWritten(json, items, after, accepts, NotesKey, Text(s.notes), Text(DefaultState.notes));
    ReadKeptOrWritten(json, items, after, accepts, RootElKey, Text(s.rootEl), Text(DefaultState.rootEl));
    ReadKeptOrWritten(json, items, after, accepts, ScaleElKey, Text(s.scaleEl), Text(DefaultState.scaleEl));
    ReadKeptOrWritten(json, items, after, accepts, TonesElKey, Text(s.tonesEl), Text(DefaultState.tonesEl));
    ReadKeptOrWritten(json, items, after, accepts, TonesArrElKey, List(s.tonesArrEl), List(DefaultState.tonesArrEl));
    ReadKeptOrWritten(json, items, after, accepts, BpmElKey, Text(s.bpmEl), Text(DefaultState.bpmEl));
    ReadKeptOrWritten(json, items, after, accepts, SoundElKey, Text(s.soundEl), Text(DefaultState.soundEl));
  }

  /** A quota that refuses a text longer than `limit`, given notes that are
      too long and other fields that fit: the notes write is refused, the
      six writes after it are taken, and `loadAppState` returns the new
      fields with the notes as they were. */
  lemma LongNotesRefused(json: ListCodec, items: map<string, string>, accepts: Quota, s: TilesState, limit: nat)
    requires ParseInvertsStringify(json)
    requires forall m, k, t :: accepts(m, k, t) <==> |t| <= limit
    requires |s.notes| > limit
    requires |s.rootEl| <= limit && |s.scaleEl| <= limit && |s.tonesEl| <= limit
    requires |json.stringify(s.tonesArrEl)| <= limit && |s.bpmEl| <= limit && |s.soundEl| <= limit
    ensures LoadState(json, SaveState(json, items, accepts, s), true)
      == s.(notes := LoadState(json, items, true).notes)
  {
    var after := SaveState(json, items, accepts, s);
    SaveStateOutcome(json, items, accepts, s);
    assert forall m :: !accepts(m, NotesKey, s.notes);
    assert forall m :: accepts(m, RootElKey, s.rootEl);
    assert forall m :: accepts(m, ScaleElKey, s.scaleEl);
    assert forall m :: accepts(m, TonesElKey, s.tonesEl);
    assert forall m :: accepts(m, TonesArrElKey, json.stringify(s.tonesArrEl));
    assert forall m :: accepts(m, BpmElKey, s.bpmEl);
    assert forall m :: accepts(m, SoundElKey, s.soundEl);
    LoadMixed(json, items, after, s);
  }

  /** A store in which the notes key is as it was and the other six state
      keys hold the serialized fields of `s` loads as `s` with the old
      notes. */
  lemma LoadMixed(json: ListCodec, items: map<string, string>, after: map<string, string>, s: TilesState)
    requires ParseInvertsStringify(json)
    requires Unchanged(items, after, NotesKey)
    requires RootElKey in after && after[RootElKey] == s.rootEl
    requires ScaleElKey in after && after[ScaleElKey] == s.scaleEl
    requires TonesElKey in after && after[TonesElKey] == s.tonesEl
    requires TonesArrElKey in after && after[TonesArrElKey] == json.stringify(s.tonesArrEl)
    requires BpmElKey in after && after[BpmElKey] == s.bpmEl
    requires SoundElKey in after && after[SoundElKey] == s.soundEl
    ensures LoadState(json, after, true) == s.(notes := LoadState(json, items, true).notes)
  {
    assert json.parse(json.stringify(s.tonesArrEl)) == Some(s.tonesArrEl);
  }

  /** `loadAppState` on a store holding none of the state keys returns
      `DEFAULT_STATE`. */
  lemma LoadFromEmpty(json: ListCodec, items: map<string, string>, readable: bool)
    requires forall k :: k in StateKeys ==> k !in items
    ensures LoadState(json, items, readable) == DefaultState
  {
  }

  // ------------------------------------------------------------- the store

  /** The browser's `localStorage`: a string-to-string map. `readable` says
      whether `getItem` succeeds or throws (access denied); `accepts` says
      which `setItem` calls succeed (access denied, quota exceeded). */
  class LocalStorage {
    var items: map<string, string>
    var readable: bool
    var accepts: Quota
    const json: ListCodec

    constructor (items: map<string, string>, readable: bool, accepts: Quota, json: ListCodec)
      ensures this.items == items && this.readable == readable && this.accepts == accepts
      ensures this.json == json
    {
      this.items := items;
      this.readable := readable;
      this.accepts := accepts;
      this.json := json;
    }

    /** `saveToStorage(key, value)`. */
    method SaveToStorage(key: string, value: StoredValue)
      modifies this`items
      ensures items == Store(json, old(items), accepts, key, value)
    {
      var serialized := match value
        case List(xs) => json.stringify(xs)
        case Number(n) => NumberToString(n)
        case Flag(b) => if b then "true" else "false"
        case Text(s) => s;
      if !accepts(items, key, serialized) {
        return;  // setItem threw; the error is logged and swallowed
      }
      items := items[key := serialized];
    }

    /** `getFromStorage(key, default)`: the stored text converted to the
      default's type, or the default when the key is absent or reading
      fails. */
    method GetFromStorage(key: string, default: StoredValue) returns (v: StoredValue)
      ensures v == Retrieve(json, items, readable, key, default)
      ensures SameKind(v, default)
    {
      if !readable {
        return default;  // getItem threw
      }
      if key !in items {
        return default;  // getItem returned null
      }
      var item := items[key];
      if default.List? {
        var parsed := json.parse(item);
        if parsed.None? {
          return default;  // JSON.parse threw
        }
        return List(parsed.value);
      }
      if default.Number? {
        return Number(ParseNumber(item));
      }
      if default.Flag? {
        return Flag(item == "true");
      }
      return Text(item);
    }

    /** `loadAppState()`. */
    method LoadAppState() returns (s: TilesState)
      ensures s == LoadState(json, items, readable)
    {
      var notes := GetFromStorage(NotesKey, Text(DefaultState.notes));
      var rootEl := GetFromStorage(RootElKey, Text(DefaultState.rootEl));
      var scaleEl := GetFromStorage(ScaleElKey, Text(DefaultState.scaleEl));
      var tonesEl := GetFromStorage(TonesElKey, Text(DefaultState.tonesEl));
      var tonesArrEl := GetFromStorage(TonesArrElKey, List(DefaultState.tonesArrEl));
      var bpmEl := GetFromStorage(BpmElKey, Text(DefaultState.bpmEl));
      var soundEl := GetFromStorage(SoundElKey, Text(DefaultState.soundEl));
      s := TilesState(notes.text, rootEl.text, scaleEl.text, tonesEl.text,
                      tonesArrEl.list, bpmEl.text, soundEl.text);
    }

    /** `saveAppState(s)`. */
    method SaveAppState(s: TilesState)
      modifies this`items
      ensures items == SaveState(json, old(items), accepts, s)
    {
      ghost var m := items;
      SaveToStorage(NotesKey, Text(s.notes));
      ghost var m1 := items;
      SaveToStorage(RootElKey, Text(s.rootEl));
      ghost var m2 := items;
      SaveToStorage(ScaleElKey, Text(s.scaleEl));
      ghost var m3 := items;
      SaveToStorage(TonesElKey, Text(s.tonesEl));
      ghost var m4 := items;
      SaveToStorage(TonesArrElKey, List(s.tonesArrEl));
      ghost var m5 := items;
      SaveToStorage(BpmElKey, Text(s.bpmEl));
      ghost var m6 := items;
      SaveToStorage(SoundElKey, Text(s.soundEl));
      SaveStateSteps(json, accepts, s, m, m1, m2, m3, m4, m5, m6, items);
    }
  }
}
