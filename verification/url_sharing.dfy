/** Sharing the state through a link: the query parameters of the page's
    URL, written from and read back into the shared record. A parsed URL's
    parameters are a list of name/value pairs with `URLSearchParams`
    behaviour; turning that list into URL text and back is left abstract,
    as is `encodeURIComponent`/`decodeURIComponent`. */
module UrlSharing {
  import opened Wrappers
  import opened JsString
  import opened Tiles

  // ------------------------------------------------------ query parameters

  datatype Param = Param(name: string, value: string)

  /** `params.has(name)`. */
  predicate HasParam(ps: seq<Param>, name: string)
  {
    exists i :: 0 <= i < |ps| && ps[i].name == name
  }

  /** `params.get(name)`: the value of the first pair with that name. */
  function GetParam(ps: seq<Param>, name: string): (v: Option<string>)
    ensures v.Some? <==> HasParam(ps, name)
    ensures v.Some? ==> exists i :: 0 <= i < |ps| && ps[i] == Param(name, v.value)
  {
    if |ps| == 0 then None
    else if ps[0].name == name then Some(ps[0].value)
    else
      var rest := GetParam(ps[1..], name);
      assert rest.Some? ==> exists i :: 0 <= i < |ps| && ps[i] == Param(name, rest.value) by {
        if rest.Some? {
          var i :| 0 <= i < |ps[1..]| && ps[1..][i] == Param(name, rest.value);
          assert ps[i + 1] == Param(name, rest.value);
        }
      }
      assert HasParam(ps[1..], name) ==> HasParam(ps, name) by {
        if HasParam(ps[1..], name) {
          var i :| 0 <= i < |ps[1..]| && ps[1..][i].name == name;
          assert ps[i + 1].name == name;
        }
      }
      rest
  }

  /** The pairs whose names are not in `names`, in their order. */
  function Without(ps: seq<Param>, names: set<string>): (r: seq<Param>)
    ensures forall p :: p in r <==> p in ps && p.name !in names
  {
    if |ps| == 0 then []
    else (if ps[0].name in names then [] else [ps[0]]) + Without(ps[1..], names)
  }

  /** `params.delete(name)`: every pair with that name goes. */
  function DeleteParam(ps: seq<Param>, name: string): seq<Param>
  {
    Without(ps, {name})
  }

  /** `params.set(name, value)`: the first pair with that name takes the
      value and later ones go; without one, the pair is appended. */
  function SetParam(ps: seq<Param>, name: string, value: string): seq<Param>
  {
    if HasParam(ps, name) then SetFirst(ps, name, value) else ps + [Param(name, value)]
  }

  function SetFirst(ps: seq<Param>, name: string, value: string): seq<Param>
  {
    if |ps| == 0 then []
    else if ps[0].name == name then [Param(name, value)] + Without(ps[1..], {name})
    else [ps[0]] + SetFirst(ps[1..], name, value)
  }

  /** After `set`, `get` gives the new value and the pairs of other names
      are as before. */
  lemma {:induction false} SetThenGet(ps: seq<Param>, name: string, value: string)
    ensures GetParam(SetParam(ps, name, value), name) == Some(value)
    ensures Without(SetParam(ps, name, value), {name}) == Without(ps, {name})
  {
    if HasParam(ps, name) {
      SetFirstThenGet(ps, name, value);
    } else {
      WithoutAppend(ps, [Param(name, value)], {name});
      GetAppend(ps, [Param(name, value)], name);
    }
  }

  lemma {:induction false} SetFirstThenGet(ps: seq<Param>, name: string, value: string)
    requires HasParam(ps, name)
    ensures GetParam(SetFirst(ps, name, value), name) == Some(value)
    ensures Without(SetFirst(ps, name, value), {name}) == Without(ps, {name})
  {
    if ps[0].name == name {
      var r := SetFirst(ps, name, value);
      assert r[1..] == Without(ps[1..], {name});
      WithoutTwice(ps[1..], {name}, {name});
      assert {name} + {name} == {name};
    } else {
      var i :| 0 <= i < |ps| && ps[i].name == name;
      assert ps[1..][i - 1].name == name;
      SetFirstThenGet(ps[1..], name, value);
      var r := SetFirst(ps, name, value);
      assert r[1..] == SetFirst(ps[1..], name, value);
    }
  }

  lemma {:induction false} WithoutAppend(a: seq<Param>, b: seq<Param>, names: set<string>)
    ensures Without(a + b, names) == Without(a, names) + Without(b, names)
  {
    if |a| > 0 {
      assert (a + b)[1..] == a[1..] + b;
      WithoutAppend(a[1..], b, names);
    } else {
      assert a + b == b;
    }
  }

  /** Removing one set of names, then another, removes both. */
  lemma {:induction false} WithoutTwice(ps: seq<Param>, first: set<string>, second: set<string>)
    ensures Without(Without(ps, first), second) == Without(ps, first + second)
  {
    if |ps| > 0 {
      WithoutTwice(ps[1..], first, second);
      var head := if ps[0].name in first then [] else [ps[0]];
      WithoutAppend(head, Without(ps[1..], first), second);
    }
  }

  lemma {:induction false} GetAppend(a: seq<Param>, b: seq<Param>, name: string)
    ensures GetParam(a + b, name) == if HasParam(a, name) then GetParam(a, name) else GetParam(b, name)
  {
    if |a| > 0 {
      assert (a + b)[1..] == a[1..] + b;
      GetAppend(a[1..], b, name);
      if a[0].name != name && HasParam(a, name) {
        var i :| 0 <= i < |a| && a[i].name == name;
        assert a[1..][i - 1].name == name;
      }
    } else {
      assert a + b == b;
    }
  }

  /** Removing no names keeps every pair. */
  lemma {:induction false} WithoutNothing(ps: seq<Param>)
    ensures Without(ps, {}) == ps
  {
    if |ps| > 0 {
      WithoutNothing(ps[1..]);
      assert ps == [ps[0]] + ps[1..];
    }
  }

  /** No pair of a removed name is left. */
  lemma WithoutHasNone(ps: seq<Param>, names: set<string>, name: string)
    requires name in names
    ensures !HasParam(Without(ps, names), name)
  {
    var r := Without(ps, names);
    forall i | 0 <= i < |r| ensures r[i].name != name {
      assert r[i] in r;
    }
  }

  lemma {:induction false} HasAppend(a: seq<Param>, b: seq<Param>, name: string)
    ensures HasParam(a + b, name) <==> HasParam(a, name) || HasParam(b, name)
  {
    if HasParam(a + b, name) {
      var i :| 0 <= i < |a + b| && (a + b)[i].name == name;
      if i >= |a| {
        assert b[i - |a|].name == name;
      }
    }
    if HasParam(a, name) {
      var i :| 0 <= i < |a| && a[i].name == name;
      assert (a + b)[i].name == name;
    }
    if HasParam(b, name) {
      var i :| 0 <= i < |b| && b[i].name == name;
      assert (a + b)[i + |a|].name == name;
    }
  }

  // ------------------------------------------------------------ the names

  /** The names `encodeStateToURL` clears first. */
  const ClearedNames: seq<string> := ["root", "scale", "bpm", "sound", "notes", "timer"]

  function NameSet(names: seq<string>): set<string>
  {
    set n | n in names
  }

  /** The names `hasStateParams` looks for. */
  const StateNames: seq<string> := ["root", "scale", "bpm", "sound", "notes"]

  lemma NamesDistinct()
    ensures "scale" != "sound" && "scale" != "notes" && "scale" != "timer"
    ensures "sound" != "notes" && "sound" != "timer" && "notes" != "timer"
  {
    assert "scale"[1] != "sound"[1];
  }

  // -------------------------------------------------------------- the codec

  /** `encodeURIComponent` and `decodeURIComponent`; the decoder gives None
      where it throws a URIError. */
  datatype UriCodec = UriCodec(encode: string -> string, decode: string -> Option<string>)

  ghost predicate DecodeInvertsEncode(uri: UriCodec)
  {
    forall s :: uri.decode(uri.encode(s)) == Some(s)
  }

  // -------------------------------------------------------------- encoding

  /** The pairs the state adds: `root`, `scale`, `bpm` and `sound` for the
      non-empty fields, and `notes`, URI-encoded, when the text is not
      blank. */
  function StateParams(uri: UriCodec, s: TilesState): seq<Param>
  {
    FieldParams("root", s.rootEl) + (FieldParams("scale", s.scaleEl) +
    (FieldParams("bpm", s.bpmEl) + (FieldParams("sound", s.soundEl) +
    NotesParams(uri, s.notes))))
  }

  /** The pair for a plain field: there is one when the value is not empty. */
  function FieldParams(name: string, value: string): seq<Param>
  {
    if value != "" then [Param(name, value)] else []
  }

  /** The `notes` pair: the URI-encoded text, when it is not blank. */
  function NotesParams(uri: UriCodec, notes: string): seq<Param>
  {
    if notes != "" && Trim(notes) != "" then [Param("notes", uri.encode(notes))] else []
  }

  /** The parameters of the shared link: the page's own parameters less
      the six state names, followed by the state's pairs. */
  function EncodedParams(uri: UriCodec, current: seq<Param>, s: TilesState): seq<Param>
  {
    Without(current, NameSet(ClearedNames)) + StateParams(uri, s)
  }

  /** `encodeStateToURL(state)` on the page's parameters `current`: delete
      the six names, then `set` each present field. */
  method EncodeStateToUrl(uri: UriCodec, current: seq<Param>, s: TilesState) returns (params: seq<Param>)
    ensures params == EncodedParams(uri, current, s)
  {
    var cleared := ClearStateParams(current);
    NamesDistinct();
    var withRoot := SetField(cleared, "root", s.rootEl);
    var withScale := SetField(withRoot, "scale", s.scaleEl);
    var withBpm := SetField(withScale, "bpm", s.bpmEl);
    var withSound := SetField(withBpm, "sound", s.soundEl);
    params := SetNotes(uri, withSound, s.notes);
    AppendFive(cleared, FieldParams("root", s.rootEl), FieldParams("scale", s.scaleEl),
      FieldParams("bpm", s.bpmEl), FieldParams("sound", s.soundEl), NotesParams(uri, s.notes));
  }

  /** One `if (state.x) params.set("x", state.x)` on parameters that do not
      yet hold the name: the pair is appended. */
  method SetField(before: seq<Param>, name: string, value: string) returns (params: seq<Param>)
    requires !HasParam(before, name)
    ensures params == before + FieldParams(name, value)
    ensures forall other :: other != name ==> (HasParam(params, other) <==> HasParam(before, other))
  {
    forall other | other != name
      ensures HasParam(before + FieldParams(name, value), other) <==> HasParam(before, other)
    {
      HasAppend(before, FieldParams(name, value), other);
    }
    params := before;
    if value != "" {
      params := SetParam(params, name, value);
    }
  }

  /** The last step: `set` the URI-encoded notes when their text is not
      blank. */
  method SetNotes(uri: UriCodec, before: seq<Param>, notes: string) returns (params: seq<Param>)
    requires !HasParam(before, "notes")
    ensures params == before + NotesParams(uri, notes)
  {
    params := before;
    if notes != "" && Trim(notes) != "" {
      params := SetParam(params, "notes", uri.encode(notes));
    }
  }

  lemma AppendFive<T>(a: seq<T>, b: seq<T>, c: seq<T>, d: seq<T>, e: seq<T>, f: seq<T>)
    ensures a + b + c + d + e + f == a + (b + (c + (d + (e + f))))
  {
  }

  /** The `forEach` of `encodeStateToURL`: `delete` each of the six names
      in turn, which leaves exactly the pairs of other names. */
  method ClearStateParams(current: seq<Param>) returns (params: seq<Param>)
    ensures params == Without(current, NameSet(ClearedNames))
    ensures !HasParam(params, "root") && !HasParam(params, "scale") && !HasParam(params, "bpm")
    ensures !HasParam(params, "sound") && !HasParam(params, "notes") && !HasParam(params, "timer")
  {
    params := current;
    WithoutNothing(current);
    assert NameSet(ClearedNames[..0]) == {};
    for i := 0 to |ClearedNames|
      invariant params == Without(current, NameSet(ClearedNames[..i]))
    {
      WithoutTwice(current, NameSet(ClearedNames[..i]), {ClearedNames[i]});
      assert NameSet(ClearedNames[..i]) + {ClearedNames[i]} == NameSet(ClearedNames[..i + 1]);
      params := DeleteParam(params, ClearedNames[i]);
    }
    assert ClearedNames[..|ClearedNames|] == ClearedNames;
    forall name | name in ClearedNames ensures !HasParam(params, name) {
      WithoutHasNone(current, NameSet(ClearedNames), name);
    }
  }

  // ------------------------------------------------- what the link holds

  /** The pair of a plain field is looked up under its own name. */
  lemma GetAtField(name: string, value: string, rest: seq<Param>)
    ensures GetParam(FieldParams(name, value) + rest, name)
      == if value != "" then Some(value) else GetParam(rest, name)
  {
    GetAppend(FieldParams(name, value), rest, name);
  }

  /** A lookup of another name skips the pair of a plain field. */
  lemma GetPastField(name: string, value: string, rest: seq<Param>, other: string)
    requires other != name
    ensures GetParam(FieldParams(name, value) + rest, other) == GetParam(rest, other)
  {
    GetAppend(FieldParams(name, value), rest, other);
  }

  /** Below the cleared names, a lookup of one of the six names sees only
      the state's pairs. */
  lemma GetEncoded(uri: UriCodec, current: seq<Param>, s: TilesState, name: string)
    requires name in ClearedNames
    ensures GetParam(EncodedParams(uri, current, s), name) == GetParam(StateParams(uri, s), name)
  {
    WithoutHasNone(current, NameSet(ClearedNames), name);
    GetAppend(Without(current, NameSet(ClearedNames)), StateParams(uri, s), name);
  }

  /** The link holds `root`, `scale`, `bpm` and `sound` exactly when the
      field is non-empty, with the field's value; `notes` exactly when the
      text holds a non-white-space character, URI-encoded; and never
      `timer`. */
  lemma EncodedLookups(uri: UriCodec, current: seq<Param>, s: TilesState)
    ensures GetParam(EncodedParams(uri, current, s), "root") == Present(s.rootEl)
    ensures GetParam(EncodedParams(uri, current, s), "scale") == Present(s.scaleEl)
    ensures GetParam(EncodedParams(uri, current, s), "bpm") == Present(s.bpmEl)
    ensures GetParam(EncodedParams(uri, current, s), "sound") == Present(s.soundEl)
    ensures GetParam(EncodedParams(uri, current, s), "notes")
      == if HasText(s.notes) then Some(uri.encode(s.notes)) else None
    ensures !HasParam(EncodedParams(uri, current, s), "timer")
  {
    LookupRoot(uri, current, s);
    LookupScale(uri, current, s);
    LookupBpm(uri, current, s);
    LookupSound(uri, current, s);
    LookupNotes(uri, current, s);
    LookupTimer(uri, current, s);
  }

  lemma LookupRoot(uri: UriCodec, current: seq<Param>, s: TilesState)
    ensures GetParam(EncodedParams(uri, current, s), "root") == Present(s.rootEl)
  {
    NamesDistinct();
    GetEncoded(uri, current, s, "root");
    var notes := NotesParams(uri, s.notes);
    var sound := FieldParams("sound", s.soundEl) + notes;
    var bpm := FieldParams("bpm", s.bpmEl) + sound;
    var scale := FieldParams("scale", s.scaleEl) + bpm;
    GetAtField("root", s.rootEl, scale);
    GetPastField("scale", s.scaleEl, bpm, "root");
    GetPastField("bpm", s.bpmEl, sound, "root");
    GetPastField("sound", s.soundEl, notes, "root");
  }

  lemma LookupScale(uri: UriCodec, current: seq<Param>, s: TilesState)
    ensures GetParam(EncodedParams(uri, current, s), "scale") == Present(s.scaleEl)
  {
    NamesDistinct();
    GetEncoded(uri, current, s, "scale");
    var notes := NotesParams(uri, s.notes);
    var sound := FieldParams("sound", s.soundEl) + notes;
    var bpm := FieldParams("bpm", s.bpmEl) + sound;
    var scale := FieldParams("scale", s.scaleEl) + bpm;
    GetPastField("root", s.rootEl, scale, "scale");
    GetAtField("scale", s.scaleEl, bpm);
    GetPastField("bpm", s.bpmEl, sound, "scale");
    GetPastField("sound", s.soundEl, notes, "scale");
  }

  lemma LookupBpm(uri: UriCodec, current: seq<Param>, s: TilesState)
    ensures GetParam(EncodedParams(uri, current, s), "bpm") == Present(s.bpmEl)
  {
    NamesDistinct();
    GetEncoded(uri, current, s, "bpm");
    var notes := NotesParams(uri, s.notes);
    var sound := FieldParams("sound", s.soundEl) + notes;
    var bpm := FieldParams("bpm", s.bpmEl) + sound;
    var scale := FieldParams("scale", s.scaleEl) + bpm;
    GetPastField("root", s.rootEl, scale, "bpm");
    GetPastField("scale", s.scaleEl, bpm, "bpm");
    GetAtField("bpm", s.bpmEl, sound);
    GetPastField("sound", s.soundEl, notes, "bpm");
  }

  lemma LookupSound(uri: UriCodec, current: seq<Param>, s: TilesState)
    ensures GetParam(EncodedParams(uri, current, s), "sound") == Present(s.soundEl)
  {
    NamesDistinct();
    GetEncoded(uri, current, s, "sound");
    var notes := NotesParams(uri, s.notes);
    var sound := FieldParams("sound", s.soundEl) + notes;
    var bpm := FieldParams("bpm", s.bpmEl) + sound;
    var scale := FieldParams("scale", s.scaleEl) + bpm;
    GetPastField("root", s.rootEl, scale, "sound");
    GetPastField("scale", s.scaleEl, bpm, "sound");
    GetPastField("bpm", s.bpmEl, sound, "sound");
    GetAtField("sound", s.soundEl, notes);
  }

  lemma LookupNotes(uri: UriCodec, current: seq<Param>, s: TilesState)
    ensures GetParam(EncodedParams(uri, current, s), "notes")
      == if HasText(s.notes) then Some(uri.encode(s.notes)) else None
  {
    NamesDistinct();
    GetEncoded(uri, current, s, "notes");
    var notes := NotesParams(uri, s.notes);
    var sound := FieldParams("sound", s.soundEl) + notes;
    var bpm := FieldParams("bpm", s.bpmEl) + sound;
    var scale := FieldParams("scale", s.scaleEl) + bpm;
    GetPastField("root", s.rootEl, scale, "notes");
    GetPastField("scale", s.scaleEl, bpm, "notes");
    GetPastField("bpm", s.bpmEl, sound, "notes");
    GetPastField("sound", s.soundEl, notes, "notes");
    TrimNonEmpty(s.notes);
  }

  lemma LookupTimer(uri: UriCodec, current: seq<Param>, s: TilesState)
    ensures !HasParam(EncodedParams(uri, current, s), "timer")
  {
    NamesDistinct();
    GetEncoded(uri, current, s, "timer");
    var notes := NotesParams(uri, s.notes);
    var sound := FieldParams("sound", s.soundEl) + notes;
    var bpm := FieldParams("bpm", s.bpmEl) + sound;
    var scale := FieldParams("scale", s.scaleEl) + bpm;
    GetPastField("root", s.rootEl, scale, "timer");
    GetPastField("scale", s.scaleEl, bpm, "timer");
    GetPastField("bpm", s.bpmEl, sound, "timer");
    GetPastField("sound", s.soundEl, notes, "timer");
  }

  /** Some value, for a non-empty text. */
  function Present(v: string): (r: Option<string>)
    ensures r.Some? <==> v != ""
  {
    if v != "" then Some(v) else None
  }

  /** The text holds a character other than white space. */
  predicate HasText(text: string)
  {
    exists i :: 0 <= i < |text| && !IsJsWhitespace(text[i])
  }

  /** The page's other parameters survive the encoding, in their order. */
  lemma EncodeKeepsOthers(uri: UriCodec, current: seq<Param>, s: TilesState)
    ensures Without(EncodedParams(uri, current, s), NameSet(ClearedNames)) == Without(current, NameSet(ClearedNames))
  {
    var names := NameSet(ClearedNames);
    WithoutAppend(Without(current, names), StateParams(uri, s), names);
    WithoutTwice(current, names, names);
    assert names + names == names;
    StateParamsCleared(uri, s);
  }

  /** Every pair the state adds carries one of the cleared names. */
  lemma StateParamsCleared(uri: UriCodec, s: TilesState)
    ensures Without(StateParams(uri, s), NameSet(ClearedNames)) == []
  {
    var names := NameSet(ClearedNames);
    ClearedNameSet();
    var notes := NotesParams(uri, s.notes);
    var sound := FieldParams("sound", s.soundEl) + notes;
    var bpm := FieldParams("bpm", s.bpmEl) + sound;
    var scale := FieldParams("scale", s.scaleEl) + bpm;
    assert Without(notes, names) == [];
    FieldCleared("sound", s.soundEl, notes, names);
    FieldCleared("bpm", s.bpmEl, sound, names);
    FieldCleared("scale", s.scaleEl, bpm, names);
    FieldCleared("root", s.rootEl, scale, names);
  }

  lemma FieldCleared(name: string, value: string, rest: seq<Param>, names: set<string>)
    requires name in names && Without(rest, names) == []
    ensures Without(FieldParams(name, value) + rest, names) == []
  {
    WithoutAppend(FieldParams(name, value), rest, names);
  }

  lemma ClearedNameSet()
    ensures var names := NameSet(ClearedNames);
      "root" in names && "scale" in names && "bpm" in names &&
      "sound" in names && "notes" in names && "timer" in names
  {
    assert ClearedNames[0] == "root" && ClearedNames[1] == "scale" && ClearedNames[2] == "bpm";
    assert ClearedNames[3] == "sound" && ClearedNames[4] == "notes" && ClearedNames[5] == "timer";
  }

  // -------------------------------------------------------------- decoding

  /** `Partial<TilesState>` as far as decoding fills it: a field is None
      where the object has no such key. */
  datatype PartialState = PartialState(
    notes: Option<string>, rootEl: Option<string>, scaleEl: Option<string>,
    bpmEl: Option<string>, soundEl: Option<string>)

  /** The empty object `{}`. */
  const NoState := PartialState(None, None, None, None, None)

  /** `decodeURLToState(url)`, with the URL already parsed into its
      parameters (None where `new URL` throws): each of the four plain
      names present gives its value (`get` after `has`), `notes` present
      gives its URI-decoded value; when the URL does not parse or the
      notes do not decode, the `catch` gives `{}`. */
  function DecodeUrlToState(uri: UriCodec, url: Option<seq<Param>>): (r: PartialState)
  {
    match url
    case None => NoState
    case Some(ps) =>
      var notes := GetParam(ps, "notes");
      var decoded := if notes.Some? then uri.decode(notes.value) else None;
      if notes.Some? && decoded.None? then NoState
      else PartialState(decoded, GetParam(ps, "root"), GetParam(ps, "scale"),
                        GetParam(ps, "bpm"), GetParam(ps, "sound"))
  }

  /** What a link made from `s` carries back: the non-empty plain fields
      and the notes when they hold a non-white-space character. */
  function SharedState(s: TilesState): PartialState
  {
    PartialState(if HasText(s.notes) then Some(s.notes) else None,
      Present(s.rootEl), Present(s.scaleEl), Present(s.bpmEl), Present(s.soundEl))
  }

  /** Decoding the link that encoding made gives back the shared part of
      the state, whatever other parameters the page had, provided
      `decodeURIComponent` undoes `encodeURIComponent`. */
  lemma DecodeEncodeRoundTrip(uri: UriCodec, current: seq<Param>, s: TilesState)
    requires DecodeInvertsEncode(uri)
    ensures DecodeUrlToState(uri, Some(EncodedParams(uri, current, s))) == SharedState(s)
  {
    EncodedLookups(uri, current, s);
  }

  /** A decoded field is present exactly when the URL has the name, and
      then holds the value of its first pair. */
  lemma DecodedFields(uri: UriCodec, ps: seq<Param>)
    requires !HasParam(ps, "notes") || uri.decode(GetParam(ps, "notes").value).Some?
    ensures var r := DecodeUrlToState(uri, Some(ps));
      && (r.rootEl.Some? <==> HasParam(ps, "root"))
      && (r.scaleEl.Some? <==> HasParam(ps, "scale"))
      && (r.bpmEl.Some? <==> HasParam(ps, "bpm"))
      && (r.soundEl.Some? <==> HasParam(ps, "sound"))
      && (r.notes.Some? <==> HasParam(ps, "notes"))
      && (r.rootEl.Some? ==> exists i :: 0 <= i < |ps| && ps[i] == Param("root", r.rootEl.value))
      && (r.scaleEl.Some? ==> exists i :: 0 <= i < |ps| && ps[i] == Param("scale", r.scaleEl.value))
      && (r.bpmEl.Some? ==> exists i :: 0 <= i < |ps| && ps[i] == Param("bpm", r.bpmEl.value))
      && (r.soundEl.Some? ==> exists i :: 0 <= i < |ps| && ps[i] == Param("sound", r.soundEl.value))
      && (r.notes.Some? ==> exists i :: 0 <= i < |ps| && uri.decode(ps[i].value) == r.notes && ps[i].name == "notes")
  {
    var r := DecodeUrlToState(uri, Some(ps));
    if r.notes.Some? {
      var i :| 0 <= i < |ps| && ps[i] == Param("notes", GetParam(ps, "notes").value);
      assert uri.decode(ps[i].value) == r.notes && ps[i].name == "notes";
    }
  }

  /** Notes that do not decode lose every field. */
  lemma UndecodableNotes(uri: UriCodec, ps: seq<Param>)
    requires HasParam(ps, "notes") && uri.decode(GetParam(ps, "notes").value).None?
    ensures DecodeUrlToState(uri, Some(ps)) == NoState
    ensures HasStateParams(Some(ps))
  {
    assert HasParam(ps, StateNames[4]);
  }

  /** `hasStateParams(url)`: some one of the five state names is present;
      an unparsable URL has none. */
  function HasStateParams(url: Option<seq<Param>>): (b: bool)
    ensures url.None? ==> !b
  {
    match url
    case None => false
    case Some(ps) => AnyPresent(ps, StateNames)
  }

  /** `names.some(name => params.has(name))`. */
  function AnyPresent(ps: seq<Param>, names: seq<string>): (b: bool)
    ensures b <==> exists k :: 0 <= k < |names| && HasParam(ps, names[k])
  {
    if |names| == 0 then false
    else if HasParam(ps, names[0]) then true
    else
      var rest := AnyPresent(ps, names[1..]);
      assert (exists k :: 0 <= k < |names[1..]| && HasParam(ps, names[1..][k]))
        <==> (exists k :: 1 <= k < |names| && HasParam(ps, names[k])) by {
        if exists k :: 1 <= k < |names| && HasParam(ps, names[k]) {
          var k :| 1 <= k < |names| && HasParam(ps, names[k]);
          assert names[1..][k - 1] == names[k];
        }
      }
      rest
  }

  /** Where the notes decode, the URL has state parameters exactly when
      decoding it gives something. */
  lemma HasStateParamsIffDecoded(uri: UriCodec, ps: seq<Param>)
    requires !HasParam(ps, "notes") || uri.decode(GetParam(ps, "notes").value).Some?
    ensures HasStateParams(Some(ps)) <==> DecodeUrlToState(uri, Some(ps)) != NoState
  {
    DecodedFields(uri, ps);
    if HasStateParams(Some(ps)) {
      var k :| 0 <= k < |StateNames| && HasParam(ps, StateNames[k]);
      assert k == 0 || k == 1 || k == 2 || k == 3 || k == 4;
    } else {
      assert !HasParam(ps, StateNames[0]) && !HasParam(ps, StateNames[1]) && !HasParam(ps, StateNames[2]);
      assert !HasParam(ps, StateNames[3]) && !HasParam(ps, StateNames[4]);
    }
  }

  /** A URL whose only parameter names are not state names, such as a
      `timer` alone, has no state parameters. */
  lemma OtherNamesAreNoState(ps: seq<Param>)
    requires forall i :: 0 <= i < |ps| ==> ps[i].name !in StateNames
    ensures !HasStateParams(Some(ps))
  {
    forall k | 0 <= k < |StateNames| ensures !HasParam(ps, StateNames[k]) {
      assert StateNames[k] in StateNames;
    }
  }

  /** The shared link has state parameters exactly when the state had
      something to share. */
  lemma EncodedHasStateParams(uri: UriCodec, current: seq<Param>, s: TilesState)
    ensures HasStateParams(Some(EncodedParams(uri, current, s))) <==> SharedState(s) != NoState
  {
    var ps := EncodedParams(uri, current, s);
    EncodedLookups(uri, current, s);
    if HasStateParams(Some(ps)) {
      var k :| 0 <= k < |StateNames| && HasParam(ps, StateNames[k]);
      assert k == 0 || k == 1 || k == 2 || k == 3 || k == 4;
    } else {
      assert !HasParam(ps, StateNames[0]) && !HasParam(ps, StateNames[1]) && !HasParam(ps, StateNames[2]);
      assert !HasParam(ps, StateNames[3]) && !HasParam(ps, StateNames[4]);
    }
  }
}
