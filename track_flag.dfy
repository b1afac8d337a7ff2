/**
 * The region audio flag of the newer source tree: parsing the text typed in
 * a region command ("desert", "desert:track=main:time=night",
 * "id=desert:time=day") and the conversion to and from the stored YAML value.
 */
module TrackFlag {
  import opened Wrappers
  import opened JavaStrings
  import opened AudioTracks

  /** A value read from or written to the region YAML. */
  datatype Raw = RawString(s: string) | RawMap(entries: map<string, Raw>) | RawNull | RawOther

  /** Map.get: the entry, or null when the key is absent. */
  function Get(entries: map<string, Raw>, key: string): Raw
  {
    if key in entries then entries[key] else RawNull
  }

  /**
   * What the parser consults outside the flag: AudioMessage.validateIdentifier
   * (true when it does not throw), whether the client is connected, and the
   * audio ids the web service has announced.
   */
  datatype ParseContext = ParseContext(validId: string -> bool, connected: bool, audioIds: set<string>)

  /** The InvalidFlagFormat messages, and the array index exception of an input that splits into nothing. */
  datatype FlagError =
    | NotKeyValue
    | InvalidAudioId(id: string)
    | AudioNotAdded(id: string)
    | InvalidTrackId(id: string)
    | InvalidTime(value: string)
    | DuplicateOrUnknown(key: string)
    | MissingAudio
    | IndexOutOfBounds

  /** The parser's three locals; None stands for null. */
  datatype Fields = Fields(audioId: Option<string>, trackId: Option<string>, dayTime: Option<DayTime>)

  const NoFields := Fields(None, None, None)

  /** One loop iteration of parseInput over a property. */
  function ApplyProperty(f: Fields, property: string, ctx: ParseContext): Result<Fields, FlagError>
  {
    var kv := Split(property, '=');
    if |kv| != 2 then Err(NotKeyValue)
    else
      var key, value := kv[0], kv[1];
      if f.audioId.None? && key == "id" then
        if !ctx.validId(value) then Err(InvalidAudioId(value))
        else if ctx.connected && (ctx.audioIds == {} || value !in ctx.audioIds) then Err(AudioNotAdded(value))
        else Ok(f.(audioId := Some(value)))
      else if f.trackId.None? && key == "track" then
        if !ctx.validId(value) then Err(InvalidTrackId(value))
        else Ok(f.(trackId := Some(value)))
      else if f.dayTime.None? && key == "time" then
        match ByName(value)
        case None => Err(InvalidTime(value))
        case Some(d) => Ok(f.(dayTime := Some(d)))
      else Err(DuplicateOrUnknown(key))
  }

  /** The whole loop: the properties applied in order, stopping at the first error. */
  function ApplyAll(f: Fields, properties: seq<string>, ctx: ParseContext): Result<Fields, FlagError>
    decreases |properties|
  {
    if properties == [] then Ok(f)
    else
      match ApplyProperty(f, properties[0], ctx)
      case Err(e) => Err(e)
      case Ok(g) => ApplyAll(g, properties[1..], ctx)
  }

  /** The check after the loop: the audio id is required. */
  function Finish(r: Result<Fields, FlagError>): Result<AudioTrack, FlagError>
  {
    match r
    case Err(e) => Err(e)
    case Ok(f) =>
      if f.audioId.None? then Err(MissingAudio)
      else Ok(AudioTrack(f.audioId.value, f.trackId, f.dayTime))
  }

  /** The loop of parseInput over the already split properties (shared by both source trees). */
  method ParseProperties(properties: seq<string>, ctx: ParseContext) returns (r: Result<AudioTrack, FlagError>)
    ensures r == Finish(ApplyAll(NoFields, properties, ctx))
  {
    var audioId: Option<string> := None;
    var trackId: Option<string> := None;
    var dayTime: Option<DayTime> := None;
    var i := 0;
    while i < |properties|
      invariant 0 <= i <= |properties|
      invariant ApplyAll(NoFields, properties, ctx) == ApplyAll(Fields(audioId, trackId, dayTime), properties[i..], ctx)
    {
      ghost var before := Fields(audioId, trackId, dayTime);
      assert properties[i..][0] == properties[i] && properties[i..][1..] == properties[i + 1..];
      var kv := Split(properties[i], '=');
      if |kv| != 2 {
        return Err(NotKeyValue);
      }
      var key, value := kv[0], kv[1];
      if audioId.None? && key == "id" {
        audioId := Some(value);
        if !ctx.validId(value) {
          return Err(InvalidAudioId(value));
        }
        if ctx.connected && (ctx.audioIds == {} || value !in ctx.audioIds) {
          return Err(AudioNotAdded(value));
        }
      } else if trackId.None? && key == "track" {
        trackId := Some(value);
        if !ctx.validId(value) {
          return Err(InvalidTrackId(value));
        }
      } else if dayTime.None? && key == "time" {
        dayTime := ByName(value);
        if dayTime.None? {
          return Err(InvalidTime(value));
        }
      } else {
        return Err(DuplicateOrUnknown(key));
      }
      assert ApplyProperty(before, properties[i], ctx) == Ok(Fields(audioId, trackId, dayTime));
      i := i + 1;
    }
    if audioId.None? {
      return Err(MissingAudio);
    }
    r := Ok(AudioTrack(audioId.value, trackId, dayTime));
  }

  /**
   * The older track flag and the delay flag: a lone property may leave out
   * its key, given here with its '=' ("id=", "time="), which is then put in
   * front of it; with several properties every one needs its key.
   */
  function WithKeyIfAlone(properties: seq<string>, keyPrefix: string): (r: seq<string>)
    ensures |r| == |properties|
    ensures |properties| != 1 ==> r == properties
    ensures |properties| == 1 ==> StartsWith(r[0], keyPrefix) && |properties[0]| <= |r[0]|
    ensures |properties| == 1 ==> r[0][|r[0]| - |properties[0]|..] == properties[0]
    ensures |properties| == 1 && StartsWith(properties[0], keyPrefix) ==> r == properties
  {
    if |properties| == 1 && !StartsWith(properties[0], keyPrefix) then [keyPrefix + properties[0]] else properties
  }

  /** The first property may leave out its "id=" key. */
  function WithIdKey(properties: seq<string>): (r: seq<string>)
    requires properties != []
    ensures |r| == |properties| && r[1..] == properties[1..] && StartsWith(r[0], "id=")
  {
    if StartsWith(properties[0], "id=") then properties else properties[0 := "id=" + properties[0]]
  }

  /**
   * AudioTrackFlag.parseInput: split on ':', prefix the first property with
   * "id=" unless it already starts so, then apply every property. An input
   * that splits into no property at all (":", "::") fails on properties[0].
   */
  function Parse(input: string, ctx: ParseContext): Result<AudioTrack, FlagError>
  {
    var properties := Split(input, ':');
    if properties == [] then Err(IndexOutOfBounds)
    else Finish(ApplyAll(NoFields, WithIdKey(properties), ctx))
  }

  method ParseInput(input: string, ctx: ParseContext) returns (r: Result<AudioTrack, FlagError>)
    ensures r == Parse(input, ctx)
  {
    var properties := Split(input, ':');
    if |properties| == 0 {
      return Err(IndexOutOfBounds);
    }
    if !StartsWith(properties[0], "id=") {
      properties := properties[0 := "id=" + properties[0]];
    }
    r := ParseProperties(properties, ctx);
  }

  // ---- what a successful parse guarantees ----

  const TrackKeys: set<string> := {"id", "track", "time"}

  predicate IsKeyValue(property: string) { |Split(property, '=')| == 2 }

  function KeyOf(property: string): string
    requires IsKeyValue(property)
  {
    Split(property, '=')[0]
  }

  predicate Filled(f: Fields, key: string)
  {
    (key == "id" && f.audioId.Some?) || (key == "track" && f.trackId.Some?) || (key == "time" && f.dayTime.Some?)
  }

  /** Every identifier held is valid, and the audio id is announced by the service when connected. */
  predicate Admitted(f: Fields, ctx: ParseContext)
  {
    (f.audioId.Some? ==> ctx.validId(f.audioId.value) && (ctx.connected ==> f.audioId.value in ctx.audioIds))
    && (f.trackId.Some? ==> ctx.validId(f.trackId.value))
  }

  /**
   * A loop that runs to the end saw only key=value properties with the keys
   * id, track and time, none of them twice and none already filled; and it
   * admitted only valid identifiers.
   */
  lemma {:induction false} ApplyAllAccepted(f: Fields, properties: seq<string>, ctx: ParseContext)
    requires Admitted(f, ctx) && ApplyAll(f, properties, ctx).Ok?
    ensures Admitted(ApplyAll(f, properties, ctx).value, ctx)
    ensures forall i :: 0 <= i < |properties| ==>
      IsKeyValue(properties[i]) && KeyOf(properties[i]) in TrackKeys && !Filled(f, KeyOf(properties[i]))
    ensures forall i, j :: 0 <= i < j < |properties| && IsKeyValue(properties[i]) && IsKeyValue(properties[j]) ==>
      KeyOf(properties[i]) != KeyOf(properties[j])
    decreases |properties|
  {
    if properties != [] {
      var g := ApplyProperty(f, properties[0], ctx).value;
      PropertyAccepted(f, properties[0], ctx);
      var k := KeyOf(properties[0]);
      assert ApplyAll(g, properties[1..], ctx) == ApplyAll(f, properties, ctx);
      ApplyAllAccepted(g, properties[1..], ctx);
      forall i | 0 < i < |properties|
        ensures IsKeyValue(properties[i]) && KeyOf(properties[i]) != k && !Filled(f, KeyOf(properties[i]))
      {
        assert properties[i] == properties[1..][i - 1];
      }
      forall i, j | 0 <= i < j < |properties| && IsKeyValue(properties[i]) && IsKeyValue(properties[j])
        ensures KeyOf(properties[i]) != KeyOf(properties[j])
      {
        if i > 0 {
          assert properties[i] == properties[1..][i - 1] && properties[j] == properties[1..][j - 1];
        }
      }
    }
  }

  /**
   * One accepted property is a key=value pair with a known key not yet
   * filled; it fills that key, keeps the others, and admits only valid
   * identifiers.
   */
  lemma PropertyAccepted(f: Fields, property: string, ctx: ParseContext)
    requires Admitted(f, ctx) && ApplyProperty(f, property, ctx).Ok?
    ensures IsKeyValue(property) && KeyOf(property) in TrackKeys && !Filled(f, KeyOf(property))
    ensures var g := ApplyProperty(f, property, ctx).value;
      Admitted(g, ctx) && Filled(g, KeyOf(property)) && forall key :: Filled(f, key) ==> Filled(g, key)
  {
  }

  /** A parsed track holds valid identifiers, an announced audio id when connected, and came from distinct known keys. */
  lemma ParseAccepted(input: string, ctx: ParseContext)
    requires Parse(input, ctx).Ok?
    ensures ctx.validId(Parse(input, ctx).value.audioId)
    ensures ctx.connected ==> Parse(input, ctx).value.audioId in ctx.audioIds
    ensures Parse(input, ctx).value.trackId.Some? ==> ctx.validId(Parse(input, ctx).value.trackId.value)
    ensures var ps := WithIdKey(Split(input, ':'));
      forall i, j :: 0 <= i < j < |ps| ==> IsKeyValue(ps[i]) && IsKeyValue(ps[j]) && KeyOf(ps[i]) != KeyOf(ps[j])
  {
    var ps := WithIdKey(Split(input, ':'));
    ApplyAllAccepted(NoFields, ps, ctx);
  }

  /** The key of a key=value property that starts with "id=" is "id". */
  lemma IdKey(property: string)
    requires StartsWith(property, "id=") && IsKeyValue(property)
    ensures KeyOf(property) == "id"
  {
    var rest := property[3..];
    assert property == "id" + ("=" + rest);
    PiecesPrepend("id", "=" + rest, '=');
    assert Pieces("=" + rest, '=')[0] == "";
    assert Pieces(property, '=')[0] == "id";
    assert '=' in property by { assert property[2] == '='; }
    assert Split(property, '=') == DropTrailingEmpty(Pieces(property, '='));
  }

  /**
   * In this tree the audio id can never be missing: after the prefix rule the
   * first property is always an id property, so any failure is an earlier one.
   */
  lemma NeverMissingAudio(input: string, ctx: ParseContext)
    ensures Parse(input, ctx) != Err(MissingAudio)
  {
    var properties := Split(input, ':');
    if properties != [] {
      var ps := WithIdKey(properties);
      LoopErrors(NoFields, ps, ctx);
      var first := ApplyProperty(NoFields, ps[0], ctx);
      if first.Ok? {
        IdKey(ps[0]);
        assert first.value.audioId.Some?;
        assert ApplyAll(NoFields, ps, ctx) == ApplyAll(first.value, ps[1..], ctx);
        if ApplyAll(first.value, ps[1..], ctx).Ok? {
          FilledStaysFilled(first.value, ps[1..], ctx);
        }
      }
    }
  }

  /** The loop reports only per-property errors. */
  lemma {:induction false} LoopErrors(f: Fields, properties: seq<string>, ctx: ParseContext)
    ensures ApplyAll(f, properties, ctx) != Err(MissingAudio)
    ensures ApplyAll(f, properties, ctx) != Err(IndexOutOfBounds)
    decreases |properties|
  {
    if properties != [] {
      var step := ApplyProperty(f, properties[0], ctx);
      if step.Ok? {
        LoopErrors(step.value, properties[1..], ctx);
      }
    }
  }

  lemma {:induction false} FilledStaysFilled(f: Fields, properties: seq<string>, ctx: ParseContext)
    requires f.audioId.Some? && ApplyAll(f, properties, ctx).Ok?
    ensures ApplyAll(f, properties, ctx).value.audioId.Some?
    decreases |properties|
  {
    if properties != [] {
      FilledStaysFilled(ApplyProperty(f, properties[0], ctx).value, properties[1..], ctx);
    }
  }

  /**
   * The prefix rule: an input whose first property is a bare audio id parses
   * exactly as the input written with "id=" in front.
   */
  lemma BareIdMeansIdKey(input: string, ctx: ParseContext)
    requires Split(input, ':') != [] && !StartsWith(input, "id=")
    ensures Parse(input, ctx) == Parse("id=" + input, ctx)
  {
    var ps := Split(input, ':');
    SplitPrepend("id=", input, ':');
    FirstPieceIsPrefix(input, ':');
    assert !StartsWith(ps[0], "id=");
    var qs := Split("id=" + input, ':');
    assert qs == [("id=" + ps[0])] + ps[1..];
    assert WithIdKey(qs) == WithIdKey(ps);
  }

  lemma FirstPieceIsPrefix(s: string, sep: char)
    requires Split(s, sep) != []
    ensures Split(s, sep)[0] <= s
  {
    if sep in s {
      PiecesFirstIsPrefix(s, sep);
      assert Split(s, sep)[0] == Pieces(s, sep)[0];
    }
  }

  lemma {:induction false} PiecesFirstIsPrefix(s: string, sep: char)
    ensures Pieces(s, sep)[0] <= s
    decreases |s|
  {
    if s != [] && s[0] != sep {
      PiecesFirstIsPrefix(s[1..], sep);
      assert s == [s[0]] + s[1..];
    }
  }

  /** An input consisting only of separators fails with the array index exception rather than a flag format error. */
  lemma SeparatorsOnlyCrash(ctx: ParseContext)
    ensures Parse(":", ctx) == Err(IndexOutOfBounds)
  {
    assert Pieces(":", ':') == ["", ""];
    DropTrailingEmptyUnique(["", ""], 0);
  }

  /** Identifiers the flag syntax can carry: non-empty, with neither separator. */
  predicate Plain(s: string) { s != "" && ':' !in s && '=' !in s }

  /** A bare audio id is accepted when valid and, while connected, announced. */
  lemma ParseBareId(a: string, ctx: ParseContext)
    requires Plain(a) && ctx.validId(a) && (ctx.connected ==> a in ctx.audioIds)
    ensures Parse(a, ctx) == Ok(OfAudio(a))
  {
    SplitWhole(a, ':');
    NotIdPrefixed(a);
    SplitTwo("id", a, '=');
    assert "id" + ['='] + a == "id=" + a;
    assert ApplyAll(NoFields, ["id=" + a], ctx) == ApplyAll(Fields(Some(a), None, None), [], ctx);
  }

  lemma NotIdPrefixed(a: string)
    requires '=' !in a
    ensures !StartsWith(a, "id=")
  {
    if |a| >= 3 {
      assert a[2] in a;
    }
  }

  /** "key=value" splits into exactly its two parts. */
  lemma KeyValueParts(key: string, value: string)
    requires '=' !in key && Plain(value)
    ensures Split(key + "=" + value, '=') == [key, value]
  {
    SplitTwo(key, value, '=');
    assert key + ['='] + value == key + "=" + value;
  }

  lemma LowerNamePlain(d: DayTime)
    ensures Plain(ToLowerAscii(d.Name()))
  {
    var time := ToLowerAscii(d.Name());
    assert forall i :: 0 <= i < |time| ==> 'a' <= time[i] <= 'z';
  }

  lemma FullFormProperties(a: string, t: string, time: string)
    requires Plain(a) && Plain(t) && Plain(time)
    ensures Split("id=" + a + ":track=" + t + ":time=" + time, ':') == ["id=" + a, "track=" + t, "time=" + time]
  {
    var p1, p2, p3 := "id=" + a, "track=" + t, "time=" + time;
    assert "id=" + a + ":track=" + t + ":time=" + time == p1 + [':'] + p2 + [':'] + p3;
    assert ':' !in p1 && ':' !in p2 && ':' !in p3;
    SplitThree(p1, p2, p3, ':');
  }

  lemma ApplyIdProperty(a: string, ctx: ParseContext)
    requires Plain(a) && ctx.validId(a) && (ctx.connected ==> a in ctx.audioIds)
    ensures ApplyProperty(NoFields, "id=" + a, ctx) == Ok(Fields(Some(a), None, None))
  {
    KeyValueParts("id", a);
    assert "id" + "=" + a == "id=" + a;
  }

  lemma ApplyTrackProperty(f: Fields, t: string, ctx: ParseContext)
    requires Plain(t) && ctx.validId(t) && f.trackId.None?
    ensures ApplyProperty(f, "track=" + t, ctx) == Ok(f.(trackId := Some(t)))
  {
    KeyValueParts("track", t);
    assert "track" + "=" + t == "track=" + t;
  }

  lemma ApplyTimeProperty(f: Fields, d: DayTime, ctx: ParseContext)
    requires f.dayTime.None? && f.trackId.Some? && f.audioId.Some?
    ensures ApplyProperty(f, "time=" + ToLowerAscii(d.Name()), ctx) == Ok(f.(dayTime := Some(d)))
  {
    var time := ToLowerAscii(d.Name());
    LowerNamePlain(d);
    KeyValueParts("time", time);
    assert "time" + "=" + time == "time=" + time;
    ByNameLowerName(d);
  }

  /** The fully spelled form "id=<a>:track=<t>:time=<time>" yields exactly that track. */
  lemma ParseFullForm(a: string, t: string, d: DayTime, ctx: ParseContext)
    requires Plain(a) && Plain(t) && ctx.validId(a) && ctx.validId(t) && (ctx.connected ==> a in ctx.audioIds)
    ensures Parse("id=" + a + ":track=" + t + ":time=" + ToLowerAscii(d.Name()), ctx)
         == Ok(AudioTrack(a, Some(t), Some(d)))
  {
    var time := ToLowerAscii(d.Name());
    LowerNamePlain(d);
    FullFormProperties(a, t, time);
    var p1, p2, p3 := "id=" + a, "track=" + t, "time=" + time;
    var ps := [p1, p2, p3];
    assert WithIdKey(ps) == ps;
    var f1 := Fields(Some(a), None, None);
    var f2 := f1.(trackId := Some(t));
    var f3 := f2.(dayTime := Some(d));
    ApplyIdProperty(a, ctx);
    ApplyTrackProperty(f1, t, ctx);
    ApplyTimeProperty(f2, d, ctx);
    assert ps[1..] == [p2, p3] && ps[1..][1..] == [p3] && ps[1..][1..][1..] == [];
    assert ApplyAll(f2, [p3], ctx) == Ok(f3);
    assert ApplyAll(f1, [p2, p3], ctx) == Ok(f3);
    assert ApplyAll(NoFields, ps, ctx) == Ok(f3);
  }

  // ---- storage ----

  /**
   * AudioTrackFlag.marshal: the bare audio id when neither option is set,
   * otherwise a map with "audio" and the set options, the time written in lower case.
   */
  function Marshal(t: AudioTrack): Raw
  {
    if t.trackId.Some? || t.dayTime.Some? then
      RawMap(map["audio" := RawString(t.audioId)]
        + (if t.trackId.Some? then map["track" := RawString(t.trackId.value)] else map[])
        + (if t.dayTime.Some? then map["time" := RawString(ToLowerAscii(t.dayTime.value.Name()))] else map[]))
    else RawString(t.audioId)
  }

  /**
   * AudioTrackFlag.unmarshal: a map needs a valid string "audio" and, when
   * present, a valid string "track" and a string "time" naming a DayTime; a
   * bare string must be a valid id; anything else, or any failed check, is null.
   */
  function Unmarshal(o: Raw, validId: string -> bool): Option<AudioTrack>
  {
    match o
    case RawMap(m) =>
      var audio, track, time := Get(m, "audio"), Get(m, "track"), Get(m, "time");
      if !audio.RawString? || !validId(audio.s) then None
      else if !track.RawNull? && (!track.RawString? || !validId(track.s)) then None
      else if !time.RawNull? && (!time.RawString? || ByName(time.s).None?) then None
      else Some(AudioTrack(audio.s,
                           if track.RawNull? then None else Some(track.s),
                           if time.RawNull? then None else ByName(time.s)))
    case RawString(s) => if validId(s) then Some(OfAudio(s)) else None
    case _ => None
  }

  predicate ValidIds(t: AudioTrack, validId: string -> bool)
  {
    validId(t.audioId) && (t.trackId.Some? ==> validId(t.trackId.value))
  }

  /** Storing a track with valid identifiers and loading it back gives the same track. */
  lemma StorageRoundTrip(t: AudioTrack, validId: string -> bool)
    requires ValidIds(t, validId)
    ensures Unmarshal(Marshal(t), validId) == Some(t)
  {
    if t.dayTime.Some? {
      ByNameLowerName(t.dayTime.value);
    }
    if t.trackId.Some? || t.dayTime.Some? {
      var m := Marshal(t).entries;
      assert Get(m, "audio") == RawString(t.audioId);
      assert Get(m, "track") == if t.trackId.Some? then RawString(t.trackId.value) else RawNull;
      assert Get(m, "time") == if t.dayTime.Some? then RawString(ToLowerAscii(t.dayTime.value.Name())) else RawNull;
    }
  }

  /** Whatever loads holds valid identifiers, so loading is a normal form: store and load again changes nothing. */
  lemma LoadedTracksAreStable(o: Raw, validId: string -> bool)
    requires Unmarshal(o, validId).Some?
    ensures ValidIds(Unmarshal(o, validId).value, validId)
    ensures Unmarshal(Marshal(Unmarshal(o, validId).value), validId) == Unmarshal(o, validId)
  {
    StorageRoundTrip(Unmarshal(o, validId).value, validId);
  }

  /** A track the command parser accepts survives storage unchanged. */
  lemma ParsedTracksStore(input: string, ctx: ParseContext)
    requires Parse(input, ctx).Ok?
    ensures Unmarshal(Marshal(Parse(input, ctx).value), ctx.validId) == Some(Parse(input, ctx).value)
  {
    ParseAccepted(input, ctx);
    StorageRoundTrip(Parse(input, ctx).value, ctx.validId);
  }
}
