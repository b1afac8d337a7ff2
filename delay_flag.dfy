/**
 * The region audio-delay flag, identical in both source trees: parsing
 * "<range>" or "time=<range>:track=<id>" and the conversion to and from the
 * stored YAML map. Range.parse, Range.toString and
 * AudioMessage.validateIdentifier belong to the messaging library and are
 * parameters here.
 */
module DelayFlag {
  import opened Wrappers
  import opened JavaStrings
  import opened Messages
  import opened TrackFlag

  /** The flag value: a delay range, optionally bound to one track. */
  datatype AudioDelay = AudioDelay(delayTime: Range, trackId: Option<string>)

  datatype DelayContext = DelayContext(validId: string -> bool, parseRange: string -> Option<Range>, showRange: Range -> string)

  datatype DelayError =
    | DelayNotKeyValue
    | InvalidRange(value: string)
    | InvalidDelayTrack(id: string)
    | DelayDuplicateOrUnknown(key: string)
    | MissingTime

  datatype DelayFields = DelayFields(delayTime: Option<Range>, trackId: Option<string>)

  function ApplyDelayProperty(f: DelayFields, property: string, ctx: DelayContext): Result<DelayFields, DelayError>
  {
    var kv := Split(property, '=');
    if |kv| != 2 then Err(DelayNotKeyValue)
    else
      var key, value := kv[0], kv[1];
      if f.delayTime.None? && key == "time" then
        match ctx.parseRange(value)
        case None => Err(InvalidRange(value))
        case Some(range) => Ok(f.(delayTime := Some(range)))
      else if f.trackId.None? && key == "track" then
        if !ctx.validId(value) then Err(InvalidDelayTrack(value))
        else Ok(f.(trackId := Some(value)))
      else Err(DelayDuplicateOrUnknown(key))
  }

  function ApplyAllDelay(f: DelayFields, properties: seq<string>, ctx: DelayContext): Result<DelayFields, DelayError>
    decreases |properties|
  {
    if properties == [] then Ok(f)
    else
      match ApplyDelayProperty(f, properties[0], ctx)
      case Err(e) => Err(e)
      case Ok(g) => ApplyAllDelay(g, properties[1..], ctx)
  }

  /** AudioDelayFlag.parseInput */
  function Parse(input: string, ctx: DelayContext): Result<AudioDelay, DelayError>
  {
    match ApplyAllDelay(DelayFields(None, None), WithKeyIfAlone(Split(input, ':'), "time="), ctx)
    case Err(e) => Err(e)
    case Ok(f) => if f.delayTime.None? then Err(MissingTime) else Ok(AudioDelay(f.delayTime.value, f.trackId))
  }

  /** An unfilled "time" key takes the range its value parses to. */
  lemma TimeStep(f: DelayFields, property: string, ctx: DelayContext)
    requires f.delayTime.None?
    requires var kv := Split(property, '='); |kv| == 2 && kv[0] == "time" && ctx.parseRange(kv[1]).Some?
    ensures ApplyDelayProperty(f, property, ctx) == Ok(f.(delayTime := ctx.parseRange(Split(property, '=')[1])))
  {
  }

  method ParseInput(input: string, ctx: DelayContext) returns (r: Result<AudioDelay, DelayError>)
    ensures r == Parse(input, ctx)
  {
    var properties := Split(input, ':');
    if |properties| == 1 && !StartsWith(properties[0], "time=") {
      properties := properties[0 := "time=" + properties[0]];
    }
    assert properties == WithKeyIfAlone(Split(input, ':'), "time=");
    var delayTime: Option<Range> := None;
    var trackId: Option<string> := None;
    var i := 0;
    while i < |properties|
      invariant 0 <= i <= |properties|
      invariant ApplyAllDelay(DelayFields(None, None), properties, ctx)
             == ApplyAllDelay(DelayFields(delayTime, trackId), properties[i..], ctx)
    {
      ghost var before := DelayFields(delayTime, trackId);
      assert properties[i..][0] == properties[i] && properties[i..][1..] == properties[i + 1..];
      var kv := Split(properties[i], '=');
      if |kv| != 2 {
        return Err(DelayNotKeyValue);
      }
      var key, value := kv[0], kv[1];
      if delayTime.None? && key == "time" {
        delayTime := ctx.parseRange(value);
        if delayTime.None? {
          return Err(InvalidRange(value));
        }
        TimeStep(before, properties[i], ctx);
      } else if trackId.None? && key == "track" {
        trackId := Some(value);
        if !ctx.validId(value) {
          return Err(InvalidDelayTrack(value));
        }
        assert ApplyDelayProperty(before, properties[i], ctx) == Ok(before.(trackId := trackId));
      } else {
        return Err(DelayDuplicateOrUnknown(key));
      }
      i := i + 1;
    }
    if delayTime.None? {
      return Err(MissingTime);
    }
    r := Ok(AudioDelay(delayTime.value, trackId));
  }

  /** The loop keeps: a held range came from parseRange of some property's value; a held track is valid. */
  ghost predicate DelayAdmitted(f: DelayFields, ctx: DelayContext)
  {
    (f.delayTime.Some? ==> exists v :: ctx.parseRange(v) == f.delayTime)
    && (f.trackId.Some? ==> ctx.validId(f.trackId.value))
  }

  lemma {:induction false} ApplyAllDelayAdmitted(f: DelayFields, properties: seq<string>, ctx: DelayContext)
    requires DelayAdmitted(f, ctx) && ApplyAllDelay(f, properties, ctx).Ok?
    ensures DelayAdmitted(ApplyAllDelay(f, properties, ctx).value, ctx)
    decreases |properties|
  {
    if properties != [] {
      var g := ApplyDelayProperty(f, properties[0], ctx).value;
      if g.delayTime.Some? && f.delayTime.None? {
        var v := Split(properties[0], '=')[1];
        assert ctx.parseRange(v) == g.delayTime;
      }
      assert DelayAdmitted(g, ctx);
      ApplyAllDelayAdmitted(g, properties[1..], ctx);
    }
  }

  /** A parsed delay always carries a range that Range.parse produced, and a valid track if any. */
  lemma ParseAdmitted(input: string, ctx: DelayContext)
    requires Parse(input, ctx).Ok?
    ensures exists v :: ctx.parseRange(v) == Some(Parse(input, ctx).value.delayTime)
    ensures Parse(input, ctx).value.trackId.Some? ==> ctx.validId(Parse(input, ctx).value.trackId.value)
  {
    ApplyAllDelayAdmitted(DelayFields(None, None), WithKeyIfAlone(Split(input, ':'), "time="), ctx);
  }

  /** A bare range is read as the time property. */
  lemma BareRange(r: string, ctx: DelayContext)
    requires Plain(r)
    ensures Parse(r, ctx) == Parse("time=" + r, ctx)
    ensures Parse(r, ctx) == if ctx.parseRange(r).Some? then Ok(AudioDelay(ctx.parseRange(r).value, None)) else Err(InvalidRange(r))
  {
    SplitWhole(r, ':');
    assert ':' !in "time=" + r;
    SplitWhole("time=" + r, ':');
    assert !StartsWith(r, "time=") by {
      if |r| >= 5 { assert r[4] in r; }
    }
    KeyValueParts("time", r);
    assert "time" + "=" + r == "time=" + r;
    assert WithKeyIfAlone(Split(r, ':'), "time=") == ["time=" + r];
    assert WithKeyIfAlone(Split("time=" + r, ':'), "time=") == ["time=" + r];
    var start := DelayFields(None, None);
    assert ["time=" + r][1..] == [];
    match ctx.parseRange(r)
    case None =>
      assert ApplyDelayProperty(start, "time=" + r, ctx) == Err(InvalidRange(r));
    case Some(range) =>
      assert ApplyDelayProperty(start, "time=" + r, ctx) == Ok(DelayFields(Some(range), None));
      assert ApplyAllDelay(start, ["time=" + r], ctx) == Ok(DelayFields(Some(range), None));
  }

  /** With more than one property, a bare first property is a format error. */
  lemma BareRangeWithTrackRejected(input: string, ctx: DelayContext)
    requires |Split(input, ':')| >= 2 && '=' !in Split(input, ':')[0]
    ensures Parse(input, ctx) == Err(DelayNotKeyValue)
  {
    SplitWhole(Split(input, ':')[0], '=');
  }

  /** An input of separators only has no time property. */
  lemma SeparatorsOnlyMissTime(ctx: DelayContext)
    ensures Parse(":", ctx) == Err(MissingTime)
  {
    assert Pieces(":", ':') == ["", ""];
    DropTrailingEmptyUnique(["", ""], 0);
  }

  /** AudioDelayFlag.marshal: a map with the range text and, when set, the track. */
  function Marshal(d: AudioDelay, ctx: DelayContext): Raw
  {
    RawMap(map["range" := RawString(ctx.showRange(d.delayTime))]
      + (if d.trackId.Some? then map["track" := RawString(d.trackId.value)] else map[]))
  }

  /** AudioDelayFlag.unmarshal: only a map with a parsable "range" string and, when present, a valid string "track". */
  function Unmarshal(o: Raw, ctx: DelayContext): Option<AudioDelay>
  {
    match o
    case RawMap(m) =>
      var range, track := Get(m, "range"), Get(m, "track");
      if !range.RawString? || ctx.parseRange(range.s).None? then None
      else if !track.RawNull? && (!track.RawString? || !ctx.validId(track.s)) then None
      else Some(AudioDelay(ctx.parseRange(range.s).value, if track.RawNull? then None else Some(track.s)))
    case _ => None
  }

  /** Storing a delay and loading it back gives the same delay, when Range.parse reads back Range.toString. */
  lemma StorageRoundTrip(d: AudioDelay, ctx: DelayContext)
    requires ctx.parseRange(ctx.showRange(d.delayTime)) == Some(d.delayTime)
    requires d.trackId.Some? ==> ctx.validId(d.trackId.value)
    ensures Unmarshal(Marshal(d, ctx), ctx) == Some(d)
  {
  }

  /** A delay the command parser accepts survives storage unchanged when its range prints and parses back. */
  lemma ParsedDelaysStore(input: string, ctx: DelayContext)
    requires Parse(input, ctx).Ok?
    requires ctx.parseRange(ctx.showRange(Parse(input, ctx).value.delayTime)) == Some(Parse(input, ctx).value.delayTime)
    ensures Unmarshal(Marshal(Parse(input, ctx).value, ctx), ctx) == Some(Parse(input, ctx).value)
  {
    ParseAdmitted(input, ctx);
    StorageRoundTrip(Parse(input, ctx).value, ctx);
  }
}
