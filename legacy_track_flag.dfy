/**
 * The region audio flag parser of the older source tree. It differs from the
 * newer one only in the prefix rule: "id=" is put in front of the first
 * property only when it is the only property. Its storage conversion is the
 * same as the newer tree's, so TrackFlag.Marshal and TrackFlag.Unmarshal serve both.
 */
module LegacyTrackFlag {
  import opened Wrappers
  import opened JavaStrings
  import opened AudioTracks
  import opened TrackFlag

  /** AudioTrackFlag.parseInput of the older tree. */
  function Parse(input: string, ctx: ParseContext): Result<AudioTrack, FlagError>
  {
    Finish(ApplyAll(NoFields, WithKeyIfAlone(Split(input, ':'), "id="), ctx))
  }

  method ParseInput(input: string, ctx: ParseContext) returns (r: Result<AudioTrack, FlagError>)
    ensures r == Parse(input, ctx)
  {
    var properties := Split(input, ':');
    if |properties| == 1 && !StartsWith(properties[0], "id=") {
      properties := properties[0 := "id=" + properties[0]];
    }
    assert properties == WithKeyIfAlone(Split(input, ':'), "id=");
    r := ParseProperties(properties, ctx);
  }

  /** With more than one property, a first property that is a bare audio id is a format error. */
  lemma BareIdWithOptionsRejected(input: string, ctx: ParseContext)
    requires |Split(input, ':')| >= 2 && '=' !in Split(input, ':')[0]
    ensures Parse(input, ctx) == Err(NotKeyValue)
  {
    SplitWhole(Split(input, ':')[0], '=');
  }

  /** An input of separators only has no property at all, so the audio id is reported missing. */
  lemma SeparatorsOnlyMissAudio(ctx: ParseContext)
    ensures Parse(":", ctx) == Err(MissingAudio)
  {
    assert Pieces(":", ':') == ["", ""];
    DropTrailingEmptyUnique(["", ""], 0);
  }

  /**
   * The two trees parse alike except on the inputs where their prefix rules
   * differ: no property at all, or several properties the first of which lacks "id=".
   */
  lemma AgreesWithNewerTree(input: string, ctx: ParseContext)
    requires Split(input, ':') != []
    requires |Split(input, ':')| == 1 || StartsWith(Split(input, ':')[0], "id=")
    ensures Parse(input, ctx) == TrackFlag.Parse(input, ctx)
  {
    var ps := Split(input, ':');
    assert WithKeyIfAlone(ps, "id=") == WithIdKey(ps);
  }

  /** A track the older parser accepts holds valid identifiers and survives the older tree's storage unchanged. */
  lemma ParsedTracksStore(input: string, ctx: ParseContext)
    requires Parse(input, ctx).Ok?
    ensures ValidIds(Parse(input, ctx).value, ctx.validId)
    ensures Unmarshal(Marshal(Parse(input, ctx).value), ctx.validId) == Some(Parse(input, ctx).value)
  {
    ApplyAllAccepted(NoFields, WithKeyIfAlone(Split(input, ':'), "id="), ctx);
    StorageRoundTrip(Parse(input, ctx).value, ctx.validId);
  }
}
