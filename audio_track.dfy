/**
 * The value stored in a region's audio flag: an audio id, optionally bound to
 * a track and to a time of day.
 */
module AudioTracks {
  import opened Wrappers
  import opened JavaStrings
  import opened JavaInts

  /** A window of the Minecraft day, in world ticks (a day is 24000 ticks). */
  datatype DayTime = DAY | NIGHT | MORNING | AFTERNOON {
    function MinTicks(): int
    {
      match this
      case DAY => 0
      case NIGHT => 13000
      case MORNING => 0
      case AFTERNOON => 6000
    }

    function MaxTicks(): int
    {
      match this
      case DAY => 13000
      case NIGHT => 24000
      case MORNING => 6000
      case AFTERNOON => 13000
    }

    /** The enum constant's name(). */
    function Name(): (r: string)
      ensures IsUpperName(r)
    {
      match this
      case DAY => "DAY"
      case NIGHT => "NIGHT"
      case MORNING => "MORNING"
      case AFTERNOON => "AFTERNOON"
    }

    /** Whether the world's time of day lies in this window (lower bound inclusive, upper exclusive). */
    predicate Check(worldTime: int)
    {
      MinTicks() <= worldTime < MaxTicks()
    }
  }

  /** DayTime.VALUES, in declaration order. */
  const DayTimeValues: seq<DayTime> := [DAY, NIGHT, MORNING, AFTERNOON]

  function ByNameIn(values: seq<DayTime>, name: string): (r: Option<DayTime>)
    ensures r.Some? ==> r.value in values && EqualsIgnoreCase(r.value.Name(), name)
    ensures r.None? ==> forall d :: d in values ==> !EqualsIgnoreCase(d.Name(), name)
  {
    if values == [] then None
    else if EqualsIgnoreCase(values[0].Name(), name) then Some(values[0])
    else ByNameIn(values[1..], name)
  }

  /** DayTime.byName: the first constant whose name equals `name` ignoring case, else null. */
  function ByName(name: string): (r: Option<DayTime>)
    ensures r.Some? ==> EqualsIgnoreCase(r.value.Name(), name)
    ensures r.None? <==> forall d: DayTime :: !EqualsIgnoreCase(d.Name(), name)
  {
    AllDayTimes();
    ByNameIn(DayTimeValues, name)
  }

  lemma AllDayTimes()
    ensures forall d: DayTime :: d in DayTimeValues
  {
    forall d: DayTime ensures d in DayTimeValues {
      match d
      case DAY => assert DayTimeValues[0] == d;
      case NIGHT => assert DayTimeValues[1] == d;
      case MORNING => assert DayTimeValues[2] == d;
      case AFTERNOON => assert DayTimeValues[3] == d;
    }
  }

  /** No two constant names are equal ignoring case, so byName finds at most one. */
  lemma ByNameUnique(d: DayTime, name: string)
    requires EqualsIgnoreCase(d.Name(), name)
    ensures ByName(name) == Some(d)
  {
  }

  /** The lower-case name written to storage reads back as the same constant. */
  lemma ByNameLowerName(d: DayTime)
    ensures ByName(ToLowerAscii(d.Name())) == Some(d)
  {
    LowerMatchesName(d.Name());
    ByNameUnique(d, ToLowerAscii(d.Name()));
  }

  /** DAY and NIGHT split the day; MORNING and AFTERNOON split DAY. */
  lemma DayTimeWindows(t: int)
    requires 0 <= t < 24000
    ensures DAY.Check(t) != NIGHT.Check(t)
    ensures DAY.Check(t) <==> (MORNING.Check(t) || AFTERNOON.Check(t))
    ensures !(MORNING.Check(t) && AFTERNOON.Check(t))
  {
  }

  datatype AudioTrack = AudioTrack(audioId: string, trackId: Option<string>, dayTime: Option<DayTime>)

  /** new AudioTrack(audioId) */
  function OfAudio(audioId: string): (t: AudioTrack)
    ensures t.audioId == audioId && t.trackId.None? && t.dayTime.None?
  {
    AudioTrack(audioId, None, None)
  }

  /** new AudioTrack(audioId, trackId) */
  function OnTrack(audioId: string, trackId: Option<string>): (t: AudioTrack)
    ensures t.audioId == audioId && t.trackId == trackId && t.dayTime.None?
  {
    AudioTrack(audioId, trackId, None)
  }

  /** AudioTrack.equals: all three fields equal. */
  predicate Equals(a: AudioTrack, b: AudioTrack)
  {
    a.audioId == b.audioId && a.trackId == b.trackId && a.dayTime == b.dayTime
  }

  lemma EqualsIsIdentity(a: AudioTrack, b: AudioTrack)
    ensures Equals(a, b) <==> a == b
  {
  }

  /** HashCodeBuilder.append: total * 37, plus the hash of a non-null value. */
  function HashStep(total: int, hash: Option<int>): int
  {
    Int32(total * 37 + hash.GetOr(0))
  }

  /**
   * AudioTrack.hashCode, built from 17 over the same three fields equals
   * compares. String.hashCode and the enum's identity hash are parameters.
   */
  function HashCode(t: AudioTrack, stringHash: string -> int, enumHash: DayTime -> int): int
  {
    var h1 := HashStep(17, Some(stringHash(t.audioId)));
    var h2 := HashStep(h1, if t.trackId.Some? then Some(stringHash(t.trackId.value)) else None);
    HashStep(h2, if t.dayTime.Some? then Some(enumHash(t.dayTime.value)) else None)
  }

  lemma HashCodeAgreesWithEquals(a: AudioTrack, b: AudioTrack, stringHash: string -> int, enumHash: DayTime -> int)
    requires Equals(a, b)
    ensures HashCode(a, stringHash, enumHash) == HashCode(b, stringHash, enumHash)
  {
  }

  /** AudioTrack.toString: "id" or "id(track: t, time: night)" with the absent parts left out. */
  function ToString(t: AudioTrack): string
  {
    if t.trackId.None? && t.dayTime.None? then t.audioId
    else
      t.audioId + "("
      + (if t.trackId.Some? then "track: " + t.trackId.value else "")
      + (if t.trackId.Some? && t.dayTime.Some? then ", " else "")
      + (if t.dayTime.Some? then "time: " + ToLowerAscii(t.dayTime.value.Name()) else "")
      + ")"
  }

  /** The text starts with the audio id, and is the bare id exactly when neither option is set. */
  lemma ToStringShape(t: AudioTrack)
    ensures t.audioId <= ToString(t)
    ensures ToString(t) == t.audioId <==> (t.trackId.None? && t.dayTime.None?)
    ensures ToString(t) != t.audioId ==> ToString(t)[|ToString(t)| - 1] == ')' && ToString(t)[|t.audioId|] == '('
  {
  }
}
