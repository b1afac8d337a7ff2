/**
 * The resolution pass of the older tree. Its PlayerAudioTracker is the newer
 * one without a default track: a rule without a track id is filed, and sent,
 * under the null track. Everything else (priorities, filing, the diff, the
 * gating of writeData) is the same, so the older tracker is
 * Resolution.PlayerAudioTracker run with Settings.defaultTrack == None; the
 * lemmas here state what that means for the null track.
 */
module LegacyResolution {
  import opened Wrappers
  import opened AudioTracks
  import opened Messages
  import opened Resolution

  /** The context the older tracker scans with: the world time and the audio list, no default track. */
  function LegacyContext(worldTime: int, audioIds: set<string>): (ctx: Context)
    ensures ctx.defaultTrack.None? && ctx.worldTime == worldTime && ctx.audioIds == audioIds
  {
    Context(worldTime, audioIds, None)
  }

  /** Without a default track a rule is filed under its own track id, null included. */
  lemma FiledUnderOwnTrack(t: AudioTrack, ctx: Context)
    requires ctx.defaultTrack.None?
    ensures KeyOf(t.trackId, ctx.defaultTrack) == t.trackId
  {
  }

  /**
   * The null track is heard exactly when a playing rule of the highest
   * audio priority has no track id.
   */
  lemma NullTrackHeard(rs: seq<Region>, ctx: Context)
    requires ctx.defaultTrack.None?
    ensures var a := Scan(rs, ctx).audioIdsByTrack;
      (a.Some? && None in a.value) <==> exists t :: InTopAudioTier(rs, t) && Plays(t, ctx) && t.trackId.None?
  {
    HeardAudio(rs, ctx, None, "");
  }

  /**
   * A playing trackless rule of the highest audio priority reaches the
   * client: a pass that sends equal tracks too writes the null track, and
   * its message carries no track id and the rule's audio.
   */
  lemma TracklessRuleSent(rs: seq<Region>, ctx: Context, prev: Resolved, configured: set<string>, player: Uuid, t: AudioTrack)
    requires ctx.defaultTrack.None?
    requires InTopAudioTier(rs, t) && Plays(t, ctx) && t.trackId.None?
    ensures var cur := Scan(rs, ctx);
      None in Changed(cur, prev, configured, true)
      && MessageFor(player, None, cur).track.None?
      && t.audioId in MessageFor(player, None, cur).audioIds
  {
    HeardAudio(rs, ctx, None, t.audioId);
  }

  /** A track id missing from the configured tracks is never written, whatever the pass heard. */
  lemma UnconfiguredTrackNeverSent(cur: Resolved, prev: Resolved, configured: set<string>, ignoreEquals: bool, trackId: string)
    requires trackId !in configured
    ensures Some(trackId) !in Changed(cur, prev, configured, ignoreEquals)
  {
  }
}
