/**
 * AudioUpdateHandler of the newer tree: when the web service deletes or
 * renames audio, every region's audio flag is rewritten to match. Only the
 * audio flag of a region that held an affected rule is set again; the flag
 * of every other region is left as it was. Saving the region managers and
 * the log lines are not part of this model.
 */
module RegionUpdates {
  import opened Wrappers
  import opened AudioTracks
  import opened Resolution

  /** The rules of ts whose audio id is not deleted, in order. */
  function Kept(ts: seq<AudioTrack>, audioIds: set<string>): (kept: seq<AudioTrack>)
    ensures |kept| <= |ts|
  {
    if ts == [] then []
    else
      var init := Kept(ts[..|ts| - 1], audioIds);
      var last := ts[|ts| - 1];
      if last.audioId in audioIds then init else init + [last]
  }

  /**
   * Kept holds exactly the rules whose audio id is not deleted, and it is as
   * long as the flag exactly when none is.
   */
  lemma {:induction false} KeptMembers(ts: seq<AudioTrack>, audioIds: set<string>)
    ensures forall t :: t in Kept(ts, audioIds) <==> t in ts && t.audioId !in audioIds
    ensures |Kept(ts, audioIds)| == |ts| <==> forall t :: t in ts ==> t.audioId !in audioIds
  {
    if ts != [] {
      var init := ts[..|ts| - 1];
      var last := ts[|ts| - 1];
      KeptMembers(init, audioIds);
      assert ts == init + [last];
      if last.audioId in audioIds {
        assert last in ts;
      }
    }
  }

  /**
   * deleteAll on one audio flag: unchanged when no rule has a deleted id;
   * otherwise the remaining rules, or null when none remains.
   */
  function DeletedFlag(flag: Option<seq<AudioTrack>>, audioIds: set<string>): (r: Option<seq<AudioTrack>>)
    ensures r.Some? ==> flag.Some? && forall t :: t in r.value ==> t in flag.value && t.audioId !in audioIds
    ensures flag.Some? ==> forall t :: t in flag.value && t.audioId !in audioIds ==> r.Some? && t in r.value
    ensures (flag.None? || forall t :: t in flag.value ==> t.audioId !in audioIds) ==> r == flag
    ensures r.None? <==> flag.None? || (flag.value != [] && forall t :: t in flag.value ==> t.audioId in audioIds)
  {
    if flag.None? then None
    else
      var kept := Kept(flag.value, audioIds);
      KeptMembers(flag.value, audioIds);
      if |kept| == |flag.value| then flag
      else if kept == [] then None
      else assert kept[0] in kept; Some(kept)
  }

  /**
   * The loop over one flag: the rules to keep (created on the first one
   * kept, so null when none is) and whether any rule was removed.
   */
  method KeepAudio(audioTracks: seq<AudioTrack>, audioIds: set<string>)
    returns (newAudioTracks: Option<seq<AudioTrack>>, removedAudio: bool)
    ensures removedAudio <==> exists t :: t in audioTracks && t.audioId in audioIds
    ensures newAudioTracks == if Kept(audioTracks, audioIds) == [] then None else Some(Kept(audioTracks, audioIds))
  {
    newAudioTracks, removedAudio := None, false;
    ghost var kept: seq<AudioTrack> := [];
    var i := 0;
    while i < |audioTracks|
      invariant 0 <= i <= |audioTracks|
      invariant removedAudio <==> exists j :: 0 <= j < i && audioTracks[j].audioId in audioIds
      invariant kept == Kept(audioTracks[..i], audioIds)
      invariant newAudioTracks == if kept == [] then None else Some(kept)
    {
      KeptStep(audioTracks, i, audioIds);
      var audioTrack := audioTracks[i];
      if audioTrack.audioId !in audioIds {
        var prefix := if newAudioTracks.None? then [] else newAudioTracks.value;
        assert prefix == kept;
        newAudioTracks := Some(prefix + [audioTrack]);
        kept := kept + [audioTrack];
        assert |kept| > 0;
      } else {
        removedAudio := true;
      }
      assert kept == Kept(audioTracks[..i + 1], audioIds);
      i := i + 1;
    }
    assert audioTracks[..i] == audioTracks;
    if removedAudio {
      var j :| 0 <= j < i && audioTracks[j].audioId in audioIds;
      assert audioTracks[j] in audioTracks;
    }
  }

  /** Kept over one more rule. */
  lemma KeptStep(ts: seq<AudioTrack>, i: int, audioIds: set<string>)
    requires 0 <= i < |ts|
    ensures Kept(ts[..i + 1], audioIds) == Kept(ts[..i], audioIds) + (if ts[i].audioId in audioIds then [] else [ts[i]])
  {
    assert ts[..i + 1][..i] == ts[..i];
  }

  /** The body of deleteAll's loop for one region: its flag set again only when a rule was removed. */
  method DeleteFromRegion(region: Region, audioIds: set<string>) returns (updated: Region)
    ensures updated == region.(audio := DeletedFlag(region.audio, audioIds))
  {
    updated := region;
    if region.audio.Some? {
      var newAudioTracks, removedAudio := KeepAudio(region.audio.value, audioIds);
      if removedAudio {
        updated := region.(audio := newAudioTracks);
      }
    }
  }

  /** AudioUpdateHandler.deleteAll over every region: each audio flag becomes its DeletedFlag. */
  method DeleteAll(regions: seq<Region>, audioIds: set<string>) returns (updated: seq<Region>)
    ensures |updated| == |regions|
    ensures forall i :: 0 <= i < |regions| ==> updated[i] == regions[i].(audio := DeletedFlag(regions[i].audio, audioIds))
  {
    updated := [];
    var i := 0;
    while i < |regions|
      invariant 0 <= i <= |regions| && |updated| == i
      invariant forall j :: 0 <= j < i ==> updated[j] == regions[j].(audio := DeletedFlag(regions[j].audio, audioIds))
    {
      var region := DeleteFromRegion(regions[i], audioIds);
      updated := updated + [region];
      i := i + 1;
    }
  }

  /** A rule after replace: the new audio id on a rule of the old one, its track and time kept. */
  function Renamed(t: AudioTrack, audioId: string, newAudioId: string): (u: AudioTrack)
    ensures u.trackId == t.trackId && u.dayTime == t.dayTime
    ensures u.audioId == if t.audioId == audioId then newAudioId else t.audioId
  {
    if t.audioId == audioId then AudioTrack(newAudioId, t.trackId, t.dayTime) else t
  }

  function RenameAll(ts: seq<AudioTrack>, audioId: string, newAudioId: string): (r: seq<AudioTrack>)
    ensures |r| == |ts| && forall i :: 0 <= i < |ts| ==> r[i] == Renamed(ts[i], audioId, newAudioId)
  {
    seq(|ts|, i requires 0 <= i < |ts| => Renamed(ts[i], audioId, newAudioId))
  }

  /**
   * replace on one audio flag: when a rule has the old id, every rule
   * renamed; otherwise the flag as it was.
   */
  function ReplacedFlag(flag: Option<seq<AudioTrack>>, audioId: string, newAudioId: string): (r: Option<seq<AudioTrack>>)
    ensures r.Some? <==> flag.Some?
    ensures (flag.None? || forall t :: t in flag.value ==> t.audioId != audioId) ==> r == flag
    ensures flag.Some? ==> |r.value| == |flag.value|
    ensures flag.Some? ==> forall i :: 0 <= i < |flag.value| ==> r.value[i] == Renamed(flag.value[i], audioId, newAudioId)
  {
    if flag.None? || forall t :: t in flag.value ==> t.audioId != audioId then flag
    else Some(RenameAll(flag.value, audioId, newAudioId))
  }

  /** Once renamed to a different id, no rule of any flag names the old id. */
  lemma ReplacedIdGone(flag: Option<seq<AudioTrack>>, audioId: string, newAudioId: string, u: AudioTrack)
    requires audioId != newAudioId
    requires ReplacedFlag(flag, audioId, newAudioId).Some? && u in ReplacedFlag(flag, audioId, newAudioId).value
    ensures u.audioId != audioId
  {
    var i :| 0 <= i < |ReplacedFlag(flag, audioId, newAudioId).value| && ReplacedFlag(flag, audioId, newAudioId).value[i] == u;
    assert u == Renamed(flag.value[i], audioId, newAudioId);
  }

  /** The loop over one flag: every rule renamed, and whether any had the old id. */
  method RenameAudio(audioTracks: seq<AudioTrack>, audioId: string, newAudioId: string)
    returns (newAudioTracks: seq<AudioTrack>, replacedAudio: bool)
    ensures replacedAudio <==> exists t :: t in audioTracks && t.audioId == audioId
    ensures newAudioTracks == RenameAll(audioTracks, audioId, newAudioId)
  {
    newAudioTracks, replacedAudio := [], false;
    var i := 0;
    while i < |audioTracks|
      invariant 0 <= i <= |audioTracks|
      invariant replacedAudio <==> exists t :: t in audioTracks[..i] && t.audioId == audioId
      invariant newAudioTracks == RenameAll(audioTracks[..i], audioId, newAudioId)
    {
      assert audioTracks[..i + 1] == audioTracks[..i] + [audioTracks[i]];
      var audioTrack := audioTracks[i];
      if audioTrack.audioId == audioId {
        newAudioTracks := newAudioTracks + [AudioTrack(newAudioId, audioTrack.trackId, audioTrack.dayTime)];
        replacedAudio := true;
      } else {
        newAudioTracks := newAudioTracks + [audioTrack];
      }
      i := i + 1;
    }
    assert audioTracks[..i] == audioTracks;
  }

  /** The body of replace's loop for one region: its flag set again only when a rule had the old id. */
  method ReplaceInRegion(region: Region, audioId: string, newAudioId: string) returns (updated: Region)
    ensures updated == region.(audio := ReplacedFlag(region.audio, audioId, newAudioId))
  {
    updated := region;
    if region.audio.Some? {
      var newAudioTracks, replacedAudio := RenameAudio(region.audio.value, audioId, newAudioId);
      if replacedAudio {
        updated := region.(audio := Some(newAudioTracks));
      }
    }
  }

  /** AudioUpdateHandler.replace over every region: each audio flag becomes its ReplacedFlag. */
  method Replace(regions: seq<Region>, audioId: string, newAudioId: string) returns (updated: seq<Region>)
    ensures |updated| == |regions|
    ensures forall i :: 0 <= i < |regions| ==> updated[i] == regions[i].(audio := ReplacedFlag(regions[i].audio, audioId, newAudioId))
  {
    updated := [];
    var i := 0;
    while i < |regions|
      invariant 0 <= i <= |regions| && |updated| == i
      invariant forall j :: 0 <= j < i ==> updated[j] == regions[j].(audio := ReplacedFlag(regions[j].audio, audioId, newAudioId))
    {
      var region := ReplaceInRegion(regions[i], audioId, newAudioId);
      updated := updated + [region];
      i := i + 1;
    }
  }

  /** After deleteAll no pass hears a deleted audio id, on any track. */
  lemma DeletedAudioNeverHeard(regions: seq<Region>, updated: seq<Region>, audioIds: set<string>, ctx: Context, k: TrackKey, id: string)
    requires |updated| == |regions|
    requires forall i :: 0 <= i < |regions| ==> updated[i] == regions[i].(audio := DeletedFlag(regions[i].audio, audioIds))
    ensures var a := Scan(updated, ctx).audioIdsByTrack;
      a.Some? && k in a.value && id in a.value[k] ==> id !in audioIds
  {
    HeardAudio(updated, ctx, k, id);
    var a := Scan(updated, ctx).audioIdsByTrack;
    if a.Some? && k in a.value && id in a.value[k] {
      var t :| InTopAudioTier(updated, t) && t.audioId == id;
      var i :| 0 <= i < |updated| && updated[i].audio.Some? && t in updated[i].audio.value;
      assert updated[i].audio == DeletedFlag(regions[i].audio, audioIds);
    }
  }

  /** After replace by a different id no pass hears the old id, on any track. */
  lemma ReplacedAudioNeverHeard(regions: seq<Region>, updated: seq<Region>, audioId: string, newAudioId: string, ctx: Context, k: TrackKey)
    requires audioId != newAudioId
    requires |updated| == |regions|
    requires forall i :: 0 <= i < |regions| ==> updated[i] == regions[i].(audio := ReplacedFlag(regions[i].audio, audioId, newAudioId))
    ensures var a := Scan(updated, ctx).audioIdsByTrack;
      a.Some? && k in a.value ==> audioId !in a.value[k]
  {
    HeardAudio(updated, ctx, k, audioId);
    var a := Scan(updated, ctx).audioIdsByTrack;
    if a.Some? && k in a.value && audioId in a.value[k] {
      var t :| InTopAudioTier(updated, t) && t.audioId == audioId;
      var i :| 0 <= i < |updated| && updated[i].audio.Some? && t in updated[i].audio.value;
      ReplacedIdGone(regions[i].audio, audioId, newAudioId, t);
    }
  }
}
