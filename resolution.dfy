/**
 * PlayerAudioTracker: which audio a player hears where they stand. The
 * global region and then the regions at the player's location are scanned;
 * audio rules and delay rules are each reduced by region priority (a
 * strictly higher priority discards what was gathered, an equal one adds to
 * it, a lower one is ignored, and the running priority starts at 0); the
 * result is compared with the player's previous snapshot and one audio
 * message is buffered per track that changed.
 *
 * The same code appears in both source trees; the only difference is that
 * the newer one files a rule without a track under the configured default
 * track, where the older one files it under the null track. The model takes
 * that default as a parameter: None for the older tree.
 */
module Resolution {
  import opened Wrappers
  import opened Messages
  import opened AudioTracks
  import DelayFlag
  import opened Sets

  /** A key of the per-track maps: a track id, or None for Java's null key. */
  type TrackKey = Option<string>

  /** A WorldGuard region as the tracker sees it: its priority and its two flags (null when unset). */
  datatype Region = Region(priority: int, audio: Option<seq<AudioTrack>>, delays: Option<seq<DelayFlag.AudioDelay>>)

  /** What the pass consults besides the regions: the world's time, the audio list's ids and the default track. */
  datatype Context = Context(worldTime: int, audioIds: set<string>, defaultTrack: Option<string>)

  // ---- the priority reduction, for either kind of rule ----

  /** One region's flag of one kind, with the region's priority. */
  datatype Flagged<X> = Flagged(priority: int, flag: Option<seq<X>>)

  /** What one kind of rule has gathered: the running priority and the map, null until a flag is seen. */
  datatype Tier<V> = Tier(priority: int, byTrack: Option<map<TrackKey, V>>)

  /** The rules of one flag filed into a map, in iteration order. */
  function FileAll<X, V>(m: map<TrackKey, V>, xs: seq<X>, step: (map<TrackKey, V>, X) -> map<TrackKey, V>): map<TrackKey, V>
    decreases |xs|
  {
    if xs == [] then m else step(FileAll(m, xs[..|xs| - 1], step), xs[|xs| - 1])
  }

  /** Filing two lists one after the other is filing their concatenation. */
  lemma {:induction false} FileAllAppend<X, V>(m: map<TrackKey, V>, a: seq<X>, b: seq<X>, step: (map<TrackKey, V>, X) -> map<TrackKey, V>)
    ensures FileAll(FileAll(m, a, step), b, step) == FileAll(m, a + b, step)
    decreases |b|
  {
    if b == [] {
      assert a + b == a;
    } else {
      FileAllAppend(m, a, b[..|b| - 1], step);
      assert (a + b)[..|a + b| - 1] == a + b[..|b| - 1];
    }
  }

  /**
   * The scan of the regions for one kind of rule: a flagged region of at
   * least the running priority is taken; a strictly higher priority first
   * clears the map; the map is created on the first region taken.
   */
  function PriorityFold<X, V>(fs: seq<Flagged<X>>, step: (map<TrackKey, V>, X) -> map<TrackKey, V>): Tier<V>
    decreases |fs|
  {
    if fs == [] then Tier(0, None) else Take(PriorityFold(fs[..|fs| - 1], step), fs[|fs| - 1], step)
  }

  /** One region of the scan, for one kind of rule. */
  function Take<X, V>(t: Tier<V>, f: Flagged<X>, step: (map<TrackKey, V>, X) -> map<TrackKey, V>): Tier<V>
  {
    if f.flag.Some? && f.priority >= t.priority then
      var base := if f.priority > t.priority || t.byTrack.None? then map[] else t.byTrack.value;
      Tier(f.priority, Some(FileAll(base, f.flag.value, step)))
    else t
  }

  /** A flag the scan can take at all: set, on a region of priority 0 or more. */
  predicate Contributes<X>(f: Flagged<X>)
  {
    f.flag.Some? && f.priority >= 0
  }

  predicate AnyContributes<X>(fs: seq<Flagged<X>>)
  {
    exists i :: 0 <= i < |fs| && Contributes(fs[i])
  }

  /** The highest priority of a flagged region, or 0 when that is negative or there is none. */
  function TopPriority<X>(fs: seq<Flagged<X>>): (p: int)
    ensures p >= 0
    ensures forall i :: 0 <= i < |fs| && fs[i].flag.Some? ==> fs[i].priority <= p
    ensures p > 0 ==> exists i :: 0 <= i < |fs| && fs[i].flag.Some? && fs[i].priority == p
    decreases |fs|
  {
    if fs == [] then 0
    else
      var p := TopPriority(fs[..|fs| - 1]);
      assert forall i :: 0 <= i < |fs| - 1 ==> fs[..|fs| - 1][i] == fs[i];
      var f := fs[|fs| - 1];
      if f.flag.Some? && f.priority > p then f.priority else p
  }

  /** The flags of the regions of priority p, one after the other. */
  function TopFlags<X>(fs: seq<Flagged<X>>, p: int): seq<X>
    decreases |fs|
  {
    if fs == [] then []
    else
      var f := fs[|fs| - 1];
      TopFlags(fs[..|fs| - 1], p) + if f.flag.Some? && f.priority == p then f.flag.value else []
  }

  lemma {:induction false} NoTopFlags<X>(fs: seq<Flagged<X>>, p: int)
    requires forall i :: 0 <= i < |fs| && fs[i].flag.Some? ==> fs[i].priority != p
    ensures TopFlags(fs, p) == []
    decreases |fs|
  {
    if fs != [] {
      assert forall i :: 0 <= i < |fs| - 1 ==> fs[..|fs| - 1][i] == fs[i];
      NoTopFlags(fs[..|fs| - 1], p);
    }
  }

  /**
   * Priority dominance: the scan ends with the flags of the highest
   * priority tier (never below 0) filed in order, and with no map at all
   * when no flag is set on a region of priority 0 or more.
   */
  lemma {:induction false} PriorityFoldIsTopTier<X, V>(fs: seq<Flagged<X>>, step: (map<TrackKey, V>, X) -> map<TrackKey, V>)
    ensures PriorityFold(fs, step).priority == TopPriority(fs)
    ensures PriorityFold(fs, step).byTrack ==
      if AnyContributes(fs) then Some(FileAll(map[], TopFlags(fs, TopPriority(fs)), step)) else None
    decreases |fs|
  {
    if fs != [] {
      var init := fs[..|fs| - 1];
      var f := fs[|fs| - 1];
      assert forall i :: 0 <= i < |init| ==> init[i] == fs[i];
      PriorityFoldIsTopTier(init, step);
      var t := PriorityFold(init, step);
      var p := TopPriority(init);
      if f.flag.Some? && f.priority >= p {
        assert AnyContributes(fs) by {
          assert Contributes(fs[|fs| - 1]);
        }
        if f.priority > p {
          NoTopFlags(init, f.priority);
          assert TopFlags(fs, f.priority) == f.flag.value;
        } else if AnyContributes(init) {
          FileAllAppend(map[], TopFlags(init, p), f.flag.value, step);
        } else {
          NoTopFlags(init, p);
          assert TopFlags(fs, p) == f.flag.value;
        }
      } else {
        assert TopFlags(fs, p) == TopFlags(init, p);
        if AnyContributes(fs) {
          var i :| 0 <= i < |fs| && Contributes(fs[i]);
          if i == |fs| - 1 {
            var j :| 0 <= j < |init| && init[j].flag.Some? && init[j].priority == p;
            assert Contributes(init[j]);
          } else {
            assert Contributes(init[i]);
          }
        }
        if AnyContributes(init) {
          var i :| 0 <= i < |init| && Contributes(init[i]);
          assert Contributes(fs[i]);
        }
      }
    }
  }

  /** A region of negative priority is never taken: with only such flags the scan gathers no map. */
  lemma NegativePrioritiesIgnored<X, V>(fs: seq<Flagged<X>>, step: (map<TrackKey, V>, X) -> map<TrackKey, V>)
    requires forall i :: 0 <= i < |fs| && fs[i].flag.Some? ==> fs[i].priority < 0
    ensures PriorityFold(fs, step) == Tier(0, None)
  {
    PriorityFoldIsTopTier(fs, step);
  }

  // ---- filing audio and delay rules ----

  /** The track a rule is filed under: its own track, else the default one. */
  function KeyOf(trackId: Option<string>, defaultTrack: Option<string>): TrackKey
  {
    if trackId.Some? then trackId else defaultTrack
  }

  /** An audio rule plays when its time window (if any) holds the world's time and the audio list has its id. */
  predicate Plays(t: AudioTrack, ctx: Context)
  {
    (t.dayTime.None? || t.dayTime.value.Check(ctx.worldTime)) && t.audioId in ctx.audioIds
  }

  /** One audio rule: a playing rule adds its id to its track's set, creating the set if needed. */
  function FileTrack(m: map<TrackKey, set<string>>, t: AudioTrack, ctx: Context): map<TrackKey, set<string>>
  {
    if Plays(t, ctx) then
      var k := KeyOf(t.trackId, ctx.defaultTrack);
      m[k := (if k in m then m[k] else {}) + {t.audioId}]
    else m
  }

  function AudioStep(ctx: Context): (map<TrackKey, set<string>>, AudioTrack) -> map<TrackKey, set<string>>
  {
    (m: map<TrackKey, set<string>>, t: AudioTrack) => FileTrack(m, t, ctx)
  }

  /** One delay rule: its range replaces whatever its track had. */
  function DelayStep(defaultTrack: Option<string>): (map<TrackKey, Range>, DelayFlag.AudioDelay) -> map<TrackKey, Range>
  {
    (m: map<TrackKey, Range>, d: DelayFlag.AudioDelay) => m[KeyOf(d.trackId, defaultTrack) := d.delayTime]
  }

  /** Rule i of ts plays and files audio id `id` under key k. */
  predicate FilesUnder(ts: seq<AudioTrack>, i: int, k: TrackKey, ctx: Context)
    requires 0 <= i < |ts|
  {
    Plays(ts[i], ctx) && KeyOf(ts[i].trackId, ctx.defaultTrack) == k
  }

  /**
   * What filing audio rules yields: a track has a set exactly when it had
   * one or some playing rule is filed under it, and the set holds exactly
   * the ids it held and those of the playing rules filed under it.
   */
  lemma {:induction false} AudioFiled(m: map<TrackKey, set<string>>, ts: seq<AudioTrack>, ctx: Context, k: TrackKey, id: string)
    ensures var r := FileAll(m, ts, AudioStep(ctx));
      (k in r <==> k in m || exists i :: 0 <= i < |ts| && FilesUnder(ts, i, k, ctx))
      && (k in r ==>
            (id in r[k] <==> (k in m && id in m[k]) || exists i :: 0 <= i < |ts| && FilesUnder(ts, i, k, ctx) && ts[i].audioId == id))
    decreases |ts|
  {
    if ts != [] {
      var init := ts[..|ts| - 1];
      var t := ts[|ts| - 1];
      AudioFiled(m, init, ctx, k, id);
      assert forall i :: 0 <= i < |init| ==> init[i] == ts[i];
      assert forall i :: 0 <= i < |init| ==> (FilesUnder(init, i, k, ctx) <==> FilesUnder(ts, i, k, ctx));
      var before := FileAll(m, init, AudioStep(ctx));
      assert FileAll(m, ts, AudioStep(ctx)) == FileTrack(before, t, ctx);
      if FilesUnder(ts, |ts| - 1, k, ctx) {
        assert k in FileTrack(before, t, ctx);
      }
    }
  }

  /** Some delay rule of ds is filed under k. */
  predicate DelayFor(ds: seq<DelayFlag.AudioDelay>, k: TrackKey, defaultTrack: Option<string>)
  {
    exists i :: 0 <= i < |ds| && KeyOf(ds[i].trackId, defaultTrack) == k
  }

  /** Rule i is the last rule of ds filed under k. */
  predicate LastFor(ds: seq<DelayFlag.AudioDelay>, i: int, k: TrackKey, defaultTrack: Option<string>)
  {
    0 <= i < |ds| && KeyOf(ds[i].trackId, defaultTrack) == k
    && forall j :: i < j < |ds| ==> KeyOf(ds[j].trackId, defaultTrack) != k
  }

  /**
   * The last delay wins: a track has a range exactly when it had one or some
   * delay rule is filed under it, and then the range is that of the last
   * such rule; a track no rule names keeps its range.
   */
  lemma {:induction false} LastDelayWins(m: map<TrackKey, Range>, ds: seq<DelayFlag.AudioDelay>, defaultTrack: Option<string>, k: TrackKey)
    ensures var r := FileAll(m, ds, DelayStep(defaultTrack));
      (k in r <==> k in m || DelayFor(ds, k, defaultTrack))
      && (DelayFor(ds, k, defaultTrack) ==> exists i :: LastFor(ds, i, k, defaultTrack) && r[k] == ds[i].delayTime)
      && (!DelayFor(ds, k, defaultTrack) && k in m ==> r[k] == m[k])
    decreases |ds|
  {
    if ds != [] {
      var init := ds[..|ds| - 1];
      var last := |ds| - 1;
      LastDelayWins(m, init, defaultTrack, k);
      var before := FileAll(m, init, DelayStep(defaultTrack));
      var r := FileAll(m, ds, DelayStep(defaultTrack));
      assert r == before[KeyOf(ds[last].trackId, defaultTrack) := ds[last].delayTime];
      if KeyOf(ds[last].trackId, defaultTrack) == k {
        assert LastFor(ds, last, k, defaultTrack) && r[k] == ds[last].delayTime;
        assert DelayFor(ds, k, defaultTrack);
      } else {
        DelayForInit(ds, k, defaultTrack);
        if DelayFor(init, k, defaultTrack) {
          var i :| LastFor(init, i, k, defaultTrack) && before[k] == init[i].delayTime;
          LastForExtends(ds, i, k, defaultTrack);
        }
      }
    }
  }

  /** A rule last under k in the front of ds stays last when the final rule is under another track. */
  lemma LastForExtends(ds: seq<DelayFlag.AudioDelay>, i: int, k: TrackKey, defaultTrack: Option<string>)
    requires ds != [] && KeyOf(ds[|ds| - 1].trackId, defaultTrack) != k && LastFor(ds[..|ds| - 1], i, k, defaultTrack)
    ensures LastFor(ds, i, k, defaultTrack) && ds[i] == ds[..|ds| - 1][i]
  {
    var init := ds[..|ds| - 1];
    forall j | i < j < |ds| ensures KeyOf(ds[j].trackId, defaultTrack) != k {
      if j < |init| {
        assert ds[j] == init[j];
      }
    }
  }

  /** When the last rule is not filed under k, ds names k exactly when its front does. */
  lemma DelayForInit(ds: seq<DelayFlag.AudioDelay>, k: TrackKey, defaultTrack: Option<string>)
    requires ds != [] && KeyOf(ds[|ds| - 1].trackId, defaultTrack) != k
    ensures DelayFor(ds, k, defaultTrack) <==> DelayFor(ds[..|ds| - 1], k, defaultTrack)
  {
    var init := ds[..|ds| - 1];
    if DelayFor(ds, k, defaultTrack) {
      var i :| 0 <= i < |ds| && KeyOf(ds[i].trackId, defaultTrack) == k;
      assert KeyOf(init[i].trackId, defaultTrack) == k;
    }
    if DelayFor(init, k, defaultTrack) {
      var i :| 0 <= i < |init| && KeyOf(init[i].trackId, defaultTrack) == k;
      assert KeyOf(ds[i].trackId, defaultTrack) == k;
    }
  }

  // ---- the scan ----

  /** The regions in scan order: the global region, when the world has one, then the applicable regions. */
  function Visited(global: Option<Region>, regions: seq<Region>): seq<Region>
  {
    (if global.Some? then [global.value] else []) + regions
  }

  function AudioFlags(rs: seq<Region>): (fs: seq<Flagged<AudioTrack>>)
    ensures |fs| == |rs| && forall i :: 0 <= i < |rs| ==> fs[i] == Flagged(rs[i].priority, rs[i].audio)
  {
    seq(|rs|, i requires 0 <= i < |rs| => Flagged(rs[i].priority, rs[i].audio))
  }

  function DelayFlags(rs: seq<Region>): (fs: seq<Flagged<DelayFlag.AudioDelay>>)
    ensures |fs| == |rs| && forall i :: 0 <= i < |rs| ==> fs[i] == Flagged(rs[i].priority, rs[i].delays)
  {
    seq(|rs|, i requires 0 <= i < |rs| => Flagged(rs[i].priority, rs[i].delays))
  }

  /** The two maps of a pass or of a snapshot, each null when no flag was taken. */
  datatype Resolved = Resolved(audioIdsByTrack: Option<map<TrackKey, set<string>>>, audioDelayByTrack: Option<map<TrackKey, Range>>)

  /** What the scan gathers over the regions rs. */
  function Scan(rs: seq<Region>, ctx: Context): Resolved
  {
    Resolved(PriorityFold(AudioFlags(rs), AudioStep(ctx)).byTrack,
             PriorityFold(DelayFlags(rs), DelayStep(ctx.defaultTrack)).byTrack)
  }

  /** The inner loop over an audio flag. */
  method FileTracks(m: map<TrackKey, set<string>>, tracks: seq<AudioTrack>, ctx: Context) returns (r: map<TrackKey, set<string>>)
    ensures r == FileAll(m, tracks, AudioStep(ctx))
  {
    r := m;
    var j := 0;
    while j < |tracks|
      invariant 0 <= j <= |tracks|
      invariant r == FileAll(m, tracks[..j], AudioStep(ctx))
    {
      assert tracks[..j + 1][..j] == tracks[..j];
      var t := tracks[j];
      if (t.dayTime.None? || t.dayTime.value.Check(ctx.worldTime)) && t.audioId in ctx.audioIds {
        var trackId := if t.trackId.Some? then t.trackId else ctx.defaultTrack;
        var audioIds := if trackId in r then r[trackId] else {};
        r := r[trackId := audioIds + {t.audioId}];
      }
      j := j + 1;
    }
    assert tracks[..|tracks|] == tracks;
  }

  /** The inner loop over a delay flag. */
  method FileDelays(m: map<TrackKey, Range>, delays: seq<DelayFlag.AudioDelay>, defaultTrack: Option<string>)
    returns (r: map<TrackKey, Range>)
    ensures r == FileAll(m, delays, DelayStep(defaultTrack))
  {
    r := m;
    var j := 0;
    while j < |delays|
      invariant 0 <= j <= |delays|
      invariant r == FileAll(m, delays[..j], DelayStep(defaultTrack))
    {
      assert delays[..j + 1][..j] == delays[..j];
      var trackId := if delays[j].trackId.Some? then delays[j].trackId else defaultTrack;
      r := r[trackId := delays[j].delayTime];
      j := j + 1;
    }
    assert delays[..|delays|] == delays;
  }

  /** The audio half of one region of the loop. */
  method TakeAudio(audioTrackPriority: int, audioIdsByTrack: Option<map<TrackKey, set<string>>>, region: Region, ctx: Context)
    returns (priority: int, byTrack: Option<map<TrackKey, set<string>>>)
    ensures Tier(priority, byTrack) == Take(Tier(audioTrackPriority, audioIdsByTrack), Flagged(region.priority, region.audio), AudioStep(ctx))
  {
    priority, byTrack := audioTrackPriority, audioIdsByTrack;
    if region.audio.Some? && region.priority >= priority {
      if region.priority > priority {
        priority := region.priority;
        if byTrack.Some? {
          byTrack := Some(map[]);
        }
      }
      var base := if byTrack.None? then map[] else byTrack.value;
      var filed := FileTracks(base, region.audio.value, ctx);
      byTrack := Some(filed);
    }
  }

  /** The delay half of one region of the loop. */
  method TakeDelays(audioDelayPriority: int, audioDelayByTrack: Option<map<TrackKey, Range>>, region: Region, defaultTrack: Option<string>)
    returns (priority: int, byTrack: Option<map<TrackKey, Range>>)
    ensures Tier(priority, byTrack) == Take(Tier(audioDelayPriority, audioDelayByTrack), Flagged(region.priority, region.delays), DelayStep(defaultTrack))
  {
    priority, byTrack := audioDelayPriority, audioDelayByTrack;
    if region.delays.Some? && region.priority >= priority {
      if region.priority > priority {
        priority := region.priority;
        if byTrack.Some? {
          byTrack := Some(map[]);
        }
      }
      var base := if byTrack.None? then map[] else byTrack.value;
      var filed := FileDelays(base, region.delays.value, defaultTrack);
      byTrack := Some(filed);
    }
  }

  /** Scanning one region more is taking it into both tiers. */
  lemma ScanOneMore(rs: seq<Region>, i: int, ctx: Context)
    requires 0 <= i < |rs|
    ensures PriorityFold(AudioFlags(rs[..i + 1]), AudioStep(ctx))
         == Take(PriorityFold(AudioFlags(rs[..i]), AudioStep(ctx)), Flagged(rs[i].priority, rs[i].audio), AudioStep(ctx))
    ensures PriorityFold(DelayFlags(rs[..i + 1]), DelayStep(ctx.defaultTrack))
         == Take(PriorityFold(DelayFlags(rs[..i]), DelayStep(ctx.defaultTrack)), Flagged(rs[i].priority, rs[i].delays), DelayStep(ctx.defaultTrack))
  {
    assert AudioFlags(rs[..i + 1])[..i] == AudioFlags(rs[..i]);
    assert DelayFlags(rs[..i + 1])[..i] == DelayFlags(rs[..i]);
  }

  /**
   * The region loop of writeAudioMessages: each kind of rule keeps its own
   * running priority and map.
   */
  method Collect(global: Option<Region>, regions: seq<Region>, ctx: Context) returns (pass: Resolved)
    ensures pass == Scan(Visited(global, regions), ctx)
  {
    var rs := Visited(global, regions);
    var audioIdsByTrack: Option<map<TrackKey, set<string>>> := None;
    var audioDelayByTrack: Option<map<TrackKey, Range>> := None;
    var audioTrackPriority, audioDelayPriority := 0, 0;
    var i := 0;
    while i < |rs|
      invariant 0 <= i <= |rs|
      invariant PriorityFold(AudioFlags(rs[..i]), AudioStep(ctx)) == Tier(audioTrackPriority, audioIdsByTrack)
      invariant PriorityFold(DelayFlags(rs[..i]), DelayStep(ctx.defaultTrack)) == Tier(audioDelayPriority, audioDelayByTrack)
    {
      ScanOneMore(rs, i, ctx);
      audioTrackPriority, audioIdsByTrack := TakeAudio(audioTrackPriority, audioIdsByTrack, rs[i], ctx);
      audioDelayPriority, audioDelayByTrack := TakeDelays(audioDelayPriority, audioDelayByTrack, rs[i], ctx.defaultTrack);
      i := i + 1;
    }
    assert rs[..|rs|] == rs;
    pass := Resolved(audioIdsByTrack, audioDelayByTrack);
  }

  lemma {:induction false} TopFlagsMembers<X>(fs: seq<Flagged<X>>, p: int, x: X)
    ensures x in TopFlags(fs, p) <==>
      exists i :: 0 <= i < |fs| && fs[i].flag.Some? && fs[i].priority == p && x in fs[i].flag.value
    decreases |fs|
  {
    if fs != [] {
      var init := fs[..|fs| - 1];
      assert forall i :: 0 <= i < |init| ==> init[i] == fs[i];
      TopFlagsMembers(init, p, x);
    }
  }

  /** Rule t is in the audio flag of a region of the highest audio priority. */
  predicate InTopAudioTier(rs: seq<Region>, t: AudioTrack)
  {
    exists i :: 0 <= i < |rs| && rs[i].audio.Some? && rs[i].priority == TopPriority(AudioFlags(rs)) && t in rs[i].audio.value
  }

  /**
   * What a pass hears: a track has audio exactly when a playing rule of the
   * highest audio priority is filed under it, and its ids are exactly those
   * of such rules. Rules of lower priority, not playing, or under another
   * track count for nothing.
   */
  lemma HeardAudio(rs: seq<Region>, ctx: Context, k: TrackKey, id: string)
    ensures var a := Scan(rs, ctx).audioIdsByTrack;
      ((a.Some? && k in a.value) <==>
         exists t :: InTopAudioTier(rs, t) && Plays(t, ctx) && KeyOf(t.trackId, ctx.defaultTrack) == k)
      && ((a.Some? && k in a.value && id in a.value[k]) <==>
         exists t :: InTopAudioTier(rs, t) && Plays(t, ctx) && KeyOf(t.trackId, ctx.defaultTrack) == k && t.audioId == id)
  {
    var fs := AudioFlags(rs);
    var p := TopPriority(fs);
    var ts := TopFlags(fs, p);
    PriorityFoldIsTopTier(fs, AudioStep(ctx));
    AudioFiled(map[], ts, ctx, k, id);
    TopAudioTier(rs);
    if AnyContributes(fs) {
      if exists t :: InTopAudioTier(rs, t) && Plays(t, ctx) && KeyOf(t.trackId, ctx.defaultTrack) == k {
        var t :| InTopAudioTier(rs, t) && Plays(t, ctx) && KeyOf(t.trackId, ctx.defaultTrack) == k;
        var i :| 0 <= i < |ts| && ts[i] == t;
        assert FilesUnder(ts, i, k, ctx);
      }
      if exists t :: InTopAudioTier(rs, t) && Plays(t, ctx) && KeyOf(t.trackId, ctx.defaultTrack) == k && t.audioId == id {
        var t :| InTopAudioTier(rs, t) && Plays(t, ctx) && KeyOf(t.trackId, ctx.defaultTrack) == k && t.audioId == id;
        var i :| 0 <= i < |ts| && ts[i] == t;
        assert FilesUnder(ts, i, k, ctx);
      }
    }
  }

  /** The rules of the highest audio tier are those TopFlags lists, and there are none when no flag contributes. */
  lemma TopAudioTier(rs: seq<Region>)
    ensures var fs := AudioFlags(rs);
      (forall t :: t in TopFlags(fs, TopPriority(fs)) <==> InTopAudioTier(rs, t))
      && (!AnyContributes(fs) ==> forall t :: !InTopAudioTier(rs, t))
  {
    var fs := AudioFlags(rs);
    var p := TopPriority(fs);
    forall t ensures t in TopFlags(fs, p) <==> InTopAudioTier(rs, t) {
      TopFlagsMembers(fs, p, t);
    }
    if !AnyContributes(fs) {
      forall t ensures !InTopAudioTier(rs, t) {
        forall i | 0 <= i < |rs| && rs[i].audio.Some? ensures rs[i].priority != p {
          assert !Contributes(fs[i]);
        }
      }
    }
  }

  /**
   * The delays a pass hears: ds, the delay rules of the regions of the
   * highest delay priority in scan order. A track has a delay exactly when
   * some rule of ds is filed under it, and it is the range of the last one.
   */
  lemma HeardDelay(rs: seq<Region>, ctx: Context, k: TrackKey)
    ensures var d := Scan(rs, ctx).audioDelayByTrack;
      var ds := TopFlags(DelayFlags(rs), TopPriority(DelayFlags(rs)));
      ((d.Some? && k in d.value) <==> DelayFor(ds, k, ctx.defaultTrack))
      && (d.Some? && k in d.value ==> exists i :: LastFor(ds, i, k, ctx.defaultTrack) && d.value[k] == ds[i].delayTime)
  {
    var fs := DelayFlags(rs);
    var p := TopPriority(fs);
    PriorityFoldIsTopTier(fs, DelayStep(ctx.defaultTrack));
    LastDelayWins(map[], TopFlags(fs, p), ctx.defaultTrack, k);
    if !AnyContributes(fs) {
      forall i | 0 <= i < |fs| && fs[i].flag.Some? ensures fs[i].priority != p {
        assert !Contributes(fs[i]);
      }
      NoTopFlags(fs, p);
    }
  }

  /**
   * In the newer tree, with a default track configured, no rule is filed
   * under the null track: every audio message names a track.
   */
  lemma DefaultTrackNeverNull(rs: seq<Region>, ctx: Context)
    requires ctx.defaultTrack.Some?
    ensures var r := Scan(rs, ctx);
      (r.audioIdsByTrack.Some? ==> None !in r.audioIdsByTrack.value)
      && (r.audioDelayByTrack.Some? ==> None !in r.audioDelayByTrack.value)
  {
    HeardAudio(rs, ctx, None, "");
    HeardDelay(rs, ctx, None);
  }

  // ---- the diff against the snapshot ----

  /** getValueOrNull */
  function ValueOrNull<V>(m: Option<map<TrackKey, V>>, k: TrackKey): Option<V>
  {
    if m.Some? && k in m.value then Some(m.value[k]) else None
  }

  function KeysOf<V>(m: Option<map<TrackKey, V>>): set<TrackKey>
  {
    if m.Some? then m.value.Keys else {}
  }

  /** The tracks of the four maps, new and previous. */
  function TrackIds(cur: Resolved, prev: Resolved): set<TrackKey>
  {
    KeysOf(cur.audioIdsByTrack) + KeysOf(cur.audioDelayByTrack) + KeysOf(prev.audioIdsByTrack) + KeysOf(prev.audioDelayByTrack)
  }

  /** A track whose audio set and delay are the same in both (Objects.equals, so null equals null). */
  predicate SameOn(cur: Resolved, prev: Resolved, k: TrackKey)
  {
    ValueOrNull(cur.audioIdsByTrack, k) == ValueOrNull(prev.audioIdsByTrack, k)
    && ValueOrNull(cur.audioDelayByTrack, k) == ValueOrNull(prev.audioDelayByTrack, k)
  }

  /**
   * The tracks a pass writes a message for: those of the four maps that
   * are null or configured, and, unless equal ones are to be sent too, that
   * changed.
   */
  function Changed(cur: Resolved, prev: Resolved, configured: set<string>, ignoreEquals: bool): set<TrackKey>
  {
    set k | k in TrackIds(cur, prev) && (k.None? || k.value in configured) && (ignoreEquals || !SameOn(cur, prev, k))
  }

  /** The audio message for track k: the track (none for the null key), its audio ids and its delay range. */
  function MessageFor(player: Uuid, k: TrackKey, cur: Resolved): (msg: Message)
    ensures msg.AudioMessage? && msg.player == player && msg.track == k && msg.delay == ValueOrNull(cur.audioDelayByTrack, k)
  {
    var ids := ValueOrNull(cur.audioIdsByTrack, k);
    AudioMessage(player, k, if ids.Some? then ids.value else {}, ValueOrNull(cur.audioDelayByTrack, k))
  }

  function MessagesFor(player: Uuid, order: seq<TrackKey>, cur: Resolved): (msgs: seq<Message>)
    ensures |msgs| == |order| && forall i :: 0 <= i < |order| ==> msgs[i] == MessageFor(player, order[i], cur)
  {
    seq(|order|, i requires 0 <= i < |order| => MessageFor(player, order[i], cur))
  }

  /**
   * The message loop of writeAudioMessages over the tracks of the four maps:
   * it appends one message per changed track, in the set's iteration order,
   * and counts them.
   */
  method WriteChanged(player: Uuid, cur: Resolved, prev: Resolved, configured: set<string>, ignoreEquals: bool, buffer: seq<Message>)
    returns (out: seq<Message>, writeCount: int)
    ensures writeCount == |Changed(cur, prev, configured, ignoreEquals)|
    ensures (exists order :: (Enumerates(order, Changed(cur, prev, configured, ignoreEquals))
      && out == buffer + MessagesFor(player, order, cur)))
  {
    ghost var changed := Changed(cur, prev, configured, ignoreEquals);
    var trackIds := TrackIds(cur, prev);
    out, writeCount := buffer, 0;
    ghost var order: seq<TrackKey> := [];
    var remaining := trackIds;
    while remaining != {}
      invariant remaining <= trackIds
      invariant Enumerates(order, changed - remaining)
      invariant writeCount == |order|
      invariant out == buffer + MessagesFor(player, order, cur)
      decreases |remaining|
    {
      var trackId := Pick(remaining);
      remaining := remaining - {trackId};
      if trackId.None? || trackId.value in configured {
        var audioIds := ValueOrNull(cur.audioIdsByTrack, trackId);
        var previousAudioIds := ValueOrNull(prev.audioIdsByTrack, trackId);
        var audioDelay := ValueOrNull(cur.audioDelayByTrack, trackId);
        var previousAudioDelay := ValueOrNull(prev.audioDelayByTrack, trackId);
        if ignoreEquals || audioIds != previousAudioIds || audioDelay != previousAudioDelay {
          assert trackId in changed;
          var message := AudioMessage(player, trackId, if audioIds.Some? then audioIds.value else {}, audioDelay);
          assert MessagesFor(player, order + [trackId], cur) == MessagesFor(player, order, cur) + [message];
          out := out + [message];
          order := order + [trackId];
          writeCount := writeCount + 1;
        }
      }
    }
    EnumerationSize(order, changed);
  }

  /** Sending equal tracks too, a pass writes every track of the four maps that is null or configured. */
  lemma IgnoreEqualsWritesAll(cur: Resolved, prev: Resolved, configured: set<string>)
    ensures Changed(cur, prev, configured, true) == set k | k in TrackIds(cur, prev) && (k.None? || k.value in configured)
  {
  }

  /** A pass over what was just recorded, not sending equal tracks, writes nothing. */
  lemma RepeatPassWritesNothing(cur: Resolved, configured: set<string>)
    ensures Changed(cur, cur, configured, false) == {}
  {
  }

  // ---- the tracker ----

  /** A location's block coordinates (Location.getBlockX/Y/Z). */
  datatype Block = Block(x: int, y: int, z: int)

  /** isDifferentBlock: some block coordinate differs. */
  function IsDifferentBlock(a: Block, b: Block): (different: bool)
    ensures different <==> a != b
  {
    a.x != b.x || a.y != b.y || a.z != b.z
  }

  /** The player's tracking metadata: when messages were last written, where the player was, and the last snapshot. */
  datatype TrackingData = TrackingData(timestamp: int, location: Block, previous: Resolved)

  /** REGION_CHECK_DELAY, in milliseconds. */
  const RegionCheckDelay: int := 3000

  /** Where the player stands: the block, the world's time, the world's global region (if any) and the regions at the location. */
  datatype Surroundings = Surroundings(location: Block, worldTime: int, global: Option<Region>, regions: seq<Region>)

  /** What the plugin knows: the audio list's ids, the configured tracks and the default track (None in the older tree). */
  datatype Settings = Settings(audioIds: set<string>, configured: set<string>, defaultTrack: Option<string>)

  function ContextOf(here: Surroundings, settings: Settings): Context
  {
    Context(here.worldTime, settings.audioIds, settings.defaultTrack)
  }

  /** What a pass gathers where the player stands. */
  function PassOf(here: Surroundings, settings: Settings): Resolved
  {
    Scan(Visited(here.global, here.regions), ContextOf(here, settings))
  }

  /** getTrackingData: the player's record, or a new one at the player's location with time 0 and no snapshot. */
  function TrackingOf(tracking: map<Uuid, TrackingData>, player: Uuid, location: Block): TrackingData
  {
    if player in tracking then tracking[player] else TrackingData(0, location, Resolved(None, None))
  }

  /** writeData evaluates only once the delay has passed since the last write and the player is on another block. */
  predicate Due(td: TrackingData, location: Block, now: int)
  {
    td.timestamp + RegionCheckDelay <= now && IsDifferentBlock(td.location, location)
  }

  /**
   * writeAudioMessages against a tracking record: nothing is written and the
   * snapshot kept when neither the snapshot nor the pass has a map;
   * otherwise the changed tracks are written and the pass becomes the
   * snapshot.
   */
  method WritePass(player: Uuid, previous: Resolved, here: Surroundings, settings: Settings, buffer: seq<Message>, ignoreEquals: bool)
    returns (out: seq<Message>, writeCount: int, snapshot: Resolved)
    ensures snapshot == PassOf(here, settings)
    ensures writeCount == |Changed(snapshot, previous, settings.configured, ignoreEquals)|
    ensures (exists order :: (Enumerates(order, Changed(snapshot, previous, settings.configured, ignoreEquals))
      && out == buffer + MessagesFor(player, order, snapshot)))
  {
    var cur := Collect(here.global, here.regions, ContextOf(here, settings));
    if previous.audioIdsByTrack.None? && previous.audioDelayByTrack.None?
       && cur.audioIdsByTrack.None? && cur.audioDelayByTrack.None? {
      assert Changed(cur, previous, settings.configured, ignoreEquals) == {};
      assert Enumerates([], Changed(cur, previous, settings.configured, ignoreEquals));
      assert buffer == buffer + MessagesFor(player, [], cur);
      return buffer, 0, previous;
    }
    out, writeCount := WriteChanged(player, cur, previous, settings.configured, ignoreEquals, buffer);
    snapshot := cur;
  }

  /**
   * The tracker of the plugin: the message buffer its periodic passes fill,
   * the players' tracking metadata, and the batches handed to the client by
   * flushData.
   */
  class PlayerAudioTracker {
    var messageBuffer: seq<Message>
    var tracking: map<Uuid, TrackingData>
    var flushed: seq<seq<Message>>

    constructor ()
      ensures messageBuffer == [] && tracking == map[] && flushed == []
    {
      messageBuffer, tracking, flushed := [], map[], [];
    }

    /** getTrackingData: a player seen for the first time gets a record at their location. */
    method GetTrackingData(player: Uuid, location: Block) returns (td: TrackingData)
      modifies this`tracking
      ensures td == TrackingOf(old(tracking), player, location)
      ensures tracking == old(tracking)[player := td]
    {
      if player in tracking {
        td := tracking[player];
      } else {
        td := TrackingData(0, location, Resolved(None, None));
        tracking := tracking[player := td];
      }
    }

    /**
     * writeData, the periodic pass: nothing is written before the delay has
     * passed or while the player is on the same block (so a player's first
     * pass writes nothing); otherwise the changed tracks are buffered, the
     * time of the pass is recorded only if something was written, and the
     * location and snapshot always.
     */
    method WriteData(player: Uuid, here: Surroundings, settings: Settings, now: int)
      modifies this`tracking, this`messageBuffer
      ensures var td := TrackingOf(old(tracking), player, here.location);
        if !Due(td, here.location, now) then
          tracking == old(tracking)[player := td] && messageBuffer == old(messageBuffer)
        else
          var snapshot := PassOf(here, settings);
          var changed := Changed(snapshot, td.previous, settings.configured, false);
          tracking == old(tracking)[player := TrackingData(if |changed| > 0 then now else td.timestamp, here.location, snapshot)]
          && exists order :: Enumerates(order, changed) && messageBuffer == old(messageBuffer) + MessagesFor(player, order, snapshot)
      ensures player !in old(tracking) ==> messageBuffer == old(messageBuffer)
    {
      var td := GetTrackingData(player, here.location);
      if td.timestamp + RegionCheckDelay > now {
        return;
      }
      if !IsDifferentBlock(td.location, here.location) {
        return;
      }
      var out, writeCount, snapshot := WritePass(player, td.previous, here, settings, messageBuffer, false);
      messageBuffer := out;
      var timestamp := if writeCount > 0 then now else td.timestamp;
      tracking := tracking[player := TrackingData(timestamp, here.location, snapshot)];
    }

    /** flushData: a non-empty buffer is handed to the client in one batch and emptied. */
    method FlushData()
      modifies this`messageBuffer, this`flushed
      ensures messageBuffer == []
      ensures flushed == if old(messageBuffer) == [] then old(flushed) else old(flushed) + [old(messageBuffer)]
    {
      if |messageBuffer| > 0 {
        flushed := flushed + [messageBuffer];
        messageBuffer := [];
      }
    }

    /**
     * The public writeAudioMessages (on a status change): every null or
     * configured track is written into the given buffer, equal or not; the
     * snapshot is replaced and the time of the last write is not touched.
     */
    method WriteAudioMessages(player: Uuid, here: Surroundings, settings: Settings, buffer: seq<Message>)
      returns (out: seq<Message>)
      modifies this`tracking
      ensures var td := TrackingOf(old(tracking), player, here.location);
        var snapshot := PassOf(here, settings);
        tracking == old(tracking)[player := td.(previous := snapshot)]
        && (exists order :: (Enumerates(order, Changed(snapshot, td.previous, settings.configured, true))
          && out == buffer + MessagesFor(player, order, snapshot)))
    {
      var td := GetTrackingData(player, here.location);
      var writeCount, snapshot;
      out, writeCount, snapshot := WritePass(player, td.previous, here, settings, buffer, true);
      tracking := tracking[player := td.(previous := snapshot)];
    }
  }
}
