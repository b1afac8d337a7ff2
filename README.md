# AudioConnect, modelled in Dafny

AudioConnect is a Bukkit/Spigot plugin. It connects a Minecraft server to the
AudioConnect web service, which plays audio to players in their browsers. Server
owners put audio on WorldGuard regions with two flags:

- `audio` holds audio tracks: an audio id, an optional track id and an optional
  time of day.
- `audio-delay` holds delays: a time range, optionally for one track.

On every tick of its scheduler the plugin works out, for each online player,
which audio ids should play on which track. A region's flags count only when no
region over that player has a higher priority. The plugin sends the server a
message for every track whose audio changed. Messages are buffered and flushed
once per batch.

The repository holds two source trees, and the model covers the core of both:

- `src/main/java` is the newer plugin. It holds the tracker in `AudioConnect`,
  the audio-update handler (deleting and renaming audio ids on every region),
  the `audio` and `audio-delay` flags, `AudioConnectConfig`, `AudioList`, the
  WorldGuard version selection in `WorldGuardAdapter`, and the `list` command.
- `src/com` is the older plugin. It holds the older tracker and config in
  `AudioConnect`, the older flags, `AudioList` and `list` command, and the
  `PlayerScheduler`. It also holds two client implementations: the later
  `AudioConnectClient` at the top of the package, and the older
  `client/AudioConnectClient` with its `AudioConnectClientHandler`.

Where both trees hold the same code (`AudioTrack` and its `DayTime`,
`AudioDelayFlag`, `AudioList`, the URI construction, the paging arithmetic of
`list`), the model defines it once. The table below cites both files for it.
Where the code differs, there are two modules:

- `Resolution` and `LegacyResolution`. The older tracker is the newer one
  without a default track: a rule with no track id stays under the null track.
  The newer tracker files such a rule under the configured default track.
- `TrackFlag` and `LegacyTrackFlag`.
- `Client` and `LegacyClient`.

## Modules

| module | file | what it holds |
|---|---|---|
| `Wrappers` | wrappers.dfy | `Option` (Java's null) and `Result` (a value or a thrown exception) |
| `JavaInts` | java_ints.dfy | Java's 32-bit `int` wrap-around |
| `JavaStrings` | java_strings.dfy | `String.split` (trailing empty pieces dropped), UTF-16 code units and `compareTo` over them, ASCII lower-casing |
| `Sets` | sets.dfy | iterating over a `HashSet` in an unspecified order |
| `Messages` | messages.dfy | the ids, messages and frames the plugin exchanges with the service |
| `AudioTracks` | audio_track.dfy | `AudioTrack` and `DayTime`: the time windows, `byName`, `equals`/`hashCode`/`toString` |
| `TrackFlag`, `LegacyTrackFlag` | track_flag.dfy, legacy_track_flag.dfy | parsing an `audio` flag value from a command, and storing it |
| `DelayFlag` | delay_flag.dfy | parsing and storing an `audio-delay` flag value |
| `Config` | config.dfy | `AudioConnectConfig`: resolving ids, validation, the websocket URI and webapp URL, the default track |
| `AudioLists` | audio_list.dfy | `AudioList`: the audio ids the service announced, with rate-limited warnings |
| `WorldGuardVersions` | worldguard_version.dfy | the version comparator and the choice of WorldGuard adapter |
| `ListCommands` | list_command.dfy | `list`: paging, the page buttons, the sort orders, the region filter |
| `Scheduling` | player_scheduler.dfy | `PlayerScheduler`: buckets of players spread over timer tasks |
| `Resolution` | resolution.dfy | the tracker: priority resolution, change detection, the message buffer |
| `LegacyResolution` | legacy_resolution.dfy | the older tracker, which has no default track |
| `RegionUpdates` | region_update.dfy | deleting and renaming audio ids on every region's `audio` flag |
| `Client`, `LegacyClient` | client.dfy, legacy_client.dfy | connection life-cycle, reconnect back-off, message handling, player status |

## Behaviour the model makes explicit

The following behaviour of the code is modelled as written and stated in lemmas.

- **Ties between delays.** In the top priority tier, when several delays name
  the same track, the LAST one wins. The code stores them with `put`
  (`Resolution.LastDelayWins`, `Resolution.HeardDelay`).
- **A lone separator.** In the newer `AudioTrackFlag`, the input `":"` splits
  into no pieces, and reading the first piece throws an index exception
  (`TrackFlag.SeparatorsOnlyCrash`). The older flag reports a missing audio id
  instead (`LegacyTrackFlag.SeparatorsOnlyMissAudio`). The delay flag reports a
  missing time (`DelayFlag.SeparatorsOnlyMissTime`).
- **A bare audio id with options.** The older `audio` flag and the `audio-delay`
  flag accept a bare id or range only when it stands alone. With further options
  they reject it (`LegacyTrackFlag.BareIdWithOptionsRejected`,
  `DelayFlag.BareRangeWithTrackRejected`). The newer `audio` flag always reads
  the first piece as the id.
- **A page number that overflows.** `list` clamps a requested page past the
  last one by comparing `pageNum * itemsPerPage` in 32-bit arithmetic. A large
  enough page number wraps to a negative product and slips past the clamp. For
  example, page 214748365 of a five-entry list shows nothing
  (`ListCommands.WrappedPageShowsNothing`).
- **An empty bucket that stays queued.** In `PlayerScheduler`, a queued bucket
  whose players all leave before its timer starts is still started. An empty
  bucket can therefore hold a timer: "a bucket has a timer exactly when it has
  players" is not an invariant of the code. The model keeps the weaker
  invariant that a bucket with players has a timer or is queued. If a timer is
  started for a bucket that already has one, the first timer is neither kept
  nor cancelled.
- **Tracked and offline players.** In the older client handler, REMOVE takes a
  player out of both the tracked set and the offline set. A player can also be
  marked offline without being tracked. So the offline set is not a subset of
  the tracked set, and the model does not claim it is.
- **A change of world is not a move.** `isDifferentBlock` compares the block
  coordinates only. A player who changes world at the same coordinates has not
  moved, so the tracker waits for the next moved block before it writes
  (`Resolution.IsDifferentBlock`, `Resolution.PlayerAudioTracker.WriteData`).
- **Reconnecting from the older client.** The older client's close listener
  consults the client's current connection, not the one that closed. It
  schedules the retry on the closed channel's event loop, so a `disconnect()`
  before the retry fires shuts that loop's group down and drops the retry
  (`LegacyClient.LegacyAudioConnectClient.Shutdown`).

## Model

| member | source | states |
|---|---|---|
| AudioTracks.DayTime.Name | src/main/java/com/deadmandungeons/audioconnect/flags/AudioTrack.java:80-84 | an enum constant's name is upper-case ASCII |
| AudioTracks.ByNameIn | src/main/java/com/deadmandungeons/audioconnect/flags/AudioTrack.java:99-106 | the constant found matches the name ignoring case; none found means no constant of the list matches |
| AudioTracks.ByName | src/main/java/com/deadmandungeons/audioconnect/flags/AudioTrack.java:99-106 | byName finds a constant matching ignoring case, and returns null exactly when no constant matches |
| AudioTracks.AllDayTimes | src/main/java/com/deadmandungeons/audioconnect/flags/AudioTrack.java:86 | VALUES lists every constant |
| AudioTracks.ByNameUnique | src/main/java/com/deadmandungeons/audioconnect/flags/AudioTrack.java:99-106 | any name matching a constant ignoring case finds exactly that constant |
| AudioTracks.ByNameLowerName | src/main/java/com/deadmandungeons/audioconnect/flags/AudioTrack.java:99-106 | the lower-cased name of a constant finds it again |
| AudioTracks.DayTimeWindows | src/main/java/com/deadmandungeons/audioconnect/flags/AudioTrack.java:80-97 | within a day of 24000 ticks, exactly one of DAY and NIGHT holds; DAY holds exactly when MORNING or AFTERNOON does, and never both |
| AudioTracks.EqualsIsIdentity | src/main/java/com/deadmandungeons/audioconnect/flags/AudioTrack.java:68-78 | equals holds exactly when audio id, track id and time are all equal |
| AudioTracks.HashCodeAgreesWithEquals | src/main/java/com/deadmandungeons/audioconnect/flags/AudioTrack.java:63-66 | equal tracks have equal hash codes, for any string and enum hash |
| AudioTracks.ToStringShape | src/main/java/com/deadmandungeons/audioconnect/flags/AudioTrack.java:44-61 | toString starts with the audio id; it is just the id exactly when track and time are null, and otherwise adds a parenthesised suffix |
| TrackFlag.ParseProperties | src/main/java/com/deadmandungeons/audioconnect/flags/AudioTrackFlag.java:46-86 | the property loop returns what the property-by-property specification gives: the first failing check, a missing id, or the track |
| TrackFlag.WithIdKey | src/main/java/com/deadmandungeons/audioconnect/flags/AudioTrackFlag.java:43-45 | only the first property changes, and it then starts with "id=" |
| TrackFlag.ParseInput | src/main/java/com/deadmandungeons/audioconnect/flags/AudioTrackFlag.java:38-87 | parseInput agrees with the specification Parse on every input, errors included |
| TrackFlag.ApplyAllAccepted | src/main/java/com/deadmandungeons/audioconnect/flags/AudioTrackFlag.java:46-81 | an accepted property list has only key=value properties with known keys, each key at most once, and keeps the loop invariant |
| TrackFlag.PropertyAccepted | src/main/java/com/deadmandungeons/audioconnect/flags/AudioTrackFlag.java:47-80 | an accepted property is key=value with a known, not yet set key, and fills that key while keeping the others |
| TrackFlag.ParseAccepted | src/main/java/com/deadmandungeons/audioconnect/flags/AudioTrackFlag.java:52-80 | a parsed track has a valid audio id, announced by the service while connected, a valid track id if any, and no repeated key |
| TrackFlag.IdKey | src/main/java/com/deadmandungeons/audioconnect/flags/AudioTrackFlag.java:43-52 | a property starting with "id=" has the key "id" |
| TrackFlag.NeverMissingAudio | src/main/java/com/deadmandungeons/audioconnect/flags/AudioTrackFlag.java:82-84 | the newer parser never reports a missing audio id, because the first property always carries "id=" |
| TrackFlag.BareIdMeansIdKey | src/main/java/com/deadmandungeons/audioconnect/flags/AudioTrackFlag.java:42-45 | an input not starting with "id=" parses as the same input with "id=" in front |
| TrackFlag.SeparatorsOnlyCrash | src/main/java/com/deadmandungeons/audioconnect/flags/AudioTrackFlag.java:42-43 | the input ":" ends in an index exception |
| TrackFlag.ParseBareId | src/main/java/com/deadmandungeons/audioconnect/flags/AudioTrackFlag.java:42-64 | a bare valid id, announced while connected, parses to a track with no track and no time |
| TrackFlag.ParseFullForm | src/main/java/com/deadmandungeons/audioconnect/flags/AudioTrackFlag.java:42-86 | "id=a:track=t:time=d" parses to exactly that track |
| TrackFlag.StorageRoundTrip | src/main/java/com/deadmandungeons/audioconnect/flags/AudioTrackFlag.java:89-150 | unmarshal after marshal gives the track back, for tracks with valid ids |
| TrackFlag.LoadedTracksAreStable | src/main/java/com/deadmandungeons/audioconnect/flags/AudioTrackFlag.java:90-133 | a track loaded from storage has valid ids and survives another store and load unchanged |
| TrackFlag.ParsedTracksStore | src/main/java/com/deadmandungeons/audioconnect/flags/AudioTrackFlag.java:136-150 | every track the command parser accepts is stored and loaded back unchanged |
| LegacyTrackFlag.ParseInput | src/com/deadmandungeons/audioconnect/flags/AudioTrackFlag.java:51-98 | the older parseInput agrees with its specification Parse on every input |
| LegacyTrackFlag.BareIdWithOptionsRejected | src/com/deadmandungeons/audioconnect/flags/AudioTrackFlag.java:55-63 | a bare first piece followed by more options is rejected as not key=value |
| LegacyTrackFlag.SeparatorsOnlyMissAudio | src/com/deadmandungeons/audioconnect/flags/AudioTrackFlag.java:93-95 | the input ":" is rejected as missing its audio id |
| LegacyTrackFlag.AgreesWithNewerTree | src/com/deadmandungeons/audioconnect/flags/AudioTrackFlag.java:55-58 | on a lone piece, or a first piece starting with "id=", the older and newer parsers agree |
| LegacyTrackFlag.ParsedTracksStore | src/com/deadmandungeons/audioconnect/flags/AudioTrackFlag.java:100-153 | a track the older parser accepts has valid ids and is stored and loaded back unchanged |
| TrackFlag.WithKeyIfAlone | src/main/java/com/deadmandungeons/audioconnect/flags/AudioDelayFlag.java:40-43 | the properties keep their number and are untouched unless there is exactly one; a lone property then starts with the key and ends with what it was, and one already starting with the key is kept |
| DelayFlag.TimeStep | src/main/java/com/deadmandungeons/audioconnect/flags/AudioDelayFlag.java:50-54 | a parsable "time=" property sets the range when none is set yet |
| DelayFlag.ParseInput | src/main/java/com/deadmandungeons/audioconnect/flags/AudioDelayFlag.java:37-71 | parseInput agrees with the specification Parse on every input |
| DelayFlag.ApplyAllDelayAdmitted | src/main/java/com/deadmandungeons/audioconnect/flags/AudioDelayFlag.java:44-65 | the property loop keeps: a held range came from parsing some value, and a held track id is valid |
| DelayFlag.ParseAdmitted | src/main/java/com/deadmandungeons/audioconnect/flags/AudioDelayFlag.java:66-70 | a parsed delay's range came from Range.parse, and its track id, if any, is valid |
| DelayFlag.BareRange | src/main/java/com/deadmandungeons/audioconnect/flags/AudioDelayFlag.java:40-54 | a bare range means "time=" plus the range, and gives a delay for every track or an invalid-range error |
| DelayFlag.BareRangeWithTrackRejected | src/main/java/com/deadmandungeons/audioconnect/flags/AudioDelayFlag.java:44-48 | a bare first piece followed by more options is rejected as not key=value |
| DelayFlag.SeparatorsOnlyMissTime | src/main/java/com/deadmandungeons/audioconnect/flags/AudioDelayFlag.java:66-68 | the input ":" is rejected as missing its time |
| DelayFlag.StorageRoundTrip | src/main/java/com/deadmandungeons/audioconnect/flags/AudioDelayFlag.java:74-111 | unmarshal after marshal gives the delay back when its range prints and parses back and its track id is valid |
| DelayFlag.ParsedDelaysStore | src/main/java/com/deadmandungeons/audioconnect/flags/AudioDelayFlag.java:103-111 | a parsed delay whose range prints and parses back is stored and loaded back unchanged |
| Config.ResolveUserId | src/main/java/com/deadmandungeons/audioconnect/AudioConnectConfig.java:110-121 | empty gives null; a UUID string gives that UUID; otherwise a valid user name gives that player's id, and anything else gives null |
| Config.FirstInvalid | src/main/java/com/deadmandungeons/audioconnect/AudioConnectConfig.java:69-87 | no property is invalid exactly when user id, password, server id and tracks are all usable; a reported property comes after all the earlier ones passed |
| Config.CreateWebsocketUri | src/main/java/com/deadmandungeons/audioconnect/AudioConnectConfig.java:212-226 | the URI from the configured endpoint, or from the defaults when that one cannot be built, or an error when neither can; wss exactly when secure, on the supplier path |
| Config.StripTrailingSlash | src/main/java/com/deadmandungeons/audioconnect/AudioConnectConfig.java:231 | the replaceAll("/$", "") drops exactly one character, a slash at the end or before a final line terminator, or nothing |
| Config.NormalisePathShape | src/main/java/com/deadmandungeons/audioconnect/AudioConnectConfig.java:231 | the normalised path is empty or starts with a slash, and is the prefixed path without one trailing slash |
| Config.NormalisePathExamples | src/main/java/com/deadmandungeons/audioconnect/AudioConnectConfig.java:231 | "/" and "" give "", "app/" and "/app" give "/app", "app//" gives "/app/" |
| Config.CreateWebappUrl | src/main/java/com/deadmandungeons/audioconnect/AudioConnectConfig.java:228-246 | the URL from the configured values, else from the defaults, else an error; http or https, never port 80 |
| Config.LastDefaultIndex | src/main/java/com/deadmandungeons/audioconnect/AudioConnectConfig.java:252-263 | the index of the last track marked default, and none exactly when no track is |
| Config.FindDefaultTrackId | src/main/java/com/deadmandungeons/audioconnect/AudioConnectConfig.java:252-263 | the loop computes the default track of the specification |
| Config.DefaultTrackIsConfigured | src/main/java/com/deadmandungeons/audioconnect/AudioConnectConfig.java:252-263 | the default track is null exactly when no track is configured; it is a configured track, and no track marked default comes after it |
| Config.AudioConnectConfig.constructor | src/main/java/com/deadmandungeons/audioconnect/AudioConnectConfig.java:50-55 | a new config holds the given values and nothing cached |
| Config.AudioConnectConfig.LoadEntries | src/main/java/com/deadmandungeons/audioconnect/AudioConnectConfig.java:57-66 | reloading replaces the values and clears every cached entry |
| Config.AudioConnectConfig.GetConnectionUserId | src/main/java/com/deadmandungeons/audioconnect/AudioConnectConfig.java:110-121 | returns and caches the resolved user id |
| Config.AudioConnectConfig.GetConnectionServerId | src/main/java/com/deadmandungeons/audioconnect/AudioConnectConfig.java:127-135 | returns and caches the resolved server id |
| Config.AudioConnectConfig.Validate | src/main/java/com/deadmandungeons/audioconnect/AudioConnectConfig.java:69-87 | returns the first invalid property of the specification |
| Config.AudioConnectConfig.GetConnectionWebsocketUri | src/main/java/com/deadmandungeons/audioconnect/AudioConnectConfig.java:137-142 | returns the specification's websocket URI and caches it when built |
| Config.AudioConnectConfig.GetConnectionWebappUrl | src/main/java/com/deadmandungeons/audioconnect/AudioConnectConfig.java:144-149 | returns the specification's webapp URL and caches it when built |
| Config.AudioConnectConfig.GetDefaultTrackId | src/main/java/com/deadmandungeons/audioconnect/AudioConnectConfig.java:191-196 | returns and caches the default track of the configured tracks |
| AudioLists.WarningsRateLimited | src/main/java/com/deadmandungeons/audioconnect/AudioList.java:36-47 | after a warning about an id, the next one about it comes only after the warning delay; other ids are unaffected |
| AudioLists.AudioList.constructor | src/main/java/com/deadmandungeons/audioconnect/AudioList.java:20-27 | a new list holds no ids and no warnings |
| AudioLists.AudioList.Contains | src/main/java/com/deadmandungeons/audioconnect/AudioList.java:36-47 | true exactly for an announced id; a missing id is warned about only when due, and then its warning time is updated |
| AudioLists.AudioList.AddAll | src/main/java/com/deadmandungeons/audioconnect/AudioList.java:63-65 | the ids become the union, and the result says whether a new id came in |
| AudioLists.AudioList.RemoveAll | src/main/java/com/deadmandungeons/audioconnect/AudioList.java:67-69 | the ids lose the given ones, and the result says whether one was present |
| WorldGuardVersions.LevelsOfVersion | src/main/java/com/deadmandungeons/audioconnect/compat/WorldGuardAdapter.java:71-72 | a version's levels are its dot-separated pieces, each a digit run |
| WorldGuardVersions.CompareFrom | src/main/java/com/deadmandungeons/audioconnect/compat/WorldGuardAdapter.java:76-102 | a comparison that succeeds gives -1, 0 or 1 |
| WorldGuardVersions.CompareAntisymmetric | src/main/java/com/deadmandungeons/audioconnect/compat/WorldGuardAdapter.java:65-103 | swapping the versions flips the result, and fails exactly when the original fails |
| WorldGuardVersions.CompareReflexive | src/main/java/com/deadmandungeons/audioconnect/compat/WorldGuardAdapter.java:65-103 | a version whose levels fit in an int compares equal to itself |
| WorldGuardVersions.CompareFromAntisymmetric | src/main/java/com/deadmandungeons/audioconnect/compat/WorldGuardAdapter.java:76-100 | the level loop flips its result when its arguments swap |
| WorldGuardVersions.CompareFromReflexive | src/main/java/com/deadmandungeons/audioconnect/compat/WorldGuardAdapter.java:76-100 | the level loop finds equal level lists equal |
| WorldGuardVersions.MissingLevel | src/main/java/com/deadmandungeons/audioconnect/compat/WorldGuardAdapter.java:77-98 | a missing level, read as "0", sorts below any non-zero level that fits in an int and ties with a zero one |
| WorldGuardVersions.CompareFromPadded | src/main/java/com/deadmandungeons/audioconnect/compat/WorldGuardAdapter.java:76-102 | padding one level list with "0" levels changes no comparison with a list that fits in an int |
| WorldGuardVersions.CompareFromPaddedBoth | src/main/java/com/deadmandungeons/audioconnect/compat/WorldGuardAdapter.java:76-102 | padding both lists with "0" levels changes no comparison |
| WorldGuardVersions.CompareFromTrailingZeros | src/main/java/com/deadmandungeons/audioconnect/compat/WorldGuardAdapter.java:93-102 | any number of extra "0" levels compares equal, on either side |
| WorldGuardVersions.TrailingZeroLevels | src/main/java/com/deadmandungeons/audioconnect/compat/WorldGuardAdapter.java:65-103 | v and v followed by any number of ".0" levels compare equal, both ways round |
| WorldGuardVersions.CompareFromSharedPrefix | src/main/java/com/deadmandungeons/audioconnect/compat/WorldGuardAdapter.java:76-92 | the levels of a shared prefix tie, so the comparison starts after it |
| WorldGuardVersions.CompareFromExtraLevels | src/main/java/com/deadmandungeons/audioconnect/compat/WorldGuardAdapter.java:93-98 | past the shorter list, zero levels are skipped and the first non-zero one makes the shorter list the lesser, or throws when it overflows an int |
| WorldGuardVersions.ExtraNonZeroLevel | src/main/java/com/deadmandungeons/audioconnect/compat/WorldGuardAdapter.java:93-98 | a list extended by levels whose first non-zero one fits in an int is the greater, both ways round; one that overflows throws a number format exception |
| WorldGuardVersions.LevelCompareByKey | src/main/java/com/deadmandungeons/audioconnect/compat/WorldGuardAdapter.java:80-90 | two levels that fit in an int compare by one key: the fraction for a leading-zero level below the major one, else one more than the integer |
| WorldGuardVersions.CompareFromFits | src/main/java/com/deadmandungeons/audioconnect/compat/WorldGuardAdapter.java:76-102 | level lists that fit in an int always compare without throwing |
| WorldGuardVersions.CompareFromTransitiveSameLength | src/main/java/com/deadmandungeons/audioconnect/compat/WorldGuardAdapter.java:76-92 | on lists of one length the loop is transitive, and equal only when both steps are |
| WorldGuardVersions.CompareFromTransitive | src/main/java/com/deadmandungeons/audioconnect/compat/WorldGuardAdapter.java:76-102 | on any lists that fit in an int, at or below twice is at or below, and equal only when both steps are |
| WorldGuardVersions.CompareTransitive | src/main/java/com/deadmandungeons/audioconnect/compat/WorldGuardAdapter.java:65-103 | the comparator is transitive on versions whose levels fit in an int, for "at or below" and for "equal" |
| WorldGuardVersions.LeadingZeroSortsFirst | src/main/java/com/deadmandungeons/audioconnect/compat/WorldGuardAdapter.java:80-85 | below the major level, a level with a leading zero sorts before one without |
| WorldGuardVersions.LeadingZeroExample | src/main/java/com/deadmandungeons/audioconnect/compat/WorldGuardAdapter.java:81 | "1.3.01" sorts before "1.3.1" |
| WorldGuardVersions.IntegerLevelExample | src/main/java/com/deadmandungeons/audioconnect/compat/WorldGuardAdapter.java:87 | "1.3.10" sorts after "1.3.1" |
| WorldGuardVersions.ExtraLevelExample | src/main/java/com/deadmandungeons/audioconnect/compat/WorldGuardAdapter.java:94 | "1.3" sorts before "1.3.2", and the reverse |
| WorldGuardVersions.MajorLevelOverflow | src/main/java/com/deadmandungeons/audioconnect/compat/WorldGuardAdapter.java:88 | a major level beyond the int range makes the comparison throw a number format exception |
| WorldGuardVersions.FindVersionMatches | src/main/java/com/deadmandungeons/audioconnect/compat/WorldGuardAdapter.java:41-43 | no version is found exactly when the text has no digit; a found version is the first maximal match of the version pattern |
| WorldGuardVersions.AtLeastSevenByMajor | src/main/java/com/deadmandungeons/audioconnect/compat/WorldGuardAdapter.java:46 | a version is at least "7.0.0" exactly when its major level is at least 7 |
| WorldGuardVersions.ThresholdsAreVersions | src/main/java/com/deadmandungeons/audioconnect/compat/WorldGuardAdapter.java:46-48 | comparing against "7.0.0" or "6.1.3" never throws an illegal-argument exception |
| WorldGuardVersions.SelectAdapterSound | src/main/java/com/deadmandungeons/audioconnect/compat/WorldGuardAdapter.java:37-56 | no illegal-argument failure; unsupported exactly when the version string has no digit; the V7 adapter exactly for a major level of 7 or more |
| ListCommands.MaxPageIsCeiling | src/main/java/com/deadmandungeons/audioconnect/command/ListCommand.java:100 | the page count is the ceiling of entries over page size, and zero only for an empty list |
| ListCommands.ShownPageClampsPastLast | src/main/java/com/deadmandungeons/audioconnect/command/ListCommand.java:101-103 | without overflow, a page past the last shows the last page, and any other page itself |
| ListCommands.WindowBounds | src/main/java/com/deadmandungeons/audioconnect/command/ListCommand.java:118-122 | the printed window always lies within the list |
| ListCommands.PageWindow | src/main/java/com/deadmandungeons/audioconnect/command/ListCommand.java:118-122 | page p shows entries (p-1)*size up to p*size or the end, at least one and at most a page |
| ListCommands.PagesCoverList | src/main/java/com/deadmandungeons/audioconnect/command/ListCommand.java:97-122 | the pages one after another show the whole list, in order |
| ListCommands.WrappedPageShowsNothing | src/main/java/com/deadmandungeons/audioconnect/command/ListCommand.java:100-122 | page 214748365 of five entries wraps past the clamp and shows nothing |
| ListCommands.SendListMessage | src/main/java/com/deadmandungeons/audioconnect/command/ListCommand.java:97-148 | the listing shows the clamped page's entries, the page label only for more than a page, "none" only for an empty list, and the buttons only for a player with a page before or after |
| ListCommands.PrintWindow | src/main/java/com/deadmandungeons/audioconnect/command/ListCommand.java:118-122 | the loop prints the slice between the two bounds, each cut to the list |
| ListCommands.ButtonsAfterClamp | src/main/java/com/deadmandungeons/audioconnect/command/ListCommand.java:125-135 | the shown page is never past the last, and a next-page button appears exactly when the requested page is before the last |
| ListCommands.PlayerOrderIsComparator | src/main/java/com/deadmandungeons/audioconnect/command/ListCommand.java:188-203 | the player order flips sign when swapped, is transitive, ties exactly on the same name or on no name and the same id, and puts named players first |
| ListCommands.NamedPlayersFirst | src/main/java/com/deadmandungeons/audioconnect/command/ListCommand.java:189 | in a list sorted by the player order, no named player follows an unnamed one |
| ListCommands.RegionOrderIsComparator | src/main/java/com/deadmandungeons/audioconnect/command/ListCommand.java:290-297 | the region order flips when swapped, is transitive, and ties exactly on the same world and id |
| ListCommands.AudioRegions | src/main/java/com/deadmandungeons/audioconnect/command/ListCommand.java:279-288 | the listed regions are exactly those with an audio flag |
| ListCommands.Execute | src/main/java/com/deadmandungeons/audioconnect/command/ListCommand.java:69-84 | fails exactly when not connected; otherwise lists the chosen kind at the given page, page 1 by default |
| ListCommands.LegacyExecute | src/com/deadmandungeons/audioconnect/command/ListCommand.java:49-67 | fails when not connected or the sub-command is unknown; otherwise lists ten per page at the given page, page 1 by default |
| Scheduling.StartDelayInRing | src/com/deadmandungeons/audioconnect/PlayerScheduler.java:158-159 | a bucket's start delay is its distance after the running bucket around the ring, times the displacement; zero only for the running bucket |
| Scheduling.LightestUpTo | src/com/deadmandungeons/audioconnect/PlayerScheduler.java:98-108 | the first bucket holding the fewest players |
| Scheduling.AddingToLightestKeepsBalance | src/com/deadmandungeons/audioconnect/PlayerScheduler.java:95-110 | adding a new player to the lightest bucket keeps bucket sizes within one of each other |
| Scheduling.PlayerScheduler.Create | src/com/deadmandungeons/audioconnect/PlayerScheduler.java:66-84 | rejects a non-positive frequency or task count, caps the tasks at the frequency, and starts with empty buckets and no timers |
| Scheduling.PlayerScheduler.constructor | src/com/deadmandungeons/audioconnect/PlayerScheduler.java:74-84 | empty buckets, no timers, the displacement frequency / tasks |
| Scheduling.PlayerScheduler.CheckCancel | src/com/deadmandungeons/audioconnect/PlayerScheduler.java:202-207 | an empty bucket's timer is cancelled and forgotten; anything else is left alone |
| Scheduling.PlayerScheduler.AddPlayer | src/com/deadmandungeons/audioconnect/PlayerScheduler.java:95-110 | a new player joins the lightest bucket, which is queued to start when no timer runs; a present player changes nothing |
| Scheduling.PlayerScheduler.Join | src/com/deadmandungeons/audioconnect/PlayerScheduler.java:191 | the player joins exactly that bucket |
| Scheduling.PlayerScheduler.Survey | src/com/deadmandungeons/audioconnect/PlayerScheduler.java:96-108 | finds whether the player is present, the lightest bucket, and whether no timer runs |
| Scheduling.PlayerScheduler.RemovePlayer | src/com/deadmandungeons/audioconnect/PlayerScheduler.java:118-125 | the player leaves every bucket, and the timer of a bucket it empties is cancelled |
| Scheduling.PlayerScheduler.Clear | src/com/deadmandungeons/audioconnect/PlayerScheduler.java:130-135 | every bucket is emptied and every running timer cancelled |
| Scheduling.PlayerScheduler.StartTimer | src/com/deadmandungeons/audioconnect/PlayerScheduler.java:185 | records a new repeating timer for the bucket with the given delay |
| Scheduling.PlayerScheduler.StartQueued | src/com/deadmandungeons/audioconnect/PlayerScheduler.java:153-163 | every queued bucket gets a timer delayed by its ring distance from the running one; the queue empties; other buckets keep their timers |
| Scheduling.PlayerScheduler.WriteOnline | src/com/deadmandungeons/audioconnect/PlayerScheduler.java:165-175 | each online player of the bucket is written once; offline players leave the bucket, and its timer is cancelled if it empties |
| Scheduling.PlayerScheduler.WriteBucket | src/com/deadmandungeons/audioconnect/PlayerScheduler.java:165-178 | the writes of the online players, then a flush when players remain |
| Scheduling.PlayerScheduler.Run | src/com/deadmandungeons/audioconnect/PlayerScheduler.java:150-180 | one timer run: the queued buckets get new timers, this bucket is written and flushed; only this bucket's timer can be cancelled, and only when the run empties it; every other timer is kept |
| Scheduling.WriteEach | src/com/deadmandungeons/audioconnect/PlayerScheduler.java:165-175 | the loop writes each online player exactly once and keeps exactly those |
| Scheduling.StartTimers | src/com/deadmandungeons/audioconnect/PlayerScheduler.java:154-161 | the loop over the queue starts one timer per queued bucket |
| Resolution.TopPriority | src/main/java/com/deadmandungeons/audioconnect/AudioConnect.java:333-335 | the highest priority among regions with the flag, and at least zero |
| Resolution.PriorityFoldIsTopTier | src/main/java/com/deadmandungeons/audioconnect/AudioConnect.java:323-378 | the scan keeps exactly the flags of the highest priority, filed in region order |
| Resolution.NegativePrioritiesIgnored | src/main/java/com/deadmandungeons/audioconnect/AudioConnect.java:323-334 | flags only on negative-priority regions give no audio at all |
| Resolution.AudioFiled | src/main/java/com/deadmandungeons/audioconnect/AudioConnect.java:344-357 | a track is filed, and an id under it, exactly when some playing rule files it there |
| Resolution.LastDelayWins | src/main/java/com/deadmandungeons/audioconnect/AudioConnect.java:372-376 | a track has a delay exactly when some delay names it, and it is the last one that does |
| Resolution.FileTracks | src/main/java/com/deadmandungeons/audioconnect/AudioConnect.java:344-357 | the loop files the rules as the specification does |
| Resolution.FileDelays | src/main/java/com/deadmandungeons/audioconnect/AudioConnect.java:372-376 | the loop files the delays as the specification does |
| Resolution.TakeAudio | src/main/java/com/deadmandungeons/audioconnect/AudioConnect.java:332-358 | one region's audio flag: a higher priority replaces, an equal one adds, a lower one is ignored |
| Resolution.TakeDelays | src/main/java/com/deadmandungeons/audioconnect/AudioConnect.java:360-377 | the same for one region's delay flag |
| Resolution.Collect | src/main/java/com/deadmandungeons/audioconnect/AudioConnect.java:323-378 | the loop over the global and applicable regions computes the specification's pass |
| Resolution.HeardAudio | src/main/java/com/deadmandungeons/audioconnect/AudioConnect.java:323-358 | a track has audio, and an id on it, exactly when a playing rule of the top audio tier is filed under it with that id |
| Resolution.HeardDelay | src/main/java/com/deadmandungeons/audioconnect/AudioConnect.java:360-377 | a track has a delay exactly when a delay of the top tier names it, and it is the last such delay's range |
| Resolution.DefaultTrackNeverNull | src/main/java/com/deadmandungeons/audioconnect/AudioConnect.java:344-375 | with a default track, no audio or delay is filed under the null track |
| Resolution.MessageFor | src/main/java/com/deadmandungeons/audioconnect/AudioConnect.java:404-416 | the message for a track carries the player, the track and that track's delay |
| Resolution.MessagesFor | src/main/java/com/deadmandungeons/audioconnect/AudioConnect.java:404-416 | one message per track, in the given order |
| Resolution.WriteChanged | src/main/java/com/deadmandungeons/audioconnect/AudioConnect.java:385-418 | every changed configured or null track gets exactly one message, appended to the buffer |
| Resolution.IgnoreEqualsWritesAll | src/main/java/com/deadmandungeons/audioconnect/AudioConnect.java:392-402 | when equal tracks are sent too, every null or configured track of either pass is written |
| Resolution.RepeatPassWritesNothing | src/main/java/com/deadmandungeons/audioconnect/AudioConnect.java:396-423 | a pass equal to the previous one writes nothing |
| Resolution.IsDifferentBlock | src/main/java/com/deadmandungeons/audioconnect/AudioConnect.java:445-447 | two locations differ exactly when their block coordinates differ; the world is not compared |
| Resolution.WritePass | src/main/java/com/deadmandungeons/audioconnect/AudioConnect.java:313-424 | one pass: the resolved audio and delays of the player's surroundings, and the messages for what changed |
| Resolution.PlayerAudioTracker.constructor | src/main/java/com/deadmandungeons/audioconnect/AudioConnect.java:278 | an empty buffer and no tracking data |
| Resolution.PlayerAudioTracker.GetTrackingData | src/main/java/com/deadmandungeons/audioconnect/AudioConnect.java:436-443 | the player's tracking data, created at the current location when missing, and stored |
| Resolution.PlayerAudioTracker.WriteData | src/main/java/com/deadmandungeons/audioconnect/AudioConnect.java:281-298 | nothing happens unless the player moved block and the interval passed; a first sighting writes nothing; the time is updated only when something was written |
| Resolution.PlayerAudioTracker.FlushData | src/main/java/com/deadmandungeons/audioconnect/AudioConnect.java:300-306 | a non-empty buffer is sent as one batch and emptied |
| Resolution.PlayerAudioTracker.WriteAudioMessages | src/main/java/com/deadmandungeons/audioconnect/AudioConnect.java:308-311 | a pass that sends every track, equal or not, without touching the update time |
| LegacyResolution.LegacyContext | src/com/deadmandungeons/audioconnect/AudioConnect.java:249-251 | the older tracker scans with the world time and the audio list, and no default track |
| LegacyResolution.FiledUnderOwnTrack | src/com/deadmandungeons/audioconnect/AudioConnect.java:282-285 | without a default track a rule is filed under its own track id, null included |
| LegacyResolution.NullTrackHeard | src/com/deadmandungeons/audioconnect/AudioConnect.java:279-290 | the null track has audio exactly when a playing rule of the top tier has no track id |
| LegacyResolution.TracklessRuleSent | src/com/deadmandungeons/audioconnect/AudioConnect.java:323-347 | such a rule reaches the client in a message with no track id that carries its audio |
| LegacyResolution.UnconfiguredTrackNeverSent | src/com/deadmandungeons/audioconnect/AudioConnect.java:323-326 | a track id missing from the configuration is never written |
| RegionUpdates.Kept | src/main/java/com/deadmandungeons/audioconnect/AudioConnect.java:208-217 | the kept rules are never more than the flag's |
| RegionUpdates.KeptMembers | src/main/java/com/deadmandungeons/audioconnect/AudioConnect.java:208-217 | a rule is kept exactly when its audio id is not deleted, and all are kept exactly when none is deleted |
| RegionUpdates.DeletedFlag | src/main/java/com/deadmandungeons/audioconnect/AudioConnect.java:204-221 | the flag is unchanged when nothing is deleted, otherwise holds exactly the kept rules, and is removed when none is kept |
| RegionUpdates.KeepAudio | src/main/java/com/deadmandungeons/audioconnect/AudioConnect.java:206-217 | the loop reports whether a rule was removed and collects exactly the kept rules, or null |
| RegionUpdates.DeleteFromRegion | src/main/java/com/deadmandungeons/audioconnect/AudioConnect.java:204-221 | a region's audio flag becomes its deleted flag |
| RegionUpdates.DeleteAll | src/main/java/com/deadmandungeons/audioconnect/AudioConnect.java:200-223 | every region's audio flag becomes its deleted flag, and nothing else changes |
| RegionUpdates.Renamed | src/main/java/com/deadmandungeons/audioconnect/AudioConnect.java:247 | a rule of the old id gets the new id, keeping its track and time; other rules stay |
| RegionUpdates.RenameAll | src/main/java/com/deadmandungeons/audioconnect/AudioConnect.java:244-252 | every rule is renamed, in place |
| RegionUpdates.ReplacedFlag | src/main/java/com/deadmandungeons/audioconnect/AudioConnect.java:241-256 | a flag with the old id has every rule renamed; any other flag is unchanged |
| RegionUpdates.ReplacedIdGone | src/main/java/com/deadmandungeons/audioconnect/AudioConnect.java:245-252 | after renaming to a different id, no rule names the old id |
| RegionUpdates.RenameAudio | src/main/java/com/deadmandungeons/audioconnect/AudioConnect.java:243-252 | the loop renames every rule and reports whether one had the old id |
| RegionUpdates.ReplaceInRegion | src/main/java/com/deadmandungeons/audioconnect/AudioConnect.java:241-256 | a region's audio flag becomes its replaced flag |
| RegionUpdates.Replace | src/main/java/com/deadmandungeons/audioconnect/AudioConnect.java:237-258 | every region's audio flag becomes its replaced flag, and nothing else changes |
| RegionUpdates.DeletedAudioNeverHeard | src/main/java/com/deadmandungeons/audioconnect/AudioConnect.java:200-223 | after deleting ids, no pass hears a deleted id on any track |
| RegionUpdates.ReplacedAudioNeverHeard | src/main/java/com/deadmandungeons/audioconnect/AudioConnect.java:237-258 | after renaming to a different id, no pass hears the old id |
| Client.Pow | src/com/deadmandungeons/audioconnect/AudioConnectClient.java:451 | Math.pow of the rate is non-negative for a non-negative rate and at least one for a rate of at least one |
| Client.PowGrows | src/com/deadmandungeons/audioconnect/AudioConnectClient.java:451 | for a rate of at least one, the power grows with the exponent |
| Client.DoubleToInt | src/com/deadmandungeons/audioconnect/AudioConnectClient.java:451 | the cast to int is in the int range and, for a non-negative value, the value rounded down |
| Client.DoubleToIntMonotone | src/com/deadmandungeons/audioconnect/AudioConnectClient.java:451 | the cast keeps the order of non-negative values |
| Client.ReconnectDelay | src/com/deadmandungeons/audioconnect/AudioConnectClient.java:449-455 | the delay never exceeds the maximum, is non-negative, and is the maximum or at most interval times rate to the attempts |
| Client.ReconnectDelayGrows | src/com/deadmandungeons/audioconnect/AudioConnectClient.java:442-455 | with a rate of at least one, later attempts never wait less |
| Client.TrackMessages | src/com/deadmandungeons/audioconnect/AudioConnectClient.java:320-338 | one track message per configured track, in order |
| Client.Detached | src/com/deadmandungeons/audioconnect/AudioConnectClient.java:245-260 | the channel stops listening; when active it is sent close 1001 "Going offline" and starts closing |
| Client.OnlineMarked | src/com/deadmandungeons/audioconnect/AudioConnectClient.java:583-584 | marks the player's PlayerConnection online only while the connection still maps the player to the one the ONLINE message made; nothing else changes |
| Client.HandledAllStops | src/com/deadmandungeons/audioconnect/AudioConnectClient.java:548-550 | once a message of a frame throws, the rest of the frame changes nothing |
| Client.HandledAllFails | src/com/deadmandungeons/audioconnect/AudioConnectClient.java:548-598 | a frame throws exactly when there is no connection and it holds a status message; otherwise the connection stays present exactly when it was |
| Client.HandledAllQuiet | src/com/deadmandungeons/audioconnect/AudioConnectClient.java:556-619 | a frame without status messages succeeds and leaves the connection, the main-thread tasks and the counter alone |
| Client.HandledAllKeepsAudio | src/com/deadmandungeons/audioconnect/AudioConnectClient.java:556-569 | a frame without audio list messages leaves the announced ids alone |
| Client.AudioConnectClient.constructor | src/com/deadmandungeons/audioconnect/AudioConnectClient.java:104-125 | a new client has no connection, no attempts and a fresh scheduler |
| Client.AudioConnectClient.Schedule | src/com/deadmandungeons/audioconnect/AudioConnectClient.java:373 | the player is in the scheduler afterwards, and every other player keeps its place in the scheduler |
| Client.AudioConnectClient.Unschedule | src/com/deadmandungeons/audioconnect/AudioConnectClient.java:604 | the player is out of the scheduler, the result says whether it was in, and every other player keeps its place in the scheduler |
| Client.AudioConnectClient.Send | src/com/deadmandungeons/audioconnect/AudioConnectClient.java:290-293 | the frame is appended to that channel only |
| Client.AudioConnectClient.Connect | src/com/deadmandungeons/audioconnect/AudioConnectClient.java:175-179 | fails exactly when shutting down; connects exactly when not connected, on a new pending channel with no players, resetting the attempts; otherwise nothing changes |
| Client.AudioConnectClient.ConnectWith | src/com/deadmandungeons/audioconnect/AudioConnectClient.java:181-227 | a new connection on a new pending channel, counting the attempt when reconnecting; otherwise nothing changes |
| Client.AudioConnectClient.TransportConnected | src/com/deadmandungeons/audioconnect/AudioConnectClient.java:207-217 | success resets the attempts; failure marks the current handshake failed |
| Client.AudioConnectClient.WriteAndFlush | src/com/deadmandungeons/audioconnect/AudioConnectClient.java:160-167 | sends exactly when connected and writable, as one text frame |
| Client.AudioConnectClient.Disconnect | src/com/deadmandungeons/audioconnect/AudioConnectClient.java:234-263 | the connection is dropped, its channel detached and the scheduler cleared |
| Client.AudioConnectClient.Shutdown | src/com/deadmandungeons/audioconnect/AudioConnectClient.java:271-287 | a first shutdown stops every channel listening, detaches the connection's channel and empties the scheduler; a second changes nothing |
| Client.AudioConnectClient.ChannelClosed | src/com/deadmandungeons/audioconnect/AudioConnectClient.java:438-465 | a listened-to channel that closes is detached, nothing stays scheduled and no channel listens; a retry is scheduled with the back-off delay unless the attempts are used up |
| Client.AudioConnectClient.RunRetry | src/com/deadmandungeons/audioconnect/AudioConnectClient.java:458-464 | a retry opens a new pending connection on a new channel and counts the attempt; otherwise nothing changes |
| Client.AudioConnectClient.FinishHandshake | src/com/deadmandungeons/audioconnect/AudioConnectClient.java:505-525 | a 101 response that is accepted completes the channel's handshake, and connects when there is a connection, leaving the scheduler alone; without one it then throws; any other response detaches the connection's channel and empties the scheduler |
| Client.AudioConnectClient.ExceptionCaught | src/com/deadmandungeons/audioconnect/AudioConnectClient.java:497-503 | the channel is closed and a pending handshake fails |
| Client.AudioConnectClient.HandleMessage | src/com/deadmandungeons/audioconnect/AudioConnectClient.java:556-619 | what the per-message specification Handled gives: audio list updates change the list; a status message throws without a connection, else updates the player connections and queues a main-thread task; a heartbeat is answered when writable |
| Client.AudioConnectClient.HandleFrame | src/com/deadmandungeons/audioconnect/AudioConnectClient.java:527-554 | what FrameHandled gives: a ping gets a pong, a close starts closing, a decoded text frame has its messages handled in order as HandledAll says, and other frames do nothing |
| Client.AudioConnectClient.HandleMessages | src/com/deadmandungeons/audioconnect/AudioConnectClient.java:548-550 | the loop gives what HandledAll gives for the messages in order, stopping at the first that throws; it throws exactly when a status message meets no connection |
| Client.AudioConnectClient.ChannelRead | src/com/deadmandungeons/audioconnect/AudioConnectClient.java:483-494 | before the handshake only a response is accepted, and it finishes the handshake as FinishHandshake does: an accepted 101 marks the channel handshaken, any other response detaches the channel and empties the scheduler, and no connection throws, after an accepted 101 has still marked the channel handshaken; main tasks, counter and audio list stay. After it, an inbound frame is handled as FrameHandled says with the scheduler untouched, and anything else, a late response included, changes nothing |
| Client.AudioConnectClient.RunMainTask | src/com/deadmandungeons/audioconnect/AudioConnectClient.java:578-609 | the next main-thread task runs the online or offline handling below; an online player's PlayerConnection is marked as OnlineMarked says; every other player keeps its place in the scheduler |
| Client.AudioConnectClient.RunOnline | src/com/deadmandungeons/audioconnect/AudioConnectClient.java:581-593 | an online player is marked online as OnlineMarked says, scheduled while every other player keeps its place, and sent its status, the track settings and its audio; an offline one only its status and tracks |
| Client.AudioConnectClient.RunOffline | src/com/deadmandungeons/audioconnect/AudioConnectClient.java:603-607 | the player is unscheduled, with an offline event only if it was scheduled; every other player keeps its place in the scheduler |
| Client.AudioConnectClient.PlayerJoined | src/com/deadmandungeons/audioconnect/AudioConnectClient.java:367-381 | a known offline player becomes online, is scheduled while every other player keeps its place, and is sent its status and audio when connected and writable, with no channel changed otherwise; anyone else changes nothing |
| Client.AudioConnectClient.PlayerQuit | src/com/deadmandungeons/audioconnect/AudioConnectClient.java:384-398 | a known online player becomes offline, is unscheduled while every other player keeps its place, and its status is sent when connected and writable, with no channel changed otherwise; anyone else changes nothing |
| LegacyClient.Connection.constructor | src/com/deadmandungeons/audioconnect/client/AudioConnectClientHandler.java:41-51 | the initial state: no players tracked, no handshake, not refused or closing, nothing sent or queued |
| LegacyClient.Connection.ChannelRead | src/com/deadmandungeons/audioconnect/client/AudioConnectClientHandler.java:59-129 | before the handshake only a response is accepted and decides it; a close frame forgets every player; commands update the players; after the handshake it stays done and refusal unchanged, a text frame never starts closing, and a failure changes nothing |
| LegacyClient.Connection.HandleCommands | src/com/deadmandungeons/audioconnect/client/AudioConnectClientHandler.java:99-127 | the tracked set, the offline set and the queued tasks are those the command specification gives |
| LegacyClient.Connection.RunAddTask | src/com/deadmandungeons/audioconnect/client/AudioConnectClientHandler.java:110-117 | the player's presence is reported, and an absent player marked offline |
| LegacyClient.Connection.ExceptionCaught | src/com/deadmandungeons/audioconnect/client/AudioConnectClientHandler.java:132-135 | the channel is closed |
| LegacyClient.Removed | src/com/deadmandungeons/audioconnect/client/AudioConnectClientHandler.java:119-121 | exactly the players some REMOVE names |
| LegacyClient.Added | src/com/deadmandungeons/audioconnect/client/AudioConnectClientHandler.java:103-107 | at most one follow-up per message |
| LegacyClient.TrackedOnlyAdds | src/com/deadmandungeons/audioconnect/client/AudioConnectClientHandler.java:103-123 | a tracked player was tracked before or named by an ADD |
| LegacyClient.AddedNames | src/com/deadmandungeons/audioconnect/client/AudioConnectClientHandler.java:103-118 | the follow-ups are exactly the players of the ADD commands |
| LegacyClient.LastCommandDecides | src/com/deadmandungeons/audioconnect/client/AudioConnectClientHandler.java:99-123 | the last command about a player decides whether it is tracked |
| LegacyClient.LegacyAudioConnectClient.constructor | src/com/deadmandungeons/audioconnect/client/AudioConnectClient.java:57-63 | no connection, no attempts, no retries |
| LegacyClient.LegacyAudioConnectClient.Connect | src/com/deadmandungeons/audioconnect/client/AudioConnectClient.java:101-157 | fails when already connected; otherwise a fresh connection in its initial state, with the attempts reset unless reconnecting |
| LegacyClient.LegacyAudioConnectClient.TransportConnected | src/com/deadmandungeons/audioconnect/client/AudioConnectClient.java:216-223 | success resets the attempts |
| LegacyClient.LegacyAudioConnectClient.Shutdown | src/com/deadmandungeons/audioconnect/client/AudioConnectClient.java:165-175 | the connection is dropped, its group shut down, its players forgotten, and the retries pending on its event loop dropped |
| LegacyClient.LegacyAudioConnectClient.Disconnect | src/com/deadmandungeons/audioconnect/client/AudioConnectClient.java:159-163 | the same as a shutdown, without a result, pending retries dropped too; what the old connection sent and its handshake, refusal and queued tasks are kept |
| LegacyClient.LegacyAudioConnectClient.WriteAndFlush | src/com/deadmandungeons/audioconnect/client/AudioConnectClient.java:86-99 | fails without a connection; sends one text frame exactly when writable; the handshake, refusal, closing, shutdown and queued tasks are unchanged |
| LegacyClient.LegacyAudioConnectClient.NotifyPlayerJoin | src/com/deadmandungeons/audioconnect/client/AudioConnectClient.java:74-78 | an offline player is no longer offline, and its return is reported when writable; the connection's life-cycle fields are unchanged |
| LegacyClient.LegacyAudioConnectClient.NotifyPlayerQuit | src/com/deadmandungeons/audioconnect/client/AudioConnectClient.java:80-84 | a tracked player who was not offline becomes offline, reported when writable; the connection's life-cycle fields are unchanged |
| LegacyClient.LegacyAudioConnectClient.ChannelClosed | src/com/deadmandungeons/audioconnect/client/AudioConnectClient.java:117-154 | a refused connection, or one out of attempts, is shut down, its player sets emptied and no retry left pending; any other schedules a retry with the back-off delay and leaves the connection as it is |
| LegacyClient.LegacyAudioConnectClient.RunRetry | src/com/deadmandungeons/audioconnect/client/AudioConnectClient.java:145-153 | a retry shuts the old connection down, empties its player sets and drops any other retry pending on its loop, connects again with a connection in its initial state, and counts the attempt |
| JavaStrings.DropTrailingEmptyShape | src/main/java/com/deadmandungeons/audioconnect/flags/AudioTrackFlag.java:42 | split keeps a prefix of the pieces that does not end in an empty piece, and drops only empty ones |
| JavaStrings.SplitTwo | src/main/java/com/deadmandungeons/audioconnect/flags/AudioTrackFlag.java:42 | "a" + sep + "b" splits into a and b when b is not empty |
| JavaStrings.CharUnits | src/main/java/com/deadmandungeons/audioconnect/command/ListCommand.java:194 | a character is one 16-bit code unit in the Basic Multilingual Plane, never a high surrogate, and above it a high and a low surrogate from which the character is recovered |
| JavaStrings.Utf16Injective | src/main/java/com/deadmandungeons/audioconnect/command/ListCommand.java:194 | two strings with the same UTF-16 code units are the same string |
| JavaStrings.CompareTo | src/main/java/com/deadmandungeons/audioconnect/command/ListCommand.java:194 | String.compareTo, taken over the UTF-16 code units, is zero exactly when the strings are equal |
| JavaStrings.CompareToSurrogateExample | src/main/java/com/deadmandungeons/audioconnect/command/ListCommand.java:194 | a character above the Basic Multilingual Plane compares by its high surrogate, so U+FF21 sorts after U+1F600 |
| JavaStrings.CompareToAntisymmetric | src/main/java/com/deadmandungeons/audioconnect/command/ListCommand.java:194 | String.compareTo flips when its arguments swap |
| JavaStrings.CompareToTransitive | src/main/java/com/deadmandungeons/audioconnect/command/ListCommand.java:194 | String.compareTo's "before" is transitive |
| JavaInts.Int32Wraps | src/main/java/com/deadmandungeons/audioconnect/command/ListCommand.java:101 | a 32-bit result differs from the exact one by a multiple of 2^32 |
| Sets.EnumerationSize | src/main/java/com/deadmandungeons/audioconnect/AudioConnect.java:392 | an iteration over a set visits as many elements as the set holds |

The same code appears in the older tree under `src/com/deadmandungeons/audioconnect`, and the members above model it too:

- `flags/AudioTrack.java`: `byName` at 94-101 (`AudioTracks.ByName`); the `DayTime` windows at 76-92 (`AudioTracks.DayTimeWindows`); `equals` at 57-72 (`AudioTracks.EqualsIsIdentity`); `toString` at 38-55 (`AudioTracks.ToStringShape`).
- `flags/AudioTrackFlag.java` and `flags/AudioDelayFlag.java`: the key put in front of a lone first piece, at 55-58 and 53-56 (`TrackFlag.WithKeyIfAlone`, which `LegacyTrackFlag.ParseInput` and `DelayFlag.ParseInput` use).
- `flags/AudioDelayFlag.java`: `parseInput` at 50-83 (`DelayFlag.ParseInput`); `unmarshal` and `marshal` at 86-118 (`DelayFlag.StorageRoundTrip`).
- `AudioConnect.java`, its configuration part:
  - loading at 424-430 (`Config.AudioConnectConfig.LoadEntries`);
  - validation at 434-452 (`Config.FirstInvalid`);
  - the user id at 455-466 (`Config.ResolveUserId`) and the server id at 474-482 (`Config.FirstInvalid`);
  - the websocket URI at 560-574 (`Config.CreateWebsocketUri`) and the webapp URL at 576-595 (`Config.CreateWebappUrl`);
- `AudioConnect.java`, its tracker part:
  - `writeData` at 217-234 (`Resolution.PlayerAudioTracker.WriteData`);
  - `flushData` at 237-242 (`Resolution.PlayerAudioTracker.FlushData`);
  - `writeAudioMessages` at 245-247 (`Resolution.PlayerAudioTracker.WriteAudioMessages`);
  - the pass at 249-355 (`Resolution.WritePass`), whose priority scan is at 258-309 (`Resolution.PriorityFoldIsTopTier`) and whose change writing is at 316-349 (`Resolution.WriteChanged`);
  - `getTrackingData` at 367-374 (`Resolution.PlayerAudioTracker.GetTrackingData`).
- `AudioList.java`: the warning limit and `contains` at 13-35 (`AudioLists.WarningsRateLimited`, `AudioLists.AudioList.Contains`); `addAll` at 37-39; `removeAll` at 41-43.
- `command/ListCommand.java`:
  - the player order at 73-88 (`ListCommands.PlayerOrderIsComparator`);
  - both listings, at 90-127 and 137-162 (`ListCommands.SendListMessage`, `ListCommands.MaxPageIsCeiling`, `ListCommands.ShownPageClampsPastLast`, `ListCommands.PageWindow`).

## Left out

- Netty, TLS and the websocket codec: channels are records of frames sent, and a handshake result is a parameter.
- Threads and the `connecting` guard: each operation runs to completion, one at a time.
- Logging, chat colours, message texts and the locale files.
- Floating-point doubles and NaN: the reconnect rate and the version fractions are exact reals.
- Lower-casing a time's name (`toLowerCase()`) assumes a default locale without special casing rules: ASCII lower-casing is modelled, so under a Turkish locale the stored "nıght" is not what the model writes (byName's `equalsIgnoreCase` still reads it back).
- `Client.ReconnectDelay`: the attempts counter does not wrap at 2^31; it is an unbounded natural.
- `Arrays.sort` is not modelled; only the comparator contract it needs is proved.
- Bukkit, WorldGuard and the service are parameters:
  - which players are online, whether a channel is writable or active, and the world time;
  - the audio messages sent to a joining player;
  - `validateIdentifier`, `Range.parse`, `Range.toString`, the UUID parser and the URI builder;
  - which regions apply at a location.
- Iteration order of Java's `HashSet` and `HashMap`: the order is an unspecified enumeration of the set.
- Locations are reduced to block coordinates. `isDifferentBlock` compares only the coordinates, so a move to another world at the same coordinates does not count as a move (`Resolution.IsDifferentBlock`).
- Saving region changes to disk (`saveChanges`) is not modelled.
- The one-tick delay before the event listeners are registered is not modelled.
- Null pointer paths are modelled as `Err` results, after the effects the source makes before the throw. Netty's call of `exceptionCaught` after an exception escapes a handler is not chained in; `Client.AudioConnectClient.ExceptionCaught` models that handler on its own.
- `RegionUpdates.DeletedFlag`, `RegionUpdates.ReplacedFlag`: flags are sequences, while the source keeps them in a `HashSet`. So a rename that makes two rules equal keeps both here, where the source collapses them.
- `PlayerConnection` details beyond the online flag and the serial are not modelled, nor `getPlayerConnections`.
- The other commands (`connect`, `register`, `reload`, `send`, `verify`, `edit`, `region`, `import`), the WorldGuard adapters' region queries and `PlayerAudioStatusEvent` are not part of this model.
