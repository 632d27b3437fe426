# next-gen-player, modelled in Dafny

next-gen-player is an Android video player. It scans the device's media
index and groups the videos by the directory that holds them. It then shows
the folders, the videos of one folder (searchable by title), and a player
that keeps a playlist. The player can be driven by buttons and by drag
gestures, and it follows the device's rotation. This project models the
behaviour behind those screens. Each Kotlin file of the core becomes one
Dafny module:

- `VideoRepository`: the grouping pass over the media rows. It finds the
  parent directory's name as `java.io.File` does on Unix. The map is a
  `LinkedHashMap`, so its key order is modelled as well.
- `FolderViewModel` and `VideoListViewModel`: the view models that rebuild
  their lists from a scan. Each later completion of a thumbnail or metadata
  job replaces one entry in place.
- `VideoPlayerViewModel`: the playlist controller over an abstract engine
  record.
- `VideoPlayerScreen`: the gesture state machine, the orientation
  listener, the resume threshold and `formatTime`.
- `VideoOrientationManager`: the two-state orientation manager.
- `VideoListScreen`: the search filter, the search toggle and
  tap-to-play.
- `TimeUtil`: `formatMillis`, with a parser that reads its output back.

`Domain` holds the value types. `JvmLib` writes out the Kotlin and JVM
behaviours the code relies on:

- truncating `/` and `%`;
- `coerceIn`, including its exception on an empty range;
- `Float.toLong()`;
- `"%d"` and `"%02d"`, written with ASCII digits;
- `toLongOrNull()`.

Classes are used where the source updates fields in place. Each of their
methods is proved against a pure function of the old state. The lemmas
about those functions carry the promises: bounds, invariants, round trips,
and agreement with reference definitions.

## Model

| member | source | states |
|---|---|---|
| Domain.NewVideo | app/src/main/java/com/ahmadzafartech/nextgenplayer/domain/Video.kt:9-19 | a video built from a uri and a title keeps both; it has no thumbnail and no duration, and every other field is zero or false |
| JvmLib.TruncDiv | app/src/main/java/com/ahmadzafartech/nextgenplayer/ui/player/VideoPlayerScreen.kt:292-293 | Kotlin's `/` truncates: `q·b` is the multiple of `b` at or below a non-negative dividend and at or above a negative one, within one `b` of it |
| JvmLib.TruncRem | app/src/main/java/com/ahmadzafartech/nextgenplayer/ui/player/VideoPlayerScreen.kt:292-294 | Kotlin's `/` and `%`: quotient times divisor plus remainder gives the dividend back, and the remainder takes the dividend's sign |
| JvmLib.TruncReal | app/src/main/java/com/ahmadzafartech/nextgenplayer/ui/player/VideoPlayerScreen.kt:175 | `toLong()` truncates toward zero: the result is within one of the value and never further from zero |
| JvmLib.CoerceIn | app/src/main/java/com/ahmadzafartech/nextgenplayer/viewmodel/VideoPlayerViewModel.kt:27 | on a non-empty range the result lies in the range; it is the value itself inside the range and the nearer bound outside it |
| JvmLib.CoerceInChecked | app/src/main/java/com/ahmadzafartech/nextgenplayer/viewmodel/VideoPlayerViewModel.kt:62 | `coerceIn` fails exactly when the upper bound is below the lower one, and otherwise clamps |
| JvmLib.CoerceInReal | app/src/main/java/com/ahmadzafartech/nextgenplayer/ui/player/VideoPlayerScreen.kt:181 | the same clamp on real numbers |
| JvmLib.NatToString | app/src/main/java/com/ahmadzafartech/nextgenplayer/util/TimeUtil.kt:9 | `%d` of a natural number: a non-empty string of digits with no leading zero, one character exactly when the value is below 10 |
| JvmLib.NatToStringRoundTrip | app/src/main/java/com/ahmadzafartech/nextgenplayer/util/TimeUtil.kt:9 | reading the written digits back gives the number |
| JvmLib.Pad2TwoDigits | app/src/main/java/com/ahmadzafartech/nextgenplayer/util/TimeUtil.kt:9-10 | `%02d` of a value in 0..99 is exactly two digits that read back as the value |
| JvmLib.ParseLong | app/src/main/java/com/ahmadzafartech/nextgenplayer/viewmodel/VideoListViewModel.kt:37 | `toLongOrNull` only yields values in the 64-bit range |
| JvmLib.ParseLongRoundTrip | app/src/main/java/com/ahmadzafartech/nextgenplayer/viewmodel/VideoListViewModel.kt:37 | every `Long` written in decimal parses back to itself |
| JvmLib.ParseLongSignedDigits | app/src/main/java/com/ahmadzafartech/nextgenplayer/viewmodel/VideoListViewModel.kt:37 | any optional `-` or `+` followed by digits, leading zeros allowed, parses to its signed value exactly when that value is in the 64-bit range, and fails otherwise |
| JvmLib.ParseLongAccepts | app/src/main/java/com/ahmadzafartech/nextgenplayer/viewmodel/VideoListViewModel.kt:37 | whatever parses is one optional sign followed by at least one digit |
| TimeUtil.ClockOf | app/src/main/java/com/ahmadzafartech/nextgenplayer/util/TimeUtil.kt:5-8 | minutes and seconds are below 60, and hours·3600 + minutes·60 + seconds equals the whole seconds of the duration |
| TimeUtil.FormatNonPositive | app/src/main/java/com/ahmadzafartech/nextgenplayer/util/TimeUtil.kt:4 | zero or a negative duration shows as `00:00` |
| TimeUtil.FormatDependsOnWholeSeconds | app/src/main/java/com/ahmadzafartech/nextgenplayer/util/TimeUtil.kt:5 | two durations within the same whole second show the same text |
| TimeUtil.FormatShape | app/src/main/java/com/ahmadzafartech/nextgenplayer/util/TimeUtil.kt:9-10 | the text is five characters (`MM:SS`) exactly when the duration is under an hour; from an hour on, the unpadded hour count comes before `:MM:SS` |
| TimeUtil.ClockSecondsShort | app/src/main/java/com/ahmadzafartech/nextgenplayer/util/TimeUtil.kt:10 | the reader takes `MM:SS` apart field by field |
| TimeUtil.ClockSecondsLong | app/src/main/java/com/ahmadzafartech/nextgenplayer/util/TimeUtil.kt:9 | the reader takes `H:MM:SS` apart field by field |
| TimeUtil.ClockTextRoundTrip | app/src/main/java/com/ahmadzafartech/nextgenplayer/util/TimeUtil.kt:9-10 | the text of any clock whose minutes and seconds are below 60 reads back as hours·3600 + minutes·60 + seconds |
| TimeUtil.FormatMillisRoundTrip | app/src/main/java/com/ahmadzafartech/nextgenplayer/util/TimeUtil.kt:3-11 | reading the text back gives the whole seconds of a positive duration, and 0 for any other |
| VideoRepository.LastSlash | app/src/main/java/com/ahmadzafartech/nextgenplayer/data/VideoRepository.kt:29 | the position of the last separator, with none after it, or -1 |
| VideoRepository.NameOf | app/src/main/java/com/ahmadzafartech/nextgenplayer/data/VideoRepository.kt:29 | a file name never contains a separator |
| VideoRepository.RowVideo | app/src/main/java/com/ahmadzafartech/nextgenplayer/data/VideoRepository.kt:30 | a row's video carries the file uri of its path and its display name as title, with defaults everywhere else |
| VideoRepository.GetFolders | app/src/main/java/com/ahmadzafartech/nextgenplayer/data/VideoRepository.kt:14-39 | the cursor loop builds the grouping that folds every row into its folder's list, in row order |
| VideoRepository.GetVideosInFolder | app/src/main/java/com/ahmadzafartech/nextgenplayer/data/VideoRepository.kt:41-43 | the lookup gives the videos of exactly that folder's rows, in row order, and the empty list for an unknown folder |
| VideoRepository.InsertFacts | app/src/main/java/com/ahmadzafartech/nextgenplayer/data/VideoRepository.kt:32-35 | one step creates the key on first sight and appends the video; keys stay distinct and match the order |
| VideoRepository.GroupMatchesReference | app/src/main/java/com/ahmadzafartech/nextgenplayer/data/VideoRepository.kt:26-36 | a key exists exactly when some row is in that folder, so no group is empty; each group is that folder's videos in row order |
| VideoRepository.RowInItsGroup | app/src/main/java/com/ahmadzafartech/nextgenplayer/data/VideoRepository.kt:29-35 | every row's video is in the group keyed by its own folder name |
| VideoRepository.GroupHoldsOnlyItsFolder | app/src/main/java/com/ahmadzafartech/nextgenplayer/data/VideoRepository.kt:29-35 | every video of a group comes from a row of that folder |
| VideoRepository.InsertAddsOne | app/src/main/java/com/ahmadzafartech/nextgenplayer/data/VideoRepository.kt:32-35 | each step adds exactly one to the total of the group sizes |
| VideoRepository.GroupSizesSum | app/src/main/java/com/ahmadzafartech/nextgenplayer/data/VideoRepository.kt:26-36 | the group sizes add up to the number of rows |
| VideoRepository.FolderOfPlainPath | app/src/main/java/com/ahmadzafartech/nextgenplayer/data/VideoRepository.kt:29 | a file `dir/folder/file` is grouped under `folder` |
| VideoRepository.FolderOfRootFile | app/src/main/java/com/ahmadzafartech/nextgenplayer/data/VideoRepository.kt:29 | a file directly under `/` is grouped under the empty name, because the root's name is empty |
| VideoRepository.FolderOfBareName | app/src/main/java/com/ahmadzafartech/nextgenplayer/data/VideoRepository.kt:29 | a bare file name has no parent and is grouped under `Unknown` |
| FolderViewModel.Capitalize | app/src/main/java/com/ahmadzafartech/nextgenplayer/viewmodel/FolderViewModel.kt:22 | only the first character is replaced by its upper case; the rest is kept |
| FolderViewModel.FoldersOf | app/src/main/java/com/ahmadzafartech/nextgenplayer/viewmodel/FolderViewModel.kt:21-32 | one folder per key, in key order, each built from its key and group |
| FolderViewModel.IndexOf | app/src/main/java/com/ahmadzafartech/nextgenplayer/viewmodel/FolderViewModel.kt:47 | the first position holding the folder, or -1 exactly when it is absent |
| FolderViewModel.FolderViewModel.LoadFolders | app/src/main/java/com/ahmadzafartech/nextgenplayer/viewmodel/FolderViewModel.kt:17-32 | after clearing and scanning, the list is one folder per map entry in map order |
| FolderViewModel.FolderViewModel.OnThumbnail | app/src/main/java/com/ahmadzafartech/nextgenplayer/viewmodel/FolderViewModel.kt:46-51 | a finished thumbnail job makes exactly the thumbnail update defined for it |
| FolderViewModel.LoadedFolder | app/src/main/java/com/ahmadzafartech/nextgenplayer/viewmodel/FolderViewModel.kt:22-30 | each loaded folder has its key as name, the capitalised key as title, no thumbnail, its group size (at least 1) as count and its first video's path |
| FolderViewModel.FolderCountsSum | app/src/main/java/com/ahmadzafartech/nextgenplayer/viewmodel/FolderViewModel.kt:30 | the listed counts add up to the group sizes |
| FolderViewModel.LoadedCountsSum | app/src/main/java/com/ahmadzafartech/nextgenplayer/viewmodel/FolderViewModel.kt:19-32 | the listed counts add up to the number of scanned rows |
| FolderViewModel.LoadedIndexOf | app/src/main/java/com/ahmadzafartech/nextgenplayer/viewmodel/FolderViewModel.kt:46-49 | after a load each thumbnail job finds its own folder's position |
| FolderViewModel.ThumbnailUpdate | app/src/main/java/com/ahmadzafartech/nextgenplayer/viewmodel/FolderViewModel.kt:46-50 | the length is kept; with no frame or no equal entry nothing changes; otherwise only the first equal entry changes, and only its thumbnail |
| VideoListViewModel.ParseDuration | app/src/main/java/com/ahmadzafartech/nextgenplayer/viewmodel/VideoListViewModel.kt:36-37 | absent metadata gives no duration; present metadata gives its `toLongOrNull` value |
| VideoListViewModel.IndexOfUri | app/src/main/java/com/ahmadzafartech/nextgenplayer/viewmodel/VideoListViewModel.kt:43 | the first entry with the uri, or -1 exactly when no entry has it |
| VideoListViewModel.VideoListViewModel.LoadVideos | app/src/main/java/com/ahmadzafartech/nextgenplayer/viewmodel/VideoListViewModel.kt:18-23 | after a load the list is the repository's list for the folder, in order |
| VideoListViewModel.VideoListViewModel.OnExtracted | app/src/main/java/com/ahmadzafartech/nextgenplayer/viewmodel/VideoListViewModel.kt:42-53 | one completion makes exactly the enrichment defined for it |
| VideoListViewModel.VideoListViewModel.EnrichAll | app/src/main/java/com/ahmadzafartech/nextgenplayer/viewmodel/VideoListViewModel.kt:26-55 | the background pass applies each completion in list order |
| VideoListViewModel.EnrichedEffect | app/src/main/java/com/ahmadzafartech/nextgenplayer/viewmodel/VideoListViewModel.kt:43-53 | the length and every uri are kept; a failure or an unknown uri changes nothing; otherwise the first entry with the uri becomes the video with its frame and parsed duration, and every other entry is kept |
| VideoListViewModel.EnrichedAllKeepsUris | app/src/main/java/com/ahmadzafartech/nextgenplayer/viewmodel/VideoListViewModel.kt:27-50 | a whole pass keeps the list's length and uris |
| VideoListViewModel.EnrichedLandsOnOwnEntry | app/src/main/java/com/ahmadzafartech/nextgenplayer/viewmodel/VideoListViewModel.kt:43-49 | with distinct uris, the completion for entry i updates entry i |
| VideoListViewModel.DurationRoundTrip | app/src/main/java/com/ahmadzafartech/nextgenplayer/viewmodel/VideoListViewModel.kt:36-37 | a duration stored as decimal text is read back as is |
| Domain.Uris | app/src/main/java/com/ahmadzafartech/nextgenplayer/viewmodel/VideoPlayerViewModel.kt:31 | the media items are the playlist's uris, one per video, in order |
| VideoPlayerViewModel.SetPlaylistSpec | app/src/main/java/com/ahmadzafartech/nextgenplayer/viewmodel/VideoPlayerViewModel.kt:24-47 | an empty list changes nothing; otherwise the playlist is the list, the index is the clamped start, a new engine starts there at position 0 and plays, and `isPlaying` is set |
| VideoPlayerViewModel.SeekTargetAsWritten | app/src/main/java/com/ahmadzafartech/nextgenplayer/viewmodel/VideoPlayerViewModel.kt:62 | as written, the target fails exactly when the duration is negative, and otherwise lies in [0, duration] |
| VideoPlayerViewModel.SeekTarget | app/src/main/java/com/ahmadzafartech/nextgenplayer/viewmodel/VideoPlayerViewModel.kt:60-65 | the target is never negative, never past a known duration, and is the requested position whenever that is in range |
| VideoPlayerViewModel.CurrentVideoOf | app/src/main/java/com/ahmadzafartech/nextgenplayer/viewmodel/VideoPlayerViewModel.kt:20-22 | the current video is the playlist entry at the index when the index is in range, and null otherwise |
| VideoPlayerViewModel.VideoPlayerViewModel.constructor | app/src/main/java/com/ahmadzafartech/nextgenplayer/viewmodel/VideoPlayerViewModel.kt:16-19 | no engine, an empty playlist, index 0, not playing |
| VideoPlayerViewModel.VideoPlayerViewModel.CurrentVideo | app/src/main/java/com/ahmadzafartech/nextgenplayer/viewmodel/VideoPlayerViewModel.kt:20-22 | the getter is the lookup above on the current fields |
| VideoPlayerViewModel.VideoPlayerViewModel.SetPlaylist | app/src/main/java/com/ahmadzafartech/nextgenplayer/viewmodel/VideoPlayerViewModel.kt:24-47 | the fields change as `SetPlaylistSpec` says, and the invariant holds |
| VideoPlayerViewModel.VideoPlayerViewModel.PlayPause | app/src/main/java/com/ahmadzafartech/nextgenplayer/viewmodel/VideoPlayerViewModel.kt:49-54 | with an engine, its play flag flips and `isPlaying` takes the new value; without one nothing changes |
| VideoPlayerViewModel.VideoPlayerViewModel.SeekToPosition | app/src/main/java/com/ahmadzafartech/nextgenplayer/viewmodel/VideoPlayerViewModel.kt:56-58 | with an engine, its position becomes the argument; without one nothing changes |
| VideoPlayerViewModel.VideoPlayerViewModel.SeekBy | app/src/main/java/com/ahmadzafartech/nextgenplayer/viewmodel/VideoPlayerViewModel.kt:60-65 | with an engine, its position becomes the corrected clamped target |
| VideoPlayerViewModel.VideoPlayerViewModel.Next | app/src/main/java/com/ahmadzafartech/nextgenplayer/viewmodel/VideoPlayerViewModel.kt:67-73 | the fields change as `next` specifies, and the index stays in the playlist |
| VideoPlayerViewModel.VideoPlayerViewModel.Previous | app/src/main/java/com/ahmadzafartech/nextgenplayer/viewmodel/VideoPlayerViewModel.kt:75-81 | the fields change as `previous` specifies, and the index stays in the playlist |
| VideoPlayerViewModel.VideoPlayerViewModel.OnMediaItemTransition | app/src/main/java/com/ahmadzafartech/nextgenplayer/viewmodel/VideoPlayerViewModel.kt:37-39 | the index follows the engine's current item; nothing else changes |
| VideoPlayerViewModel.VideoPlayerViewModel.OnIsPlayingChanged | app/src/main/java/com/ahmadzafartech/nextgenplayer/viewmodel/VideoPlayerViewModel.kt:41-43 | `isPlaying` takes the engine's report; nothing else changes |
| VideoPlayerViewModel.VideoPlayerViewModel.OnCleared | app/src/main/java/com/ahmadzafartech/nextgenplayer/viewmodel/VideoPlayerViewModel.kt:83-87 | the engine is released and dropped; the rest is kept |
| VideoPlayerViewModel.TransitionsKeepValid | app/src/main/java/com/ahmadzafartech/nextgenplayer/viewmodel/VideoPlayerViewModel.kt:24-81 | every operation keeps the index within a non-empty playlist and keeps the engine on the playlist's items at the index |
| VideoPlayerViewModel.NextMoves | app/src/main/java/com/ahmadzafartech/nextgenplayer/viewmodel/VideoPlayerViewModel.kt:67-73 | before the last item `next` adds exactly one and restarts the engine there, playing; on the last item nothing changes |
| VideoPlayerViewModel.PreviousMoves | app/src/main/java/com/ahmadzafartech/nextgenplayer/viewmodel/VideoPlayerViewModel.kt:75-81 | after the first item `previous` subtracts exactly one and restarts the engine at the new item's start, playing; on the first item nothing changes |
| VideoPlayerViewModel.PreviousAfterNext | app/src/main/java/com/ahmadzafartech/nextgenplayer/viewmodel/VideoPlayerViewModel.kt:67-81 | `previous` after a moving `next` returns to the same index and playlist, with the engine restarted on that item |
| VideoPlayerViewModel.PlayPauseTwice | app/src/main/java/com/ahmadzafartech/nextgenplayer/viewmodel/VideoPlayerViewModel.kt:49-54 | `isPlaying` takes the flipped flag; two presses restore the engine |
| VideoPlayerViewModel.CurrentVideoPresent | app/src/main/java/com/ahmadzafartech/nextgenplayer/viewmodel/VideoPlayerViewModel.kt:20-22 | in any valid state a non-empty playlist has a current video, the entry at the index |
| VideoPlayerViewModel.SeekTargetAgrees | app/src/main/java/com/ahmadzafartech/nextgenplayer/viewmodel/VideoPlayerViewModel.kt:62 | wherever the source's clamp succeeds, the corrected target equals it |
| VideoPlayerViewModel.SeekThrowsWhileDurationUnset | app/src/main/java/com/ahmadzafartech/nextgenplayer/viewmodel/VideoPlayerViewModel.kt:62 | with the duration still unset, the source's clamp fails for every position and offset; the corrected target only bounds at 0 |
| VideoPlayerScreen.Classify | app/src/main/java/com/ahmadzafartech/nextgenplayer/ui/player/VideoPlayerScreen.kt:161-166 | a decided mode, each in both directions: seek iff the drag is more horizontal than vertical; otherwise brightness for the left third, volume for the right third, speed in between |
| VideoPlayerScreen.StepVolume | app/src/main/java/com/ahmadzafartech/nextgenplayer/ui/player/VideoPlayerScreen.kt:186-188 | the new volume lies in [0, max], and it is one more or one less than the current volume whenever that step stays in range |
| VideoPlayerScreen.StepBrightness | app/src/main/java/com/ahmadzafartech/nextgenplayer/ui/player/VideoPlayerScreen.kt:181 | the brightness lies in [0.1, 1.0]; it is the current value plus 0.02 for an upward step, or minus 0.02 for a downward one, whenever that stays in range, and it never moves against the drag |
| VideoPlayerScreen.StepSpeed | app/src/main/java/com/ahmadzafartech/nextgenplayer/ui/player/VideoPlayerScreen.kt:192 | the speed lies in [0.5, 2.0]; it is the current value plus 0.05 for an upward step, or minus 0.05 for a downward one, whenever that stays in range, and it never moves against the drag |
| VideoPlayerScreen.SeekOffset | app/src/main/java/com/ahmadzafartech/nextgenplayer/ui/player/VideoPlayerScreen.kt:175 | the seek offset has the sign of the horizontal drag, and it is `deltaX / width · 90000` truncated toward zero: within one of it and never further from zero |
| VideoPlayerScreen.GestureDetector.OnDown | app/src/main/java/com/ahmadzafartech/nextgenplayer/ui/player/VideoPlayerScreen.kt:147-152 | the touch is consumed, and the detector's variables change as `onDown` specifies |
| VideoPlayerScreen.GestureDetector.OnScroll | app/src/main/java/com/ahmadzafartech/nextgenplayer/ui/player/VideoPlayerScreen.kt:154-199 | the movement is consumed exactly when it has a start point, and the variables and controls change as `onScroll` specifies, with the view's width as read at that movement |
| VideoPlayerScreen.OnDownResets | app/src/main/java/com/ahmadzafartech/nextgenplayer/ui/player/VideoPlayerScreen.kt:147-152 | `onDown` resets the mode, records the touch height and leaves the controls alone |
| VideoPlayerScreen.ModeSticks | app/src/main/java/com/ahmadzafartech/nextgenplayer/ui/player/VideoPlayerScreen.kt:160-167 | once decided, the mode stays the same for any later sequence of movements |
| VideoPlayerScreen.FirstMoveDecides | app/src/main/java/com/ahmadzafartech/nextgenplayer/ui/player/VideoPlayerScreen.kt:147-167 | after `onDown`, the first movement's mode is the classification of its displacement from the start point and of the start's third of the view, and the rest of the gesture keeps it |
| VideoPlayerScreen.DeadZone | app/src/main/java/com/ahmadzafartech/nextgenplayer/ui/player/VideoPlayerScreen.kt:169-170 | a movement of under 8 px from the last step changes no control, no step height and no speed |
| VideoPlayerScreen.StepTaken | app/src/main/java/com/ahmadzafartech/nextgenplayer/ui/player/VideoPlayerScreen.kt:169-171 | a larger movement becomes the new step height |
| VideoPlayerScreen.ControlsStayInRange | app/src/main/java/com/ahmadzafartech/nextgenplayer/ui/player/VideoPlayerScreen.kt:173-195 | whatever the state before, a step leaves speed (also the engine's), brightness, volume and a seek target each within its range |
| VideoPlayerScreen.VolumeStep | app/src/main/java/com/ahmadzafartech/nextgenplayer/ui/player/VideoPlayerScreen.kt:186-188 | in volume mode the new volume is the current one plus or minus one, up when the finger moved up, clamped to [0, max] |
| VideoPlayerScreen.SeekStep | app/src/main/java/com/ahmadzafartech/nextgenplayer/ui/player/VideoPlayerScreen.kt:174-176 | in seek mode a step seeks to the current position plus the drag's offset, clamped by the corrected target |
| VideoPlayerScreen.BrightnessFromNoOverride | app/src/main/java/com/ahmadzafartech/nextgenplayer/ui/player/VideoPlayerScreen.kt:181 | from the window's "no override" value of -1, the first step in either direction sets 0.1 |
| VideoPlayerScreen.OrientationFor | app/src/main/java/com/ahmadzafartech/nextgenplayer/ui/player/VideoPlayerScreen.kt:95-100 | 80..100 gives reverse landscape, 260..280 landscape, 350..360 or 0..10 portrait; any other angle keeps the current orientation |
| VideoPlayerScreen.OrientationListener.constructor | app/src/main/java/com/ahmadzafartech/nextgenplayer/ui/player/VideoPlayerScreen.kt:67-68 | the screen starts unlocked, in the unspecified orientation |
| VideoPlayerScreen.OrientationListener.OnOrientationChanged | app/src/main/java/com/ahmadzafartech/nextgenplayer/ui/player/VideoPlayerScreen.kt:93-101 | when locked, or for an unknown angle, nothing changes; otherwise the orientation is the mapped one and it is requested |
| VideoPlayerScreen.OrientationListener.ToggleLock | app/src/main/java/com/ahmadzafartech/nextgenplayer/ui/player/VideoPlayerScreen.kt:234-238 | the lock flips; the listener effect keyed on it is disposed, which requests the unspecified orientation (line 107) |
| VideoPlayerScreen.OrientationIdempotent | app/src/main/java/com/ahmadzafartech/nextgenplayer/ui/player/VideoPlayerScreen.kt:95-100 | the same angle read twice gives the same orientation as once |
| VideoPlayerScreen.ResumeSeek | app/src/main/java/com/ahmadzafartech/nextgenplayer/ui/player/VideoPlayerScreen.kt:80-85 | a seek happens exactly when a saved position exists and is over 2000 ms, and it goes to that position |
| VideoPlayerScreen.FormatTimeMatchesUnderAnHour | app/src/main/java/com/ahmadzafartech/nextgenplayer/ui/player/VideoPlayerScreen.kt:291-296 | under an hour, `formatTime` prints what `formatMillis` prints |
| VideoPlayerScreen.FormatTimeAnHour | app/src/main/java/com/ahmadzafartech/nextgenplayer/ui/player/VideoPlayerScreen.kt:291-296 | at one hour `formatTime` prints `60:00`, where `formatMillis` prints `1:00:00` |
| VideoPlayerScreen.FormatTimeNegative | app/src/main/java/com/ahmadzafartech/nextgenplayer/ui/player/VideoPlayerScreen.kt:291-296 | for every negative time under a minute the minutes are `00`; under a second the text is `00:00`, and from one second on the seconds field is the negative whole seconds (`-1500` gives `00:-1`) |
| VideoOrientationManager.Classify | app/src/main/java/com/ahmadzafartech/nextgenplayer/ui/player/VideoOrientationManager.kt:18-22 | landscape exactly for 60..120 or 240..300; portrait for every other angle |
| VideoOrientationManager.OrientationManager.constructor | app/src/main/java/com/ahmadzafartech/nextgenplayer/ui/player/VideoOrientationManager.kt:13 | the manager starts in portrait, with nothing requested |
| VideoOrientationManager.OrientationManager.OnOrientationChanged | app/src/main/java/com/ahmadzafartech/nextgenplayer/ui/player/VideoOrientationManager.kt:15-28 | the last orientation and the request log change as one reading specifies |
| VideoOrientationManager.UnknownIgnored | app/src/main/java/com/ahmadzafartech/nextgenplayer/ui/player/VideoOrientationManager.kt:16 | an unknown reading changes nothing and requests nothing |
| VideoOrientationManager.RequestOnlyOnChange | app/src/main/java/com/ahmadzafartech/nextgenplayer/ui/player/VideoOrientationManager.kt:24-27 | a request is issued exactly when a known reading's class differs from the last one, and it asks for that class |
| VideoOrientationManager.KnownReadingSets | app/src/main/java/com/ahmadzafartech/nextgenplayer/ui/player/VideoOrientationManager.kt:18-27 | after any known reading the last orientation is its class |
| VideoOrientationManager.FirstPortraitSilent | app/src/main/java/com/ahmadzafartech/nextgenplayer/ui/player/VideoOrientationManager.kt:13-24 | from the initial portrait, a portrait reading requests nothing |
| VideoOrientationManager.SameReadingTwice | app/src/main/java/com/ahmadzafartech/nextgenplayer/ui/player/VideoOrientationManager.kt:24-27 | the second of two equal readings never requests anything |
| VideoOrientationManager.RunAlternates | app/src/main/java/com/ahmadzafartech/nextgenplayer/ui/player/VideoOrientationManager.kt:13-28 | over any sequence of readings the manager stays portrait or landscape; no request repeats the one before, the first is never portrait, and the last orientation is the latest request |
| VideoListScreen.IndexOfFrom | app/src/main/java/com/ahmadzafartech/nextgenplayer/ui/video/VideoListScreen.kt:110 | the search finds the first matching position from the start, or -1 exactly when none matches |
| VideoListScreen.ContainsIff | app/src/main/java/com/ahmadzafartech/nextgenplayer/ui/video/VideoListScreen.kt:110 | a title contains the query exactly when the query matches, ignoring case, at some position |
| VideoListScreen.EmptyQueryContained | app/src/main/java/com/ahmadzafartech/nextgenplayer/ui/video/VideoListScreen.kt:110 | every title contains the empty query |
| VideoListScreen.FilterMembership | app/src/main/java/com/ahmadzafartech/nextgenplayer/ui/video/VideoListScreen.kt:109-110 | a video is shown exactly when it is loaded and its title contains the query, ignoring case |
| VideoListScreen.FilterByTitleMembership | app/src/main/java/com/ahmadzafartech/nextgenplayer/ui/video/VideoListScreen.kt:110 | the title filter keeps exactly the loaded videos whose titles contain the query |
| VideoListScreen.FilterAppend | app/src/main/java/com/ahmadzafartech/nextgenplayer/ui/video/VideoListScreen.kt:110 | filtering a concatenation concatenates the filtered parts, so the loaded order is kept |
| VideoListScreen.FilterShrinks | app/src/main/java/com/ahmadzafartech/nextgenplayer/ui/video/VideoListScreen.kt:110 | the filter never shows more videos than were loaded |
| VideoListScreen.EmptyQueryKeepsAll | app/src/main/java/com/ahmadzafartech/nextgenplayer/ui/video/VideoListScreen.kt:109-110 | the title filter with the empty query would show the whole list, so the empty-query shortcut shows the same |
| VideoListScreen.ClosedSearchShowsAll | app/src/main/java/com/ahmadzafartech/nextgenplayer/ui/video/VideoListScreen.kt:109 | with the query cleared the list is shown as loaded |
| VideoListScreen.SearchBar.constructor | app/src/main/java/com/ahmadzafartech/nextgenplayer/ui/video/VideoListScreen.kt:100-101 | the search starts closed with an empty query |
| VideoListScreen.SearchBar.ToggleSearch | app/src/main/java/com/ahmadzafartech/nextgenplayer/ui/video/VideoListScreen.kt:140-142 | the search field flips; closing it clears the query, opening it keeps the query |
| VideoListScreen.SearchBar.OnQueryChange | app/src/main/java/com/ahmadzafartech/nextgenplayer/ui/video/VideoListScreen.kt:128 | the query becomes the typed text |
| VideoListScreen.TapToPlay | app/src/main/java/com/ahmadzafartech/nextgenplayer/ui/video/VideoListScreen.kt:180-192 | a tap on item i makes the filtered list the playlist with index i, playing, and item i the current video |

## Left out

- Platform I/O is not modelled: the MediaStore query, the frame and metadata extraction, DataStore reads and writes, and the share intent. Cursor rows, frames, the extraction's outcome and the saved position are parameters instead.
- The 2-second position-save loop, the 700 ms overlay timer and the overlay texts are not modelled. Neither are the lifecycle observer (pause and resume), the back handler and picture-in-picture. They are timers or platform calls with no state the model keeps.
- ExoPlayer is not modelled. It is an abstract record of items, media index, position, duration, play flag and speed. `prepare`, buffering, the end of an item and `release` beyond dropping the engine are not modelled.
- Coroutines are not modelled. Each background completion is a sequential call, applied in the order given, so interleavings are not modelled.
- Compose rendering, the folder screen, the player controls, the glow modifier, the bottom bar, navigation routes and permission checks are not part of this model. Neither is `GradientGenerator`, which seeds a library random generator from `String.hashCode`.
- Floating point is not modelled. Brightness, speed, touch coordinates and the seek offset are real numbers, so `Float` rounding is not captured.
- Case folding is not modelled. `Char.uppercase()` and `Char.equals(ignoreCase = true)` are function parameters, not Unicode tables.
- JvmLib.ParseLong: only ASCII digits are accepted; Kotlin's `toLongOrNull` also accepts other Unicode decimal digits.
- JvmLib.NatToString: writes the ASCII digits '0'-'9'. `String.format` uses the default locale's zero digit, so a locale with other digits (Arabic, Persian) prints other characters; the model assumes a locale whose zero digit is '0'.
- JvmLib.IntToString: the same ASCII-digit assumption as `NatToString`.
- JvmLib.Pad2: the same ASCII-digit assumption as `NatToString`, for the padding zero as well.
- VideoRepository.GetFolders: rows carry a non-null path and display name. The source reads both columns with `getString`, which gives null for a null column; a null path makes `File(path)` throw and a null name fails `Video`'s non-null title, aborting the whole scan. The model does not represent that failure.
- VideoRepository.RowVideo: `Uri.fromFile` resolves a relative path against the working directory, but the model keeps a relative path relative. The index stores absolute paths. Only Unix separators are modelled.
- VideoPlayerScreen.OnScrollSpec: requires a positive view width. A view of width 0 receives no touches; if it did, the float division would give an infinite or NaN offset, which the model does not represent.
- VideoPlayerScreen.GestureDetector.OnScroll: does not model 64-bit overflow of `currentPosition + seekMs`. Positions and offsets are far below the `Long` range.
- VideoPlayerScreen.GestureDetector.OnScroll: in volume mode the overlay text computes `(newVol * 100) / maxVolume`, which throws after the volume is set when the stream's maximum is 0. The overlay is not modelled, so the model returns normally there.
- VideoPlayerViewModel.VideoPlayerViewModel.SeekBy: does not model 64-bit overflow of `currentPosition + ms`. Positions and offsets are far below the `Long` range.
- VideoPlayerViewModel.VideoPlayerViewModel.SeekBy: the model uses the corrected target, not the throwing clamp. See Findings.
- VideoPlayerScreen.GestureDetector.OnScroll: in seek mode it uses the corrected target too. See Findings.
- Equality of `Uri`, `Bitmap` and `VideoFolder` is value equality of their modelled fields: path, frame handle, and all fields respectively.

## Findings

| source | as written | input that shows it | evidently intended | confidence | as-written member | corrected member |
|---|---|---|---|---|---|---|
| app/src/main/java/com/ahmadzafartech/nextgenplayer/viewmodel/VideoPlayerViewModel.kt:62 | `seekBy` clamps with `coerceIn(0, duration)`. That throws `IllegalArgumentException` when the duration is below 0. | `seekBy(10_000)` right after `setPlaylist`, before the engine knows the duration, which it then reports as `C.TIME_UNSET` (`Long.MIN_VALUE + 1`) | seek to `position + ms`, never below 0, and bounded by the duration only once it is known | medium, not executed | VideoPlayerViewModel.SeekThrowsWhileDurationUnset | VideoPlayerViewModel.SeekTarget |
| app/src/main/java/com/ahmadzafartech/nextgenplayer/ui/player/VideoPlayerScreen.kt:176 | the seek gesture clamps with the same `coerceIn(0, exoPlayer.duration)` | a horizontal drag before the current item's duration is known (`C.TIME_UNSET`) | the same clamp as above | medium, not executed | VideoPlayerViewModel.SeekThrowsWhileDurationUnset | VideoPlayerViewModel.SeekTarget |
