# Music Stream client core, modelled in Dafny

This project models the core of the Music Stream iOS client. That core has three parts:

- **The offline cache** (`OfflineManager`). It keeps an index of downloaded playlists and tracks. Each track knows the playlists it belongs to, and each playlist lists its track ids in order. Downloading a playlist or a single song adds to this index. Removing a playlist or a song detaches the links and deletes orphaned files. The index is written to a metadata file after every change and reloaded at start-up.
- **The audio player's queue** (`AudioPlayerManager`). It holds the play queue and its cursor, the recently-played history (at most 25 songs, one per id), the end-of-queue recommendation step, and the choice of stream URL.
- **The value types and their JSON coding**: `Song`, `DownloadStatus`/`DownloadItem`, `Playlist`/`PlaylistTrackItem` and `User`. It also covers the tolerant decoding of remote search tracks, the search response's array fallbacks, the stream endpoint and the patch applied to a playlist's track listing.

How the Swift code is modelled:

- **Each class is a class.** `OfflineManager` and `AudioPlayerManager` become Dafny classes whose methods update their fields.
- **Main-queue blocks.** Every block the Swift code sends to the main queue is one method, run atomically.
- **Background work.** A background download is split in two: the step that starts it, and the step that applies its outcome. The outcome (`Fetch`) is a parameter.
- **Ghost fields for side effects.** The metadata file, deleted files, started playback and seeks are recorded in ghost fields.
- **Value types.** These are datatypes. JSON is an abstract `Json` value. Decoding returns a `Result`.

Modules:

- Shared helpers:
  - `Wrappers`: `Option`.
  - `Text`: digits, clock strings, truncating division, ASCII lower-casing.
  - `Json`: JSON values and the keyed decoders.
- Value types:
  - `SongModel`, `DownloadModel`, `PlaylistModel`, `UserModel`.
  - `RemoteModel`: the value parts of `APIService`.
- The offline cache:
  - `OfflineIndex`: the index as values, with the link invariants and their preservation lemmas.
  - `Offline`: the `OfflineManager` class.
- The player:
  - `Recommend`: the recommendation ranking.
  - `Player`: the `AudioPlayerManager` class.

## Model

| member | source | states |
|---|---|---|
| Text.TDiv | Services/APIService.swift:1000 | Swift integer division truncates toward zero: it agrees with Euclidean division on non-negative numbers and negates it on negative ones |
| Text.TMod | Models/Song.swift:24-25 | the remainder pairs with the truncated quotient (`a == b*q + r`) and is never positive for a negative dividend |
| Text.ClockRoundTrip | Models/Song.swift:22-27 | the `%d:%02d` rendering of a non-negative duration has the minutes before a colon and two second digits, and reads back to the same number of seconds |
| Text.IntToStringRoundTrip | Models/Song.swift:30 | the decimal rendering of any integer, negative included, parses back to that integer |
| Text.Lower | Models/Download.swift:17 | lower-casing keeps the length and maps each character on its own |
| SongModel.DurationString | Models/Song.swift:22-27 | `0:00` without a duration; otherwise minutes, colon, two-digit seconds that parse back to the duration |
| SongModel.StringId | Models/Song.swift:30 | the string id parses back to the numeric id |
| SongModel.AlbumArtURL | Models/Song.swift:33-47 | no URL exactly when the cover path is missing or empty; an absolute `http(s)` path is returned as-is; a relative one is joined with `/` to the saved server URL (default `https://stream.noxamusic.com`), after one leading slash is dropped from the path |
| SongModel.AlbumArtURLIdempotent | Models/Song.swift:33-47 | resolving an already resolved cover URL changes nothing |
| SongModel.DecodeSong | Models/Song.swift:8-20 | a decoded song's id is the object's integer `id`; an object without `id` fails with a missing-key error |
| SongModel.EncodeSong | Models/Song.swift:49-62 | the encoded song is an object with an `id` and only the coding keys |
| SongModel.SongRoundTrip | Models/Song.swift:49-62 | decoding what the synthesized encoder writes gives back the same song, every optional field included |
| DownloadModel.ParseStatus | Models/Download.swift:16-25 | each status is chosen exactly when the lower-cased raw value is its name; both `cancelled` and `canceled` give Cancelled; anything else gives Unknown |
| DownloadModel.ParseRawValue | Models/Download.swift:8-25 | parsing a status's raw value gives the status back |
| DownloadModel.ParseUpperCase | Models/Download.swift:16-25 | matching ignores case (`COMPLETED`, `Canceled`), and an unknown string gives Unknown |
| DownloadModel.DisplayNameInjective | Models/Download.swift:27-36 | different statuses have different display names |
| DownloadModel.Tint | Models/Download.swift:38-46 | `success` exactly for Completed, `destructive` exactly for Failed, `accent` exactly while searching or downloading, `secondary` otherwise |
| DownloadModel.Status | Models/Download.swift:76-78 | an item's status is its parsed raw status; a known status's raw value is the lower-cased raw string, or that string is `canceled` |
| PlaylistModel.SongCount | Models/Playlist.swift:17 | a playlist's song count is its track count |
| PlaylistModel.DecodeTrackItem | Models/Playlist.swift:55-72 | a bare song decodes as an entry carrying that song and its link id; otherwise decoding succeeds exactly when the payload is an object whose ids decode and whose `song`, if present, else `track`, if present, is a song, and the song comes from that key |
| PlaylistModel.EncodeTrackItem | Models/Playlist.swift:74-79 | the encoded entry nests the song under `song` and writes no `id` key |
| PlaylistModel.TrackItemRoundTrip | Models/Playlist.swift:55-79 | decoding an encoded entry gives back the same entry |
| PlaylistModel.TrackKeyFallback | Models/Playlist.swift:66-67 | a wrapper with only a `track` key decodes to the song under it |
| PlaylistModel.SongKeyWins | Models/Playlist.swift:55-72 | when both `song` and `track` are present, `song` is used |
| UserModel.AdminFlag | Models/User.swift:37-43 | `is_admin` is read as a boolean, or as an integer meaning true when non-zero; any other value, or none, gives no flag |
| UserModel.DecodeUser | Models/User.swift:31-46 | decoding fails without an integer `id` or a string `username`; a decoded user carries those two values and the admin flag |
| UserModel.EncodeUser | Models/User.swift:48-57 | `is_admin` is written, as a boolean, exactly when the flag is known |
| UserModel.UserRoundTrip | Models/User.swift:31-57 | decoding an encoded user gives back the same user |
| UserModel.IntegerAdminFlags | Models/User.swift:37-43 | an integer `is_admin` means admin exactly when it is non-zero |
| RemoteModel.Subtitle | Services/APIService.swift:925-930 | the artist if non-empty, else a non-empty album title, else the capitalized non-empty source, else empty |
| RemoteModel.RemoteDurationString | Services/APIService.swift:937-942 | empty exactly when there is no positive duration; otherwise a clock string that reads back to the duration |
| RemoteModel.DecodeArtistName | Services/APIService.swift:1040-1043 | an artist payload yields a name exactly when it is an object whose `name` is a string and whose `id` is absent, null or a string; the name is that string |
| RemoteModel.DecodeAlbumTitle | Services/APIService.swift:1045-1068 | an album payload decodes exactly when it is an object; its title is the string `title`, else the string `name`, else absent |
| RemoteModel.DecodeRemoteTrack | Services/APIService.swift:962-1011 | decoding succeeds exactly for objects; the id falls back from string to integer to a generated id; the title from `title` to `name` to `Unknown Title`; the artist from an artist object's name to an `artist` string to `artist_name` to empty; the album from an album object's title (even when it has none) to an `album` string to `album_name`; the duration from `duration` to `duration_ms` divided by 1000 with truncation; the image from `image` to `picture` to `cover`; preview, source and type are their strings when present |
| RemoteModel.EncodeRemoteTrack | Services/APIService.swift:1013-1026 | the encoding is an object that writes neither `artist` nor `album` |
| RemoteModel.RemoteTrackRoundTrip | Services/APIService.swift:962-1026 | decoding an encoded remote track gives back the same track |
| RemoteModel.ObjectFallbacks | Services/APIService.swift:962-1011 | an artist object beats `artist_name`; an album object without a title still beats `album_name`; a negative `duration_ms` truncates toward zero |
| RemoteModel.ResolvedTracks | Services/APIService.swift:1036-1038 | the first of `data`, `items`, `results`, `tracks` that is present, else no tracks |
| RemoteModel.GetStreamURL | Services/APIService.swift:481-484 | the URL is the base plus `/api/library/stream/`, followed by text that parses back to the song id |
| RemoteModel.PatchPlaylistSongs | Services/APIService.swift:366-372 | one song per entry, in order, equal to the entry's song except for the link id, which is the song's own if present, else the entry's |
| RemoteModel.PatchKeepsDirectSongs | Services/APIService.swift:366-372 | an entry decoded from a bare song comes out as exactly that song |
| OfflineIndex.DisplayPlaylist | Services/OfflineManager.swift:12-20 | the shown playlist keeps id, name and description, counts the downloaded song ids, and prefers the cached artwork over the playlist's own cover |
| OfflineIndex.CachedSongsSound | Services/OfflineManager.swift:99-119 | every song listed for a playlist is the cached song of one of its ids |
| OfflineIndex.CachedSongsComplete | Services/OfflineManager.swift:99-119 | every id of the playlist that has a cached track contributes its song |
| OfflineIndex.CachedSongsAllPresent | Services/OfflineManager.swift:99-119 | when all ids are cached, the listing is their songs, in playlist order |
| OfflineIndex.LinkEntry | Services/OfflineManager.swift:320-340 | linking a song to a playlist entry appends its id once, keeps existing artwork or takes the new one, and keeps ids free of duplicates |
| OfflineIndex.AddMembership | Services/OfflineManager.swift:332-335 | only an already cached song gains the playlist in its membership; nothing else changes |
| OfflineIndex.StoredTrack | Services/OfflineManager.swift:342-368 | the stored track records the song and file; it keeps an existing track's memberships and artwork unless new artwork was fetched; it adds the playlist if there is one |
| OfflineIndex.AttachKeepsLinks | Services/OfflineManager.swift:320-340 | attaching keeps every entry filed under its own id and keeps the playlist/track cross-links |
| OfflineIndex.StoreKeepsLinks | Services/OfflineManager.swift:342-368 | storing keeps every entry filed under its own id and keeps the cross-links |
| OfflineIndex.DetachPlaylist | Services/OfflineManager.swift:208-228 | a track stays unless it is listed by the playlist and belongs to it alone; tracks that stay lose only that membership |
| OfflineIndex.Without | Services/OfflineManager.swift:235 | an id list without one id keeps every other id, in order, and stays duplicate-free |
| OfflineIndex.DetachSong | Services/OfflineManager.swift:230-248 | each playlist of the song loses the song and disappears when left empty; other playlists are unchanged |
| OfflineIndex.RemovePlaylistKeepsLinks | Services/OfflineManager.swift:208-228 | removing a playlist and detaching its tracks keeps entries keyed by id and the cross-links |
| OfflineIndex.RemoveSongKeepsLinks | Services/OfflineManager.swift:230-248 | removing a song and detaching it from its playlists keeps entries keyed by id and the cross-links |
| OfflineIndex.DetachIsPerPlaylist | Services/OfflineManager.swift:208-228 | a track shared by two playlists survives removal of either one |
| OfflineIndex.Index | Services/OfflineManager.swift:428-437 | loading a list with distinct ids files every element under its id and nothing else |
| OfflineIndex.Snapshot | Services/OfflineManager.swift:439-448 | the written list holds the value of each key in the given order |
| OfflineIndex.SnapshotRoundTrip | Services/OfflineManager.swift:428-448 | whatever order the values are written in, reloading them rebuilds the same map without duplicate ids |
| OfflineIndex.ReloadKeepsKeys | Services/OfflineManager.swift:428-448 | the persisted playlists and tracks reload to the same index |
| Offline.ScheduleArtwork | Services/OfflineManager.swift:385-401 | a fetch is scheduled only for a song with a cover URL and none pending |
| Offline.Capped | Services/OfflineManager.swift:403-407 | progress never exceeds 1 or the reported value; a value up to 1 is kept and a value of 1 or more gives exactly 1 |
| Offline.CountDoneAll | Services/OfflineManager.swift:274-293 | the completed count reaches the song count exactly when every song was cached or fetched |
| Offline.CountDoneNone | Services/OfflineManager.swift:274-293 | with nothing cached and every fetch failed, nothing is saved or counted |
| Offline.DownloadedPrefixStep | Services/OfflineManager.swift:274-293 | one more loop turn counts exactly the songs that are cached or fetched, and extends the handled prefix |
| Offline.Joined | Services/OfflineManager.swift:332-336 | a track gaining a playlist keeps its song, file, artwork and date and adds exactly that playlist |
| Offline.StoredPrefixStep | Services/OfflineManager.swift:277-291 | one more loop turn keeps every earlier song's track as stated: a cached track has gained the playlist, the first fetched copy of a song is the track `store` wrote with that fetch's file and artwork |
| Offline.HandledStep | Services/OfflineManager.swift:277-291 | one loop turn extends the handled prefix, its count, the stored tracks, the persisted metadata and the artwork scheduled |
| Offline.OfflineManager.constructor | Services/OfflineManager.swift:51-59 | a missing cache gives an empty index; a loaded one is indexed by id and is what the metadata file records; nothing is downloading or pending |
| Offline.OfflineManager.IsSongDownloaded | Services/OfflineManager.swift:121-130 | true exactly when the song has a cached track |
| Offline.OfflineManager.LocalFileName | Services/OfflineManager.swift:62-75 | a file exactly for a downloaded song, and it is that track's file |
| Offline.OfflineManager.IsPlaylistDownloaded | Services/OfflineManager.swift:77-86 | true exactly when the playlist is in the index |
| Offline.OfflineManager.IsPlaylistDownloading | Services/OfflineManager.swift:88-97 | true exactly while the playlist's download is active |
| Offline.OfflineManager.IsSongDownloading | Services/OfflineManager.swift:132-141 | true exactly while the song's single download runs |
| Offline.OfflineManager.SongsForPlaylist | Services/OfflineManager.swift:99-119 | nothing for an unknown playlist; otherwise at most one song per listed id |
| Offline.OfflineManager.PlaylistArtworkURL | Services/OfflineManager.swift:161-170 | the recorded artwork of a downloaded playlist, if any |
| Offline.OfflineManager.DownloadedPlaylists | Services/OfflineManager.swift:172-181 | every downloaded playlist appears, and nothing else |
| Offline.OfflineManager.AllDownloadedSongs | Services/OfflineManager.swift:183-193 | every downloaded track's song appears, and nothing else |
| Offline.OfflineManager.PersistCache | Services/OfflineManager.swift:439-448 | the metadata file holds the current index |
| Offline.OfflineManager.EnsureArtwork | Services/OfflineManager.swift:385-401 | pending fetches change as `ScheduleArtwork` says |
| Offline.OfflineManager.ArtworkURL | Services/OfflineManager.swift:143-159 | returns the track's cached artwork; a downloaded song without artwork gets a fetch scheduled, and otherwise nothing changes |
| Offline.OfflineManager.ArtworkFetched | Services/OfflineManager.swift:393-399 | the fetch stops pending; fetched artwork is recorded on a still cached track and persisted; links are kept |
| Offline.OfflineManager.Attach | Services/OfflineManager.swift:320-340 | without a playlist nothing changes; otherwise the playlist entry gains the song once, a cached track gains the membership, the index stays linked and is persisted |
| Offline.OfflineManager.Store | Services/OfflineManager.swift:342-368 | the song's track becomes `StoredTrack`, the playlist is linked if given, the index stays linked and is persisted |
| Offline.OfflineManager.DetachTrack | Services/OfflineManager.swift:213-222 | one listed track loses the playlist; a track left without playlists is removed with its file and artwork |
| Offline.OfflineManager.DetachAll | Services/OfflineManager.swift:212-223 | the tracks become `DetachPlaylist`, and exactly the orphans' files and artwork are deleted |
| Offline.OfflineManager.RemovePlaylist | Services/OfflineManager.swift:208-228 | an unknown playlist changes nothing; otherwise the playlist goes, its exclusive tracks and their files go, links are kept and the index is persisted |
| Offline.OfflineManager.DetachFromPlaylist | Services/OfflineManager.swift:234-241 | one playlist loses the song, and is dropped when left empty |
| Offline.OfflineManager.DetachFromPlaylists | Services/OfflineManager.swift:233-242 | the playlists become `DetachSong` over the song's memberships |
| Offline.OfflineManager.RemoveSong | Services/OfflineManager.swift:230-248 | an unknown song changes nothing; otherwise the track, its file and artwork go, its playlists lose it, links are kept and the index is persisted |
| Offline.OfflineManager.DownloadSong | Services/OfflineManager.swift:250-271 | a song already downloading changes nothing; a cached one is attached: its track gains the playlist, the playlist entry is created or extended with it and its artwork, and a missing cover is scheduled for fetching; otherwise its download starts |
| Offline.OfflineManager.FinishSongDownload | Services/OfflineManager.swift:259-270 | the download stops running; a failure sets the failure message and leaves the index alone; a saved file replaces exactly the song's track with the stored one and creates or extends the playlist entry, every other entry unchanged |
| Offline.OfflineManager.DownloadPlaylist | Services/OfflineManager.swift:195-206 | an empty list or an active download changes nothing; otherwise the playlist becomes active with progress 0 |
| Offline.OfflineManager.UpdateProgress | Services/OfflineManager.swift:403-407 | the playlist's progress becomes the capped value |
| Offline.OfflineManager.FinalizeDownload | Services/OfflineManager.swift:409-415 | the playlist stops being active, its progress is dropped, and the ready message is shown |
| Offline.OfflineManager.DownloadOne | Services/OfflineManager.swift:277-291 | a song counts exactly when it was cached or fetched; a cached song is attached (its track gains the playlist, the entry is created or extended, missing artwork is scheduled); a fetched one is stored as `StoredTrack` with the fetch's file and artwork and linked by `LinkEntry`; a counted song advances progress and persists the index; a failed one leaves the index alone and sets the failure message |
| Offline.OfflineManager.DownloadAll | Services/OfflineManager.swift:275-291 | the loop ends in the `Handled` state: the completed count is the number of cached-or-fetched songs, exactly the fetched ids are added, every counted song is linked, cached tracks gained the playlist, each first fetched copy is `store`'s track with its file and artwork, the index is persisted once anything counted, and only the songs' artwork may be scheduled |
| Offline.OfflineManager.PerformDownload | Services/OfflineManager.swift:274-293 | after the loop the fetched ids are added, other tracks and playlists are untouched, every counted song is linked, cached tracks gained the playlist, each first fetched copy holds that fetch's file and artwork, the index is persisted once anything counted (and untouched otherwise), the playlist stops being active and the ready message is shown |
| Recommend.MakeContext | Services/AudioPlayerManager.swift:354-358 | the context holds exactly the queue's ids, the queue's lower-cased artists, the queue's lower-cased albums (of songs that have one) and the recent songs' lower-cased artists |
| Recommend.Score | Services/AudioPlayerManager.swift:365-380 | a queue artist scores at least 25; a song matching nothing scores just its noise |
| Recommend.CandidatesSound | Services/AudioPlayerManager.swift:362-382 | every candidate is a library song not in the queue, with its score |
| Recommend.CandidatesComplete | Services/AudioPlayerManager.swift:362-382 | every library song not in the queue is a candidate |
| Recommend.SortByScore | Services/AudioPlayerManager.swift:386 | sorting is a permutation of the candidates |
| Recommend.SortByScoreDescending | Services/AudioPlayerManager.swift:386 | the sorted candidates are in non-increasing score order |
| Recommend.RankedSound | Services/AudioPlayerManager.swift:351-388 | every ranked song is in the library and not in the queue |
| Recommend.QueueArtistsFirst | Services/AudioPlayerManager.swift:351-388 | with noise in `[0, 5)`, a song by a queue artist ranks before a song that matches nothing |
| Recommend.Recommendations | Services/AudioPlayerManager.swift:384-387 | at most `count` songs |
| Recommend.ScoreLibrary | Services/AudioPlayerManager.swift:362-382 | the loop yields exactly the candidates |
| Recommend.ComputeRecommendations | Services/AudioPlayerManager.swift:351-388 | at most `count` songs, each from the library and not in the queue, the top of the ranking in order; none from an empty library |
| Player.Others | Services/AudioPlayerManager.swift:391-393 | dropping an id keeps only songs with other ids that were already there |
| Player.OthersUnique | Services/AudioPlayerManager.swift:391-393 | dropping an id from a history with unique ids keeps the ids unique |
| Player.Truncated | Services/AudioPlayerManager.swift:395-397 | the history is cut to its first 25 songs only when longer |
| Player.RecordedShape | Services/AudioPlayerManager.swift:390-398 | after recording, the song is first, the history holds at most 25 songs with unique ids, and every other song was already there under another id |
| Player.RecordedAgain | Services/AudioPlayerManager.swift:390-398 | recording the song already at the front changes nothing |
| Player.FirstIndexOfId | Services/AudioPlayerManager.swift:391 | the first position holding the id, or none when no song has it |
| Player.StreamURL | Services/AudioPlayerManager.swift:405-414 | the downloaded file if any; else the stream endpoint on the API service's base URL, or on the saved or default server |
| Player.AudioPlayerManager.constructor | Services/AudioPlayerManager.swift:20-37 | empty queue and history, nothing playing |
| Player.AudioPlayerManager.Resume | Services/AudioPlayerManager.swift:220-224 | playback is on |
| Player.AudioPlayerManager.Pause | Services/AudioPlayerManager.swift:226-230 | playback is off |
| Player.AudioPlayerManager.Seek | Services/AudioPlayerManager.swift:232-235 | the seek is issued to the player |
| Player.AudioPlayerManager.RecordPlay | Services/AudioPlayerManager.swift:390-398 | the song goes to the front of the history, other entries with its id go, and at most 25 are kept |
| Player.AudioPlayerManager.PlayCurrentSong | Services/AudioPlayerManager.swift:130-178 | without a current song nothing changes; otherwise its playback starts from zero and it is recorded in the history |
| Player.AudioPlayerManager.PlaySong | Services/AudioPlayerManager.swift:109-115 | the queue becomes just the song, at index 0 with no playlist; it plays from time 0, enters the history, and the library cache and loading flag are kept |
| Player.AudioPlayerManager.PlayQueue | Services/AudioPlayerManager.swift:117-123 | the queue and playlist are replaced and the start song plays from time 0 and enters the history; the library cache and loading flag are kept |
| Player.AudioPlayerManager.HandleQueueCompletion | Services/AudioPlayerManager.swift:290-294 | recommendations are requested only when none are already loading |
| Player.AudioPlayerManager.NextTrack | Services/AudioPlayerManager.swift:237-252 | an empty queue pauses and clears the current song and index; before the end the cursor advances and the next song plays from time 0 and enters the history; at the end the queue is kept and recommendations are requested unless already loading; the history changes only when a song plays |
| Player.AudioPlayerManager.PreviousTrack | Services/AudioPlayerManager.swift:254-266 | past three seconds, or at the first song, the song restarts by a seek to 0 and nothing else changes; otherwise the cursor steps back and that song plays from time 0 and enters the history |
| Player.AudioPlayerManager.RemoveCurrentSongFromQueue | Services/AudioPlayerManager.swift:268-288 | an empty queue changes nothing; otherwise the current song is cut out of the queue; the player stops and clears song, index, playlist and clock when the queue empties, else the cursor stays in range and that song plays from time 0 and enters the history |
| Player.AudioPlayerManager.LoadLibrary | Services/AudioPlayerManager.swift:316-349 | a cached library is reused; without the API the offline songs are used; otherwise the fetched library is cached, or the offline songs stand in |
| Player.AudioPlayerManager.RecommendationsArrived | Services/AudioPlayerManager.swift:294-313 | loading ends; with no recommendations playback pauses and nothing else changes; if the cursor has left the last song nothing else changes; only when the cursor is at the last song are the recommendations appended, the playlist cleared and the first new song played from time 0 and recorded |

## Left out

- Networking. `URLSession`, `downloadFile`, `fetchArtwork` and the library fetch are not modelled; their outcomes are parameters (`Fetch`, `fetched`). Temporary file names and UUIDs are inside those outcomes.
- Concurrency. Every main-queue hop is one atomic step, in program order. Interleavings are not modelled: two overlapping downloads of the same playlist, or the check-then-insert window in `downloadSong`. The `Thread.isMainThread` / `main.sync` branches of the accessors are one function.
- File system and persistence errors. Deleting a file, writing the metadata file and encoding are taken to succeed; they are recorded in ghost fields. `localURL` is modelled as the file name within the downloads directory.
- `deleteArtwork`'s `isFileURL` check: every artwork location removed is recorded, remote ones included.
- `URL(string:)` always succeeds in the model, so the `nil` results of `streamURL` and `getStreamURL` are not modelled.
- Swift `Double` is modelled as `real`. `Double.random(in: 0..<5)` is the `noise` parameter, one value per library song.
- Swift `Int` is unbounded here, so overflow traps are not modelled.
- JSON numbers are integers only. A fractional number such as `"duration": 215.5` is not modelled: the source rejects it as an `Int` and falls through to `duration_ms`, and the model has no value of that shape.
- `String.capitalized` is a parameter of `Subtitle`. `lowercased()` is ASCII-only.
- Dictionary iteration order is a parameter (`order`). So is the order used by `persistCache`.
- Swift's `sort` is not stable. The model's insertion sort keeps ties in library order, which is one of the orders Swift may produce.
- AVFoundation, the remote command center and Now Playing info are not modelled: players, time observers, audio sessions. So are `togglePlayPause`, `handlePreviewPlaybackStart`, `configure(with:)`, `cleanup` and the admin models. The time observer is not modelled: `currentTime` and `duration` are only ever reset to 0, by `PlayCurrentSong` and by `RemoveCurrentSongFromQueue` when the queue empties. A seek is recorded, not applied.
- `playerDidFinishPlaying` only calls `nextTrack()`, which is modelled.
- Views, `ConnectivityService`, authentication and the rest of `APIService` are not part of this model.
- Offline.OfflineManager.SongsForPlaylist: its own ensures bounds only the length; the listing's contents and order are stated by `OfflineIndex.CachedSongsSound`, `CachedSongsComplete` and `CachedSongsAllPresent`.
- SongModel.DecodeSong: its own ensures covers only the id; full decoding is stated through `SongRoundTrip`.
- Player.AudioPlayerManager.RecordPlay: the exact new history is stated when the old history has unique ids, which every state of the player keeps.
- Recommend.Recommendations: its own ensures bounds only the length; what the songs are is stated by `ComputeRecommendations`, `RankedSound` and `QueueArtistsFirst`.
