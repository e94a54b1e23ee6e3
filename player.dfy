/** The player store's state machine as pure transitions on a state value.

    Each action of the player store is a function from the state before the
    action (and, where the action reads it, the resume table kept in key/value
    storage) to the state after it. The class in PlayerStores runs the same
    actions in place and is proved against these functions. */
module Player {
  import opened Wrappers

  /** A podcast episode as the player receives it. `season` and `episode` are
      1-based numbers; `description` is optional. */
  datatype Episode = Episode(
    id: string,
    title: string,
    file: string,
    image: string,
    podcastId: string,
    podcastTitle: string,
    season: int,
    episode: int,
    description: Option<string>)

  /** The seven fields of the player store. `currentEpisode` is `None` for
      both `null` and `undefined`. Volume and time are mathematical reals. */
  datatype PlayerState = PlayerState(
    currentEpisode: Option<Episode>,
    playlist: seq<Episode>,
    currentIndex: int,
    isPlaying: bool,
    volume: real,
    muted: bool,
    currentTime: real)

  /** The resume table in key/value storage: the entries whose stored text
      reads back as a number. A key that is missing, holds text that does not
      parse, or cannot be read at all is simply absent here. */
  type Storage = map<string, real>

  const TimeKeyPrefix: string := "player-currentTime-"

  /** The volume toggleMute falls back to when it unmutes a zero volume;
      also the initial volume. */
  const DefaultVolume: real := 0.75

  /** The store's state before any action. */
  const Initial: PlayerState :=
    PlayerState(None, [], -1, false, DefaultVolume, false, 0.0)

  /** The storage key under which the resume position of an episode is kept. */
  function TimeStorageKey(episodeId: string): (key: string)
    ensures |key| == |TimeKeyPrefix| + |episodeId|
    ensures key[..|TimeKeyPrefix|] == TimeKeyPrefix
    ensures key[|TimeKeyPrefix|..] == episodeId
  {
    TimeKeyPrefix + episodeId
  }

  /** Different episode ids never share a storage key, so the resume
      positions of two episodes never overwrite each other. */
  lemma TimeStorageKeyInjective(a: string, b: string)
    ensures TimeStorageKey(a) == TimeStorageKey(b) <==> a == b
  {
    if TimeStorageKey(a) == TimeStorageKey(b) {
      calc {
        a;
        TimeStorageKey(a)[|TimeKeyPrefix|..];
        TimeStorageKey(b)[|TimeKeyPrefix|..];
        b;
      }
    }
  }

  /** True when some episode of the playlist has this id. */
  ghost predicate InPlaylist(playlist: seq<Episode>, id: string) {
    exists k :: 0 <= k < |playlist| && playlist[k].id == id
  }

  /** `playlist.findIndex(ep => ep.id === id)`: the first position holding an
      episode with this id, or -1 when there is none. */
  function FindIndex(playlist: seq<Episode>, id: string): (i: int)
    ensures -1 <= i < |playlist|
    ensures i == -1 <==> !InPlaylist(playlist, id)
    ensures 0 <= i ==> playlist[i].id == id
    ensures 0 <= i ==> forall k :: 0 <= k < i ==> playlist[k].id != id
  {
    if |playlist| == 0 then -1
    else if playlist[0].id == id then 0
    else
      var j := FindIndex(playlist[1..], id);
      assert forall k :: 0 < k < |playlist| ==> playlist[k] == playlist[1..][k - 1];
      if j == -1 then -1 else j + 1
  }

  /** `playlist[i]`: the episode at position i, or `None` (JavaScript's
      `undefined`) when i is not a position of the playlist. */
  function EpisodeAt(playlist: seq<Episode>, i: int): (e: Option<Episode>)
    ensures e.Some? <==> 0 <= i < |playlist|
    ensures e.Some? ==> e.value == playlist[i]
  {
    if 0 <= i < |playlist| then Some(playlist[i]) else None
  }

  /** The resume position read for an episode id: the stored number, or 0
      when nothing usable is stored under its key. */
  function SavedTime(storage: Storage, episodeId: string): real {
    var key := TimeStorageKey(episodeId);
    if key in storage then storage[key] else 0.0
  }

  /** The resume position an action restores for the episode it switches to;
      0 when it switches to no episode. */
  function ResumeTime(storage: Storage, episode: Option<Episode>): real {
    match episode
    case Some(e) => SavedTime(storage, e.id)
    case None => 0.0
  }

  /** The index invariant: a valid `currentIndex` points at an episode with the
      id of `currentEpisode`, and a current episode that occurs in the
      playlist is pointed at by a valid `currentIndex`. */
  ghost predicate IndexConsistent(s: PlayerState) {
    && (0 <= s.currentIndex < |s.playlist| ==>
          s.currentEpisode.Some? && s.playlist[s.currentIndex].id == s.currentEpisode.value.id)
    && (s.currentEpisode.Some? && InPlaylist(s.playlist, s.currentEpisode.value.id) ==>
          0 <= s.currentIndex < |s.playlist|)
  }

  /** setEpisode(episode, playlist?): make `episode` current, replacing the
      playlist only when one is given, pointing `currentIndex` at the first
      entry with the episode's id (or -1), resuming from its saved position
      and starting playback. Volume and mute are untouched. */
  function SetEpisode(s: PlayerState, storage: Storage, episode: Episode, playlist: Option<seq<Episode>>): (r: PlayerState)
    ensures r.currentEpisode == Some(episode)
    ensures playlist.None? ==> r.playlist == s.playlist
    ensures playlist.Some? ==> r.playlist == playlist.value
    ensures r.currentIndex == -1 <==> !InPlaylist(r.playlist, episode.id)
    ensures r.currentIndex != -1 ==>
              && 0 <= r.currentIndex < |r.playlist|
              && r.playlist[r.currentIndex].id == episode.id
              && forall k :: 0 <= k < r.currentIndex ==> r.playlist[k].id != episode.id
    ensures r.isPlaying
    ensures r.volume == s.volume && r.muted == s.muted
    ensures r.currentTime == SavedTime(storage, episode.id)
    ensures IndexConsistent(r)
  {
    var newPlaylist := playlist.GetOr(s.playlist);
    var index := FindIndex(newPlaylist, episode.id);
    s.(currentEpisode := Some(episode),
       playlist := newPlaylist,
       currentIndex := if index >= 0 then index else -1,
       isPlaying := true,
       currentTime := SavedTime(storage, episode.id))
  }

  /** setPlaylist(episodes, startIndex = 0): replace the playlist and select
      the start position. The episode there becomes current (none when the
      position is out of range), `currentIndex` is the start position even
      when it is out of range, and playback runs exactly when there is a
      start episode. */
  function SetPlaylist(s: PlayerState, storage: Storage, episodes: seq<Episode>, startIndex: Option<int>): (r: PlayerState)
    ensures r.playlist == episodes
    ensures r.currentIndex == startIndex.GetOr(0)
    ensures r.currentEpisode.Some? <==> 0 <= r.currentIndex < |episodes|
    ensures r.currentEpisode.Some? ==> r.currentEpisode.value == episodes[r.currentIndex]
    ensures r.isPlaying <==> r.currentEpisode.Some?
    ensures r.currentEpisode.Some? ==> r.currentTime == SavedTime(storage, r.currentEpisode.value.id)
    ensures r.currentEpisode.None? ==> r.currentTime == 0.0
    ensures r.volume == s.volume && r.muted == s.muted
    ensures IndexConsistent(r)
  {
    var start := startIndex.GetOr(0);
    var startEpisode := EpisodeAt(episodes, start);
    s.(playlist := episodes,
       currentEpisode := startEpisode,
       currentIndex := start,
       isPlaying := startEpisode.Some?,
       currentTime := ResumeTime(storage, startEpisode))
  }

  /** playNext(): a no-op when `currentIndex + 1` is not below the playlist
      length; otherwise move to the next position, make the episode there
      current (none when the position is negative, which only a negative
      start index given to setPlaylist leads to), resume it and play. */
  function PlayNext(s: PlayerState, storage: Storage): (r: PlayerState)
    ensures s.currentIndex + 1 >= |s.playlist| ==> r == s
    ensures s.currentIndex + 1 < |s.playlist| ==>
              && r.currentIndex == s.currentIndex + 1
              && (r.currentEpisode.Some? <==> 0 <= r.currentIndex)
              && (r.currentEpisode.Some? ==> r.currentEpisode.value == s.playlist[r.currentIndex])
              && r.isPlaying
              && r.currentTime == ResumeTime(storage, r.currentEpisode)
              && r.playlist == s.playlist && r.volume == s.volume && r.muted == s.muted
    ensures IndexConsistent(s) ==> IndexConsistent(r)
  {
    var nextIndex := s.currentIndex + 1;
    if nextIndex < |s.playlist| then
      var nextEpisode := EpisodeAt(s.playlist, nextIndex);
      s.(currentEpisode := nextEpisode,
         currentIndex := nextIndex,
         isPlaying := true,
         currentTime := ResumeTime(storage, nextEpisode))
    else
      s
  }

  /** playPrevious(): a no-op when `currentIndex - 1` is negative; otherwise
      move to the previous position, make the episode there current (none
      when the position is past the end of the playlist, which the action
      does not check), resume it and play. */
  function PlayPrevious(s: PlayerState, storage: Storage): (r: PlayerState)
    ensures s.currentIndex - 1 < 0 ==> r == s
    ensures s.currentIndex - 1 >= 0 ==>
              && r.currentIndex == s.currentIndex - 1
              && (r.currentEpisode.Some? <==> r.currentIndex < |s.playlist|)
              && (r.currentEpisode.Some? ==> r.currentEpisode.value == s.playlist[r.currentIndex])
              && r.isPlaying
              && r.currentTime == ResumeTime(storage, r.currentEpisode)
              && r.playlist == s.playlist && r.volume == s.volume && r.muted == s.muted
    ensures IndexConsistent(s) ==> IndexConsistent(r)
  {
    var prevIndex := s.currentIndex - 1;
    if prevIndex >= 0 then
      var prevEpisode := EpisodeAt(s.playlist, prevIndex);
      s.(currentEpisode := prevEpisode,
         currentIndex := prevIndex,
         isPlaying := true,
         currentTime := ResumeTime(storage, prevEpisode))
    else
      s
  }

  /** togglePlay(): flip the play flag and nothing else. */
  function TogglePlay(s: PlayerState): (r: PlayerState)
    ensures r.isPlaying != s.isPlaying
    ensures r.(isPlaying := s.isPlaying) == s
  {
    s.(isPlaying := !s.isPlaying)
  }

  /** stop(): pause; the episode, playlist and position stay. */
  function Stop(s: PlayerState): (r: PlayerState)
    ensures !r.isPlaying
    ensures r.(isPlaying := s.isPlaying) == s
  {
    s.(isPlaying := false)
  }

  /** setVolume(v): store v as given and mute exactly when v is zero. */
  function SetVolume(s: PlayerState, v: real): (r: PlayerState)
    ensures r.volume == v
    ensures r.muted <==> v == 0.0
    ensures r.(volume := s.volume, muted := s.muted) == s
  {
    s.(volume := v, muted := v == 0.0)
  }

  /** setMuted(m): set the mute flag only; the volume is not coupled. */
  function SetMuted(s: PlayerState, m: bool): (r: PlayerState)
    ensures r.muted == m
    ensures r.(muted := s.muted) == s
  {
    s.(muted := m)
  }

  /** toggleMute(): muting also zeroes the volume; unmuting keeps a non-zero
      volume and replaces a zero one by the default. */
  function ToggleMute(s: PlayerState): (r: PlayerState)
    ensures r.muted != s.muted
    ensures r.muted ==> r.volume == 0.0
    ensures !r.muted ==> r.volume != 0.0
    ensures s.muted && s.volume != 0.0 ==> r.volume == s.volume
    ensures s.muted && s.volume == 0.0 ==> r.volume == DefaultVolume
    ensures r.(volume := s.volume, muted := s.muted) == s
  {
    if s.muted then
      s.(muted := false, volume := if s.volume != 0.0 then s.volume else DefaultVolume)
    else
      s.(muted := true, volume := 0.0)
  }

  /** setCurrentTime(t), its effect on the store: the position becomes t. */
  function SetCurrentTime(s: PlayerState, time: real): (r: PlayerState)
    ensures r.currentTime == time
    ensures r.(currentTime := s.currentTime) == s
  {
    s.(currentTime := time)
  }

  /** setCurrentTime(t), its effect on storage: t is written under the current
      episode's key when there is a current episode with a non-empty id;
      storage is otherwise left as it was. */
  function PersistTime(storage: Storage, s: PlayerState, time: real): (r: Storage)
    ensures s.currentEpisode.Some? && s.currentEpisode.value.id != "" ==>
              SavedTime(r, s.currentEpisode.value.id) == time
    ensures forall key :: (s.currentEpisode.None? || s.currentEpisode.value.id == "" ||
                           key != TimeStorageKey(s.currentEpisode.value.id)) ==>
              (key in r <==> key in storage) && (key in r ==> r[key] == storage[key])
  {
    match s.currentEpisode
    case Some(e) => if e.id != "" then storage[TimeStorageKey(e.id):= time] else storage
    case None => storage
  }

  /** Writing one episode's position leaves every other episode's resume
      position as it was. */
  lemma {:induction false} SavedTimeAfterPersist(storage: Storage, s: PlayerState, time: real, id: string)
    ensures SavedTime(PersistTime(storage, s, time), id) ==
              if s.currentEpisode.Some? && s.currentEpisode.value.id != "" && s.currentEpisode.value.id == id
              then time
              else SavedTime(storage, id)
  {
    if s.currentEpisode.Some? && s.currentEpisode.value.id != "" && s.currentEpisode.value.id != id {
      TimeStorageKeyInjective(s.currentEpisode.value.id, id);
    }
  }
}
