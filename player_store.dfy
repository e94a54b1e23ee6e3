/** The player store as the program runs it: one object whose fields every
    action updates in place, beside the browser's key/value storage, which
    setCurrentTime writes into. Each action is proved to produce exactly the
    state (and storage) that the matching function of module Player gives. */
module PlayerStores {
  import opened Wrappers
  import Player

  /** The browser's key/value storage, restricted to the resume table:
      entries whose text reads back as a number. */
  class LocalStorage {
    var items: Player.Storage

    constructor (items: Player.Storage)
      ensures this.items == items
    {
      this.items := items;
    }
  }

  class PlayerStore {
    var currentEpisode: Option<Player.Episode>
    var playlist: seq<Player.Episode>
    var currentIndex: int
    var isPlaying: bool
    var volume: real
    var muted: bool
    var currentTime: real

    /** Where resume positions are read from and written to. */
    const storage: LocalStorage

    /** The store's fields as one value. */
    function State(): Player.PlayerState
      reads this
    {
      Player.PlayerState(currentEpisode, playlist, currentIndex, isPlaying, volume, muted, currentTime)
    }

    /** A store with the default initial state, over the given storage. */
    constructor (storage: LocalStorage)
      ensures State() == Player.Initial
      ensures this.storage == storage
    {
      currentEpisode := None;
      playlist := [];
      currentIndex := -1;
      isPlaying := false;
      volume := Player.DefaultVolume;
      muted := false;
      currentTime := 0.0;
      this.storage := storage;
    }

    /** Reads the saved position for an episode id, 0 when none is usable. */
    method LoadSavedTime(episodeId: string) returns (savedTime: real)
      ensures savedTime == Player.SavedTime(storage.items, episodeId)
    {
      savedTime := 0.0;
      var key := Player.TimeStorageKey(episodeId);
      if key in storage.items {
        savedTime := storage.items[key];
      }
    }

    method SetEpisode(episode: Player.Episode, playlist: Option<seq<Player.Episode>>)
      modifies this
      ensures State() == Player.SetEpisode(old(State()), storage.items, episode, playlist)
    {
      var newPlaylist := playlist.GetOr(this.playlist);
      var index := Player.FindIndex(newPlaylist, episode.id);
      var savedTime := LoadSavedTime(episode.id);
      currentEpisode := Some(episode);
      this.playlist := newPlaylist;
      currentIndex := if index >= 0 then index else -1;
      isPlaying := true;
      currentTime := savedTime;
    }

    method SetPlaylist(episodes: seq<Player.Episode>, startIndex: Option<int>)
      modifies this
      ensures State() == Player.SetPlaylist(old(State()), storage.items, episodes, startIndex)
    {
      var start := startIndex.GetOr(0);
      var startEpisode := Player.EpisodeAt(episodes, start);
      var savedTime := 0.0;
      if startEpisode.Some? {
        savedTime := LoadSavedTime(startEpisode.value.id);
      }
      playlist := episodes;
      currentEpisode := startEpisode;
      currentIndex := start;
      isPlaying := startEpisode.Some?;
      currentTime := savedTime;
    }

    /** play(episode): setEpisode without a playlist. */
    method Play(episode: Player.Episode)
      modifies this
      ensures State() == Player.SetEpisode(old(State()), storage.items, episode, None)
    {
      SetEpisode(episode, None);
    }

    method PlayNext()
      modifies this
      ensures State() == Player.PlayNext(old(State()), storage.items)
    {
      var nextIndex := currentIndex + 1;
      if nextIndex < |playlist| {
        var nextEpisode := Player.EpisodeAt(playlist, nextIndex);
        var savedTime := 0.0;
        if nextEpisode.Some? {
          savedTime := LoadSavedTime(nextEpisode.value.id);
        }
        currentEpisode := nextEpisode;
        currentIndex := nextIndex;
        isPlaying := true;
        currentTime := savedTime;
      }
    }

    method PlayPrevious()
      modifies this
      ensures State() == Player.PlayPrevious(old(State()), storage.items)
    {
      var prevIndex := currentIndex - 1;
      if prevIndex >= 0 {
        var prevEpisode := Player.EpisodeAt(playlist, prevIndex);
        var savedTime := 0.0;
        if prevEpisode.Some? {
          savedTime := LoadSavedTime(prevEpisode.value.id);
        }
        currentEpisode := prevEpisode;
        currentIndex := prevIndex;
        isPlaying := true;
        currentTime := savedTime;
      }
    }

    method TogglePlay()
      modifies this
      ensures State() == Player.TogglePlay(old(State()))
    {
      isPlaying := !isPlaying;
    }

    method Stop()
      modifies this
      ensures State() == Player.Stop(old(State()))
    {
      isPlaying := false;
    }

    method SetVolume(v: real)
      modifies this
      ensures State() == Player.SetVolume(old(State()), v)
    {
      volume, muted := v, v == 0.0;
    }

    method SetMuted(m: bool)
      modifies this
      ensures State() == Player.SetMuted(old(State()), m)
    {
      muted := m;
    }

    method ToggleMute()
      modifies this
      ensures State() == Player.ToggleMute(old(State()))
    {
      if muted {
        muted, volume := false, if volume != 0.0 then volume else Player.DefaultVolume;
      } else {
        muted, volume := true, 0.0;
      }
    }

    method SetCurrentTime(time: real)
      modifies this, storage
      ensures State() == Player.SetCurrentTime(old(State()), time)
      ensures storage.items == Player.PersistTime(old(storage.items), old(State()), time)
    {
      if currentEpisode.Some? && currentEpisode.value.id != "" {
        storage.items := storage.items[Player.TimeStorageKey(currentEpisode.value.id) := time];
      }
      currentTime := time;
    }
  }
}
