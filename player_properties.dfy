/** Properties of the player store over whole sequences of actions: the index
    invariant holds from the initial state on, and the resume table returns
    the last position reported for an episode whenever playback switches back
    to it. */
module PlayerProperties {
  import opened Wrappers
  import opened Player

  /** One call into the player store. */
  datatype Action =
    | DoSetEpisode(episode: Episode, playlist: Option<seq<Episode>>)
    | DoSetPlaylist(episodes: seq<Episode>, startIndex: Option<int>)
    | DoPlay(episode: Episode)
    | DoPlayNext
    | DoPlayPrevious
    | DoTogglePlay
    | DoStop
    | DoSetVolume(v: real)
    | DoSetMuted(m: bool)
    | DoToggleMute
    | DoSetCurrentTime(time: real)

  /** The store state and storage after one action. */
  function Step(s: PlayerState, storage: Storage, a: Action): (PlayerState, Storage) {
    match a
    case DoSetEpisode(e, pl) => (SetEpisode(s, storage, e, pl), storage)
    case DoSetPlaylist(eps, i) => (SetPlaylist(s, storage, eps, i), storage)
    case DoPlay(e) => (SetEpisode(s, storage, e, None), storage)
    case DoPlayNext => (PlayNext(s, storage), storage)
    case DoPlayPrevious => (PlayPrevious(s, storage), storage)
    case DoTogglePlay => (TogglePlay(s), storage)
    case DoStop => (Stop(s), storage)
    case DoSetVolume(v) => (SetVolume(s, v), storage)
    case DoSetMuted(m) => (SetMuted(s, m), storage)
    case DoToggleMute => (ToggleMute(s), storage)
    case DoSetCurrentTime(t) => (SetCurrentTime(s, t), PersistTime(storage, s, t))
  }

  /** The store state and storage after a sequence of actions, first to last. */
  function Run(s: PlayerState, storage: Storage, actions: seq<Action>): (PlayerState, Storage)
    decreases |actions|
  {
    if actions == [] then (s, storage)
    else
      var (s', storage') := Step(s, storage, actions[0]);
      Run(s', storage', actions[1..])
  }

  /** True when action `a`, taken in state `s`, reports a position for the
      episode with this id. */
  predicate WritesTimeFor(s: PlayerState, a: Action, id: string) {
    a.DoSetCurrentTime? && s.currentEpisode.Some? && s.currentEpisode.value.id == id
  }

  /** True when no action of the sequence reports a position for this id. */
  predicate NeverWritesTimeFor(s: PlayerState, storage: Storage, actions: seq<Action>, id: string)
    decreases |actions|
  {
    actions == [] ||
    (!WritesTimeFor(s, actions[0], id) &&
     var (s', storage') := Step(s, storage, actions[0]);
     NeverWritesTimeFor(s', storage', actions[1..], id))
  }

  /** Every action keeps the index invariant. */
  lemma StepKeepsIndexConsistent(s: PlayerState, storage: Storage, a: Action)
    requires IndexConsistent(s)
    ensures IndexConsistent(Step(s, storage, a).0)
  {
  }

  /** Any sequence of actions keeps the index invariant. */
  lemma {:induction false} RunKeepsIndexConsistent(s: PlayerState, storage: Storage, actions: seq<Action>)
    requires IndexConsistent(s)
    ensures IndexConsistent(Run(s, storage, actions).0)
    decreases |actions|
  {
    if actions != [] {
      var (s', storage') := Step(s, storage, actions[0]);
      StepKeepsIndexConsistent(s, storage, actions[0]);
      RunKeepsIndexConsistent(s', storage', actions[1..]);
    }
  }

  /** From the initial state, whatever actions run, the index invariant holds. */
  lemma IndexConsistentAlways(storage: Storage, actions: seq<Action>)
    ensures IndexConsistent(Run(Initial, storage, actions).0)
  {
    RunKeepsIndexConsistent(Initial, storage, actions);
  }

  /** An action that reports no position for `id` leaves its resume position. */
  lemma StepKeepsSavedTime(s: PlayerState, storage: Storage, a: Action, id: string)
    requires !WritesTimeFor(s, a, id)
    ensures SavedTime(Step(s, storage, a).1, id) == SavedTime(storage, id)
  {
    if a.DoSetCurrentTime? {
      SavedTimeAfterPersist(storage, s, a.time, id);
    }
  }

  /** Actions that report no position for `id` leave its resume position. */
  lemma {:induction false} RunKeepsSavedTime(s: PlayerState, storage: Storage, actions: seq<Action>, id: string)
    requires NeverWritesTimeFor(s, storage, actions, id)
    ensures SavedTime(Run(s, storage, actions).1, id) == SavedTime(storage, id)
    decreases |actions|
  {
    if actions != [] {
      var (s', storage') := Step(s, storage, actions[0]);
      StepKeepsSavedTime(s, storage, actions[0], id);
      RunKeepsSavedTime(s', storage', actions[1..], id);
    }
  }

  /** The resume round-trip: report position t while episode e plays, do
      anything that reports no other position for e (switch to other
      episodes, change the playlist, pause, ...), then select an episode with
      e's id again, and playback resumes at t. */
  lemma ResumeAfterSwitchingBack(
    s: PlayerState, storage: Storage, t: real, actions: seq<Action>,
    e: Episode, playlist: Option<seq<Episode>>)
    requires s.currentEpisode.Some? && s.currentEpisode.value.id == e.id && e.id != ""
    requires NeverWritesTimeFor(SetCurrentTime(s, t), PersistTime(storage, s, t), actions, e.id)
    ensures
      var (s', storage') := Run(SetCurrentTime(s, t), PersistTime(storage, s, t), actions);
      SetEpisode(s', storage', e, playlist).currentTime == t
  {
    RunKeepsSavedTime(SetCurrentTime(s, t), PersistTime(storage, s, t), actions, e.id);
  }

  /** The same round-trip when the way back is setPlaylist starting at an
      entry with e's id. */
  lemma ResumeViaPlaylist(
    s: PlayerState, storage: Storage, t: real, actions: seq<Action>,
    e: Episode, episodes: seq<Episode>, i: int)
    requires s.currentEpisode.Some? && s.currentEpisode.value.id == e.id && e.id != ""
    requires NeverWritesTimeFor(SetCurrentTime(s, t), PersistTime(storage, s, t), actions, e.id)
    requires 0 <= i < |episodes| && episodes[i].id == e.id
    ensures
      var (s', storage') := Run(SetCurrentTime(s, t), PersistTime(storage, s, t), actions);
      SetPlaylist(s', storage', episodes, Some(i)).currentTime == t
  {
    RunKeepsSavedTime(SetCurrentTime(s, t), PersistTime(storage, s, t), actions, e.id);
  }

  /** togglePlay twice restores the state. */
  lemma TogglePlayTwice(s: PlayerState)
    ensures TogglePlay(TogglePlay(s)) == s
  {
  }

  /** toggleMute twice from unmuted: unmuted again, at the default volume
      (the volume before muting is not remembered). */
  lemma ToggleMuteTwiceFromUnmuted(s: PlayerState)
    requires !s.muted
    ensures ToggleMute(ToggleMute(s)) == s.(volume := DefaultVolume)
  {
  }

  /** toggleMute twice from muted: muted again, at volume zero. */
  lemma ToggleMuteTwiceFromMuted(s: PlayerState)
    requires s.muted
    ensures ToggleMute(ToggleMute(s)) == s.(volume := 0.0)
  {
  }

  /** A playlist walk: start at the middle of three episodes, step forward,
      and a further step forward at the end changes nothing. */
  lemma PlaylistWalk(s: PlayerState, storage: Storage, e1: Episode, e2: Episode, e3: Episode)
    ensures
      var s1 := SetPlaylist(s, storage, [e1, e2, e3], Some(1));
      var s2 := PlayNext(s1, storage);
      && s1.currentEpisode == Some(e2) && s1.currentIndex == 1 && s1.isPlaying
      && s2.currentEpisode == Some(e3) && s2.currentIndex == 2
      && PlayNext(s2, storage) == s2
  {
  }

  /** A start index past the end leaves no current episode while
      `currentIndex` keeps the out-of-range value; a playPrevious from there
      then plays with no episode. */
  lemma OutOfRangeStart(s: PlayerState, storage: Storage, e1: Episode)
    ensures
      var s1 := SetPlaylist(s, storage, [e1], Some(3));
      var s2 := PlayPrevious(s1, storage);
      && s1.currentEpisode == None && s1.currentIndex == 3 && !s1.isPlaying
      && s2.currentEpisode == None && s2.currentIndex == 2 && s2.isPlaying
  {
  }
}
