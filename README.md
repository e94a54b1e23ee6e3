# Podcast player and favourites stores, in Dafny

This project models the two client-side state stores of a browser podcast
player and proves properties of them.

- **The player store** (`src/stores/playerStore.ts`) holds the current
  episode, the playlist and the index into it, the play flag, volume, mute
  and the playback position. It keeps a per-episode resume table in the
  browser's key/value storage under the keys `player-currentTime-<id>`.
- **The favourites store** (`src/stores/favouriteStore.ts`) holds a list of
  favourited items keyed by `uid`, each stamped with the time it was added.

Each store is modelled twice, and the two are tied together by proof:

- **A pure model.** Module `Player` gives every player action as a function
  from the old state, and the storage it reads, to the new state. Module
  `Favourites` does the same for the favourites list. These functions carry
  the contracts. The lemmas in `PlayerProperties` and `Favourites` are stated
  about them.
- **A class that updates its fields in place**, as the program does.
  `PlayerStores.PlayerStore` works over a `PlayerStores.LocalStorage`
  object, and `FavouriteStores.FavouritesStore` holds the list. Every method
  is proved to leave exactly the state that the matching function gives.

Collaborators are made explicit:

- `localStorage` is a `map<string, real>`. It holds the entries whose stored
  text reads back as a number.
- `Date.now()` is passed in as a parameter `now`.
- Volume and time are mathematical reals.

Proved properties include:

- the index invariant, from the initial state through any sequence of
  actions;
- the resume round-trip: switch back to an episode, by `setEpisode` or
  `setPlaylist`, after any actions that do not report a new position for it,
  and playback resumes where it was last reported;
- the boundary no-ops of `playNext` and `playPrevious`;
- the volume/mute coupling and the documented volume after two `toggleMute`
  calls;
- that toggling a favourite adds or removes it, keeps uids unique, and undoes
  itself when applied twice to an absent uid.

## Behaviour of the code worth knowing

- **`playNext` / `playPrevious` bounds.** Each checks only one bound, not the
  range `[0, length)`.
  - `playPrevious` does not check the upper bound. `playNext` does not check
    the lower bound, which matters after `setPlaylist` with a negative start
    index.
  - Reading `playlist[i]` outside the list gives `undefined`. Reading its
    `id` then throws inside the `try` block, and the `catch` absorbs it.
  - So the move still happens: `currentIndex` changes, `currentEpisode`
    becomes `undefined` (here `None`), `isPlaying` becomes true and
    `currentTime` becomes 0.
  - `PlayerProperties.OutOfRangeStart` shows such a state.
- **`currentIndex` can be out of range while there is no current episode.**
  `setPlaylist` keeps an out-of-range start index while setting no current
  episode.
  - The invariant that does hold is `Player.IndexConsistent`. A valid index
    points at an entry with the current episode's id. A current episode that
    occurs in the playlist has a valid index.
  - It is stated on ids because `setEpisode` matches entries by `id` only.
- **The resume position is written only for a non-empty id.**
  `setCurrentTime` writes only when the current episode's id is a non-empty
  string, since the empty string is falsy.

## Model

| member | source | states |
|---|---|---|
| `Player.TimeStorageKey` | src/stores/playerStore.ts:44 | the key is the prefix `player-currentTime-` followed by the episode id |
| `Player.TimeStorageKeyInjective` | src/stores/playerStore.ts:44 | two ids share a storage key exactly when they are equal |
| `Player.FindIndex` | src/stores/playerStore.ts:62 | the result is -1 exactly when no entry has the id; otherwise it is the first position holding that id |
| `Player.EpisodeAt` | src/stores/playerStore.ts:88 | indexing yields an episode exactly for positions inside the playlist, and it is the entry there |
| `Player.SetEpisode` | src/stores/playerStore.ts:60-83 | the episode becomes current; the playlist is the given one or the old one when none is given; the index is the first match by id or -1; playback starts; the time is the saved position; volume and mute are unchanged; the index invariant holds |
| `Player.SetPlaylist` | src/stores/playerStore.ts:87-111 | the playlist is replaced; the index is the start index (default 0) even out of range; there is a current episode exactly when the start is in range, and it is the entry there; playing exactly when there is a start episode; the time is its saved position or 0; the index invariant holds |
| `Player.PlayNext` | src/stores/playerStore.ts:120-144 | no change when `currentIndex + 1` is not below the length; otherwise the index goes up by one, the entry there (if the index is not negative) becomes current and is resumed, playback starts, and the playlist, volume and mute stay; the index invariant is preserved |
| `Player.PlayPrevious` | src/stores/playerStore.ts:147-170 | no change when `currentIndex - 1` is negative; otherwise the index goes down by one, the entry there (if it is inside the playlist) becomes current and is resumed, playback starts, and the playlist, volume and mute stay; the index invariant is preserved |
| `Player.TogglePlay` | src/stores/playerStore.ts:173-175 | only the play flag changes, and it flips |
| `Player.Stop` | src/stores/playerStore.ts:178-180 | playback stops and nothing else changes |
| `Player.SetVolume` | src/stores/playerStore.ts:183-185 | the volume is the given value, muted exactly when it is zero, nothing else changes |
| `Player.SetMuted` | src/stores/playerStore.ts:188-190 | only the mute flag changes, to the given value |
| `Player.ToggleMute` | src/stores/playerStore.ts:193-200 | the mute flag flips; muted implies volume zero; unmuted implies a non-zero volume; unmuting keeps a non-zero volume and replaces zero by 0.75; nothing else changes |
| `Player.SetCurrentTime` | src/stores/playerStore.ts:213 | the position becomes the given time and nothing else in the store changes |
| `Player.PersistTime` | src/stores/playerStore.ts:203-211 | with a current episode whose id is non-empty, its saved position becomes the time; every other storage key is untouched; with no current episode or an empty id, no key changes |
| `Player.SavedTimeAfterPersist` | src/stores/playerStore.ts:203-211 | after the write, the saved position of every id is the new time for the current id and the old one for every other id |
| `PlayerStores.PlayerStore.constructor` | src/stores/playerStore.ts:51-57 | the initial state: no episode, empty playlist, index -1, not playing, volume 0.75, unmuted, time 0 |
| `PlayerStores.PlayerStore.LoadSavedTime` | src/stores/playerStore.ts:65-71 | the position read from storage for an id, 0 when none is stored |
| `PlayerStores.PlayerStore.SetEpisode` | src/stores/playerStore.ts:60-83 | the in-place action leaves the state `Player.SetEpisode` gives |
| `PlayerStores.PlayerStore.SetPlaylist` | src/stores/playerStore.ts:87-111 | the in-place action leaves the state `Player.SetPlaylist` gives |
| `PlayerStores.PlayerStore.Play` | src/stores/playerStore.ts:115-117 | play is setEpisode keeping the current playlist |
| `PlayerStores.PlayerStore.PlayNext` | src/stores/playerStore.ts:120-144 | the in-place action leaves the state `Player.PlayNext` gives |
| `PlayerStores.PlayerStore.PlayPrevious` | src/stores/playerStore.ts:147-170 | the in-place action leaves the state `Player.PlayPrevious` gives |
| `PlayerStores.PlayerStore.TogglePlay` | src/stores/playerStore.ts:173-175 | the in-place action leaves the state `Player.TogglePlay` gives |
| `PlayerStores.PlayerStore.Stop` | src/stores/playerStore.ts:178-180 | the in-place action leaves the state `Player.Stop` gives |
| `PlayerStores.PlayerStore.SetVolume` | src/stores/playerStore.ts:183-185 | the in-place action leaves the state `Player.SetVolume` gives |
| `PlayerStores.PlayerStore.SetMuted` | src/stores/playerStore.ts:188-190 | the in-place action leaves the state `Player.SetMuted` gives |
| `PlayerStores.PlayerStore.ToggleMute` | src/stores/playerStore.ts:193-200 | the in-place action leaves the state `Player.ToggleMute` gives |
| `PlayerStores.PlayerStore.SetCurrentTime` | src/stores/playerStore.ts:203-214 | the store's new state is `Player.SetCurrentTime`'s, and storage is written as `Player.PersistTime` says |
| `PlayerProperties.StepKeepsIndexConsistent` | src/stores/playerStore.ts:60-200 | every action preserves the index invariant |
| `PlayerProperties.RunKeepsIndexConsistent` | src/stores/playerStore.ts:60-214 | any sequence of actions preserves the index invariant |
| `PlayerProperties.IndexConsistentAlways` | src/stores/playerStore.ts:51-57 | from the initial state the index invariant holds after any sequence of actions |
| `PlayerProperties.StepKeepsSavedTime` | src/stores/playerStore.ts:203-214 | an action that does not report a position for an id leaves that id's saved position |
| `PlayerProperties.RunKeepsSavedTime` | src/stores/playerStore.ts:203-214 | a sequence of actions none of which reports a position for an id leaves that id's saved position |
| `PlayerProperties.ResumeAfterSwitchingBack` | src/stores/playerStore.ts:65-83 | after reporting time t for an episode and any actions that report no other position for it, setEpisode with that id resumes at t |
| `PlayerProperties.ResumeViaPlaylist` | src/stores/playerStore.ts:90-111 | the same round-trip through setPlaylist started at an entry with that id |
| `PlayerProperties.TogglePlayTwice` | src/stores/playerStore.ts:173-175 | togglePlay twice restores the state |
| `PlayerProperties.ToggleMuteTwiceFromUnmuted` | src/stores/playerStore.ts:193-200 | from unmuted, two toggles end unmuted at volume 0.75 with nothing else changed |
| `PlayerProperties.ToggleMuteTwiceFromMuted` | src/stores/playerStore.ts:193-200 | from muted, two toggles end muted at volume zero with nothing else changed |
| `PlayerProperties.PlaylistWalk` | src/stores/playerStore.ts:87-144 | a playlist of three started at 1 plays the second; playNext plays the third; a further playNext changes nothing |
| `PlayerProperties.OutOfRangeStart` | src/stores/playerStore.ts:87-170 | a start index past the end gives no episode and keeps the index; playPrevious from there plays with no episode |
| `Favourites.Contains` | src/stores/favouriteStore.ts:33 | true exactly when some item has the uid |
| `Favourites.Without` | src/stores/favouriteStore.ts:37 | an item is in the result exactly when it is in the list and has another uid; the list is unchanged when no item has the uid |
| `Favourites.WithoutKeepsUnique` | src/stores/favouriteStore.ts:37 | filtering a list with unique uids leaves a list with unique uids |
| `Favourites.WithoutAppend` | src/stores/favouriteStore.ts:37 | filtering distributes over concatenation, so the retained items keep their order |
| `Favourites.Toggle` | src/stores/favouriteStore.ts:31-44 | the uid is present afterwards exactly when it was absent before; present: every item with it is removed; absent: the item is appended at the end with `savedAt` set to now and the rest unchanged; other uids keep their membership; unique uids stay unique |
| `Favourites.ToggleTwiceAbsent` | src/stores/favouriteStore.ts:31-44 | toggling an absent uid twice restores the list |
| `Favourites.ToggleTwicePresent` | src/stores/favouriteStore.ts:31-44 | toggling a present uid twice removes every item with it and appends the item again with the second timestamp |
| `Favourites.WithoutKeepsOtherUids` | src/stores/favouriteStore.ts:48-51 | removing a uid keeps the membership of every other uid |
| `Favourites.RemoveIdempotent` | src/stores/favouriteStore.ts:48-51 | removing a uid twice is removing it once |
| `FavouriteStores.FavouritesStore.constructor` | src/stores/favouriteStore.ts:28 | the list starts empty |
| `FavouriteStores.FavouritesStore.ToggleFavourite` | src/stores/favouriteStore.ts:31-44 | the new list is `Favourites.Toggle` of the old one; uniqueness is preserved |
| `FavouriteStores.FavouritesStore.IsFavourite` | src/stores/favouriteStore.ts:46 | true exactly when some stored item has the uid; reads the store and changes nothing |
| `FavouriteStores.FavouritesStore.RemoveFavourite` | src/stores/favouriteStore.ts:48-51 | the new list drops exactly the items with the uid; afterwards the uid is not a favourite; uniqueness is preserved |
| `FavouriteStores.FavouritesStore.ClearFavourites` | src/stores/favouriteStore.ts:53 | the list is empty, so clearing again changes nothing |

## Left out

- React components, pages and routing, with the helpers inside them: rendering only, outside the two stores.
- Fetching the catalogue, and fuzzy search: network input and a third-party library.
- The audio element and its event wiring, which calls `setCurrentTime` and `stop`: a host media primitive.
- The whole-store persistence middleware (`player-storage`, `favourites-storage`) and rehydration: library serialisation. The player snapshot holds all seven state fields, so it is the `PlayerState` value. The favourites snapshot holds the list.
- Logging and the `try`/`catch` around storage access.
  - A read that fails, finds no entry, or finds text that does not parse as a number is the same in the model as a missing key. Each one restores position 0.
  - A write that fails (storage full or unavailable) is not modelled: in the model every write succeeds.
- Floating-point semantics: `parseFloat`, `toString`, NaN and infinities. Volume and time are reals, and a written position reads back as the same number.
- Non-integer indices: `startIndex` is an integer.
- `savedAt` ordering: the stamps follow the clock passed in, and nothing about their order is claimed.
- The search store: a two-field setter with no invariant.
