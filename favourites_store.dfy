/** The favourites store as the program runs it: one object whose list every
    action replaces with a new one. Each action is proved to produce the list
    the matching function of module Favourites gives. */
module FavouriteStores {
  import opened Wrappers
  import opened Favourites

  class FavouritesStore {
    var favourites: seq<FavouriteItem>

    /** The store's invariant: no two favourites share a uid. */
    ghost predicate Valid()
      reads this
    {
      UniqueUids(favourites)
    }

    /** A store with the initial, empty list. */
    constructor ()
      ensures favourites == [] && Valid()
    {
      favourites := [];
    }

    /** toggleFavourite(item), with `Date.now()` passed in as `now`. */
    method ToggleFavourite(item: FavouriteItem, now: int)
      modifies this
      ensures favourites == Toggle(old(favourites), item, now)
      ensures old(Valid()) ==> Valid()
    {
      var present := Contains(favourites, item.uid);
      if present {
        favourites := Without(favourites, item.uid);
      } else {
        favourites := favourites + [item.(savedAt := Some(now))];
      }
    }

    /** isFavourite(uid): a query that changes nothing. */
    predicate IsFavourite(uid: string): (b: bool)
      reads this
      ensures b <==> exists i :: 0 <= i < |favourites| && favourites[i].uid == uid
    {
      Contains(favourites, uid)
    }

    /** removeFavourite(uid). */
    method RemoveFavourite(uid: string)
      modifies this
      ensures favourites == Without(old(favourites), uid)
      ensures !IsFavourite(uid)
      ensures old(Valid()) ==> Valid()
    {
      WithoutKeepsUnique(favourites, uid);
      favourites := Without(favourites, uid);
    }

    /** clearFavourites(). */
    method ClearFavourites()
      modifies this
      ensures favourites == [] && Valid()
    {
      favourites := [];
    }
  }
}
