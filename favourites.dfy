/** The favourites list as pure functions on a sequence of items keyed by
    `uid`, with the properties its actions promise: toggling adds or removes,
    uids stay unique, and toggling twice undoes an addition. */
module Favourites {
  import opened Wrappers

  /** One favourited item. `uid` is the de-duplication key; `savedAt` is the
      epoch-millisecond time the item was added. */
  datatype FavouriteItem = FavouriteItem(
    uid: string,
    id: string,
    title: string,
    image: string,
    podcastId: string,
    seasonTitle: Option<string>,
    file: string,
    savedAt: Option<int>)

  /** No two items share a uid. */
  ghost predicate UniqueUids(favs: seq<FavouriteItem>) {
    forall i, j :: 0 <= i < j < |favs| ==> favs[i].uid != favs[j].uid
  }

  /** `favs.some(fav => fav.uid === uid)`. */
  predicate Contains(favs: seq<FavouriteItem>, uid: string): (b: bool)
    ensures b <==> exists i :: 0 <= i < |favs| && favs[i].uid == uid
  {
    if favs == [] then false
    else
      assert forall i :: 0 < i < |favs| ==> favs[i] == favs[1..][i - 1];
      favs[0].uid == uid || Contains(favs[1..], uid)
  }

  /** `favs.filter(fav => fav.uid !== uid)`: every item with another uid, in
      the original order (WithoutAppend); nothing is dropped when no item
      has the uid. */
  function Without(favs: seq<FavouriteItem>, uid: string): (r: seq<FavouriteItem>)
    ensures forall x :: x in r <==> x in favs && x.uid != uid
    ensures !Contains(favs, uid) ==> r == favs
  {
    if favs == [] then []
    else
      assert forall x :: x in favs <==> x == favs[0] || x in favs[1..];
      var rest := Without(favs[1..], uid);
      if favs[0].uid == uid then rest else [favs[0]] + rest
  }

  /** Filtering keeps uids unique. */
  lemma {:induction false} WithoutKeepsUnique(favs: seq<FavouriteItem>, uid: string)
    ensures UniqueUids(favs) ==> UniqueUids(Without(favs, uid))
  {
    if favs != [] && UniqueUids(favs) {
      WithoutKeepsUnique(favs[1..], uid);
      if favs[0].uid != uid {
        var rest := Without(favs[1..], uid);
        forall x | x in rest
          ensures x.uid != favs[0].uid
        {
          var k :| 0 <= k < |favs[1..]| && favs[1..][k] == x;
          assert favs[k + 1] == x;
        }
        assert Without(favs, uid) == [favs[0]] + rest;
      }
    }
  }

  /** Filtering by uid distributes over concatenation, so it keeps the relative
      order of the items it retains. */
  lemma {:induction false} WithoutAppend(a: seq<FavouriteItem>, b: seq<FavouriteItem>, uid: string)
    ensures Without(a + b, uid) == Without(a, uid) + Without(b, uid)
    decreases |a|
  {
    if a != [] {
      assert (a + b)[1..] == a[1..] + b;
      WithoutAppend(a[1..], b, uid);
    } else {
      assert a + b == b;
    }
  }

  /** toggleFavourite(item) at time `now`: remove every item with the item's
      uid when there is one; otherwise append the item with `savedAt`
      replaced by `now`. */
  function Toggle(favs: seq<FavouriteItem>, item: FavouriteItem, now: int): (r: seq<FavouriteItem>)
    ensures Contains(r, item.uid) <==> !Contains(favs, item.uid)
    ensures Contains(favs, item.uid) ==> r == Without(favs, item.uid)
    ensures !Contains(favs, item.uid) ==>
              |r| == |favs| + 1 && r[..|favs|] == favs && r[|favs|] == item.(savedAt := Some(now))
    ensures forall u :: u != item.uid ==> (Contains(r, u) <==> Contains(favs, u))
    ensures UniqueUids(favs) ==> UniqueUids(r)
  {
    if Contains(favs, item.uid) then
      WithoutKeepsUnique(favs, item.uid);
      Without(favs, item.uid)
    else
      var r := favs + [item.(savedAt := Some(now))];
      assert r[|favs|].uid == item.uid;
      assert forall i :: 0 <= i < |favs| ==> r[i] == favs[i];
      r
  }

  /** Toggling an absent uid twice gives back the original list. */
  lemma {:induction false} ToggleTwiceAbsent(favs: seq<FavouriteItem>, item: FavouriteItem, now1: int, now2: int)
    requires !Contains(favs, item.uid)
    ensures Toggle(Toggle(favs, item, now1), item, now2) == favs
  {
    var added := item.(savedAt := Some(now1));
    assert Toggle(favs, item, now1) == favs + [added];
    WithoutAppend(favs, [added], item.uid);
    assert Without([added], item.uid) == [];
  }

  /** Toggling a present uid twice drops every item with it and re-appends
      the toggled item, stamped with the second time. */
  lemma ToggleTwicePresent(favs: seq<FavouriteItem>, item: FavouriteItem, now1: int, now2: int)
    requires Contains(favs, item.uid)
    ensures Toggle(Toggle(favs, item, now1), item, now2) ==
              Without(favs, item.uid) + [item.(savedAt := Some(now2))]
  {
  }

  /** Removing one uid keeps the membership of every other uid. */
  lemma WithoutKeepsOtherUids(favs: seq<FavouriteItem>, uid: string, u: string)
    requires u != uid
    ensures Contains(Without(favs, uid), u) <==> Contains(favs, u)
  {
    if Contains(favs, u) {
      var i :| 0 <= i < |favs| && favs[i].uid == u;
      assert favs[i] in Without(favs, uid);
    }
  }

  /** Removing a uid twice is removing it once. */
  lemma RemoveIdempotent(favs: seq<FavouriteItem>, uid: string)
    ensures Without(Without(favs, uid), uid) == Without(favs, uid)
  {
  }
}
