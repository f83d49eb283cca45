/** The user dashboard: the store list, the user's own ratings as a
    store-id to rating map, and the five rating buttons per store. */
module UserDashboard {
  import opened Common

  /** One row of `/api/stores`; `avgRating` is None when the server sends null. */
  datatype Store = Store(id: int, name: string, address: string, avgRating: Option<real>)

  /** One entry of `/api/ratings/my`. */
  datatype RatingEntry = RatingEntry(storeId: int, rating: int)

  datatype StoreQuery = StoreQuery(name: string, address: string)
  {
    function Get(f: Field): string
    {
      match f
      case Name => name
      case Address => address
    }

    /** `{ ...filters, [field]: value }` */
    function With(f: Field, value: string): (r: StoreQuery)
      ensures r.Get(f) == value
      ensures forall g :: g != f ==> r.Get(g) == Get(g)
    {
      match f
      case Name => this.(name := value)
      case Address => this.(address := value)
    }
  }

  datatype Field = Name | Address

  datatype Request =
    | ListStores(query: StoreQuery)
    | MyRatings
    | Rate(storeId: int, rating: int)

  // ---------------------------------------------------------------------
  // The rating map
  // ---------------------------------------------------------------------

  /** The map the `forEach` leaves behind: entries applied in list order, so
      a later entry for a store overwrites an earlier one. */
  function RatingMapOf(entries: seq<RatingEntry>): map<int, int>
    decreases |entries|
  {
    if entries == [] then map[]
    else
      var last := entries[|entries| - 1];
      RatingMapOf(entries[..|entries| - 1])[last.storeId := last.rating]
  }

  function StoreIds(entries: seq<RatingEntry>): set<int>
  {
    set i | 0 <= i < |entries| :: entries[i].storeId
  }

  /** The map has one key per distinct store id in the list, and no other. */
  lemma {:induction false} RatingMapKeys(entries: seq<RatingEntry>)
    ensures RatingMapOf(entries).Keys == StoreIds(entries)
    decreases |entries|
  {
    if entries != [] {
      var init := entries[..|entries| - 1];
      RatingMapKeys(init);
      assert StoreIds(entries) == StoreIds(init) + {entries[|entries| - 1].storeId} by {
        forall x | x in StoreIds(entries) ensures x in StoreIds(init) + {entries[|entries| - 1].storeId} {
          var i :| 0 <= i < |entries| && entries[i].storeId == x;
          if i < |entries| - 1 { assert init[i] == entries[i]; }
        }
        forall x | x in StoreIds(init) ensures x in StoreIds(entries) {
          var i :| 0 <= i < |init| && init[i].storeId == x;
          assert entries[i] == init[i];
        }
      }
    }
  }

  /** For every store in the map, the stored rating is that of the last
      entry in the list with this store id. */
  lemma {:induction false} LastEntryWins(entries: seq<RatingEntry>, id: int)
    requires id in RatingMapOf(entries)
    ensures exists i :: 0 <= i < |entries| && entries[i].storeId == id &&
                        RatingMapOf(entries)[id] == entries[i].rating &&
                        forall j :: i < j < |entries| ==> entries[j].storeId != id
    decreases |entries|
  {
    var n := |entries|;
    var init := entries[..n - 1];
    if entries[n - 1].storeId == id {
      assert entries[n - 1].storeId == id && RatingMapOf(entries)[id] == entries[n - 1].rating;
    } else {
      LastEntryWins(init, id);
      var i :| 0 <= i < |init| && init[i].storeId == id && RatingMapOf(init)[id] == init[i].rating &&
               forall j :: i < j < |init| ==> init[j].storeId != id;
      assert entries[i] == init[i];
      assert forall j :: i < j < n ==> entries[j].storeId != id by {
        forall j | i < j < n ensures entries[j].storeId != id {
          if j < n - 1 { assert entries[j] == init[j]; }
        }
      }
    }
  }

  /** `fetchMyRatings`'s loop: fill an empty map entry by entry. */
  method BuildRatingMap(entries: seq<RatingEntry>) returns (m: map<int, int>)
    ensures m == RatingMapOf(entries)
    ensures m.Keys == StoreIds(entries)
  {
    m := map[];
    var i := 0;
    while i < |entries|
      invariant 0 <= i <= |entries|
      invariant m == RatingMapOf(entries[..i])
    {
      assert entries[..i + 1][..i] == entries[..i];
      m := m[entries[i].storeId := entries[i].rating];
      i := i + 1;
    }
    assert entries[..i] == entries;
    RatingMapKeys(entries);
  }

  // ---------------------------------------------------------------------
  // What the page shows
  // ---------------------------------------------------------------------

  /** The five rating buttons, in order. */
  function StarChoices(): (r: seq<int>)
    ensures |r| == 5
    ensures forall i :: 0 <= i < |r| ==> r[i] == i + 1
  {
    [1, 2, 3, 4, 5]
  }

  /** "Your Rating": the stored value when it is truthy (present and not 0), "Not Rated" otherwise. */
  datatype RatingLabel = Stars(value: int) | NotRated

  function YourRating(ratings: map<int, int>, storeId: int): (r: RatingLabel)
    ensures r.Stars? <==> storeId in ratings && ratings[storeId] != 0
    ensures r.Stars? ==> r.value == ratings[storeId]
  {
    if storeId in ratings && ratings[storeId] != 0 then Stars(ratings[storeId]) else NotRated
  }

  /** The button drawn highlighted: the one whose value equals the stored rating. */
  predicate Highlighted(ratings: map<int, int>, storeId: int, star: int)
  {
    storeId in ratings && ratings[storeId] == star
  }

  /** "Avg Rating": `avg_rating || 0`, a missing or zero average reads 0. */
  function AverageShown(avg: Option<real>): (r: real)
    ensures avg.Some? && avg.value != 0.0 ==> r == avg.value
    ensures avg.Some? && avg.value == 0.0 ==> r == 0.0
    ensures avg.None? ==> r == 0.0
  {
    if avg.Some? && avg.value != 0.0 then avg.value else 0.0
  }

  // ---------------------------------------------------------------------
  // Rating a store
  // ---------------------------------------------------------------------

  const RatingFailed := "Rating failed"

  /** The map after `handleRate(storeId, rating)`: one key set on success, untouched on failure. */
  function RatingsAfterRate(ratings: map<int, int>, storeId: int, rating: int, resp: Response<string>): (r: map<int, int>)
    ensures resp.Ok? ==> r.Keys == ratings.Keys + {storeId} && r[storeId] == rating
    ensures resp.Ok? ==> forall k :: k in ratings && k != storeId ==> r[k] == ratings[k]
    ensures resp.Err? ==> r == ratings
  {
    if resp.Ok? then ratings[storeId := rating] else ratings
  }

  /** The feedback after `handleRate`: the server's text on success, its message or the fallback on failure. */
  function RateMessage(resp: Response<string>): (m: Message)
    ensures resp.Ok? ==> m == Message(Success, resp.data)
    ensures resp.Err? ==> m.kind == Error && m.text == ErrorText(resp.message, RatingFailed) && m.text != ""
  {
    match resp
    case Ok(text) => Message(Success, text)
    case Err(e) => Message(Error, ErrorText(e, RatingFailed))
  }

  /** After a confirmed click on a star the store shows that star as its
      rating and highlights that button alone, and every other store shows
      what it showed before; after a
      failed one nothing shown changes. */
  lemma RateThenShow(ratings: map<int, int>, storeId: int, i: int, resp: Response<string>, other: int)
    requires 0 <= i < 5
    requires other != storeId
    ensures resp.Ok? ==> YourRating(RatingsAfterRate(ratings, storeId, StarChoices()[i], resp), storeId) == Stars(i + 1)
    ensures resp.Ok? ==> forall j :: 0 <= j < 5 ==>
              (Highlighted(RatingsAfterRate(ratings, storeId, StarChoices()[i], resp), storeId, StarChoices()[j]) <==> j == i)
    ensures YourRating(RatingsAfterRate(ratings, storeId, StarChoices()[i], resp), other) == YourRating(ratings, other)
    ensures resp.Err? ==> YourRating(RatingsAfterRate(ratings, storeId, StarChoices()[i], resp), storeId) == YourRating(ratings, storeId)
  {
  }

  class UserDashboardView {
    var stores: seq<Store>
    var filters: StoreQuery
    var ratings: map<int, int>
    var message: Option<Message>
    var effects: seq<Effect<Request>>

    constructor ()
      ensures stores == [] && filters == StoreQuery("", "") && ratings == map[] && message == None
      ensures effects == []
    {
      stores := [];
      filters := StoreQuery("", "");
      ratings := map[];
      message := None;
      effects := [];
    }

    /** `fetchStores`: list the stores matching the filters; on failure log
        out and go back to the entry route. */
    method FetchStores(resp: Response<seq<Store>>)
      modifies this
      ensures stores == (if resp.Ok? then resp.data else old(stores))
      ensures resp.Ok? ==> effects == old(effects) + [Send(ListStores(old(filters)))]
      ensures resp.Err? ==> effects == old(effects) + [Send(ListStores(old(filters))), LogOut, Navigate(Entry)]
      ensures filters == old(filters) && ratings == old(ratings) && message == old(message)
    {
      effects := effects + [Send(ListStores(filters))];
      match resp
      case Ok(list) =>
        stores := list;
      case Err(_) =>
        effects := effects + [LogOut];
        effects := effects + [Navigate(Entry)];
    }

    /** `fetchMyRatings`: replace the map by the one built from the list; on
        failure keep it as it was. */
    method FetchMyRatings(resp: Response<seq<RatingEntry>>)
      modifies this
      ensures ratings == (if resp.Ok? then RatingMapOf(resp.data) else old(ratings))
      ensures effects == old(effects) + [Send(MyRatings)]
      ensures stores == old(stores) && filters == old(filters) && message == old(message)
    {
      effects := effects + [Send(MyRatings)];
      if resp.Ok? {
        var ratingMap := BuildRatingMap(resp.data);
        ratings := ratingMap;
      }
    }

    /** One search input changed: only that filter takes the new value. */
    method HandleFilterChange(field: Field, value: string)
      modifies this
      ensures filters == old(filters).With(field, value)
      ensures stores == old(stores) && ratings == old(ratings) && message == old(message)
      ensures effects == old(effects)
    {
      filters := filters.With(field, value);
    }

    /** `handleRate(storeId, rating)`: post the rating; only a confirmed one
        changes the map, and only at `storeId`. */
    method HandleRate(storeId: int, rating: int, resp: Response<string>)
      modifies this
      ensures ratings == RatingsAfterRate(old(ratings), storeId, rating, resp)
      ensures message == Some(RateMessage(resp))
      ensures effects == old(effects) + [Send(Rate(storeId, rating))]
      ensures stores == old(stores) && filters == old(filters)
    {
      effects := effects + [Send(Rate(storeId, rating))];
      match resp
      case Ok(_) =>
        message := Some(RateMessage(resp));
        ratings := ratings[storeId := rating];
      case Err(_) =>
        message := Some(RateMessage(resp));
    }

    /** On mount: fetch the stores, then the user's ratings. */
    method Mount(storesResp: Response<seq<Store>>, ratingsResp: Response<seq<RatingEntry>>)
      modifies this
      ensures stores == (if storesResp.Ok? then storesResp.data else old(stores))
      ensures ratings == (if ratingsResp.Ok? then RatingMapOf(ratingsResp.data) else old(ratings))
      ensures storesResp.Ok? ==> effects == old(effects) + [Send(ListStores(old(filters))), Send(MyRatings)]
      ensures storesResp.Err? ==>
                effects == old(effects) + [Send(ListStores(old(filters))), LogOut, Navigate(Entry), Send(MyRatings)]
      ensures filters == old(filters) && message == old(message)
    {
      FetchStores(storesResp);
      FetchMyRatings(ratingsResp);
    }

    /** The header's Logout button calls `logout` and nothing else. */
    method ClickLogout()
      modifies this
      ensures effects == old(effects) + [LogOut]
      ensures stores == old(stores) && filters == old(filters) && ratings == old(ratings) && message == old(message)
    {
      effects := effects + [LogOut];
    }

    /** A click on the `index`-th star of a store: the rating sent is always 1 to 5. */
    method ClickStar(storeId: int, index: int, resp: Response<string>)
      requires 0 <= index < |StarChoices()|
      modifies this
      ensures effects == old(effects) + [Send(Rate(storeId, index + 1))]
      ensures 1 <= effects[|effects| - 1].request.rating <= 5
      ensures ratings == RatingsAfterRate(old(ratings), storeId, index + 1, resp)
      ensures message == Some(RateMessage(resp))
      ensures stores == old(stores) && filters == old(filters)
    {
      HandleRate(storeId, StarChoices()[index], resp);
    }
  }
}
