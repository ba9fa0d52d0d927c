/**
 * store/communityRankingStore.ts: the store holding the ranking of the
 * community currently shown, tagged with that community's id. The ranking
 * payload is opaque here, so the store is generic in its type `R`.
 */
module CommunityRanking {
  import opened Wrappers

  class CommunityRankingStore<R> {
    var communityRanking: Option<R>
    var currentCommunityId: Option<int>

    /** A ranking is held exactly when the id of its community is. */
    predicate Valid()
      reads this
    {
      communityRanking.None? <==> currentCommunityId.None?
    }

    /** The initial state: no ranking, no community. */
    constructor ()
      ensures Valid()
      ensures communityRanking == None && currentCommunityId == None
    {
      communityRanking, currentCommunityId := None, None;
    }

    /** `setCommunityRanking`: store the data under the given community, unconditionally. */
    method SetCommunityRanking(communityId: int, rankingData: R)
      modifies this
      ensures Valid()
      ensures communityRanking == Some(rankingData) && currentCommunityId == Some(communityId)
    {
      communityRanking, currentCommunityId := Some(rankingData), Some(communityId);
    }

    /** `resetCommunityRanking`: back to the initial state. */
    method ResetCommunityRanking()
      modifies this
      ensures Valid()
      ensures communityRanking == None && currentCommunityId == None
    {
      communityRanking, currentCommunityId := None, None;
    }

    /**
     * `updateCommunityRankingIfNeeded`: store the data only when the
     * community differs from the current one. For the same community the
     * held data is kept even if `rankingData` is newer.
     */
    method UpdateCommunityRankingIfNeeded(communityId: int, rankingData: R)
      requires Valid()
      modifies this
      ensures Valid()
      ensures currentCommunityId == Some(communityId)
      ensures old(currentCommunityId) == Some(communityId) ==>
        communityRanking == old(communityRanking) && communityRanking.Some?
      ensures old(currentCommunityId) != Some(communityId) ==> communityRanking == Some(rankingData)
    {
      if currentCommunityId != Some(communityId) {
        communityRanking, currentCommunityId := Some(rankingData), Some(communityId);
      }
    }
  }

  /**
   * Repeating an update for the same community changes nothing: whatever
   * the second call is given, the state is the one the first call left.
   */
  method UpdateTwice<R>(store: CommunityRankingStore<R>, communityId: int, first: R, second: R)
    requires store.Valid()
    modifies store
    ensures store.Valid()
    ensures store.currentCommunityId == Some(communityId)
    ensures old(store.currentCommunityId) != Some(communityId) ==> store.communityRanking == Some(first)
    ensures old(store.currentCommunityId) == Some(communityId) ==>
      store.communityRanking == old(store.communityRanking)
  {
    store.UpdateCommunityRankingIfNeeded(communityId, first);
    ghost var afterFirst := store.communityRanking;
    store.UpdateCommunityRankingIfNeeded(communityId, second);
    assert store.communityRanking == afterFirst;
  }

  /** Setting the same ranking twice leaves the state the first call left. */
  method SetTwice<R>(store: CommunityRankingStore<R>, communityId: int, rankingData: R)
    modifies store
    ensures store.Valid()
    ensures store.communityRanking == Some(rankingData) && store.currentCommunityId == Some(communityId)
  {
    store.SetCommunityRanking(communityId, rankingData);
    ghost var afterFirst := (store.communityRanking, store.currentCommunityId);
    store.SetCommunityRanking(communityId, rankingData);
    assert (store.communityRanking, store.currentCommunityId) == afterFirst;
  }
}
