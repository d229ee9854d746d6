/** frontend/src/places/pages/UserPlaces.js: the page's list of loaded places
    and the update it applies when one of them is deleted. */
module UserPlaces {
  import opened PlaceModel
  import Sequences

  /** A place as the page receives it: the document with its `id`. */
  datatype LoadedPlace = LoadedPlace(id: PlaceId, place: Place)

  /** The filter's test: `place => place.id !== deletedPlaceId`. */
  function Other(deletedId: PlaceId): LoadedPlace -> bool {
    (p: LoadedPlace) => p.id != deletedId
  }

  /** `placeDeletedHandler(deletedPlaceId)`: the previous list filtered by id. */
  function PlaceDeleted(places: seq<LoadedPlace>, deletedId: PlaceId): (r: seq<LoadedPlace>)
    // nothing with the deleted id is left
    ensures forall p :: p in r ==> p.id != deletedId
    // everything else is kept, as often as it was there
    ensures forall p: LoadedPlace :: p.id != deletedId ==> multiset(r)[p] == multiset(places)[p]
  {
    var r := Sequences.Filter(places, Other(deletedId));
    forall p: LoadedPlace | p.id != deletedId ensures multiset(r)[p] == multiset(places)[p] {
      Sequences.FilterCounts(places, Other(deletedId), p);
    }
    r
  }

  /** The kept places are in their original relative order. */
  lemma DeletionKeepsOrder(places: seq<LoadedPlace>, deletedId: PlaceId)
    ensures Sequences.IsSubsequence(PlaceDeleted(places, deletedId), places)
  {
    Sequences.FilterIsSubsequence(places, Other(deletedId));
  }

  /** Handling the same deletion twice gives the list handling it once gives. */
  lemma DeletionIdempotent(places: seq<LoadedPlace>, deletedId: PlaceId)
    ensures PlaceDeleted(PlaceDeleted(places, deletedId), deletedId) == PlaceDeleted(places, deletedId)
  {
    Sequences.FilterIdempotent(places, Other(deletedId));
  }
}
