/** backend/controllers/places-controllers.js: the five place handlers over
    the two tables. Each is a chain of early returns; a driver failure at a
    given step is an input (`findFails`, `txFails`, ...), and the two
    multi-document transactions are one assignment to both tables, made only
    when the transaction commits. */
module PlacesControllers {
  import opened Wrappers
  import opened HttpErrors
  import opened PlaceModel
  import opened UserModel
  import opened Store
  import opened Routing
  import PlacesRoutes

  const INVALID_INPUTS := HttpError("Invalid inputs passed, please check your data.", 422)
  const FIND_PLACE_FAILED := HttpError("Something went wrong. Could not find a place.", 500)
  const PLACE_NOT_FOUND := HttpError("Could not find a place for the provided id.", 404)
  const FETCH_PLACES_FAILED := HttpError("Fetching places failed. Please try again. ", 500)
  const USER_NOT_FOUND := HttpError("Could not find a places for the provided user id.", 404)
  const FIND_CREATOR_FAILED := HttpError("Creating place failed, please try again.", 500)
  const CREATOR_NOT_FOUND := HttpError("Could not find user for provided id", 404)
  const CREATE_FAILED := HttpError("Creating a place failed, please try again. ", 500)
  const FIND_FOR_UPDATE_FAILED := HttpError("Something went wrong. Could not update place.", 500)
  const UPDATE_FORBIDDEN := HttpError("You are not allowed edit this place.", 401)
  const UPDATE_FAILED := HttpError("Could not update and save place.", 500)
  const FIND_FOR_DELETE_FAILED := HttpError("Something went wrong. Could not find the place to delete.", 500)
  const DELETE_NOT_FOUND := HttpError("Could not find place for this id.", 404)
  const DELETE_FORBIDDEN := HttpError("You are not allowed delete this place.", 401)
  const DELETE_FAILED := HttpError("Could not delete the place.", 500)
  const DELETED := "Deleted place."

  /** `populate("places")`: the documents the ids refer to, in list order;
      an id with no document is dropped. */
  function Populate(ids: seq<PlaceId>, places: map<PlaceId, Place>): (r: seq<(PlaceId, Place)>)
    ensures |r| <= |ids|
    ensures forall e :: e in r <==> e.0 in ids && e.0 in places && e.1 == places[e.0]
  {
    if ids == [] then []
    else if ids[0] in places then [(ids[0], places[ids[0]])] + Populate(ids[1..], places)
    else Populate(ids[1..], places)
  }

  /** When every id has a document, populating drops nothing and keeps the
      order of the list. */
  lemma {:induction false} PopulateComplete(ids: seq<PlaceId>, places: map<PlaceId, Place>)
    requires forall pid :: pid in ids ==> pid in places
    ensures |Populate(ids, places)| == |ids|
    ensures forall i :: 0 <= i < |ids| ==> Populate(ids, places)[i] == (ids[i], places[ids[i]])
  {
    if ids != [] {
      PopulateComplete(ids[1..], places);
    }
  }

  /** In a consistent store, a user's populated list is exactly the places it
      created, one entry per id in its `places` list. */
  lemma OwnPlaces(users: map<UserId, User>, places: map<PlaceId, Place>, uid: UserId)
    requires Consistent(users, places) && uid in users
    ensures var r := Populate(users[uid].places, places);
      && |r| == |users[uid].places|
      && forall e :: e in r <==> e.0 in places && places[e.0].creator == uid && e.1 == places[e.0]
  {
    var ids := users[uid].places;
    assert (set pid | pid in ids) == OwnedBy(places, uid);
    forall pid | pid in ids ensures pid in places {
      assert pid in (set q | q in ids);
      assert pid in OwnedBy(places, uid);
    }
    PopulateComplete(ids, places);
    forall pid: PlaceId ensures pid in ids <==> pid in places && places[pid].creator == uid {
      assert pid in ids <==> pid in (set q | q in ids);
      assert pid in OwnedBy(places, uid) <==> pid in places && places[pid].creator == uid;
    }
  }

  /** The document `createPlace` builds: the creator is the authenticated
      user, never a field of the body. */
  function NewPlace(body: Body, image: string, location: Location, requester: UserId): (p: Place)
    ensures p.creator == requester && p.image == image && p.location == location
    ensures p.title == Field(body, "title") && p.description == Field(body, "description")
    ensures p.address == Field(body, "address")
  {
    Place(Field(body, "title"), Field(body, "description"), image, Field(body, "address"), location, requester)
  }

  /** Input that passed the create validators, with an uploaded image,
      gives a document the schema accepts: the save never fails on it. */
  lemma ValidInputMeetsSchema(body: Body, image: string, location: Location, requester: UserId)
    requires AllHold(PlacesRoutes.CreateRules(), body) && image != ""
    ensures PlaceSchemaValid(NewPlace(body, image, location, requester))
  {
  }

  /** `GET /api/places/:pid`. */
  method GetPlaceById(db: Database, pid: PlaceId, findFails: bool) returns (r: Reply<(PlaceId, Place)>)
    ensures findFails ==> r == Err(FIND_PLACE_FAILED)
    ensures !findFails && pid !in db.places ==> r == Err(PLACE_NOT_FOUND)
    ensures !findFails && pid in db.places ==> r == Ok(200, (pid, db.places[pid]))
  {
    if findFails {
      return Err(FIND_PLACE_FAILED);
    }
    if pid !in db.places {
      return Err(PLACE_NOT_FOUND);
    }
    r := Ok(200, (pid, db.places[pid]));
  }

  /** `GET /api/places/user/:uid`. Only a missing user gives 404: the test
      `userWithPlaces.length === 0` is made on a document, which has no
      length, so a user with no places gets an empty list. */
  method GetPlacesByUserId(db: Database, uid: UserId, findFails: bool) returns (r: Reply<seq<(PlaceId, Place)>>)
    requires db.Valid()
    ensures findFails ==> r == Err(FETCH_PLACES_FAILED)
    ensures !findFails && uid !in db.users ==> r == Err(USER_NOT_FOUND)
    ensures !findFails && uid in db.users ==>
      && r.Ok? && r.status == 200
      && r.body == Populate(db.users[uid].places, db.places)
      && |r.body| == |db.users[uid].places|
      && (forall e :: e in r.body <==> e.0 in db.places && db.places[e.0].creator == uid && e.1 == db.places[e.0])
    ensures !findFails && uid in db.users && db.users[uid].places == [] ==> r == Ok(200, [])
  {
    if findFails {
      return Err(FETCH_PLACES_FAILED);
    }
    if uid !in db.users {
      return Err(USER_NOT_FOUND);
    }
    OwnPlaces(db.users, db.places, uid);
    r := Ok(200, Populate(db.users[uid].places, db.places));
  }

  /** `POST /api/places`, by the user `requester` whose id the token check
      attached; `newId` is the id the driver gives the new document. */
  method CreatePlace(db: Database, body: Body, imagePath: string, requester: UserId,
                     geocode: Outcome<Location>, newId: PlaceId, findFails: bool, txFails: bool)
      returns (r: Reply<(PlaceId, Place)>)
    requires db.Valid() && newId !in db.places
    modifies db
    ensures db.Valid()
    ensures r ==
      if !AllHold(PlacesRoutes.CreateRules(), body) then Err(INVALID_INPUTS)
      else if geocode.Failed? then Err(geocode.error)
      else if findFails then Err(FIND_CREATOR_FAILED)
      else if requester !in old(db.users) then Err(CREATOR_NOT_FOUND)
      else if txFails || !PlaceSchemaValid(NewPlace(body, imagePath, geocode.value, requester)) then Err(CREATE_FAILED)
      else Ok(201, (newId, NewPlace(body, imagePath, geocode.value, requester)))
    // both tables change together or not at all
    ensures r.Ok? ==>
      db.places == old(db.places)[newId := r.body.1] && db.users == Attach(old(db.users), requester, newId)
    ensures r.Err? ==> db.places == old(db.places) && db.users == old(db.users)
  {
    if !AllHold(PlacesRoutes.CreateRules(), body) {
      return Err(INVALID_INPUTS);
    }
    if geocode.Failed? {
      return Err(geocode.error);
    }
    var created := NewPlace(body, imagePath, geocode.value, requester);
    if findFails {
      return Err(FIND_CREATOR_FAILED);
    }
    if requester !in db.users {
      return Err(CREATOR_NOT_FOUND);
    }
    // the transaction: save the place, push its id, commit
    if txFails || !PlaceSchemaValid(created) {
      return Err(CREATE_FAILED);
    }
    CreateKeepsConsistent(db.users, db.places, newId, created);
    db.places, db.users := db.places[newId := created], Attach(db.users, requester, newId);
    r := Ok(201, (newId, created));
  }

  /** `PATCH /api/places/:pid`. The source dereferences the looked-up place
      without checking that there is one, so a request that gets past the
      validators and the lookup must name an existing place. */
  method UpdatePlace(db: Database, body: Body, pid: PlaceId, requester: UserId, findFails: bool, saveFails: bool)
      returns (r: Reply<(PlaceId, Place)>)
    requires db.Valid()
    requires AllHold(PlacesRoutes.UpdateRules(), body) && !findFails ==> pid in db.places
    modifies db
    ensures db.Valid()
    ensures db.users == old(db.users)
    ensures r ==
      if !AllHold(PlacesRoutes.UpdateRules(), body) then Err(INVALID_INPUTS)
      else if findFails then Err(FIND_FOR_UPDATE_FAILED)
      else if old(db.places)[pid].creator != requester then Err(UPDATE_FORBIDDEN)
      else
        var updated := old(db.places)[pid].(title := Field(body, "title"), description := Field(body, "description"));
        if saveFails || !PlaceSchemaValid(updated) then Err(UPDATE_FAILED)
        else Ok(200, (pid, updated))
    ensures r.Ok? ==> db.places == old(db.places)[pid := r.body.1]
    // only the title and the description differ from the stored place
    ensures r.Ok? ==>
      r.body.1.(title := old(db.places)[pid].title, description := old(db.places)[pid].description)
        == old(db.places)[pid]
    ensures r.Err? ==> db.places == old(db.places)
  {
    if !AllHold(PlacesRoutes.UpdateRules(), body) {
      return Err(INVALID_INPUTS);
    }
    if findFails {
      return Err(FIND_FOR_UPDATE_FAILED);
    }
    var place := db.places[pid];
    if place.creator != requester {
      return Err(UPDATE_FORBIDDEN);
    }
    place := place.(title := Field(body, "title"), description := Field(body, "description"));
    if saveFails || !PlaceSchemaValid(place) {
      return Err(UPDATE_FAILED);
    }
    UpdateKeepsConsistent(db.users, db.places, pid, place);
    db.places := db.places[pid := place];
    r := Ok(200, (pid, place));
  }

  /** `DELETE /api/places/:pid`. Besides the reply, the image path the
      handler hands to `fs.unlink` once the transaction has committed. */
  method DeletePlace(db: Database, pid: PlaceId, requester: UserId, findFails: bool, txFails: bool)
      returns (r: Reply<string>, unlink: Option<string>)
    requires db.Valid()
    modifies db
    ensures db.Valid()
    ensures r ==
      if findFails then Err(FIND_FOR_DELETE_FAILED)
      else if pid !in old(db.places) then Err(DELETE_NOT_FOUND)
      else if old(db.places)[pid].creator != requester then Err(DELETE_FORBIDDEN)
      else if txFails then Err(DELETE_FAILED)
      else Ok(200, DELETED)
    // both tables change together or not at all
    ensures r.Ok? ==>
      && db.places == old(db.places) - {pid}
      && db.users == Detach(old(db.users), requester, pid)
      && unlink == Some(old(db.places)[pid].image)
    ensures r.Err? ==> db.places == old(db.places) && db.users == old(db.users) && unlink == None
  {
    unlink := None;
    if findFails {
      return Err(FIND_FOR_DELETE_FAILED), unlink;
    }
    if pid !in db.places {
      return Err(DELETE_NOT_FOUND), unlink;
    }
    var place := db.places[pid];
    if place.creator != requester {
      return Err(DELETE_FORBIDDEN), unlink;
    }
    // the transaction: delete the place, pull its id from the creator, commit
    if txFails {
      return Err(DELETE_FAILED), unlink;
    }
    DeleteKeepsConsistent(db.users, db.places, pid);
    db.places, db.users := db.places - {pid}, Detach(db.users, place.creator, pid);
    r, unlink := Ok(200, DELETED), Some(place.image);
  }
}
