/** The two collections the backend keeps in MongoDB, as two tables, with the
    consistency rules the place controllers maintain between them. */
module Store {
  import opened PlaceModel
  import opened UserModel
  import Sequences

  /** `user.places.pull(id)`: every occurrence of `id` removed. */
  function Pull(ids: seq<PlaceId>, id: PlaceId): (r: seq<PlaceId>)
    ensures forall x :: x in r <==> x in ids && x != id
    ensures Sequences.IsSubsequence(r, ids)
    ensures forall x :: multiset(r)[x] == if x == id then 0 else multiset(ids)[x]
  {
    var r := Sequences.Filter(ids, x => x != id);
    forall x ensures x in r <==> x in ids && x != id {
      Sequences.FilterMembers(ids, x => x != id, x);
    }
    Sequences.FilterIsSubsequence(ids, x => x != id);
    forall x ensures multiset(r)[x] == if x == id then 0 else multiset(ids)[x] {
      Sequences.FilterCounts(ids, x => x != id, x);
    }
    r
  }

  /** The ids of the places whose `creator` is `uid`. */
  ghost function OwnedBy(places: map<PlaceId, Place>, uid: UserId): set<PlaceId> {
    set pid | pid in places && places[pid].creator == uid
  }

  /** Bidirectional ownership: every place's creator exists, and every user's
      `places` list holds exactly the ids of the places it created. */
  ghost predicate Linked(users: map<UserId, User>, places: map<PlaceId, Place>) {
    && (forall pid :: pid in places ==> places[pid].creator in users)
    && (forall uid :: uid in users ==> (set pid | pid in users[uid].places) == OwnedBy(places, uid))
  }

  /** Everything a sequence of successful saves leaves true of the database. */
  ghost predicate Consistent(users: map<UserId, User>, places: map<PlaceId, Place>) {
    && Linked(users, places)
    && EmailsUnique(users)
    && (forall uid :: uid in users ==> UserSchemaValid(users[uid]))
    && (forall pid :: pid in places ==> PlaceSchemaValid(places[pid]))
  }

  /** The user side of createPlace's transaction: `user.places.push(place)`. */
  function Attach(users: map<UserId, User>, uid: UserId, pid: PlaceId): (r: map<UserId, User>)
    requires uid in users
    ensures r.Keys == users.Keys
    ensures forall v :: v in users && v != uid ==> r[v] == users[v]
    ensures r[uid] == users[uid].(places := users[uid].places + [pid])
  {
    users[uid := users[uid].(places := users[uid].places + [pid])]
  }

  /** The user side of deletePlace's transaction: `creator.places.pull(place)`. */
  function Detach(users: map<UserId, User>, uid: UserId, pid: PlaceId): (r: map<UserId, User>)
    requires uid in users
    ensures r.Keys == users.Keys
    ensures forall v :: v in users && v != uid ==> r[v] == users[v]
    ensures r[uid] == users[uid].(places := Pull(users[uid].places, pid))
  {
    users[uid := users[uid].(places := Pull(users[uid].places, pid))]
  }

  /** Inserting a place whose creator exists, together with appending its id to
      that creator's list, keeps the tables consistent. */
  lemma CreateKeepsConsistent(users: map<UserId, User>, places: map<PlaceId, Place>, pid: PlaceId, p: Place)
    requires Consistent(users, places)
    requires pid !in places && p.creator in users && PlaceSchemaValid(p)
    ensures Consistent(Attach(users, p.creator, pid), places[pid := p])
  {
    var users', places' := Attach(users, p.creator, pid), places[pid := p];
    forall uid | uid in users'
      ensures (set q | q in users'[uid].places) == OwnedBy(places', uid)
    {
      if uid == p.creator {
        assert (set q | q in users'[uid].places) == (set q | q in users[uid].places) + {pid};
        assert OwnedBy(places', uid) == OwnedBy(places, uid) + {pid};
      } else {
        assert OwnedBy(places', uid) == OwnedBy(places, uid);
      }
    }
    assert forall uid :: uid in users' ==> users'[uid].email == users[uid].email;
  }

  /** A place just created appears in its creator's list exactly once: the id
      was in no list before, and the push adds one copy. */
  lemma CreatedListedOnce(users: map<UserId, User>, places: map<PlaceId, Place>, pid: PlaceId, p: Place)
    requires Consistent(users, places)
    requires pid !in places && p.creator in users && PlaceSchemaValid(p)
    ensures multiset(Attach(users, p.creator, pid)[p.creator].places)[pid] == 1
  {
    var o := users[p.creator].places;
    assert pid !in OwnedBy(places, p.creator);
    assert pid !in (set q | q in o);
    assert multiset(o)[pid] == 0;
    assert o + [pid] == Attach(users, p.creator, pid)[p.creator].places;
  }

  /** Removing a place, together with pulling its id from its creator's list,
      keeps the tables consistent. */
  lemma DeleteKeepsConsistent(users: map<UserId, User>, places: map<PlaceId, Place>, pid: PlaceId)
    requires Consistent(users, places)
    requires pid in places
    ensures places[pid].creator in users
    ensures Consistent(Detach(users, places[pid].creator, pid), places - {pid})
  {
    var c := places[pid].creator;
    var users', places' := Detach(users, c, pid), places - {pid};
    forall uid | uid in users'
      ensures (set q | q in users'[uid].places) == OwnedBy(places', uid)
    {
      if uid == c {
        assert (set q | q in users'[uid].places) == (set q | q in users[uid].places) - {pid};
        assert OwnedBy(places', uid) == OwnedBy(places, uid) - {pid};
      } else {
        assert OwnedBy(places', uid) == OwnedBy(places, uid);
      }
    }
    assert forall uid :: uid in users' ==> users'[uid].email == users[uid].email;
    assert forall uid :: uid in users' ==> |users'[uid].password| == |users[uid].password|;
  }

  /** Replacing a place by one with the same creator keeps the tables
      consistent; the user table is not touched. */
  lemma UpdateKeepsConsistent(users: map<UserId, User>, places: map<PlaceId, Place>, pid: PlaceId, p: Place)
    requires Consistent(users, places)
    requires pid in places && p.creator == places[pid].creator && PlaceSchemaValid(p)
    ensures Consistent(users, places[pid := p])
  {
    forall uid | uid in users
      ensures OwnedBy(places[pid := p], uid) == OwnedBy(places, uid)
    {
    }
  }

  /** Adding a user with an unused email and no places keeps the tables
      consistent. */
  lemma SignupKeepsConsistent(users: map<UserId, User>, places: map<PlaceId, Place>, uid: UserId, u: User)
    requires Consistent(users, places)
    requires uid !in users && u.places == [] && UserSchemaValid(u) && !EmailTaken(users, u.email)
    ensures Consistent(users[uid := u], places)
  {
    assert OwnedBy(places, uid) == {};
    assert (set q | q in u.places) == {};
  }

  /** The database: the `users` and `places` collections. */
  class Database {
    var users: map<UserId, User>
    var places: map<PlaceId, Place>

    ghost predicate Valid()
      reads this
    {
      Consistent(users, places)
    }

    constructor ()
      ensures Valid()
      ensures users == map[] && places == map[]
    {
      users := map[];
      places := map[];
    }
  }
}
