/** The User document of backend/models/user.js. */
module UserModel {
  import opened PlaceModel

  datatype User = User(
    name: string,
    email: string,
    password: string,     // the stored bcrypt digest
    image: string,
    places: seq<PlaceId>)

  /** `users.find({}, "-password")`: a user with the password field dropped. */
  datatype PublicUser = PublicUser(name: string, email: string, image: string, places: seq<PlaceId>)

  /** The schema's per-document constraints: four required strings, and
      `minlength: 6` on the stored password field. */
  predicate UserSchemaValid(u: User) {
    && u.name != ""
    && u.email != ""
    && u.image != ""
    && |u.password| >= 6
  }

  /** The collection-wide constraint `unique: true` on `email`. */
  ghost predicate EmailsUnique(users: map<UserId, User>) {
    forall a, b :: a in users && b in users && users[a].email == users[b].email ==> a == b
  }

  /** Some stored user holds `email`. */
  ghost predicate EmailTaken(users: map<UserId, User>, email: string) {
    exists id :: id in users && users[id].email == email
  }

  /** The user holding `email`; with unique emails, the only one. */
  ghost function Holder(users: map<UserId, User>, email: string): (id: UserId)
    requires EmailTaken(users, email)
    ensures id in users && users[id].email == email
    // with unique emails, no other user holds it
    ensures EmailsUnique(users) ==> forall j :: j in users && users[j].email == email ==> j == id
  {
    var id :| id in users && users[id].email == email; id
  }

  /** The projection `getUsers` returns. */
  function Public(u: User): PublicUser {
    PublicUser(u.name, u.email, u.image, u.places)
  }
}
