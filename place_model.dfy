/** The Place document of backend/models/place.js. */
module PlaceModel {

  type PlaceId = string
  type UserId = string

  /** `location: { lat, lng }`: two numbers the model never computes with. */
  datatype Location = Location(lat: real, lng: real)

  datatype Place = Place(
    title: string,
    description: string,
    image: string,
    address: string,
    location: Location,
    creator: UserId)

  /** The schema's `required: true` constraints as Mongoose checks them on
      save: a required string must be non-empty. `lat`, `lng` and `creator` are
      present by construction of the datatype. */
  predicate PlaceSchemaValid(p: Place) {
    && p.title != ""
    && p.description != ""
    && p.image != ""
    && p.address != ""
  }
}
