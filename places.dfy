/** Values shared by the map screen and the places list. */
module Places {

  datatype Option<T> = None | Some(value: T)

  /** Stands for the identity of a persisted place object: two references to
      the same stored place carry the same id, and Swift's `==` on places
      (object identity) is equality of ids. */
  type PlaceId = nat

  /** A user-placed pin. Its title is optional, as in the persistence model. */
  datatype Place = Place(id: PlaceId, title: Option<string>)
}
