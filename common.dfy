/** Small value types shared by the location hook and the map screen. */
module Common {

  /** A value that may be absent (JavaScript's `null`). */
  datatype Option<+T> = None | Some(value: T)

  /** A position reading as the location hook stores it: coordinates are only
      copied between records, never computed with. */
  datatype Coords = Coords(latitude: real, longitude: real, accuracy: real)
}
