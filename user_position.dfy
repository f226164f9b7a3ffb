/** The browser geolocation fix shared through the user-position atom (only its coordinates are read). */
module UserPosition {
  datatype Position = Position(latitude: real, longitude: real)
}
