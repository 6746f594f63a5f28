/** The one entity of the application: the user profile (User.kt). */
module Users {

  /**
    * A user as the list screen builds it from a database record. Kotlin's
    * `Double` coordinates are `real` here; floating-point rounding is not modelled.
    */
  datatype User = User(
    userId: string,
    nombre: string,
    apellido: string,
    identificacion: string,
    status: string,
    email: string,
    latitud: real,
    longitud: real,
    imageUrl: string)

  /** The constructor defaults of User.kt for every field the caller does not pass. */
  function NewUser(userId: string, nombre: string, email: string, imageUrl: string, status: string): (u: User)
    ensures u.userId == userId && u.nombre == nombre && u.email == email
    ensures u.imageUrl == imageUrl && u.status == status
    ensures u.apellido == "" && u.identificacion == ""
    ensures u.latitud == 0.0 && u.longitud == 0.0
  {
    User(userId, nombre, "", "", status, email, 0.0, 0.0, imageUrl)
  }
}
