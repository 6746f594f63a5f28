# taller3 in Dafny

A verified model of the decision logic of the taller3 Android application. In that app,
users sign in, register with their current GPS fix, see which other users are available,
and follow one user's position on a map. A background service announces users who become
available. The rest of the app is callback glue around a realtime cloud database, the
platform's location service and a tile map widget. The model replaces those services with
plain inputs: snapshots are sequences of records with optional fields, and a location is an
optional point. It keeps the logic that sits between them.

- `wrappers.dfy`: `Option`, which stands for Kotlin's nullable types and the `?:` default.
- `users.dfy`: the `User` record of User.kt and its constructor defaults.
- `text.dfy`: Kotlin's `String.trim()` and `String.length`. `length` counts UTF-16 units, so a
  character outside the Basic Multilingual Plane counts twice. Proved: trimming removes only
  whitespace and only at the ends, it can be done in exactly one way, and doing it twice
  changes nothing.
- `availability_service.dfy`: the monitor service. The class `AvailabilityMonitor` holds
  `notifiedUsers`. `OnDataChange` folds one snapshot over it with a loop. The loop is proved
  equal to the functions `After` and `Announced`. The lemmas then show: each newly available
  user is announced exactly once, unavailable users are dropped, absent users keep their
  membership, null keys are skipped, and processing the same snapshot again changes nothing.
- `user_list.dfy`: the list screen. `UserListScreen.OnDataChange` clears `usersList` and
  rebuilds it in a loop. The result is proved to be exactly the snapshot's listed children,
  in snapshot order, and the adapter's count is proved to be the number of those children.
  The "acaba de conectarse" toast fires exactly for a named child that the rebuild keeps.
- `tracking.dfy`: the tracking screen. The class `TrackingScreen` holds the two optional
  locations and the two optional `Marker` objects, which are changed in place. It also holds
  the markers on the map, the centre, the zoom and the distance label. `Valid()` says that each
  marker exists exactly while its location is known, stands on that location, and is on the map
  once. Every event handler preserves `Valid()`. The zoom step is proved never to increase with
  distance. As in the source, a marker is created without a title: `addMarkerToMap` never
  assigns its `title` argument. Only a later move, or the tracked user's name arriving, sets it.
  `updateDistance` shows "Calculando distancia..." when a location is missing. It is only ever
  called after both are known, though, so that branch never runs from the event handlers.
- `register.dfy`: the registration form. There are five field checks, each of which sets or
  clears its own error. An account is requested only when a location fix exists. The model
  also gives the exact record saved under `users/<id>` and the display name "name lastName".
  The saved record has no `status`, `available` or `imageUrl` key, so the list screen and the
  service read their defaults for a freshly registered user. The record also stores
  `latitude`/`longitude` at top level, while the tracking screen reads them under `location`.
- `login.dfy`: the sign-in form. It has two field checks, each reporting "missing" before
  "malformed". Sign-in is attempted only with a valid form. `updateUI` navigates for a user and
  clears the password otherwise.

The platform's e-mail regular expression and `Location.distanceBetween` are parameters
(`emailPattern`, `distanceBetween`). Random draws (`random.nextInt(1000)`) and everything the
database sends are inputs of the methods that consume them.

## Model

| member | source | states |
|---|---|---|
| `AvailabilityService.AvailabilityMonitor.constructor` | app/src/main/java/com/example/taller3/UsuariosDisponiblesService.kt:22 | the service starts with no user notified |
| `AvailabilityService.AvailabilityMonitor.OnDataChange` | app/src/main/java/com/example/taller3/UsuariosDisponiblesService.kt:63-76 | the loop over the snapshot leaves `notifiedUsers` equal to `After(old set, snapshot)` and returns the toasts `Announced(old set, snapshot)` in order |
| `AvailabilityService.AfterFrame` | app/src/main/java/com/example/taller3/UsuariosDisponiblesService.kt:64-75 | a user absent from the snapshot is in the set afterwards exactly when it was before |
| `AvailabilityService.AfterClosedForm` | app/src/main/java/com/example/taller3/UsuariosDisponiblesService.kt:64-75 | the new set is the old one minus every user whose flag is false or missing, plus every user whose flag is true |
| `AvailabilityService.MembershipAfterSnapshot` | app/src/main/java/com/example/taller3/UsuariosDisponiblesService.kt:64-75 | every keyed user of the snapshot is notified afterwards if and only if its `available` flag reads true |
| `AvailabilityService.AnnouncedExactlyNewlyAvailable` | app/src/main/java/com/example/taller3/UsuariosDisponiblesService.kt:69-71 | the toasts announce exactly the available users that were not yet notified, none of them twice, and no one outside the snapshot |
| `AvailabilityService.AnnouncementText` | app/src/main/java/com/example/taller3/UsuariosDisponiblesService.kt:67-92 | every toast belongs to an available child of the snapshot and reads "<name> está ahora disponible", with "Usuario desconocido" for a missing name |
| `AvailabilityService.NullKeySkipped` | app/src/main/java/com/example/taller3/UsuariosDisponiblesService.kt:65 | a child with a null key, wherever it stands, changes neither the set nor the toasts |
| `AvailabilityService.ReprocessingIsQuiet` | app/src/main/java/com/example/taller3/UsuariosDisponiblesService.kt:69-73 | processing the same snapshot a second time shows no toast and leaves the set unchanged |
| `Users.NewUser` | app/src/main/java/com/example/taller3/User.kt:5-15 | the fields a caller does not give default to "" and 0.0 |
| `UserList.BuildUser` | app/src/main/java/com/example/taller3/ListaUsuariosActivity.kt:59-65 | a missing key, name, e-mail or image URL becomes "", a missing status becomes "offline" |
| `UserList.UserListScreen.constructor` | app/src/main/java/com/example/taller3/ListaUsuariosActivity.kt:23 | the list starts empty |
| `UserList.UserListScreen.OnDataChange` | app/src/main/java/com/example/taller3/ListaUsuariosActivity.kt:54-71 | the old contents are discarded and the list becomes `Filtered(snapshot, uid)`; `GetCount()` is then the number of listed children |
| `UserList.FilteredIsOrderedSelection` | app/src/main/java/com/example/taller3/ListaUsuariosActivity.kt:57-68 | the rebuilt list is the users built from the children at strictly increasing positions, and those positions are exactly the children that are not the signed-in user and are "available" |
| `UserList.FilteredMembership` | app/src/main/java/com/example/taller3/ListaUsuariosActivity.kt:57-68 | a user is in the list if and only if some listed child of the snapshot builds it |
| `UserList.CountAfterRebuild` | app/src/main/java/com/example/taller3/ListaUsuariosActivity.kt:55-68 | the adapter's count after a rebuild equals the number of listed children |
| `UserList.AdapterShowsListedChildren` | app/src/main/java/com/example/taller3/ListaUsuariosActivity.kt:114-116 | after a rebuild, `getCount` is the number of listed children, the item at position p is the user built from the p-th listed child in snapshot order, and `getItemId(p)` is p |
| `UserList.SelectedUserIsListed` | app/src/main/java/com/example/taller3/ListaUsuariosActivity.kt:39-43 | the id a click hands to the detail screen is the key of a listed child, and never the signed-in user's own (non-empty) id |
| `UserList.FilteredOnlyOthersAvailable` | app/src/main/java/com/example/taller3/ListaUsuariosActivity.kt:58-67 | every listed user has status "available" and is not the signed-in user |
| `UserList.MissingStatusNotListed` | app/src/main/java/com/example/taller3/ListaUsuariosActivity.kt:64-66 | a child without status reads as "offline" and is excluded |
| `UserList.JustConnectedToast` | app/src/main/java/com/example/taller3/ListaUsuariosActivity.kt:89-99 | the "acaba de conectarse" toast fires if and only if the child is one the rebuild keeps (another user, status "available") and its name is present; it reads "<name> acaba de conectarse" |
| `Tracking.Marker.constructor` | app/src/main/java/com/example/taller3/DistanciaUsuarioActivity.kt:397-411 | a new marker has the given position and icon and no title |
| `Tracking.Without` | app/src/main/java/com/example/taller3/DistanciaUsuarioActivity.kt:380 | removing a marker keeps every other overlay and adds none, shortens the list by one when the marker is there and changes nothing otherwise; on a list without repeats the marker is gone and none repeats |
| `Tracking.WithoutRemovesFirst` | app/src/main/java/com/example/taller3/DistanciaUsuarioActivity.kt:380 | `remove` cuts out exactly the first occurrence of the marker and keeps the others in order |
| `Tracking.ZoomFor` | app/src/main/java/com/example/taller3/DistanciaUsuarioActivity.kt:328-332 | the zoom is one of 12, 14 and 16 |
| `Tracking.ZoomBands` | app/src/main/java/com/example/taller3/DistanciaUsuarioActivity.kt:328-332 | 12 exactly above 5000 m, 14 exactly in (1000, 5000], 16 exactly at or below 1000 m |
| `Tracking.ZoomMonotone` | app/src/main/java/com/example/taller3/DistanciaUsuarioActivity.kt:328-332 | a larger distance never gets a larger zoom |
| `Tracking.Midpoint` | app/src/main/java/com/example/taller3/DistanciaUsuarioActivity.kt:323-325 | the map centre is equidistant in latitude and in longitude from the two points |
| `Tracking.NatToString` | app/src/main/java/com/example/taller3/DistanciaUsuarioActivity.kt:390-392 | the number in a toast is written as a non-empty run of decimal digits with no leading zero |
| `Tracking.NatToStringValue` | app/src/main/java/com/example/taller3/DistanciaUsuarioActivity.kt:390-392 | read back as a decimal numeral, the rendered digits denote exactly the number |
| `Tracking.TrackingScreen.constructor` | app/src/main/java/com/example/taller3/DistanciaUsuarioActivity.kt:123-127 | the screen starts valid with no locations, no markers and zoom 15 |
| `Tracking.TrackingScreen.UpdateCurrentUserMarker` | app/src/main/java/com/example/taller3/DistanciaUsuarioActivity.kt:338-357 | without a location nothing changes, the own marker's position and title included; the own marker is created once, fresh, untitled and appended to the map, and later only moved |
| `Tracking.TrackingScreen.UpdateTrackedUserMarker` | app/src/main/java/com/example/taller3/DistanciaUsuarioActivity.kt:359-385 | with a location: the marker is created, or moved and retitled with the tracked name; without one: it is taken off the map and set to null |
| `Tracking.TrackingScreen.UpdateDistance` | app/src/main/java/com/example/taller3/DistanciaUsuarioActivity.kt:421-428 | the label shows the distance when both locations are known and "Calculando distancia..." otherwise |
| `Tracking.TrackingScreen.CenterMapBetweenLocations` | app/src/main/java/com/example/taller3/DistanciaUsuarioActivity.kt:320-336 | with both locations the map is centred on their midpoint and zoomed by their distance; otherwise nothing changes |
| `Tracking.TrackingScreen.UpdateDistanceAndCenterMap` | app/src/main/java/com/example/taller3/DistanciaUsuarioActivity.kt:311-318 | both known: distance label, midpoint centre and zoom; only the own location: centred on it; otherwise nothing |
| `Tracking.TrackingScreen.OnCurrentLocation` | app/src/main/java/com/example/taller3/DistanciaUsuarioActivity.kt:225-229 | a new device fix keeps the screen valid; an existing own marker is moved (title and overlays unchanged), otherwise a fresh untitled one is appended; distance, centre and zoom follow the tracked location when known, otherwise the map is centred on the fix; the tracked name and header stay |
| `Tracking.TrackingScreen.ShowLocationError` | app/src/main/java/com/example/taller3/DistanciaUsuarioActivity.kt:302-309 | the message is toasted and shown, the tracked location is cleared and its marker removed from the map; the own side, centre, zoom, tracked name and header stay |
| `Tracking.TrackingScreen.OnTrackedLocation` | app/src/main/java/com/example/taller3/DistanciaUsuarioActivity.kt:276-293 | with two numbers the tracked location is replaced, its marker created (fresh, appended) or moved and retitled, and distance, midpoint centre and zoom updated when the own location is known (else left alone); an unreadable coordinate gives "Error al leer ubicación", a missing one "El usuario no ha compartido su ubicación", and both clear the tracked location and remove its marker |
| `Tracking.TrackingScreen.OnTrackingCancelled` | app/src/main/java/com/example/taller3/DistanciaUsuarioActivity.kt:295-298 | a cancelled subscription runs the error path with "Error de conexión con Firebase": tracked location cleared, marker removed, centre, zoom, tracked name and header unchanged |
| `Tracking.TrackingScreen.OnUserInfo` | app/src/main/java/com/example/taller3/DistanciaUsuarioActivity.kt:443-448 | the tracked name ("Usuario" when missing) is shown and becomes the tracked marker's title; a name that is not a String throws before any assignment and changes nothing; locations, markers, centre, zoom and label stay |
| `Tracking.TrackingScreen.OnUserInfoCancelled` | app/src/main/java/com/example/taller3/DistanciaUsuarioActivity.kt:450-453 | the screen stays valid; the header reads "Siguiendo a: Usuario desconocido"; locations, markers, centre, zoom, label and tracked name stay |
| `Tracking.TrackingScreen.RandomDistanceToast` | app/src/main/java/com/example/taller3/DistanciaUsuarioActivity.kt:387-395 | the distance shown is in [1, 1000] and the text is the own-marker message, the tracked-marker message with the tracked name, or "Distancia: <n> metros" for any other marker |
| `Text.Trim` | app/src/main/java/com/example/taller3/RegisterActivity.kt:146-150 | a trimmed field is empty or starts and ends with a non-whitespace character |
| `Text.TrimCutsWhitespace` | app/src/main/java/com/example/taller3/RegisterActivity.kt:146-150 | trimming removes only whitespace, and only at the two ends |
| `Text.TrimUnique` | app/src/main/java/com/example/taller3/RegisterActivity.kt:146-150 | any cut of end whitespace that leaves clean edges is the trimmed text |
| `Text.TrimIdempotent` | app/src/main/java/com/example/taller3/MainActivity.kt:33-34 | trimming a trimmed field changes nothing |
| `Text.TrimOfBlank` | app/src/main/java/com/example/taller3/MainActivity.kt:33-34 | a field of whitespace only is empty once trimmed |
| `Text.Utf16Length` | app/src/main/java/com/example/taller3/RegisterActivity.kt:264 | the Kotlin length of a text is between its number of characters and twice that |
| `Text.Utf16LengthOfBmp` | app/src/main/java/com/example/taller3/MainActivity.kt:79 | within the Basic Multilingual Plane the Kotlin length is the number of characters |
| `Register.AcceptableIffNoErrors` | app/src/main/java/com/example/taller3/RegisterActivity.kt:241-278 | the form passes if and only if every one of the five checks leaves its field without an error |
| `Register.BlankFieldsRejected` | app/src/main/java/com/example/taller3/RegisterActivity.kt:146-152 | a name, last name or id number of whitespace only is rejected with that field's message, because the inputs are trimmed first |
| `Register.DisplayNameSplits` | app/src/main/java/com/example/taller3/RegisterActivity.kt:172 | the display name is the name, one space, and the last name |
| `Register.UserRecord` | app/src/main/java/com/example/taller3/RegisterActivity.kt:215-223 | the record has exactly the seven keys, the form's texts, `profileImageUrl` = "", and the fix's latitude and longitude, or null for both without a fix |
| `Register.SaveUserToDatabase` | app/src/main/java/com/example/taller3/RegisterActivity.kt:213-225 | nothing is written without a user id; otherwise the record is written under `users/<id>` |
| `Register.RecordCarriesNoAvailability` | app/src/main/java/com/example/taller3/RegisterActivity.kt:215-223 | the saved record has no `status`, `available` or `imageUrl` key |
| `Register.RegisterScreen.constructor` | app/src/main/java/com/example/taller3/RegisterActivity.kt:32 | the screen starts without a location fix |
| `Register.RegisterScreen.OnLocationResult` | app/src/main/java/com/example/taller3/RegisterActivity.kt:69-73 | the fix is replaced by the callback's last location, which may be null |
| `Register.RegisterScreen.ValidateForm` | app/src/main/java/com/example/taller3/RegisterActivity.kt:234-279 | the result is true exactly for an acceptable form, and every field's error is set or cleared by its own check |
| `Register.RegisterScreen.RegisterUser` | app/src/main/java/com/example/taller3/RegisterActivity.kt:145-163 | the trimmed form is validated; an account is requested, with the trimmed e-mail and password, only for a valid form with a known fix |
| `Register.OnAccountCreated` | app/src/main/java/com/example/taller3/RegisterActivity.kt:165-193 | success updates the profile to "name lastName" when there is a user and saves the record when there is a user id |
| `Login.AcceptableIffNoErrors` | app/src/main/java/com/example/taller3/MainActivity.kt:57-88 | the form passes if and only if neither field check leaves an error |
| `Login.BlankFieldsReportedMissing` | app/src/main/java/com/example/taller3/MainActivity.kt:60-86 | a blank e-mail gets "Ingresa tu correo" whatever the pattern says, and a blank password gets "Ingresa tu contraseña" |
| `Login.AcceptedPasswordLength` | app/src/main/java/com/example/taller3/MainActivity.kt:74-86 | an accepted password has at least 3 characters, and at least 6 when all of them are in the Basic Multilingual Plane |
| `Login.LoginScreen.constructor` | app/src/main/java/com/example/taller3/MainActivity.kt:22-25 | the screen opens with empty fields, no errors and no navigation |
| `Login.LoginScreen.ValidateForm` | app/src/main/java/com/example/taller3/MainActivity.kt:57-89 | both fields are checked, each error set ("missing" before "malformed" or "short") or cleared, and the result is true exactly for an acceptable form |
| `Login.LoginScreen.OnLoginClick` | app/src/main/java/com/example/taller3/MainActivity.kt:32-39 | sign-in is requested, with the trimmed fields, exactly when the trimmed form is valid |
| `Login.LoginScreen.UpdateUI` | app/src/main/java/com/example/taller3/MainActivity.kt:115-126 | a user leads to the map screen with its e-mail; no user only clears the password field |
| `Login.LoginScreen.OnSignInResult` | app/src/main/java/com/example/taller3/MainActivity.kt:95-113 | success hands the current user to `updateUI` (navigation, password kept; or, with no user, password cleared); failure toasts "Error: Credenciales incorrectas" and clears the password |
| `Login.LoginScreen.OnStart` | app/src/main/java/com/example/taller3/MainActivity.kt:48-55 | an already signed-in user goes straight to the map screen; the password field is never touched, and without a user nothing changes |

## Left out

- Database and authentication I/O are not modelled: listener registration, `setValue`, the
  sign-in and account-creation calls, the profile update call, and `sendTestMessage`. The
  model takes their results as inputs and returns what would be written or requested.
- `onCancelled` of the service and of the list screen show a toast or do nothing, so they are
  not modelled.
- Location requests, permission dialogs, settings prompts, and the foreground service and
  notification lifecycle are platform I/O, so they are not modelled.
- `saveCurrentLocationToDatabase` (DistanciaUsuarioActivity.kt:260-271) is a database write,
  so it is not modelled.
- Map rendering is not modelled: tiles, the scale-bar overlay, marker icons and bitmaps, anchors
  and `invalidate`. The map is reduced to the list of markers on it, its centre and its zoom.
- `Location.distanceBetween` is the parameter `distanceBetween`. Coordinates are exact reals,
  so floating-point rounding and NaN are not modelled.
- The label's rendering "Distancia: %.2f metros" is kept as the distance value. The
  two-decimal formatting is not modelled.
- `android.util.Patterns.EMAIL_ADDRESS` is the parameter `emailPattern`. The platform
  regular expression is not reimplemented.
- The navigation intents' extras are reduced: only `user_email` (login) and the full name
  (registration) are modelled. The account-creation failure toast includes a platform
  exception message, so it is not modelled.
- `getView` and the detail-screen navigation's `Intent` are UI code, so they are not modelled.
- OSMMapsActivity.kt, DetalleUsuarioActivity.kt, UserAdapter.kt and MyApp.kt are not part of
  this model. They do JSON asset parsing, image download on threads and service start/stop.
- The availability service's and the list screen's snapshot listeners read fields with
  `getValue(Boolean)` and `getValue(String)`. A value of another type makes `getValue` throw, and
  nothing catches it there, so the callback aborts part-way through the loop. Records are modelled
  with `Option` fields, so that case is not represented.
- Kotlin strings may hold unpaired UTF-16 surrogates. Dafny characters are Unicode scalar
  values, so such strings cannot be represented.
- AvailabilityService.AfterClosedForm: stated only for snapshots whose keyed children have
  distinct keys, which is how the database delivers children. With a repeated key, the last
  occurrence decides, and that case is not stated.
- AvailabilityService.MembershipAfterSnapshot: stated only for snapshots with distinct keys,
  for the same reason.
- AvailabilityService.AnnouncedExactlyNewlyAvailable: stated only for snapshots with distinct
  keys, for the same reason.
- AvailabilityService.ReprocessingIsQuiet: stated only for snapshots with distinct keys.
  Without them, a repeated key whose flags disagree is announced again on the second pass.
- UserList.FilteredOnlyOthersAvailable: stated only for a non-empty signed-in id. With the id
  "", a child with a null key would yield a user whose id is "".
