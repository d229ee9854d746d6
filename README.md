# PlaceShare backend and client session, modelled in Dafny

PlaceShare is a MERN application in which users sign up, log in, and share
places with a title, description, address, coordinates and an image. This
project models the parts of it that decide outcomes:

- **Express backend.**
  - The places and users controllers, with every error code and message they send.
  - The JWT check that guards place writes.
  - The multer file filter and file naming.
  - The routers' middleware chains.
  - The terminal error handler in `app.js`.
  - The two Mongoose schemas.
- **React client.**
  - The session kept by the auth hook: state, the `userData` slot of `localStorage`, and the auto-logout timer.
  - The request registry of the HTTP hook.
  - The list update on the user's places page.

Module layout follows the source files:

| source | Dafny module (file) |
|---|---|
| `models/place.js`, `models/user.js`, `models/http-error.js` | `PlaceModel`, `UserModel`, `HttpErrors` |
| the two MongoDB collections and their cross references | `Store` (class `Database`) |
| `controllers/places-controllers.js` | `PlacesControllers` |
| `controllers/users-controllers.js` | `UsersControllers` |
| `middleware/check-auth.js` | `CheckAuth` |
| `middleware/file-upload.js` | `FileUpload` |
| `routes/places-routes.js`, `routes/users-routes.js` (express-validator rules in `Routing`) | `PlacesRoutes`, `UsersRoutes` |
| `app.js` | `App` |
| `shared/hooks/auth-hook.js` | `AuthHook` (class `Session`) |
| `shared/hooks/http-hook.js` | `HttpHook` (class `HttpClient`) |
| `places/pages/UserPlaces.js` | `UserPlaces` |

`bcryptjs` and `jsonwebtoken` are values of function type (`Crypto.Bcrypt`,
`Crypto.Jwt`). `normalizeEmail`/`isEmail` are a `Routing.EmailChecks` value.
A driver or library call that may throw is a boolean input (`findFails`,
`txFails`, `hashFails`, ...). The geocoder's answer is an `Outcome` input.

The store keeps one invariant, `Store.Consistent`:
- every document satisfies its schema;
- emails are unique;
- every place's creator exists;
- each user's `places` holds exactly the ids of the places that user created.

Every controller method preserves it. Every failure leaves both collections
exactly as they were, with one exception. When signup saves the user and then
fails to sign the token, it answers 500 but the user stays saved.

Where the code departs from what it evidently intends, the model follows the code:
- `getPlacesByUserId` tests `.length` on the user document rather than on its
  list (places-controllers.js:74). The test on the list is commented out at
  places-controllers.js:73, and the 404 message at places-controllers.js:77
  speaks of finding no places. An existing user with no places nevertheless
  gets `200` with an empty list, not `404`.
- `updatePlace` reads `place.creator` without a not-found check
  (places-controllers.js:199). The model makes "the place exists" a
  precondition of the paths that reach that line.

## Model

| member | source | states |
|---|---|---|
| Store.Pull | backend/controllers/places-controllers.js:257 | `places.pull(id)` removes every copy of that id; the remaining ids keep their order and their number of copies |
| Store.Attach | backend/controllers/places-controllers.js:158 | the owner's list becomes its old list followed by the new id; every other user is left as it was |
| Store.Detach | backend/controllers/places-controllers.js:257 | the owner's list becomes `Pull` of its old list, which keeps exactly the other ids; every other user is left as it was |
| Store.CreateKeepsConsistent | backend/controllers/places-controllers.js:149-162 | saving a valid place for an existing creator and pushing its id onto that creator keeps the store consistent |
| Store.CreatedListedOnce | backend/controllers/places-controllers.js:149-162 | after a place is created, its id appears in its creator's list exactly once |
| Store.DeleteKeepsConsistent | backend/controllers/places-controllers.js:252-259 | a stored place's creator exists; deleting the place and pulling its id from that creator keeps the store consistent |
| Store.UpdateKeepsConsistent | backend/controllers/places-controllers.js:204-209 | replacing a place by a valid one with the same creator keeps the store consistent and no user's owned set changes |
| Store.SignupKeepsConsistent | backend/controllers/users-controllers.js:66-75 | inserting a valid new user with no places and an unused email keeps the store consistent |
| PlaceModel.PlaceSchemaValid | backend/models/place.js:6-19 | the place schema: title, description, image and address are required (non-empty) |
| UserModel.UserSchemaValid | backend/models/user.js:7-15 | the user schema: name, email and image are required, and the password has at least 6 characters (so it is present too) |
| UserModel.EmailsUnique | backend/models/user.js:10 | `unique: true` on `email`: no two stored users share an address |
| UserModel.Holder | backend/controllers/users-controllers.js:124 | `findOne({ email })`: when an address is taken, the user found holds it, and under unique emails no other user does |
| Store.Linked | backend/models/place.js:18 | every place's `creator` references a stored user, and each user's `places` lists exactly the places that user created |
| Store.Consistent | backend/models/user.js:7-15 | the store invariant: both schemas hold for every document, emails are unique, and ownership is linked both ways |
| Store.Database.constructor | backend/models/user.js:21 | a fresh store has no users and no places and is consistent |
| PlacesControllers.Populate | backend/controllers/places-controllers.js:64-87 | `populate("places")`: an entry is in the result iff its id is listed and stored, paired with the stored place; never longer than the id list |
| PlacesControllers.PopulateComplete | backend/controllers/places-controllers.js:64 | when every listed id is stored, the population has the same length and the same order as the id list |
| PlacesControllers.OwnPlaces | backend/controllers/places-controllers.js:64-88 | in a consistent store, a user's populated places are exactly the places whose creator is that user |
| PlacesControllers.ValidInputMeetsSchema | backend/models/place.js:6-19 | input that passed the create validators, with an uploaded image, builds a place the schema accepts |
| PlacesControllers.NewPlace | backend/controllers/places-controllers.js:114-126 | the new place takes title, description and address from the body, the geocoded location, the uploaded path, and the authenticated user as creator |
| PlacesControllers.GetPlaceById | backend/controllers/places-controllers.js:17-43 | 500 when the lookup throws, 404 when no place has the id, otherwise 200 with that place; the store is not touched |
| PlacesControllers.GetPlacesByUserId | backend/controllers/places-controllers.js:53-89 | 500 when the lookup throws, 404 exactly when the user does not exist, otherwise 200 with `Populate` of the user's list: one entry per listed id, holding exactly the places that user created; empty when the user has none |
| PlacesControllers.CreatePlace | backend/controllers/places-controllers.js:93-173 | 422 on invalid input, the geocoder's error, 500/404 for the creator lookup, 500 on a failed transaction or schema check, else 201; on success one place with creator = the token's user is added and its id appended to that user; every error leaves both collections unchanged |
| PlacesControllers.UpdatePlace | backend/controllers/places-controllers.js:176-216 | 422, 500, 401 when the requester is not the creator, 500 on a failed save, else 200 with only title and description changed; users never change and an error leaves places unchanged |
| PlacesControllers.DeletePlace | backend/controllers/places-controllers.js:219-271 | 500, 404, 401 when the requester is not the creator, 500 on a failed transaction, else 200 "Deleted place."; the place leaves the store, its id leaves its creator, and the image is unlinked only then |
| UsersControllers.ListUsers | backend/controllers/users-controllers.js:15-20 | every stored user appears, with name, email, image and places and no password |
| UsersControllers.GetUsers | backend/controllers/users-controllers.js:11-21 | 500 when the lookup throws, otherwise 200 with one password-free entry per stored user |
| UsersControllers.Issue | backend/controllers/users-controllers.js:161-165 | with a sound JWT library, the issued token verifies under the same key to `{ userId, email }` of the user it was issued for |
| UsersControllers.ValidSignupMeetsSchema | backend/models/user.js:7-15 | input that passed the signup validators builds a user the schema accepts, given a validator that accepts no empty address, a digest of at least 6 characters and an uploaded image |
| UsersControllers.NewUser | backend/controllers/users-controllers.js:57-72 | the created user has the sanitized name and email, the bcrypt digest (12 rounds) as password, the upload as image, no places |
| UsersControllers.Signup | backend/controllers/users-controllers.js:23-117 | 422 on invalid input, 500 on a failed lookup, 422 when the normalised email is taken, 500 on hash or save failure, 500 on a signing failure with the user already saved, else 201 with the new user's session; places never change |
| UsersControllers.LoginReply | backend/controllers/users-controllers.js:119-176 | 500 when the lookup throws; 403 when nobody holds the email; 500 when the comparison throws; 401 "Invalid credentials, cannot login." when the holder's digest does not match; 500 when signing throws; a session is issued only to a stored holder whose digest the password matches, with a token naming that user; with unique emails and no failing call, success iff such a holder exists |
| UsersControllers.Login | backend/controllers/users-controllers.js:119-176 | the reply is `LoginReply` for the email exactly as sent; the store is not touched |
| UsersControllers.StoredEmail | backend/routes/users-routes.js:20 | the address signup stores is the sent email after `normalizeEmail` |
| UsersControllers.NormalizedLogin | backend/controllers/users-controllers.js:119-124 | corrected login: the reply is `LoginReply` for the email normalised as signup normalises it |
| UsersControllers.SignupThenLogin | backend/controllers/users-controllers.js:119-152 | with the normalised lookup, a user saved by signup logs in with the same email and password and receives a session for itself |
| UsersControllers.LoginMissesSignupEmail | backend/controllers/users-controllers.js:120-124 | as written, a user who signed up as `A@x.io` is refused 403 when logging in as `A@x.io`; the normalised lookup finds them |
| UsersRoutes.SignupRules | backend/routes/users-routes.js:17-22 | signup input is valid iff the name is non-empty, the normalised email passes `isEmail` and the password has at least 6 characters |
| UsersRoutes.SignupSanitizes | backend/routes/users-routes.js:20 | validation replaces the email by its normalised form and leaves name and password alone |
| Routing.Sanitize | backend/routes/users-routes.js:20 | the validators add and drop no field, and a field no `normalizeEmail` chain names keeps its value |
| UsersRoutes.Route | backend/routes/users-routes.js:12-26 | no users route checks a token; login runs no validator and takes no upload; signup, matched whatever the case of `signup`, takes the `image` upload then the signup rules; OPTIONS is answered by the router exactly on `/`, `/signup` and `/login` |
| PlacesRoutes.CreateRules | backend/routes/places-routes.js:29-33 | create input is valid iff title and address are non-empty and the description has at least 5 characters |
| PlacesRoutes.UpdateRules | backend/routes/places-routes.js:39-42 | update input is valid iff the title is non-empty and the description has at least 5 characters |
| PlacesRoutes.Route | backend/routes/places-routes.js:15-46 | the two GET routes need no token, with `user` matched whatever its case, and every other request starts with the token check; only create takes an upload; delete runs no validator; OPTIONS is answered by the router exactly on a registered path |
| PlacesRoutes.UserSegmentIgnoresCase | backend/routes/places-routes.js:17 | `/USER/:uid`, `/User/:uid` and `/user/:uid` all reach the listing of a user's places without a token |
| CheckAuth.Split | backend/middleware/check-auth.js:21 | `split(" ")` always yields at least one piece, no piece holds a space, and there are two or more exactly when the string has a space |
| CheckAuth.BearerToken | backend/middleware/check-auth.js:21 | `split(" ")[1]` is undefined exactly when the header has no space; otherwise it is the space-free word after the first space |
| CheckAuth.SplitWord | backend/middleware/check-auth.js:21 | a string without a space splits into itself alone |
| CheckAuth.SplitFirstWord | backend/middleware/check-auth.js:21 | splitting `w + " " + rest` gives `w` then the split of `rest` |
| CheckAuth.SplitJoin | backend/middleware/check-auth.js:21 | joining space-free words with single spaces and splitting gives the words back |
| CheckAuth.Authenticate | backend/middleware/check-auth.js:6-40 | OPTIONS always passes; every refusal is 403 "Authentication failed!"; a missing header is refused; otherwise accepted iff the second word is non-empty and verifies, and the user id is the token's |
| CheckAuth.AnySchemeAccepted | backend/middleware/check-auth.js:21-31 | any first word is accepted as scheme when the second word verifies |
| CheckAuth.SingleWordRejected | backend/middleware/check-auth.js:21-25 | a header of one word is refused |
| CheckAuth.IssuedTokenAccepted | backend/middleware/check-auth.js:21-31 | with a sound JWT library, `Bearer` followed by a token the backend issued is accepted for the user it names |
| FileUpload.Extension | backend/middleware/file-upload.js:4-9 | exactly `image/png`, `image/jpg` and `image/jpeg` have an extension, `png`, `jpg` and `jpeg` |
| FileUpload.Filter | backend/middleware/file-upload.js:27-32 | a file is accepted iff its mimetype is one of the three image types; refusals carry "Invalid mime type!" |
| FileUpload.FileName | backend/middleware/file-upload.js:21-25 | the stored name is the uuid, a dot and the mapped extension, which for an accepted file is `png`, `jpg` or `jpeg` |
| App.Dispatch | backend/app.js:24-50 | a read of a stored file under the upload directory is served; paths below `/api/places` and `/api/users`, matched whatever their case, go through that router with the mount prefix removed; every other path reaches the not-found middleware; every chain ends in a terminal stage |
| App.UploadedImageIsServed | backend/app.js:24 | a file saved under its upload name in the upload directory is served back at that directory's path followed by the name |
| App.MountIgnoresCase | backend/app.js:41-43 | `/API/Places/...` and `/Api/USERS/...` reach the same router as the lower-case paths |
| App.Status | backend/app.js:74 | `res.status` receives the error's code when it is set and not 0 or empty, a string for a string code, otherwise 500; never the number 0 |
| App.Message | backend/app.js:76 | the message is the error's when non-empty, otherwise "An unknown error occurred!" |
| App.HandleError | backend/app.js:56-77 | an uploaded file is always unlinked; a response is sent iff headers were not sent; it is the `{ message }` envelope with that status when the status is a number from 100 to 999, otherwise Express's own 500 page |
| App.UnexpectedFieldGetsNoEnvelope | backend/app.js:74-76 | multer's `LIMIT_UNEXPECTED_FILE` error reaches `res.status` as a string, so the client gets Express's 500 page and no envelope |
| App.UnmatchedIsNotFound | backend/app.js:47-50 | an unmatched request is answered 404 "Could not find this route." |
| App.RefusedUploadIs500 | backend/app.js:74-76 | a multer refusal has no code and is answered 500 with the filter's message |
| UserPlaces.PlaceDeleted | frontend/src/places/pages/UserPlaces.js:28-34 | no place with the deleted id remains; every other place stays as often as it was there |
| UserPlaces.DeletionKeepsOrder | frontend/src/places/pages/UserPlaces.js:32 | the kept places keep their relative order |
| UserPlaces.DeletionIdempotent | frontend/src/places/pages/UserPlaces.js:30-33 | handling the same deletion twice equals handling it once |
| HttpHook.Without | frontend/src/shared/hooks/http-hook.js:31-33 | the settled controller is gone and every other controller stays |
| HttpHook.WithoutKeepsOrder | frontend/src/shared/hooks/http-hook.js:31-33 | the remaining controllers keep their order |
| HttpHook.HttpClient.constructor | frontend/src/shared/hooks/http-hook.js:5-10 | not loading, no error, empty registry |
| HttpHook.HttpClient.Send | frontend/src/shared/hooks/http-hook.js:14-16 | loading, and a controller not yet in the registry is appended to it |
| HttpHook.HttpClient.Settle | frontend/src/shared/hooks/http-hook.js:18-45 | once a body is read the controller leaves the registry; a non-2xx body fails with its `message`, stored as the error; a throw fails with its message; loading is false either way |
| HttpHook.HttpClient.ClearError | frontend/src/shared/hooks/http-hook.js:50-52 | the error is cleared and nothing else changes |
| HttpHook.HttpClient.Unmount | frontend/src/shared/hooks/http-hook.js:54-58 | every controller in the registry is aborted; the registry, loading flag and error stay |
| AuthHook.Expiration | frontend/src/shared/hooks/auth-hook.js:20-21 | a supplied expiration is kept; otherwise it is now plus 3,600,000 ms |
| AuthHook.Session.constructor | frontend/src/shared/hooks/auth-hook.js:8-11 | no token, user or expiration, no pending timer, storage as the browser had it |
| AuthHook.Session.Login | frontend/src/shared/hooks/auth-hook.js:13-37 | token and user id are the given ones, the expiration is `Expiration`, and `userData` holds `{userId, token, expiration}` with every other key untouched |
| AuthHook.Session.Logout | frontend/src/shared/hooks/auth-hook.js:39-47 | token, user and expiration cleared, `userData` removed, every other key untouched |
| AuthHook.Session.SyncTimer | frontend/src/shared/hooks/auth-hook.js:49-61 | with a token and an expiration a new logout timer due at the expiration is scheduled `expiration - now` ms ahead and becomes `logoutTimer`; otherwise the timer `logoutTimer` names is cleared |
| AuthHook.Session.Fire | frontend/src/shared/hooks/auth-hook.js:56 | a timer that runs out is removed and logs the user out; other `localStorage` keys keep their values |
| AuthHook.Session.Restore | frontend/src/shared/hooks/auth-hook.js:65-82 | logs in iff `userData` exists with a non-empty token and an expiration strictly after now, reusing the stored user, token and expiration |
| AuthHook.ReloadAfterLogin | frontend/src/shared/hooks/auth-hook.js:29-80 | a login followed by a reload before the expiration restores the same user, token and expiration |
| AuthHook.ReloadAfterLogout | frontend/src/shared/hooks/auth-hook.js:39-82 | a logout followed by a reload restores nothing |

## Findings

| source | as written | input that shows it | evidently intended | confidence | as-written member | corrected member |
|---|---|---|---|---|---|---|
| backend/controllers/users-controllers.js:120-124 | login looks the email up exactly as sent, while signup stores `normalizeEmail(email)` (backend/routes/users-routes.js:20) | sign up with email `A@x.io` (normalised to `a@x.io`), then log in with `A@x.io` and the same password: 403 "Not a registered user" | login normalises the email as signup does, so a user logs in with what they signed up with (proved in `UsersControllers.SignupThenLogin`) | medium, not executed | UsersControllers.LoginMissesSignupEmail | UsersControllers.NormalizedLogin |

## Left out

- MongoDB and Mongoose I/O are not modelled. This covers `findById`, `populate`, `save`, `deleteOne`, sessions and `mongoose.connect`. The store is two maps, a transaction is one atomic update, and a driver failure is a boolean input answered with 500.
- bcrypt and jsonwebtoken internals are not modelled: cost factors, timing, and the token expiry that `jwt.verify` checks. They are opaque functions; `Sound` and `Matches` state the two facts used about them.
- The geocoder (`util/location`) is not part of this model. Its result or error is an input, and coordinates are opaque reals.
- Left out of the upload handling:
  - `fs.unlink` is not performed; its path is returned.
  - multer's disk writes are not modelled.
  - The uuid is a parameter.
  - `limits: 500000` gives no size bound: it is a bare number, not a `fileSize` option.
- A request without a file (`req.file` missing) in createPlace and signup is not modelled. The image path is a parameter.
- `res.headerSent` is read as an input of `App.HandleError`, since it is not the standard Express property name.
- PlacesControllers.UpdatePlace: requires the place to exist once validation passed and the lookup did not throw. The source dereferences `null` there and has no 404 path.
- Not modelled: CORS headers, `body-parser`, the headers of Express's automatic OPTIONS reply (`AnswerOptions` only marks where it happens), and starting the server.
- App.Dispatch: the path arrives already split into non-empty segments. Trailing or doubled slashes and percent-encoding are not represented. The static middleware is modelled only for file names directly under `uploads/images`; its redirects for directories and its handling of dotfiles and ranges are not.
- App.HandleError: rests on `Status`. A digit-string code such as `"404"` makes the model send the default 500 page, where Node would coerce it to 404 and send the JSON envelope.
- App.Status: a string code is taken to be a name such as multer's `LIMIT_UNEXPECTED_FILE`. Node would coerce a code made of digits to a number; that case is not modelled.
- FileUpload.Extension: a mimetype is taken to be a `type/subtype` string. In JavaScript, `MIME_TYPE_MAP[m]` also answers for a name every object inherits, such as `constructor`. The model's lookup does not.
- FileUpload.Filter: rests on the same lookup as `Extension`. A mimetype such as `constructor` would pass the JavaScript filter, and the model refuses it.
- FileUpload.FileName: rests on the same lookup as `Extension`. For an inherited name the JavaScript file name would end in the text of that inherited value; the model has no such case.
- PlacesRoutes.CreateRules: only body fields are validated. express-validator's `check` also looks up the field in cookies, headers, route parameters and the query string, and a value found there is checked as well. Such values are not represented.
- PlacesRoutes.UpdateRules: only body fields are validated, for the same reason as `CreateRules`. A `title` or `description` sent in the query string or a header is not represented.
- UsersRoutes.SignupRules: only body fields are validated and sanitised. `check('email').normalizeEmail()` also rewrites an `email` found in another request location; that is not represented.
- UsersControllers.Login: the body's `email` and `password` are taken to be strings. A JSON body can carry an object instead, such as `{"$gt": ""}`, and Mongoose would pass it to `findOne` as a query operator that matches some stored user; the password comparison still decides the reply. The model cannot express that request.
- AuthHook.Session.SyncTimer: the delay is taken to be honoured as given. Browsers clamp a `setTimeout` delay above 2^31-1 ms, which is about 24.8 days, and fire it at once. That would log out straight away a session whose expiration is that far ahead.
- `normalizeEmail` and `isEmail` are not modelled; they are parameters of type `EmailChecks`.
- UsersControllers.GetUsers: returns users as a map keyed by id, so the order `User.find` yields is not modelled.
- `models/http-error.js` is only the `{message, code}` record. It is `HttpErrors.HttpError` and has no module of its own.
- Left out of the client:
  - React rendering, JSX, routing, the fetch effect of the places page, `useCallback`/`useEffect` scheduling.
  - Real timers, `fetch` and `AbortController` semantics: time is an integer parameter and a settled request is an input.
- Concurrency is not modelled. Overlapping requests settle one at a time in whatever order the caller chooses.
- AuthHook.Session.Restore: the JSON and ISO-date round trip through `localStorage` is taken to return the stored record unchanged.
- Only the deletion handler is modelled in the places page (`UserPlaces.js`).
