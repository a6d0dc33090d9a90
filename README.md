# Session authentication and recipe API — a Dafny model

This project models the request handlers of a small Flask backend
(`server/app.py`): signup, check_session, login, logout, and listing and
creating recipes. Each handler is a transition over three pieces of state:

- the client's session, which holds at most a `user_id`;
- the user table, whose usernames are unique;
- the recipe table, which only grows.

Each call answers with an HTTP status and a body.

Layout:

- `wrappers.dfy` (`Wrappers`): `Option`. It models an absent JSON key or an empty session slot.
- `json.dfy` (`Json`): JSON values used as response bodies.
- `models.dfy` (`Models`): the `User` and `Recipe` rows, the two table queries, the table invariants, and `Library`. `Library` holds the model-layer operations the handlers call but that are defined elsewhere. These are the password hash, `check_password` and `Recipe.to_dict`, kept as uninterpreted function values.
- `handlers.dfy` (`Handlers`): one pure step function per handler over `State(session, users, recipes)`. Its contract states which status comes back, what the body is, and how the state changes. The module also has the invariant `Consistent` and a `Run` of a request sequence.
- `server.dfy` (`AppServer`): the class `Server`. Its fields `session`, `users` and `recipes` are updated in place by one method per handler, written step by step like the source. Each method is proved to produce exactly its step function's outcome and to keep `Consistent`.
- `properties.dfy` (`Properties`): lemmas that relate several requests.

Modelling choices:

- A request body is a datatype whose fields are `Option`s; `None` means the key is absent.
- `Signup` catches every exception. A missing key therefore gives 400 with `str(KeyError(key))`, which is `"'username'"` or `"'password'"`. The username is looked up first.
- `Login` and `RecipeIndex.post` catch nothing. A missing key there is modelled as `Raised(KeyError(key))`, which the framework answers with 500. Login reads the password only after it has found the user, so an unknown username with no password gives 401, not 500.
- Ids are generated by the database. The model gives a new row the id one more than the table's size. Rows are never deleted, and a failed commit is rolled back without using up an id.
- The unique constraint on usernames is modelled as "the commit fails when the username is already in `users`" (`Taken`).
- Login hides whether a username exists only when the request carries a password key. Without one, a stored username raises KeyError (500) while an unknown one gets 401 (`Properties.MissingPasswordRevealsUsername`). `Properties.LoginFailuresIndistinguishable` is stated for requests with both keys.
- `Handlers.NewUser`, `Handlers.NewRecipe`, `Models.Taken`, `Handlers.ErrorJson` and `Handlers.KeyErrorText` are definitional helpers: they name the row a create stores, the unique-constraint test, the error body and the text of a missing-key error. They carry no contract of their own and are covered by the step-function rows below.

## Model

| member | source | states |
|---|---|---|
| Models.FindByUsername | server/app.py:52 | returns the index of the FIRST user with exactly that username, or None exactly when no user has it |
| Models.FindById | server/app.py:39 | returns the index of the first user with that primary key, or None exactly when no user has it |
| Models.FindByUsernameUnique | server/app.py:52 | with unique usernames (no sequential ids needed), any user holding the name is the one the query finds |
| Models.FindByIdInValid | server/app.py:39 | under the id invariant, the lookup by id finds row id-1 when 1 <= id <= the table size, and None otherwise |
| Models.SerializeAll | server/app.py:75 | the serialised list has one entry per recipe, in stored order, each equal to to_dict of that recipe |
| Handlers.ProfileJson | server/app.py:23-28 | the profile object has exactly the keys id, username, image_url and bio |
| Handlers.SignupStep | server/app.py:11-33 | 400 exactly when username or password is missing, with the KeyError text of the first missing one; 422 "Username already exists." exactly when the name is taken; otherwise 201 with exactly one appended user. That user has the next id, the given name, hash(password) as digest, and image_url and bio defaulting to "". The session is set to the new id and the body is that user's profile. Every non-201 answer leaves the state unchanged, and recipes never change |
| Handlers.CheckSessionStep | server/app.py:37-46 | the state is unchanged; 200 with the profile of the session's user exactly when the session names a stored user; otherwise 401 "Unauthorized" (corrected behaviour for a stale id) |
| Handlers.CheckSessionAsWritten | server/app.py:38-45 | as written: a session id that names no user raises AttributeError (500); the state is unchanged |
| Handlers.LoginStep | server/app.py:50-61 | 200 exactly when both keys are present, the first user with that name exists, and verify(password, digest) holds; on 200 the session becomes that user's id and the body is the profile. 401 always has the one message "Invalid username or password". 500 exactly when the username key is missing, or the user exists but the password key is missing. When the answer is not 200 the state, including any prior session, is unchanged; the tables never change |
| Handlers.LogoutStep | server/app.py:65-67 | always 204 with an empty body; the session is cleared; the tables are unchanged |
| Handlers.RecipeGetStep | server/app.py:71-75 | the state is unchanged; 401 "Unauthorized" exactly when there is no session; otherwise 200 with an array as long as the recipe table, whose entry i is to_dict of recipe i |
| Handlers.RecipePostStep | server/app.py:77-89 | 401 "Unauthorized" exactly when there is no session; 201 exactly when the session is set and title, instructions and minutes_to_complete are present. On 201, exactly one recipe is appended: it has the next id, the request's fields, and the session's user id as owner whatever the body says, and the body is its to_dict. Otherwise the state is unchanged, and 500 names the first missing key |
| AppServer.Server.constructor | server/app.py:7-8 | a server over the given tables, serving a client that presents the given session cookie |
| AppServer.Server.Signup | server/app.py:11-33 | the new fields, status and body are exactly SignupStep's outcome from the old fields; Consistent is preserved |
| AppServer.Server.CheckSession | server/app.py:37-46 | status and body are CheckSessionStep's answer; nothing changes |
| AppServer.Server.Login | server/app.py:50-61 | the new fields, status and body are exactly LoginStep's outcome from the old fields; Consistent is preserved |
| AppServer.Server.Logout | server/app.py:65-67 | the new fields, status and body are exactly LogoutStep's outcome; Consistent is preserved |
| AppServer.Server.RecipeGet | server/app.py:71-75 | status and body are RecipeGetStep's answer; nothing changes |
| AppServer.Server.RecipePost | server/app.py:77-89 | the new fields, status and body are exactly RecipePostStep's outcome from the old fields; Consistent is preserved |
| Properties.SignupKeepsConsistent | server/app.py:14-31 | signup keeps ids sequential, usernames unique, recipe owners stored and the session bound to a stored user |
| Properties.SignupKeepsUsersValid | server/app.py:14-31 | signup keeps user ids sequential and usernames unique |
| Properties.LoginKeepsConsistent | server/app.py:52-54 | login sets the session only to a stored user's id |
| Properties.RecipePostKeepsConsistent | server/app.py:81-88 | a created recipe gets the next id and a stored owner |
| Properties.HandleKeepsConsistent | server/app.py:10-89 | every handler keeps the invariant |
| Properties.RunKeepsConsistent | server/app.py:10-89 | every sequence of requests from a consistent state ends in a consistent state |
| Properties.StaleSessionCrashes | server/app.py:38-41 | for every state whose session id names no stored user, the as-written check_session raises AttributeError (500), while the corrected one answers 401 "Unauthorized"; neither changes the state |
| Properties.CheckSessionAgreesWhenConsistent | server/app.py:38-46 | on consistent states the as-written and corrected check_session give the same outcome |
| Properties.FreshServerNeverCrashes | server/app.py:38-46 | starting from empty tables and no cookie, no sequence of requests reaches the crash |
| Properties.ProfileOmitsDigest | server/app.py:23-28 | the profile does not depend on the stored digest and has no password key |
| Properties.SignupThenCheckSession | server/app.py:22-45 | after a successful signup, check_session on the same client returns 200 and the same profile |
| Properties.SignupThenLogin | server/app.py:14-60 | if verify accepts hash(p), logging in with the credentials just signed up gives 200, the same profile and the same state, from any starting tables |
| Properties.DuplicateSignupRejected | server/app.py:29-31 | a second signup with the same username gives 422 "Username already exists." and changes nothing; the table grew by exactly one |
| Properties.LoginSucceedsIff | server/app.py:52-61 | with unique usernames (no sequential ids needed), login gives 200 if and only if some user has exactly that name and its digest verifies the password |
| Properties.LoginFailuresIndistinguishable | server/app.py:52-61 | an unknown username and a wrong password give the identical outcome: 401, the same message, the state unchanged |
| Properties.MissingPasswordRevealsUsername | server/app.py:52-53 | with no password key, a stored username raises KeyError (500) while an unknown one gets the ordinary 401, so that request tells the two apart |
| Properties.LoginThenCheckSession | server/app.py:38-60 | after a successful login, check_session returns 200 and the same profile |
| Properties.LogoutIdempotent | server/app.py:66-67 | two logouts give the same state and answer as one |
| Properties.LogoutRevokesAccess | server/app.py:66-79 | after logout, check_session, GET /recipes and POST /recipes all answer 401 "Unauthorized" and change nothing |
| Properties.PostThenGet | server/app.py:74-89 | after a create, the list has one more entry: the new recipe last, the earlier entries unchanged and in order |
| Properties.CreatedRecipeHasOwner | server/app.py:85 | in a consistent state a created recipe's owner is the session's user, and that user is stored |

## Left out

- HTTP plumbing is not modelled. This covers Flask routing, resource registration, `request.get_json`, `jsonify` and `app.run` (server/app.py:3-4, 92-100). Requests and responses are plain datatypes. A body that is not a JSON object, or a key whose value is JSON `null`, is not modelled.
- The password hash, `check_password` and `Recipe.to_dict` live in `models.py`, which is not part of this model. They are the uninterpreted fields of `Library`. Only `SignupThenLogin` assumes `verify(p, hash(p))`, as a precondition.
- The model-level validations in `models.py` are not modelled. Any `ValueError` they raise in `User(...)` or `Recipe(...)` is not modelled either.
- Database sessions, transactions and commit mechanics are reduced to sequence appends plus the unique-username failure. Other integrity errors are not modelled. Concurrent signups racing on one username are not modelled, because the model is sequential.
- The session is one client's cookie. Cookie signing, expiry and the secret key are not modelled; `config.py` is not part of this model.
- `Recipe.query.all()` and `.first()` have no ORDER BY (server/app.py:52, 74). The model assumes both return rows in insertion order, which is what SQLite does for a plain table scan, but no standard guarantees it.
- Request values of the wrong JSON type are not modelled, such as a string `minutes_to_complete` or a non-string title. Each field holds a value of the type the column expects, or is absent.
- New ids are one more than the table's size. This relies on SQLite's rowid assignment (largest rowid + 1), with no deletes and no id consumed by a rolled-back insert. A database that reserves ids from a sequence could leave gaps.
- A handler's `return jsonify(...), code` is taken to reach the client as that status and body. How Flask-RESTful's output representation treats a tuple that holds a Flask `Response` is not modelled.
- The framework's exact 500 response for an uncaught exception is not modelled; it is represented as `Raised(fault)` with status 500.
- Handlers.RecipeGetStep: each entry is stated only as `to_dict` of its recipe, because the serialised shape, including the embedded owner, is defined in `models.py`.

## Findings

| source | as written | input that shows it | evidently intended | confidence | as-written member | corrected member |
|---|---|---|---|---|---|---|
| server/app.py:38-45 | `User.query.get` returns None for a session id that names no user, and reading `user.id` then raises, so the request fails with 500 | a client cookie holding `user_id` 1 against an empty user table (for example after the database is reseeded) | answer 401 "Unauthorized", as for an absent session | medium, not executed | Handlers.CheckSessionAsWritten (shown by Properties.StaleSessionCrashes) | Handlers.CheckSessionStep (used by AppServer.Server.CheckSession; Properties.FreshServerNeverCrashes shows the two agree on every state a fresh server reaches) |
