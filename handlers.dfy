/**
 * The five request handlers as transitions over the server state: the
 * client's session (an optional user id), the user table and the recipe
 * table. Each step returns the new state, the HTTP status and the body.
 */
module Handlers {
  import opened Wrappers
  import opened Json
  import opened Models

  const DuplicateUsername: string := "Username already exists."
  const Unauthorized: string := "Unauthorized"
  const InvalidCredentials: string := "Invalid username or password"

  /** The keys of the public user profile; the password digest is not one of them. */
  const ProfileKeys: set<string> := {"id", "username", "image_url", "bio"}

  /** JSON request bodies; a field is `None` when its key is absent. */
  datatype SignupRequest = SignupRequest(
    username: Option<string>, password: Option<string>, imageUrl: Option<string>, bio: Option<string>)
  datatype LoginRequest = LoginRequest(username: Option<string>, password: Option<string>)
  /** There is no owner field: the owner always comes from the session. */
  datatype RecipeRequest = RecipeRequest(
    title: Option<string>, instructions: Option<string>, minutesToComplete: Option<int>)

  /** An exception a handler raises without catching it. */
  datatype Fault = KeyError(key: string) | AttributeError(attribute: string)

  /** A JSON body, the empty body of a 204, or an uncaught exception (answered with 500). */
  datatype Response = Body(json: Value) | NoContent | Raised(fault: Fault)

  datatype State = State(session: Option<nat>, users: seq<User>, recipes: seq<Recipe>)

  datatype Outcome = Outcome(state: State, status: int, response: Response)

  /** The state a freshly created database and a client without a cookie start from. */
  const Fresh: State := State(None, [], [])

  /** The session names a stored user. */
  predicate SessionBound(s: State) {
    s.session.Some? ==> 1 <= s.session.value <= |s.users|
  }

  /** Everything the handlers keep true when they start from it. */
  predicate Consistent(s: State) {
    UsersValid(s.users) && RecipesValid(s.recipes, s.users) && SessionBound(s)
  }

  /** `str(KeyError(key))`, the message a missing key produces. */
  function KeyErrorText(key: string): string {
    "'" + key + "'"
  }

  function ErrorJson(message: string): Value {
    JObject(map["error" := JStr(message)])
  }

  /** The four-field profile shared by signup, login and check_session. */
  function ProfileJson(u: User): (r: Value)
    ensures r.JObject? && r.fields.Keys == ProfileKeys
  {
    JObject(map["id" := JInt(u.id), "username" := JStr(u.username),
                "image_url" := JStr(u.imageUrl), "bio" := JStr(u.bio)])
  }

  /** The user a successful signup stores: the next id, the hashed password, empty defaults. */
  function NewUser(lib: Library, users: seq<User>, req: SignupRequest): User
    requires req.username.Some? && req.password.Some?
  {
    User(|users| + 1, req.username.value, lib.hash(req.password.value),
         req.imageUrl.GetOr(""), req.bio.GetOr(""))
  }

  /** The recipe an authenticated create stores: the next id, owned by the session's user. */
  function NewRecipe(s: State, req: RecipeRequest): Recipe
    requires s.session.Some?
    requires req.title.Some? && req.instructions.Some? && req.minutesToComplete.Some?
  {
    Recipe(|s.recipes| + 1, req.title.value, req.instructions.value,
           req.minutesToComplete.value, s.session.value)
  }

  /** POST /signup. */
  function SignupStep(lib: Library, s: State, req: SignupRequest): (o: Outcome)
    ensures o.status in {201, 422, 400}
    ensures o.status == 400 <==> req.username.None? || req.password.None?
    ensures o.status == 422 <==>
      req.username.Some? && req.password.Some? && Taken(s.users, req.username.value)
    ensures o.status == 201 ==>
      o.state == State(Some(|s.users| + 1), s.users + [NewUser(lib, s.users, req)], s.recipes) &&
      o.response == Body(ProfileJson(NewUser(lib, s.users, req)))
    ensures o.status != 201 ==> o.state == s
    ensures o.status == 422 ==> o.response == Body(ErrorJson(DuplicateUsername))
    ensures o.status == 400 ==>
      o.response == Body(ErrorJson(KeyErrorText(if req.username.None? then "username" else "password")))
  {
    match (req.username, req.password)
    case (None, _) => Outcome(s, 400, Body(ErrorJson(KeyErrorText("username"))))
    case (Some(_), None) => Outcome(s, 400, Body(ErrorJson(KeyErrorText("password"))))
    case (Some(name), Some(_)) =>
      if Taken(s.users, name) then
        Outcome(s, 422, Body(ErrorJson(DuplicateUsername)))
      else
        var u := NewUser(lib, s.users, req);
        Outcome(State(Some(u.id), s.users + [u], s.recipes), 201, Body(ProfileJson(u)))
  }

  /**
   * GET /check_session, with a stale session answered like an absent one.
   * This is the intended behaviour; CheckSessionAsWritten is the source's.
   */
  function CheckSessionStep(s: State): (o: Outcome)
    ensures o.state == s
    ensures o.status in {200, 401}
    ensures o.status == 200 <==> s.session.Some? && FindById(s.users, s.session.value).Some?
    ensures o.status == 200 ==> o.response == Body(ProfileJson(s.users[FindById(s.users, s.session.value).value]))
    ensures o.status == 401 ==> o.response == Body(ErrorJson(Unauthorized))
  {
    match s.session
    case None => Outcome(s, 401, Body(ErrorJson(Unauthorized)))
    case Some(id) =>
      match FindById(s.users, id)
      case None => Outcome(s, 401, Body(ErrorJson(Unauthorized)))
      case Some(i) => Outcome(s, 200, Body(ProfileJson(s.users[i])))
  }

  /** GET /check_session as written: a stale id makes `user.id` raise on `None`. */
  function CheckSessionAsWritten(s: State): (o: Outcome)
    ensures o.state == s
    ensures o.status == 500 <==> s.session.Some? && FindById(s.users, s.session.value).None?
    ensures o.status == 500 ==> o.response == Raised(AttributeError("id"))
  {
    match s.session
    case None => Outcome(s, 401, Body(ErrorJson(Unauthorized)))
    case Some(id) =>
      match FindById(s.users, id)
      case None => Outcome(s, 500, Raised(AttributeError("id")))
      case Some(i) => Outcome(s, 200, Body(ProfileJson(s.users[i])))
  }

  /** POST /login. */
  function LoginStep(lib: Library, s: State, req: LoginRequest): (o: Outcome)
    ensures o.state.users == s.users && o.state.recipes == s.recipes
    ensures o.status in {200, 401, 500}
    ensures o.status == 200 <==>
      req.username.Some? && req.password.Some? &&
      var found := FindByUsername(s.users, req.username.value);
      found.Some? && lib.verify(req.password.value, s.users[found.value].digest)
    ensures o.status == 200 ==>
      var u := s.users[FindByUsername(s.users, req.username.value).value];
      o.state.session == Some(u.id) && o.response == Body(ProfileJson(u))
    ensures o.status != 200 ==> o.state == s
    ensures o.status == 401 ==> o.response == Body(ErrorJson(InvalidCredentials))
    ensures o.status == 500 <==>
      req.username.None? || (req.password.None? && FindByUsername(s.users, req.username.value).Some?)
  {
    match req.username
    case None => Outcome(s, 500, Raised(KeyError("username")))
    case Some(name) =>
      match FindByUsername(s.users, name)
      case None => Outcome(s, 401, Body(ErrorJson(InvalidCredentials)))
      case Some(i) =>
        match req.password
        case None => Outcome(s, 500, Raised(KeyError("password")))
        case Some(password) =>
          if lib.verify(password, s.users[i].digest) then
            Outcome(s.(session := Some(s.users[i].id)), 200, Body(ProfileJson(s.users[i])))
          else
            Outcome(s, 401, Body(ErrorJson(InvalidCredentials)))
  }

  /** DELETE /logout. */
  function LogoutStep(s: State): (o: Outcome)
    ensures o.state.session.None?
    ensures o.state.users == s.users && o.state.recipes == s.recipes
    ensures o.status == 204 && o.response == NoContent
  {
    Outcome(s.(session := None), 204, NoContent)
  }

  /** GET /recipes. */
  function RecipeGetStep(lib: Library, s: State): (o: Outcome)
    ensures o.state == s
    ensures o.status in {200, 401}
    ensures o.status == 200 <==> s.session.Some?
    ensures o.status == 401 ==> o.response == Body(ErrorJson(Unauthorized))
    ensures o.status == 200 ==>
      o.response.Body? && o.response.json.JArray? &&
      |o.response.json.items| == |s.recipes| &&
      forall i :: 0 <= i < |s.recipes| ==> o.response.json.items[i] == lib.toDict(s.recipes[i])
  {
    if s.session.None? then Outcome(s, 401, Body(ErrorJson(Unauthorized)))
    else Outcome(s, 200, Body(JArray(SerializeAll(lib.toDict, s.recipes))))
  }

  /** POST /recipes. */
  function RecipePostStep(lib: Library, s: State, req: RecipeRequest): (o: Outcome)
    ensures o.status in {201, 401, 500}
    ensures o.status == 401 <==> s.session.None?
    ensures o.status == 401 ==> o.response == Body(ErrorJson(Unauthorized))
    ensures o.status == 201 <==>
      s.session.Some? && req.title.Some? && req.instructions.Some? && req.minutesToComplete.Some?
    ensures o.status == 201 ==>
      var r := NewRecipe(s, req);
      r.userId == s.session.value &&
      o.state == s.(recipes := s.recipes + [r]) && o.response == Body(lib.toDict(r))
    ensures o.status != 201 ==> o.state == s
    ensures o.status == 500 ==> o.response == Raised(KeyError(
      if req.title.None? then "title" else if req.instructions.None? then "instructions"
      else "minutes_to_complete"))
  {
    if s.session.None? then Outcome(s, 401, Body(ErrorJson(Unauthorized)))
    else if req.title.None? then Outcome(s, 500, Raised(KeyError("title")))
    else if req.instructions.None? then Outcome(s, 500, Raised(KeyError("instructions")))
    else if req.minutesToComplete.None? then Outcome(s, 500, Raised(KeyError("minutes_to_complete")))
    else
      var r := NewRecipe(s, req);
      Outcome(s.(recipes := s.recipes + [r]), 201, Body(lib.toDict(r)))
  }

  /** One request to one of the routes. */
  datatype Request =
    | SignupCall(signup: SignupRequest)
    | CheckSessionCall
    | LoginCall(login: LoginRequest)
    | LogoutCall
    | RecipeListCall
    | RecipeCreateCall(recipe: RecipeRequest)

  function Handle(lib: Library, s: State, req: Request): Outcome {
    match req
    case SignupCall(r) => SignupStep(lib, s, r)
    case CheckSessionCall => CheckSessionStep(s)
    case LoginCall(r) => LoginStep(lib, s, r)
    case LogoutCall => LogoutStep(s)
    case RecipeListCall => RecipeGetStep(lib, s)
    case RecipeCreateCall(r) => RecipePostStep(lib, s, r)
  }

  /** The state after serving `reqs` in order, one client's session throughout. */
  function Run(lib: Library, s: State, reqs: seq<Request>): State
    decreases |reqs|
  {
    if reqs == [] then s else Run(lib, Handle(lib, s, reqs[0]).state, reqs[1..])
  }
}
