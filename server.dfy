/**
 * The application as an object: the client's session and the two tables are
 * fields that the handler methods update in place, as the Flask session and
 * the database session do. Each method is proved to produce exactly the
 * outcome of the corresponding step function and to keep `Consistent`.
 */
module AppServer {
  import opened Wrappers
  import opened Json
  import opened Models
  import opened Handlers
  import Properties

  class Server {
    const lib: Library
    var session: Option<nat>
    var users: seq<User>
    var recipes: seq<Recipe>

    function Snapshot(): State
      reads this
    {
      State(session, users, recipes)
    }

    /** A server over the given tables, serving a client that presents `cookie`. */
    constructor (lib: Library, cookie: Option<nat>, users: seq<User>, recipes: seq<Recipe>)
      ensures this.lib == lib
      ensures Snapshot() == State(cookie, users, recipes)
    {
      this.lib := lib;
      session := cookie;
      this.users := users;
      this.recipes := recipes;
    }

    method Signup(req: SignupRequest) returns (status: int, body: Response)
      modifies this
      ensures Outcome(Snapshot(), status, body) == SignupStep(lib, old(Snapshot()), req)
      ensures Consistent(old(Snapshot())) ==> Consistent(Snapshot())
    {
      ghost var before := Snapshot();
      if req.username.None? {
        return 400, Body(ErrorJson(KeyErrorText("username")));
      }
      if req.password.None? {
        return 400, Body(ErrorJson(KeyErrorText("password")));
      }
      var newUser := NewUser(lib, users, req);
      // The commit fails on the unique constraint; rolling back discards the pending row.
      if Taken(users, newUser.username) {
        return 422, Body(ErrorJson(DuplicateUsername));
      }
      users := users + [newUser];
      session := Some(newUser.id);
      status, body := 201, Body(ProfileJson(newUser));
      if Consistent(before) {
        Properties.SignupKeepsConsistent(lib, before, req);
      }
    }

    method CheckSession() returns (status: int, body: Response)
      ensures Outcome(Snapshot(), status, body) == CheckSessionStep(Snapshot())
    {
      if session.None? {
        return 401, Body(ErrorJson(Unauthorized));
      }
      var found := FindById(users, session.value);
      if found.None? {
        return 401, Body(ErrorJson(Unauthorized));
      }
      var user := users[found.value];
      return 200, Body(ProfileJson(user));
    }

    method Login(req: LoginRequest) returns (status: int, body: Response)
      modifies this
      ensures Outcome(Snapshot(), status, body) == LoginStep(lib, old(Snapshot()), req)
      ensures Consistent(old(Snapshot())) ==> Consistent(Snapshot())
    {
      ghost var before := Snapshot();
      if req.username.None? {
        return 500, Raised(KeyError("username"));
      }
      var found := FindByUsername(users, req.username.value);
      if found.None? {
        return 401, Body(ErrorJson(InvalidCredentials));
      }
      var user := users[found.value];
      if req.password.None? {
        return 500, Raised(KeyError("password"));
      }
      if !lib.verify(req.password.value, user.digest) {
        return 401, Body(ErrorJson(InvalidCredentials));
      }
      session := Some(user.id);
      status, body := 200, Body(ProfileJson(user));
      if Consistent(before) {
        Properties.LoginKeepsConsistent(lib, before, req);
      }
    }

    method Logout() returns (status: int, body: Response)
      modifies this
      ensures Outcome(Snapshot(), status, body) == LogoutStep(old(Snapshot()))
      ensures Consistent(old(Snapshot())) ==> Consistent(Snapshot())
    {
      session := None;
      return 204, NoContent;
    }

    method RecipeGet() returns (status: int, body: Response)
      ensures Outcome(Snapshot(), status, body) == RecipeGetStep(lib, Snapshot())
    {
      if session.None? {
        return 401, Body(ErrorJson(Unauthorized));
      }
      return 200, Body(JArray(SerializeAll(lib.toDict, recipes)));
    }

    method RecipePost(req: RecipeRequest) returns (status: int, body: Response)
      modifies this
      ensures Outcome(Snapshot(), status, body) == RecipePostStep(lib, old(Snapshot()), req)
      ensures Consistent(old(Snapshot())) ==> Consistent(Snapshot())
    {
      ghost var before := Snapshot();
      if session.None? {
        return 401, Body(ErrorJson(Unauthorized));
      }
      if req.title.None? {
        return 500, Raised(KeyError("title"));
      }
      if req.instructions.None? {
        return 500, Raised(KeyError("instructions"));
      }
      if req.minutesToComplete.None? {
        return 500, Raised(KeyError("minutes_to_complete"));
      }
      var newRecipe := NewRecipe(Snapshot(), req);
      recipes := recipes + [newRecipe];
      status, body := 201, Body(lib.toDict(newRecipe));
      if Consistent(before) {
        Properties.RecipePostKeepsConsistent(lib, before, req);
      }
    }
  }
}
