/** Properties of the handlers that relate several requests, and the invariant they keep. */
module Properties {
  import opened Wrappers
  import opened Models
  import opened Handlers

  // ----- The invariant -----

  lemma SignupKeepsConsistent(lib: Library, s: State, req: SignupRequest)
    requires Consistent(s)
    ensures Consistent(SignupStep(lib, s, req).state)
  {
  }

  lemma LoginKeepsConsistent(lib: Library, s: State, req: LoginRequest)
    requires Consistent(s)
    ensures Consistent(LoginStep(lib, s, req).state)
  {
  }

  lemma RecipePostKeepsConsistent(lib: Library, s: State, req: RecipeRequest)
    requires Consistent(s)
    ensures Consistent(RecipePostStep(lib, s, req).state)
  {
  }

  lemma HandleKeepsConsistent(lib: Library, s: State, req: Request)
    requires Consistent(s)
    ensures Consistent(Handle(lib, s, req).state)
  {
  }

  /** Every state reachable from a consistent one by any sequence of requests is consistent. */
  lemma {:induction false} RunKeepsConsistent(lib: Library, s: State, reqs: seq<Request>)
    requires Consistent(s)
    ensures Consistent(Run(lib, s, reqs))
    decreases |reqs|
  {
    if reqs != [] {
      HandleKeepsConsistent(lib, s, reqs[0]);
      RunKeepsConsistent(lib, Handle(lib, s, reqs[0]).state, reqs[1..]);
    }
  }

  // ----- check_session on a stale id -----

  /** A session naming no stored user: the source raises, the intended handler answers 401. */
  lemma StaleSessionCrashes(s: State)
    requires s.session.Some? && FindById(s.users, s.session.value).None?
    ensures CheckSessionAsWritten(s) == Outcome(s, 500, Raised(AttributeError("id")))
    ensures CheckSessionStep(s) == Outcome(s, 401, Body(ErrorJson(Unauthorized)))
  {
  }

  /** On consistent states the source's check_session and the corrected one agree. */
  lemma CheckSessionAgreesWhenConsistent(s: State)
    requires Consistent(s)
    ensures CheckSessionAsWritten(s) == CheckSessionStep(s)
  {
    if s.session.Some? {
      FindByIdInValid(s.users, s.session.value);
    }
  }

  /** So the crash needs a cookie from outside: a fresh server never reaches it. */
  lemma FreshServerNeverCrashes(lib: Library, reqs: seq<Request>)
    ensures CheckSessionAsWritten(Run(lib, Fresh, reqs)) == CheckSessionStep(Run(lib, Fresh, reqs))
  {
    RunKeepsConsistent(lib, Fresh, reqs);
    CheckSessionAgreesWhenConsistent(Run(lib, Fresh, reqs));
  }

  // ----- Signup -----

  /** The response never depends on the stored digest. */
  lemma ProfileOmitsDigest(u: User, digest: string)
    ensures ProfileJson(u.(digest := digest)) == ProfileJson(u)
    ensures "password" !in ProfileJson(u).fields && "password_digest" !in ProfileJson(u).fields
  {
  }

  /** After a signup, check_session on the same client returns the profile signup returned. */
  lemma SignupThenCheckSession(lib: Library, s: State, req: SignupRequest)
    requires UsersValid(s.users)
    requires SignupStep(lib, s, req).status == 201
    ensures var o := SignupStep(lib, s, req);
      CheckSessionStep(o.state) == Outcome(o.state, 200, o.response)
  {
    var o := SignupStep(lib, s, req);
    var id := |s.users| + 1;
    assert o.state.users == s.users + [NewUser(lib, s.users, req)];
    assert o.state.users[id - 1] == NewUser(lib, s.users, req);
    SignupKeepsUsersValid(lib, s, req);
    FindByIdInValid(o.state.users, id);
  }

  lemma SignupKeepsUsersValid(lib: Library, s: State, req: SignupRequest)
    requires UsersValid(s.users)
    ensures UsersValid(SignupStep(lib, s, req).state.users)
  {
  }

  /** Round trip: the credentials a signup stored log the same client in as that user. */
  lemma SignupThenLogin(lib: Library, s: State, req: SignupRequest)
    requires HashVerifies(lib)
    requires SignupStep(lib, s, req).status == 201
    ensures var o := SignupStep(lib, s, req);
      LoginStep(lib, o.state, LoginRequest(req.username, req.password)) == Outcome(o.state, 200, o.response)
  {
    var o := SignupStep(lib, s, req);
    var u := NewUser(lib, s.users, req);
    assert o.state.users == s.users + [u];
    assert o.state.users[|s.users|] == u;
    assert forall j :: 0 <= j < |s.users| ==> o.state.users[j] == s.users[j];
    assert lib.verify(req.password.value, lib.hash(req.password.value));
  }

  /** A second signup with a username already taken is refused and stores nothing. */
  lemma DuplicateSignupRejected(lib: Library, s: State, first: SignupRequest, second: SignupRequest)
    requires SignupStep(lib, s, first).status == 201
    requires second.username == first.username && second.password.Some?
    ensures var o := SignupStep(lib, s, first);
      SignupStep(lib, o.state, second) == Outcome(o.state, 422, Body(ErrorJson(DuplicateUsername))) &&
      |o.state.users| == |s.users| + 1
  {
    var o := SignupStep(lib, s, first);
    assert o.state.users[|s.users|].username == first.username.value;
  }

  // ----- Login -----

  /** With unique usernames, login succeeds exactly when some user has the name and the password checks. */
  lemma LoginSucceedsIff(lib: Library, s: State, name: string, password: string)
    requires UniqueUsernames(s.users)
    ensures LoginStep(lib, s, LoginRequest(Some(name), Some(password))).status == 200 <==>
      exists i :: 0 <= i < |s.users| && s.users[i].username == name && lib.verify(password, s.users[i].digest)
  {
  }

  /** An unknown username and a wrong password produce the very same outcome. */
  lemma LoginFailuresIndistinguishable(
    lib: Library, s: State, unknown: string, anyPassword: string, known: string, wrongPassword: string)
    requires !Taken(s.users, unknown)
    requires FindByUsername(s.users, known).Some?
    requires !lib.verify(wrongPassword, s.users[FindByUsername(s.users, known).value].digest)
    ensures LoginStep(lib, s, LoginRequest(Some(unknown), Some(anyPassword))) ==
            LoginStep(lib, s, LoginRequest(Some(known), Some(wrongPassword)))
    ensures LoginStep(lib, s, LoginRequest(Some(unknown), Some(anyPassword))) ==
            Outcome(s, 401, Body(ErrorJson(InvalidCredentials)))
  {
  }

  /**
   * Without a password key the outcome still depends on the username:
   * a stored one raises KeyError (500), an unknown one gets the ordinary 401.
   */
  lemma MissingPasswordRevealsUsername(lib: Library, s: State, unknown: string, known: string)
    requires !Taken(s.users, unknown) && Taken(s.users, known)
    ensures LoginStep(lib, s, LoginRequest(Some(unknown), None)) == Outcome(s, 401, Body(ErrorJson(InvalidCredentials)))
    ensures LoginStep(lib, s, LoginRequest(Some(known), None)) == Outcome(s, 500, Raised(KeyError("password")))
  {
  }

  /** After a login, check_session returns the profile login returned. */
  lemma LoginThenCheckSession(lib: Library, s: State, req: LoginRequest)
    requires UsersValid(s.users)
    requires LoginStep(lib, s, req).status == 200
    ensures var o := LoginStep(lib, s, req);
      CheckSessionStep(o.state) == Outcome(o.state, 200, o.response)
  {
  }

  // ----- Logout -----

  lemma LogoutIdempotent(s: State)
    ensures LogoutStep(LogoutStep(s).state) == LogoutStep(s)
  {
  }

  /** After logout the protected routes refuse the client. */
  lemma LogoutRevokesAccess(lib: Library, s: State, req: RecipeRequest)
    ensures var t := LogoutStep(s).state;
      CheckSessionStep(t) == Outcome(t, 401, Body(ErrorJson(Unauthorized))) &&
      RecipeGetStep(lib, t) == Outcome(t, 401, Body(ErrorJson(Unauthorized))) &&
      RecipePostStep(lib, t, req) == Outcome(t, 401, Body(ErrorJson(Unauthorized)))
  {
  }

  // ----- Recipes -----

  /** A created recipe is listed last, after the earlier ones in their stored order. */
  lemma PostThenGet(lib: Library, s: State, req: RecipeRequest)
    requires RecipePostStep(lib, s, req).status == 201
    ensures var o := RecipePostStep(lib, s, req);
      var listed := RecipeGetStep(lib, o.state).response.json.items;
      RecipeGetStep(lib, o.state).status == 200 &&
      |listed| == |s.recipes| + 1 &&
      listed[|s.recipes|] == lib.toDict(NewRecipe(s, req)) &&
      listed[..|s.recipes|] == RecipeGetStep(lib, s).response.json.items
  {
  }

  /** In a consistent state every recipe created belongs to a stored user. */
  lemma CreatedRecipeHasOwner(lib: Library, s: State, req: RecipeRequest)
    requires Consistent(s)
    requires RecipePostStep(lib, s, req).status == 201
    ensures var o := RecipePostStep(lib, s, req);
      var r := o.state.recipes[|s.recipes|];
      Some(r.userId) == s.session && FindById(o.state.users, r.userId).Some?
  {
    var o := RecipePostStep(lib, s, req);
    FindByIdInValid(s.users, s.session.value);
  }
}
