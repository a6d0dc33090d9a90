/**
 * The two persisted entities, the behaviour of the model layer that the
 * handlers call but that is defined elsewhere (password hashing and
 * checking, recipe serialisation), and the two table queries the handlers use.
 */
module Models {
  import opened Wrappers
  import Json

  /** A row of the user table; `digest` is the stored password hash. */
  datatype User = User(id: nat, username: string, digest: string, imageUrl: string, bio: string)

  /** A row of the recipe table; `userId` names the owning user. */
  datatype Recipe = Recipe(id: nat, title: string, instructions: string, minutesToComplete: int, userId: nat)

  /**
   * The model-layer operations the handlers depend on, left uninterpreted:
   * `hash` is what assigning `User.password` stores, `verify(password, digest)`
   * is `User.check_password`, and `toDict` is `Recipe.to_dict`.
   */
  datatype Library = Library(
    hash: string -> string,
    verify: (string, string) -> bool,
    toDict: Recipe -> Json.Value)

  /** The one property of the hash that round-trip lemmas rely on. */
  ghost predicate HashVerifies(lib: Library) {
    forall password :: lib.verify(password, lib.hash(password))
  }

  /** Index of the first user called `name`: `User.query.filter_by(username=name).first()`. */
  function FindByUsername(users: seq<User>, name: string): (r: Option<nat>)
    ensures r.Some? ==> r.value < |users| && users[r.value].username == name
    ensures r.Some? ==> forall j :: 0 <= j < r.value ==> users[j].username != name
    ensures r.None? <==> forall j :: 0 <= j < |users| ==> users[j].username != name
  {
    if |users| == 0 then None
    else if users[0].username == name then Some(0)
    else match FindByUsername(users[1..], name)
      case None => None
      case Some(k) => Some(k + 1)
  }

  /** Index of the user whose primary key is `id`: `User.query.get(id)`. */
  function FindById(users: seq<User>, id: nat): (r: Option<nat>)
    ensures r.Some? ==> r.value < |users| && users[r.value].id == id
    ensures r.Some? ==> forall j :: 0 <= j < r.value ==> users[j].id != id
    ensures r.None? <==> forall j :: 0 <= j < |users| ==> users[j].id != id
  {
    if |users| == 0 then None
    else if users[0].id == id then Some(0)
    else match FindById(users[1..], id)
      case None => None
      case Some(k) => Some(k + 1)
  }

  /** The username is already stored: committing another user with it violates the unique constraint. */
  predicate Taken(users: seq<User>, name: string) {
    exists i :: 0 <= i < |users| && users[i].username == name
  }

  /** `[recipe.to_dict() for recipe in recipes]`. */
  function SerializeAll(toDict: Recipe -> Json.Value, recipes: seq<Recipe>): (r: seq<Json.Value>)
    ensures |r| == |recipes|
    ensures forall i :: 0 <= i < |recipes| ==> r[i] == toDict(recipes[i])
  {
    if recipes == [] then [] else [toDict(recipes[0])] + SerializeAll(toDict, recipes[1..])
  }

  /** The table invariants: ids are assigned 1, 2, 3, ... and usernames are unique. */
  predicate UsersValid(users: seq<User>) {
    (forall i :: 0 <= i < |users| ==> users[i].id == i + 1) && UniqueUsernames(users)
  }

  /** The unique constraint on the username column. */
  predicate UniqueUsernames(users: seq<User>) {
    forall i, j :: 0 <= i < j < |users| ==> users[i].username != users[j].username
  }

  /** Recipe ids are assigned 1, 2, 3, ... and every owner is a stored user. */
  predicate RecipesValid(recipes: seq<Recipe>, users: seq<User>) {
    forall i :: 0 <= i < |recipes| ==> recipes[i].id == i + 1 && 1 <= recipes[i].userId <= |users|
  }

  /** Under the table invariant a primary-key lookup finds exactly the row at `id - 1`. */
  lemma FindByIdInValid(users: seq<User>, id: nat)
    requires UsersValid(users)
    ensures FindById(users, id) == if 1 <= id <= |users| then Some(id - 1) else None
  {
    if 1 <= id <= |users| {
      assert users[id - 1].id == id;
    }
  }

  /** With unique usernames the first match is the only match. */
  lemma FindByUsernameUnique(users: seq<User>, name: string, i: nat)
    requires UniqueUsernames(users)
    requires i < |users| && users[i].username == name
    ensures FindByUsername(users, name) == Some(i)
  {
  }
}
