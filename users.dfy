/**
 * The user directory (UserServiceImpl): a store of users keyed by id that the
 * booking and request services consult for existence.
 */
module Users {
  import opened Common

  datatype User = User(id: int, name: string, email: string)

  /** userRepository.findById(id).orElseThrow(NotFound): the lookup every service starts with. */
  function FindUser(users: map<int, User>, id: int): (r: Result<User>)
    ensures r.Ok? <==> id in users
    ensures r.Ok? ==> r.value == users[id]
    ensures r.Err? ==> r.error == NotFound(MissingUser)
  {
    if id in users then Ok(users[id]) else Err(NotFound(MissingUser))
  }

  /** Every stored user sits under its own id. */
  ghost predicate Keyed(users: map<int, User>)
  {
    forall id :: id in users ==> users[id].id == id
  }

  class UserService {
    /** The user repository's rows, keyed by id. */
    var users: map<int, User>

    ghost predicate Valid()
      reads this
    {
      Keyed(users)
    }

    constructor ()
      ensures Valid() && users == map[]
    {
      users := map[];
    }

    /** Rejects an id already in the directory, otherwise inserts the user. */
    method AddUser(user: User) returns (r: Outcome)
      requires Valid()
      modifies this
      ensures Valid()
      ensures user.id in old(users) ==> r == Fail(DuplicateUser) && users == old(users)
      ensures user.id !in old(users) ==> r == Done && users == old(users)[user.id := user]
    {
      if user.id in users {
        return Fail(DuplicateUser);
      }
      // The second, e-mail based duplicate check of the source looks the same id up
      // again; it can no longer find anything, so it never fires.
      users := users[user.id := user];
      r := Done;
    }

    /** Saves the user under its id, replacing whatever record was stored there. */
    method UpdateUser(user: User)
      requires Valid()
      modifies this
      ensures Valid()
      ensures users == old(users)[user.id := user]
    {
      users := users[user.id := user];
    }

    method GetUserById(userId: int) returns (r: Result<User>)
      ensures r == FindUser(users, userId)
    {
      r := FindUser(users, userId);
    }

    /** Removes that id and leaves every other user as it was. */
    method DeleteUserById(userId: int)
      requires Valid()
      modifies this
      ensures Valid()
      ensures users.Keys == old(users).Keys - {userId}
      ensures forall id :: id in users ==> users[id] == old(users)[id]
    {
      users := users - {userId};
    }

    /** True exactly when GetUserById succeeds; its NotFound is caught, never propagated. */
    method IsUserExists(userId: int) returns (present: bool)
      ensures present <==> FindUser(users, userId).Ok?
      ensures present <==> userId in users
    {
      var lookup := GetUserById(userId);
      match lookup
      case Ok(_) => present := true;
      case Err(_) => present := false;
    }
  }
}
