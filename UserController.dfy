/**
 * `UserController`: queries and updates over the user service, here the
 * manual stand-in, which is the only implementation of the service in the
 * model.
 */
module UserController {
  import opened Values
  import opened UserModel
  import opened ManualMockUserService

  const UNKNOWN_USER: string := "Unknown User"

  /** The names of the users, in their order, a null name staying null. */
  function Names(us: seq<User>): (names: seq<Option<string>>)
    ensures |names| == |us|
    ensures forall i :: 0 <= i < |us| ==> names[i] == us[i].name
  {
    if us == [] then [] else Names(us[..|us| - 1]) + [us[|us| - 1].name]
  }

  /** `Optional.ofNullable(u).map(User::getName).orElse("Unknown User")`: a
      user's name, or the placeholder for a missing user and for a user
      whose name is null (mapping to null yields an empty optional). */
  function NameOrUnknown(found: Option<User>): (n: string)
    ensures found.Some? && found.value.name.Some? ==> n == found.value.name.value
    ensures found.None? || found.value.name.None? ==> n == UNKNOWN_USER
  {
    if found.Some? && found.value.name.Some? then found.value.name.value else UNKNOWN_USER
  }

  class UserController {
    const userService: ManualMockUserService

    constructor (userService: ManualMockUserService)
      ensures this.userService == userService
    {
      this.userService := userService;
    }

    /** `getUserName(userId)`. */
    method GetUserName(userId: Long) returns (n: string)
      requires userService.Valid()
      ensures userId in userService.mockUsers && userService.mockUsers[userId].name.Some? ==>
        n == userService.mockUsers[userId].name.value
      ensures userId !in userService.mockUsers || userService.mockUsers[userId].name.None? ==> n == UNKNOWN_USER
    {
      var user := userService.FindById(userId);
      n := NameOrUnknown(user);
    }

    /** `createUser(id, name, email)`: saves the new user and passes on the
        service's answer. */
    method CreateUser(id: Long, name: Option<string>, email: Option<string>) returns (ok: bool)
      requires userService.Valid()
      modifies userService
      ensures userService.Valid()
      ensures ok
      ensures userService.savedUsers == old(userService.savedUsers) + [User(id, name, email)]
      ensures userService.mockUsers == old(userService.mockUsers)[id := User(id, name, email)]
      ensures userService.deletedUserIds == old(userService.deletedUserIds)
    {
      ok := userService.SaveUser(User(id, name, email));
    }

    /** `updateUser(id, name, email)`: saves the new details only for a
        stored id; otherwise answers false without saving. */
    method UpdateUser(id: Long, name: Option<string>, email: Option<string>) returns (ok: bool)
      requires userService.Valid()
      modifies userService
      ensures userService.Valid()
      ensures ok <==> id in old(userService.mockUsers)
      ensures ok ==> userService.savedUsers == old(userService.savedUsers) + [User(id, name, email)]
      ensures ok ==> userService.mockUsers == old(userService.mockUsers)[id := User(id, name, email)]
      ensures !ok ==> userService.savedUsers == old(userService.savedUsers) && userService.mockUsers == old(userService.mockUsers)
      ensures userService.deletedUserIds == old(userService.deletedUserIds)
    {
      var existingUser := userService.FindById(id);
      if existingUser.Some? {
        var updatedUser := User(id, name, email);
        ok := userService.SaveUser(updatedUser);
        return;
      }
      ok := false;
    }

    /** `deleteUser(userId)`: exactly the service's answer. */
    method DeleteUser(userId: Long) returns (deleted: bool)
      requires userService.Valid()
      modifies userService
      ensures userService.Valid()
      ensures deleted <==> userId in old(userService.mockUsers)
      ensures deleted ==> userService.mockUsers == old(userService.mockUsers) - {userId}
      ensures deleted ==> userService.deletedUserIds == old(userService.deletedUserIds) + {userId}
      ensures !deleted ==> userService.mockUsers == old(userService.mockUsers)
      ensures !deleted ==> userService.deletedUserIds == old(userService.deletedUserIds)
      ensures userService.savedUsers == old(userService.savedUsers)
    {
      deleted := userService.DeleteUser(userId);
    }

    /** `getAllUserNames()`: the names of a listing of the stored users,
        one per user, in the listing's order. */
    method GetAllUserNames() returns (names: seq<Option<string>>)
      requires userService.Valid()
      ensures exists us :: IsListing(userService.mockUsers, us) && names == Names(us)
      ensures |names| == |userService.mockUsers.Keys|
    {
      var users := userService.FindAllUsers();
      names := Names(users);
      assert IsListing(userService.mockUsers, users) && names == Names(users);
    }
  }

  /** The controller scenario: John Doe's name, the placeholder for user
      999, a successful create of Bob Johnson that the service records, and
      an update of user 1 that replaces the stored details. */
  method ControllerScenario() returns (john: string, unknown: string, created: bool, bobSaved: bool,
                                       updated: bool, after: Option<User>)
    ensures john == "John Doe" && unknown == "Unknown User"
    ensures created && bobSaved
    ensures updated && after == Some(User(1, Some("John Updated"), Some("john.updated@example.com")))
  {
    var service := new ManualMockUserService();
    service.AddMockUser(User(1, Some("John Doe"), Some("john@example.com")));
    service.AddMockUser(User(2, Some("Jane Smith"), Some("jane@example.com")));
    var controller := new UserController(service);
    john := controller.GetUserName(1);
    unknown := controller.GetUserName(999);
    created := controller.CreateUser(3, Some("Bob Johnson"), Some("bob@example.com"));
    var bob := User(3, Some("Bob Johnson"), Some("bob@example.com"));
    assert service.savedUsers == [bob];
    assert Equals(service.savedUsers[0], Some(bob));
    bobSaved := service.VerifySavedUser(bob);
    updated := controller.UpdateUser(1, Some("John Updated"), Some("john.updated@example.com"));
    after := service.FindById(1);
  }
}
