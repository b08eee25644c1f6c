/**
 * `ManualMockUserService`: a hand-written stand-in for the user service. It
 * keeps the users by id, the list of every user ever saved, and the set of
 * ids deleted, and answers the test's questions about them.
 */
module ManualMockUserService {
  import opened Values
  import opened UserModel

  /** `us` lists the users of the map `m` once each, in some order: as many
      entries as ids, each entry stored under its own id, no id twice. */
  predicate IsListing(m: map<Long, User>, us: seq<User>)
  {
    |us| == |m.Keys|
    && (forall i :: 0 <= i < |us| ==> us[i].id in m && m[us[i].id] == us[i])
    && (forall i, j :: 0 <= i < j < |us| ==> us[i].id != us[j].id)
  }

  /** A listing holds every stored user. */
  lemma {:induction false} ListingIsComplete(m: map<Long, User>, us: seq<User>, id: Long)
    requires IsListing(m, us)
    requires id in m
    ensures exists i :: 0 <= i < |us| && us[i] == m[id]
  {
    var ids := set i | 0 <= i < |us| :: us[i].id;
    IdsOfListing(us, |us|);
    assert ids <= m.Keys;
    if id !in ids {
      assert ids < m.Keys;
      CardinalityOfProperSubset(ids, m.Keys);
      assert false;
    }
    var i :| 0 <= i < |us| && us[i].id == id;
  }

  /** The ids of a listing without repeats are as many as its entries. */
  lemma {:induction false} IdsOfListing(us: seq<User>, n: nat)
    requires n <= |us|
    requires forall i, j :: 0 <= i < j < |us| ==> us[i].id != us[j].id
    ensures |set i | 0 <= i < n :: us[i].id| == n
  {
    if n > 0 {
      IdsOfListing(us, n - 1);
      var prev := set i | 0 <= i < n - 1 :: us[i].id;
      assert (set i | 0 <= i < n :: us[i].id) == prev + {us[n - 1].id};
      assert us[n - 1].id !in prev;
    }
  }

  /** A proper subset is smaller. */
  lemma {:induction false} CardinalityOfProperSubset<T>(a: set<T>, b: set<T>)
    requires a < b
    ensures |a| < |b|
  {
    var x :| x in b && x !in a;
    assert a <= b - {x};
    SubsetCardinality(a, b - {x});
  }

  /** A subset is no larger. */
  lemma {:induction false} SubsetCardinality<T>(a: set<T>, b: set<T>)
    requires a <= b
    ensures |a| <= |b|
    decreases |b|
  {
    if a != {} {
      var x :| x in a;
      SubsetCardinality(a - {x}, b - {x});
    }
  }

  class ManualMockUserService {
    var mockUsers: map<Long, User>
    var savedUsers: seq<User>
    var deletedUserIds: set<Long>

    /** Every user is stored under its own id. */
    predicate Valid()
      reads this
    {
      forall id :: id in mockUsers ==> mockUsers[id].id == id
    }

    constructor ()
      ensures Valid()
      ensures mockUsers == map[] && savedUsers == [] && deletedUserIds == {}
    {
      mockUsers := map[];
      savedUsers := [];
      deletedUserIds := {};
    }

    /** `addMockUser(user)`: stores the user under its id, replacing any
        user with that id. */
    method AddMockUser(user: User)
      requires Valid()
      modifies this
      ensures Valid()
      ensures mockUsers == old(mockUsers)[user.id := user]
      ensures savedUsers == old(savedUsers) && deletedUserIds == old(deletedUserIds)
    {
      mockUsers := mockUsers[user.id := user];
    }

    /** `findById(id)`: present exactly when a user is stored under `id`. */
    method FindById(id: Long) returns (found: Option<User>)
      requires Valid()
      ensures found.Some? <==> id in mockUsers
      ensures found.Some? ==> found.value == mockUsers[id] && found.value.id == id
    {
      if id in mockUsers {
        found := Some(mockUsers[id]);
      } else {
        found := None;
      }
    }

    /** `saveUser(user)`: records the save, stores the user, and succeeds. */
    method SaveUser(user: User) returns (ok: bool)
      requires Valid()
      modifies this
      ensures Valid()
      ensures ok
      ensures savedUsers == old(savedUsers) + [user]
      ensures mockUsers == old(mockUsers)[user.id := user]
      ensures deletedUserIds == old(deletedUserIds)
    {
      savedUsers := savedUsers + [user];
      mockUsers := mockUsers[user.id := user];
      ok := true;
    }

    /** `deleteUser(id)`: removes a stored user and remembers its id; an id
        with no user changes nothing. The saved list is never touched. */
    method DeleteUser(id: Long) returns (deleted: bool)
      requires Valid()
      modifies this
      ensures Valid()
      ensures deleted <==> id in old(mockUsers)
      ensures deleted ==> mockUsers == old(mockUsers) - {id} && deletedUserIds == old(deletedUserIds) + {id}
      ensures !deleted ==> mockUsers == old(mockUsers) && deletedUserIds == old(deletedUserIds)
      ensures savedUsers == old(savedUsers)
    {
      if id in mockUsers {
        mockUsers := mockUsers - {id};
        deletedUserIds := deletedUserIds + {id};
        return true;
      }
      deleted := false;
    }

    /** `findAllUsers()`: a copy of the stored users, one entry per id, in
        the map's own (unspecified) order. */
    method FindAllUsers() returns (users: seq<User>)
      requires Valid()
      ensures IsListing(mockUsers, users)
    {
      users := [];
      var remaining := mockUsers.Keys;
      while remaining != {}
        invariant remaining <= mockUsers.Keys
        invariant |users| + |remaining| == |mockUsers.Keys|
        invariant forall i :: 0 <= i < |users| ==> users[i].id in mockUsers && users[i].id !in remaining
        invariant forall i :: 0 <= i < |users| ==> mockUsers[users[i].id] == users[i]
        invariant forall i, j :: 0 <= i < j < |users| ==> users[i].id != users[j].id
        decreases |remaining|
      {
        var id :| id in remaining;
        users := users + [mockUsers[id]];
        remaining := remaining - {id};
      }
    }

    /** `verifySavedUser(user)`: some save was of an equal user. */
    method VerifySavedUser(user: User) returns (b: bool)
      ensures b <==> exists i :: 0 <= i < |savedUsers| && Equals(savedUsers[i], Some(user))
    {
      b := user in savedUsers;
    }

    /** `verifyDeletedUser(id)`. */
    method VerifyDeletedUser(id: Long) returns (b: bool)
      ensures b <==> id in deletedUserIds
    {
      b := id in deletedUserIds;
    }

    /** `getSaveCount(user)`: how many saves were of an equal user. */
    method GetSaveCount(user: User) returns (count: nat)
      ensures count == multiset(savedUsers)[user]
    {
      count := 0;
      var i := 0;
      while i < |savedUsers|
        invariant 0 <= i <= |savedUsers|
        invariant count == multiset(savedUsers[..i])[user]
      {
        assert savedUsers[..i + 1] == savedUsers[..i] + [savedUsers[i]];
        if Equals(savedUsers[i], Some(user)) {
          count := count + 1;
        }
        i := i + 1;
      }
      assert savedUsers[..i] == savedUsers;
    }
  }

  /** A user has been saved exactly when its save count is positive. */
  lemma SavedIffCounted(saved: seq<User>, user: User)
    ensures (exists i :: 0 <= i < |saved| && Equals(saved[i], Some(user))) <==> multiset(saved)[user] > 0
  {
    if multiset(saved)[user] > 0 {
      assert user in saved;
      var i :| 0 <= i < |saved| && saved[i] == user;
      assert Equals(saved[i], Some(user));
    }
  }

  /** Saving a user counts one more save of it and none of any other. */
  lemma SaveCountsOnce(saved: seq<User>, user: User, other: User)
    ensures multiset(saved + [user])[user] == multiset(saved)[user] + 1
    ensures other != user ==> multiset(saved + [other])[user] == multiset(saved)[user]
  {
  }

  /** The test fixture: John Doe and Jane Smith are stored; user 1 is found
      and user 999 is not; after deleting 1 it is gone and remembered as
      deleted, and deleting 999 fails; saving Bob Johnson records him. */
  method ServiceScenario() returns (found1: bool, found999: bool, del1: bool, gone1: bool, remembered1: bool,
                                    del999: bool, bobSaved: bool, bobCount: nat, all: seq<User>)
    ensures found1 && !found999
    ensures del1 && gone1 && remembered1 && !del999
    ensures bobSaved && bobCount == 1
    ensures |all| == 2
  {
    var john := User(1, Some("John Doe"), Some("john@example.com"));
    var jane := User(2, Some("Jane Smith"), Some("jane@example.com"));
    var bob := User(3, Some("Bob Johnson"), Some("bob@example.com"));
    var service := new ManualMockUserService();
    service.AddMockUser(john);
    service.AddMockUser(jane);
    var u1 := service.FindById(1);
    var u999 := service.FindById(999);
    found1 := u1.Some?;
    found999 := u999.Some?;
    all := service.FindAllUsers();
    assert service.mockUsers.Keys == {1, 2};
    var d1 := service.DeleteUser(1);
    var again1 := service.FindById(1);
    del1 := d1;
    gone1 := again1.None?;
    remembered1 := service.VerifyDeletedUser(1);
    del999 := service.DeleteUser(999);
    var saved := service.SaveUser(bob);
    assert service.savedUsers == [bob];
    assert Equals(service.savedUsers[0], Some(bob));
    bobSaved := service.VerifySavedUser(bob);
    bobCount := service.GetSaveCount(bob);
  }
}
