/**
 * The user-administration store: the user list and the progress of loading it, with the
 * transitions on the outcome of the five user requests (list, add, update, change status,
 * delete). The requests themselves are not modelled.
 */
module UserSlice {
  import opened Wrappers
  import Lists

  /** A user record as the API returns it. The store keys on `id`; the administration page reads
      `user_id`, `full_name`, `email`, `role`, `is_active`, `mobile`, `createdAt` and `lastLogin`.
      `isActive` is `None` when `is_active` is absent or not a boolean. */
  datatype User = User(
    id: Option<string>, userId: Option<string>, fullName: Option<string>, email: Option<string>,
    role: Option<string>, isActive: Option<bool>, status: Option<string>, mobile: Option<string>,
    createdAt: Option<string>, lastLogin: Option<string>)

  /** `users.findIndex(u => u.id === id)`. */
  function IndexOfId(users: seq<User>, id: Option<string>): int {
    Lists.FindIndex(users, (u: User) => u.id == id)
  }

  /** `updateUseres.fulfilled`: the first user with the payload's `id` becomes the payload. */
  function ReplaceUser(users: seq<User>, payload: User): (r: seq<User>)
    ensures |r| == |users|
    ensures forall k :: 0 <= k < |r| ==> r[k] == users[k] || (r[k] == payload && users[k].id == payload.id)
  {
    var i := IndexOfId(users, payload.id);
    if i != -1 then users[i := payload] else users
  }

  /** `updateUserstatus.fulfilled`: the first user with the `id` gets the new `status`. */
  function SetStatus(users: seq<User>, id: Option<string>, status: Option<string>): (r: seq<User>)
    ensures |r| == |users|
    ensures forall k :: 0 <= k < |r| ==> r[k] == users[k] || (users[k].id == id && r[k] == users[k].(status := status))
  {
    var i := IndexOfId(users, id);
    if i != -1 then users[i := users[i].(status := status)] else users
  }

  /** `deleteUseres.fulfilled`: `users.filter(user => user.id !== id)`. */
  function RemoveUser(users: seq<User>, id: Option<string>): (r: seq<User>)
    ensures |r| <= |users|
    ensures forall u :: u in r ==> u in users && u.id != id
  {
    Lists.Filter(users, (u: User) => u.id != id)
  }

  /** An update keeps the length, replaces exactly the first user with the id, and does nothing
      when no user has it. */
  lemma ReplaceUserEffect(users: seq<User>, payload: User)
    ensures |ReplaceUser(users, payload)| == |users|
    ensures forall k :: 0 <= k < |users| ==>
      ReplaceUser(users, payload)[k] ==
        if k == IndexOfId(users, payload.id) then payload else users[k]
    ensures (forall k :: 0 <= k < |users| ==> users[k].id != payload.id) ==> ReplaceUser(users, payload) == users
    ensures payload.id != None && (exists k :: 0 <= k < |users| && users[k].id == payload.id) ==>
      payload in ReplaceUser(users, payload)
  {
    var i := IndexOfId(users, payload.id);
    if exists k :: 0 <= k < |users| && users[k].id == payload.id {
      assert i >= 0;
      assert ReplaceUser(users, payload)[i] == payload;
    }
  }

  /** A status change touches only the `status` of the first user with the id; every other
      user and every other field stays. */
  lemma SetStatusEffect(users: seq<User>, id: Option<string>, status: Option<string>)
    ensures |SetStatus(users, id, status)| == |users|
    ensures forall k :: 0 <= k < |users| ==>
      SetStatus(users, id, status)[k] ==
        if k == IndexOfId(users, id) then users[k].(status := status) else users[k]
    ensures forall k :: 0 <= k < |users| ==> SetStatus(users, id, status)[k].id == users[k].id
    ensures (forall k :: 0 <= k < |users| ==> users[k].id != id) ==> SetStatus(users, id, status) == users
  {
  }

  /** A deletion removes every user with the id and keeps the others in their order. */
  lemma RemoveUserEffect(users: seq<User>, id: Option<string>)
    ensures forall u :: u in RemoveUser(users, id) <==> u in users && u.id != id
    ensures Lists.IsSubsequence(RemoveUser(users, id), users)
    ensures IndexOfId(users, id) == -1 ==> RemoveUser(users, id) == users
  {
    Lists.FilterIsSubsequence(users, (u: User) => u.id != id);
    if IndexOfId(users, id) == -1 {
      Lists.FilterKeepingAll(users, (u: User) => u.id != id);
    }
  }

  class UserStore {
    var users: seq<User>
    var loading: bool
    var error: Option<string>

    constructor ()
      ensures users == [] && !loading && error == None
    {
      users, loading, error := [], false, None;
    }

    /** `getUsers.pending`: loading starts; an earlier error stays. */
    method GetUsersPending()
      modifies this`loading
      ensures loading
    {
      loading := true;
    }

    method GetUsersFulfilled(list: seq<User>)
      modifies this`loading, this`users
      ensures !loading && users == list
    {
      loading, users := false, list;
    }

    /** `getUsers.rejected`: the error is the failure's message. */
    method GetUsersRejected(message: Option<string>)
      modifies this`loading, this`error
      ensures !loading && error == message
    {
      loading, error := false, message;
    }

    method AddUserFulfilled(u: User)
      modifies this`users
      ensures users == old(users) + [u]
    {
      users := users + [u];
    }

    method UpdateUserFulfilled(payload: User)
      modifies this`users
      ensures users == ReplaceUser(old(users), payload)
    {
      var i := IndexOfId(users, payload.id);
      if i != -1 {
        users := users[i := payload];
      }
    }

    method UpdateStatusFulfilled(id: Option<string>, status: Option<string>)
      modifies this`users
      ensures users == SetStatus(old(users), id, status)
    {
      var i := IndexOfId(users, id);
      if i != -1 {
        users := users[i := users[i].(status := status)];
      }
    }

    method DeleteUserFulfilled(id: Option<string>)
      modifies this`users
      ensures users == RemoveUser(old(users), id)
    {
      users := RemoveUser(users, id);
    }
  }
}
