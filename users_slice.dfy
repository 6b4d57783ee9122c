/** The client's user list for the administration screen and the status of its last fetch. */
module UsersSlice {
  import opened Base
  import opened Collections
  import opened UserEntity
  import opened SliceStatus

  const MSG_FETCH_USERS_FAILED := "No fue posible obtener los usuarios"

  /** `(user) => user.id === id`. */
  function UserWithId(id: int): UserResponse -> bool {
    (u: UserResponse) => u.id == id
  }

  /** `(user) => user.id !== id`. */
  function UserWithoutId(id: int): UserResponse -> bool {
    (u: UserResponse) => u.id != id
  }

  class UsersState {
    var items: seq<UserResponse>
    var status: LoadStatus
    var error: Option<string>

    constructor ()
      ensures items == [] && status == Idle && error == None
    {
      items := [];
      status := Idle;
      error := None;
    }

    /** `clearUsersState`: no items, idle, no error. */
    method Clear()
      modifies this
      ensures items == [] && status == Idle && error == None
    {
      items := [];
      status := Idle;
      error := None;
    }

    /** `fetchUsersThunk.pending`: loading, and the previous error is cleared; the items stay. */
    method FetchPending()
      modifies this
      ensures status == Loading && error == None && items == old(items)
    {
      status := Loading;
      error := None;
    }

    /** `fetchUsersThunk.fulfilled`: succeeded, with the fetched users as the items. */
    method FetchFulfilled(users: seq<UserResponse>)
      modifies this
      ensures status == Succeeded && items == users && error == old(error)
    {
      status := Succeeded;
      items := users;
    }

    /** `fetchUsersThunk.rejected`: failed, with the rejection's message or the fallback; the items stay. */
    method FetchRejected(payload: Option<string>)
      modifies this
      ensures status == Failed && error == Some(RejectedError(payload, MSG_FETCH_USERS_FAILED))
      ensures items == old(items)
    {
      status := Failed;
      error := Some(RejectedError(payload, MSG_FETCH_USERS_FAILED));
    }

    /** `createUserThunk.fulfilled`: the new user goes first. */
    method CreateFulfilled(user: UserResponse)
      modifies this
      ensures items == [user] + old(items)
      ensures status == old(status) && error == old(error)
    {
      items := [user] + items;
    }

    /**
     * `updateUserThunk.fulfilled`: the first item with the answer's id is
     * replaced where it stands; without one the items are unchanged.
     */
    method UpdateFulfilled(user: UserResponse)
      modifies this
      ensures var i := FindIndex(old(items), UserWithId(user.id));
        (i == -1 ==> items == old(items)) && (i != -1 ==> items == old(items)[i := user])
      ensures |items| == |old(items)| && forall k :: 0 <= k < |items| ==> items[k].id == old(items)[k].id
      ensures status == old(status) && error == old(error)
    {
      var index := FindIndex(items, UserWithId(user.id));
      if index >= 0 {
        items := items[index := user];
      }
    }

    /**
     * `deleteUserThunk.fulfilled`: every item with that id goes, every other
     * item stays, in its original order.
     */
    method DeleteFulfilled(id: int)
      modifies this
      ensures items == Filter(old(items), UserWithoutId(id))
      ensures forall u :: u in items ==> u.id != id && u in old(items)
      ensures forall u :: u in old(items) && u.id != id ==> u in items
      ensures status == old(status) && error == old(error)
    {
      items := Filter(items, UserWithoutId(id));
    }
  }

  /**
   * Deleting keeps the survivors in their original relative order: two items
   * of the result appear in the same order in the list they came from.
   */
  lemma DeleteKeepsOrder(items: seq<UserResponse>, id: int, i: nat, j: nat)
    requires i < j < |Filter(items, UserWithoutId(id))|
    ensures var r := Filter(items, UserWithoutId(id));
      exists a, b :: 0 <= a < b < |items| && items[a] == r[i] && items[b] == r[j]
  {
    FilterSubsequence(items, UserWithoutId(id), i, j);
  }
}
