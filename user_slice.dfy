/** The user-collection reducer: a list of users, a selection slot and a
    status/error pair, changed in place by the selection reducers and by the
    pending, fulfilled and rejected cases of the four user thunks. The
    reducer never clears `error` and never checks that ids are unique. */
module UserSlice {
  import opened Wrappers
  import opened RequestStatus
  import opened Seqs

  datatype Name = Name(firstname: string, lastname: string)

  datatype Address = Address(city: string, street: string, number: int, zipcode: string, lat: string, long: string)

  /** A user record as the store holds it. `id` is `None` for a record
      whose `id` is `undefined`, which the add-user form produces. */
  datatype User = User(
    id: Option<int>,
    email: string,
    username: string,
    password: Option<string>,
    name: Name,
    address: Option<Address>,
    phone: Option<string>)

  /** The slice's state as one value. */
  datatype UserState = UserState(users: seq<User>, selectedUser: Option<User>, status: Status, error: Option<string>)

  /** `selectedUser?.id`: undefined when nothing is selected. */
  function SelectedId(selected: Option<User>): Option<int>
  {
    if selected.Some? then selected.value.id else None
  }

  /** The position `findIndex(user => user.id === id)` reports. */
  function IndexOfId(users: seq<User>, id: Option<int>): (k: int)
    ensures -1 <= k < |users|
    ensures k == -1 <==> forall i :: 0 <= i < |users| ==> users[i].id != id
    ensures 0 <= k ==> users[k].id == id && forall i :: 0 <= i < k ==> users[i].id != id
  {
    FindIndex(users, (u: User) => u.id == id)
  }

  /** No element before position i carries the id. */
  predicate FirstWithId(users: seq<User>, i: int, id: Option<int>)
    requires 0 <= i < |users|
  {
    users[i].id == id && forall j :: 0 <= j < i ==> users[j].id != id
  }

  /** The list after `updateUser.fulfilled`: the first user with the
      payload's id becomes the payload; every other position is untouched. */
  function ReplaceFirstById(users: seq<User>, u: User): (r: seq<User>)
    ensures |r| == |users|
    ensures forall i :: 0 <= i < |users| ==> r[i] == if FirstWithId(users, i, u.id) then u else users[i]
    ensures (forall i :: 0 <= i < |users| ==> users[i].id != u.id) ==> r == users
  {
    var k := IndexOfId(users, u.id);
    if k == -1 then users else users[k := u]
  }

  /** The list after `deleteUser.fulfilled`: every user with the id removed. */
  function RemoveById(users: seq<User>, id: Option<int>): (r: seq<User>)
    ensures |r| <= |users|
    ensures forall u :: u in r <==> u in users && u.id != id
  {
    FilterMembers(users, (u: User) => u.id != id);
    Filter(users, (u: User) => u.id != id)
  }

  /** Removal keeps the survivors in their list order: removing from a
      concatenation removes from each part. */
  lemma RemoveByIdAppend(a: seq<User>, b: seq<User>, id: Option<int>)
    ensures RemoveById(a + b, id) == RemoveById(a, id) + RemoveById(b, id)
  {
    FilterAppend(a, b, (u: User) => u.id != id);
  }

  /** Removing an id nobody carries leaves the list as it was. */
  lemma RemoveAbsentId(users: seq<User>, id: Option<int>)
    requires forall i :: 0 <= i < |users| ==> users[i].id != id
    ensures RemoveById(users, id) == users
  {
    FilterKeepsAll(users, (u: User) => u.id != id);
  }

  /** Removing an id a second time changes nothing. */
  lemma RemoveByIdIdempotent(users: seq<User>, id: Option<int>)
    ensures RemoveById(RemoveById(users, id), id) == RemoveById(users, id)
  {
    var r := RemoveById(users, id);
    assert forall i :: 0 <= i < |r| ==> r[i] in r;
    RemoveAbsentId(r, id);
  }

  /** Replacing by the id of a user already at the first matching position
      with that same user changes nothing. */
  lemma ReplaceWithSelfIsNoOp(users: seq<User>, i: nat)
    requires i < |users| && FirstWithId(users, i, users[i].id)
    ensures ReplaceFirstById(users, users[i]) == users
  {
    var r := ReplaceFirstById(users, users[i]);
    assert forall j :: 0 <= j < |users| ==> r[j] == users[j];
  }

  /** The selection after `updateUser.fulfilled`: the payload when
      `selectedUser?.id === payload.id`, otherwise unchanged. */
  function SelectionAfterUpdate(selected: Option<User>, u: User): (r: Option<User>)
    ensures SelectedId(selected) == u.id ==> r == Some(u)
    ensures SelectedId(selected) != u.id ==> r == selected
  {
    if SelectedId(selected) == u.id then Some(u) else selected
  }

  /** The selection after `deleteUser.fulfilled`: cleared when
      `selectedUser?.id === id`, otherwise unchanged. */
  function SelectionAfterDelete(selected: Option<User>, id: Option<int>): (r: Option<User>)
    ensures r == None || r == selected
    ensures r == None <==> selected == None || selected.value.id == id
  {
    if SelectedId(selected) == id then None else selected
  }

  /** After a delete neither the list nor the selection holds the id
      (unless the selection was empty to begin with). */
  lemma DeleteRemovesIdEverywhere(users: seq<User>, selected: Option<User>, id: Option<int>)
    ensures forall i :: 0 <= i < |RemoveById(users, id)| ==> RemoveById(users, id)[i].id != id
    ensures SelectionAfterDelete(selected, id) == None || SelectionAfterDelete(selected, id).value.id != id
  {
    var r := RemoveById(users, id);
    assert forall i :: 0 <= i < |r| ==> r[i] in r;
  }

  class UserStore {
    var users: seq<User>
    var selectedUser: Option<User>
    var status: Status
    var error: Option<string>

    function State(): UserState
      reads this
    {
      UserState(users, selectedUser, status, error)
    }

    /** `initialState`. */
    constructor ()
      ensures users == [] && selectedUser == None && status == Idle && error == None
    {
      users := [];
      selectedUser := None;
      status := Idle;
      error := None;
    }

    /** `selectUser`: only the selection slot changes. */
    method SelectUser(u: User)
      modifies this
      ensures selectedUser == Some(u)
      ensures users == old(users) && status == old(status) && error == old(error)
    {
      selectedUser := Some(u);
    }

    /** `clearSelectedUser`: only the selection slot changes. */
    method ClearSelectedUser()
      modifies this
      ensures selectedUser == None
      ensures users == old(users) && status == old(status) && error == old(error)
    {
      selectedUser := None;
    }

    /** The four pending cases: status becomes "loading"; `error` is not
      cleared, so an earlier failure's message stays. */
    method Pending()
      modifies this
      ensures status == Loading
      ensures users == old(users) && selectedUser == old(selectedUser) && error == old(error)
    {
      status := Loading;
    }

    /** The four rejected cases: status "failed" and the rejection payload
      as the error; list and selection untouched. */
    method Rejected(reason: string)
      modifies this
      ensures status == Failed && error == Some(reason)
      ensures users == old(users) && selectedUser == old(selectedUser)
    {
      status := Failed;
      error := Some(reason);
    }

    /** `fetchUsers.fulfilled`: the list is replaced wholesale; the selection
      is not refreshed from it. */
    method FetchFulfilled(payload: seq<User>)
      modifies this
      ensures status == Succeeded && users == payload
      ensures selectedUser == old(selectedUser) && error == old(error)
    {
      status := Succeeded;
      users := payload;
    }

    /** `createUser.fulfilled`: the payload is pushed at the end, whatever
      its id. */
    method CreateFulfilled(u: User)
      modifies this
      ensures status == Succeeded && users == old(users) + [u]
      ensures selectedUser == old(selectedUser) && error == old(error)
    {
      status := Succeeded;
      users := users + [u];
    }

    /** `updateUser.fulfilled`: the first user with the payload's id is
      replaced, and the selection is replaced when `selectedUser?.id`
      equals the payload's id (an empty selection has id undefined). */
    method UpdateFulfilled(u: User)
      modifies this
      ensures status == Succeeded
      ensures users == ReplaceFirstById(old(users), u)
      ensures selectedUser == SelectionAfterUpdate(old(selectedUser), u)
      ensures error == old(error)
    {
      status := Succeeded;
      var index := IndexOfId(users, u.id);
      if index != -1 {
        users := users[index := u];
      }
      if SelectedId(selectedUser) == u.id {
        selectedUser := Some(u);
      }
    }

    /** `deleteUser.fulfilled`: every user with the id goes, and the
      selection is cleared when `selectedUser?.id` equals the id. */
    method DeleteFulfilled(id: Option<int>)
      modifies this
      ensures status == Succeeded
      ensures users == RemoveById(old(users), id)
      ensures selectedUser == SelectionAfterDelete(old(selectedUser), id)
      ensures error == old(error)
    {
      status := Succeeded;
      users := RemoveById(users, id);
      if SelectedId(selectedUser) == id {
        selectedUser := None;
      }
    }
  }

  /** An update arriving while nothing is selected fills the selection slot
      exactly when the payload's id is undefined. */
  lemma EmptySelectionTakesUndefinedIdUpdate(u: User)
    ensures SelectionAfterUpdate(None, u) == Some(u) <==> u.id == None
  {
  }

  /** The create case does not keep ids unique: pushing a user whose id is
      already present leaves two users with that id. */
  lemma CreateMayDuplicateIds(users: seq<User>, u: User)
    requires exists i :: 0 <= i < |users| && users[i].id == u.id
    ensures exists i, j :: 0 <= i < j < |users + [u]| && (users + [u])[i].id == (users + [u])[j].id
  {
    var i :| 0 <= i < |users| && users[i].id == u.id;
    assert (users + [u])[i].id == (users + [u])[|users|].id;
  }
}
