/** The user administration page: a modal that is open or closed, in add or
    edit mode, and a search term, over the store's `user` registration.
    Selection changes and the user thunks go through the store, which keeps
    both registrations of the user reducer in step. */
module AdminUsersPage {
  import opened Wrappers
  import opened RequestStatus
  import opened Text
  import opened Seqs
  import opened UserSlice
  import opened UserActions
  import opened UserForm
  import opened Store

  datatype Mode = Add | Edit

  class ManageUsersPage {
    var isModalOpen: bool
    var modalMode: Mode
    var searchTerm: string
    const store: RootStore

    ghost predicate Valid()
      reads this, store, store.auth, store.user, store.users
    {
      store.Valid()
    }

    constructor (store: RootStore)
      requires store.Valid()
      ensures Valid() && this.store == store
      ensures !isModalOpen && modalMode == Add && searchTerm == ""
    {
      isModalOpen := false;
      modalMode := Add;
      searchTerm := "";
      this.store := store;
    }

    /** "Add": the selection is cleared and the modal opens in add mode. */
    method HandleAdd()
      requires Valid()
      modifies this, store.user, store.users
      ensures Valid()
      ensures isModalOpen && modalMode == Add && searchTerm == old(searchTerm)
      ensures store.user.State() == old(store.user.State()).(selectedUser := None)
    {
      store.ClearSelectedUser();
      modalMode := Add;
      isModalOpen := true;
    }

    /** "Edit": the user is selected and the modal opens in edit mode. */
    method HandleEdit(u: User)
      requires Valid()
      modifies this, store.user, store.users
      ensures Valid()
      ensures isModalOpen && modalMode == Edit && searchTerm == old(searchTerm)
      ensures store.user.State() == old(store.user.State()).(selectedUser := Some(u))
    {
      store.SelectUser(u);
      modalMode := Edit;
      isModalOpen := true;
    }

    /** Deleting asks for confirmation; only a confirmed delete is dispatched.
      The id is the row's `user.id`, which is undefined (`None`) for a user
      the add form created; deleting it removes every user without an id. */
    method HandleDelete(id: Option<int>, confirmed: bool)
      requires Valid()
      modifies store.user, store.users
      ensures Valid()
      ensures confirmed ==> store.user.State() == old(store.user.State()).(
        users := RemoveById(old(store.user.users), id),
        selectedUser := SelectionAfterDelete(old(store.user.selectedUser), id),
        status := Succeeded)
      ensures !confirmed ==> store.user.State() == old(store.user.State())
    {
      if confirmed {
        store.DispatchDeleteUser(id);
      }
    }

    /** Submitting closes the modal and dispatches `createUser` with the
      form data unchanged in add mode, or `updateUser` with the id taken from
      the form data (not from the selection) in edit mode. */
    method HandleSubmit(data: UserFormData, now: int) returns (payload: User)
      requires Valid()
      modifies this, store.user, store.users
      ensures Valid()
      ensures !isModalOpen && modalMode == old(modalMode) && searchTerm == old(searchTerm)
      ensures old(modalMode) == Add ==>
        payload == CreateUserPayload(now, data) &&
        store.user.State() == old(store.user.State()).(users := old(store.user.users) + [payload], status := Succeeded)
      ensures old(modalMode) == Edit ==>
        payload == UpdateUserPayload(SubmittedId(data), data) &&
        store.user.State() == old(store.user.State()).(
          users := ReplaceFirstById(old(store.user.users), payload),
          selectedUser := SelectionAfterUpdate(old(store.user.selectedUser), payload),
          status := Succeeded)
    {
      isModalOpen := false;
      if modalMode == Add {
        payload := store.DispatchCreateUser(data, now);
      } else {
        payload := store.DispatchUpdateUser(SubmittedId(data), data);
      }
    }

    /** Closing the modal also clears the selection. */
    method CloseModal()
      requires Valid()
      modifies this, store.user, store.users
      ensures Valid()
      ensures !isModalOpen && modalMode == old(modalMode) && searchTerm == old(searchTerm)
      ensures store.user.State() == old(store.user.State()).(selectedUser := None)
    {
      isModalOpen := false;
      store.ClearSelectedUser();
    }

    /** The search box: only the term changes. */
    method SetSearchTerm(term: string)
      modifies this
      ensures searchTerm == term
      ensures isModalOpen == old(isModalOpen) && modalMode == old(modalMode)
    {
      searchTerm := term;
    }
  }

  /** `data.id!`: the id key's value, `undefined` when the key is absent. */
  function SubmittedId(data: UserFormData): (id: Option<int>)
    ensures data.id.Present? ==> id == data.id.value
    ensures data.id.Absent? ==> id == None
  {
    if data.id.Present? then data.id.value else None
  }

  /** The id an edit submits is the id the update payload carries: with the
      key present the spread puts it back, and with it absent the argument
      is the same undefined. */
  lemma UpdateKeepsSubmittedId(data: UserFormData)
    ensures UpdateUserPayload(SubmittedId(data), data).id == SubmittedId(data)
  {
  }

  /** Any of first name, last name, email or username contains the term,
      ignoring case. */
  predicate Listed(u: User, term: string)
  {
    IncludesIgnoringCase(u.name.firstname, term) || IncludesIgnoringCase(u.name.lastname, term) ||
    IncludesIgnoringCase(u.email, term) || IncludesIgnoringCase(u.username, term)
  }

  /** The table's rows: the listed users in list order. */
  function ListedUsers(users: seq<User>, term: string): (r: seq<User>)
    ensures |r| <= |users|
    ensures forall u :: u in r <==> u in users && Listed(u, term)
  {
    FilterMembers(users, (u: User) => Listed(u, term));
    Filter(users, (u: User) => Listed(u, term))
  }

  /** An empty search lists every user. */
  lemma EmptySearchListsAll(users: seq<User>)
    ensures ListedUsers(users, "") == users
  {
    forall i | 0 <= i < |users| ensures Listed(users[i], "") {
      EmptyTermMatches(users[i].name.firstname);
    }
    FilterKeepsAll(users, (u: User) => Listed(u, ""));
  }

  /** The listing keeps the users' relative order. */
  lemma ListingKeepsOrder(a: seq<User>, b: seq<User>, term: string)
    ensures ListedUsers(a + b, term) == ListedUsers(a, term) + ListedUsers(b, term)
  {
    FilterAppend(a, b, (u: User) => Listed(u, term));
  }

  /** The editing round through the store: editing a user and saving the
      form untouched replaces the selection with a record that keeps the
      user's id but carries an empty password. */
  method EditAndSaveUnchanged(page: ManageUsersPage, u: User, now: int) returns (saved: bool)
    requires page.Valid()
    modifies page, page.store.user, page.store.users
    ensures saved <==> u.name.firstname != "" && u.name.lastname != "" && u.email != "" && u.username != ""
    ensures saved ==>
      page.store.user.selectedUser.Some? &&
      page.store.user.selectedUser.value.id == u.id &&
      page.store.user.selectedUser.value.password == Some("")
  {
    page.HandleEdit(u);
    var form := new UserFormModal();
    form.Reset(page.store.user.selectedUser);
    var submitted := form.HandleSubmit(page.store.user.selectedUser);
    saved := submitted.Some?;
    if saved {
      var _ := page.HandleSubmit(submitted.value, now);
    }
  }
}
