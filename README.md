# E-commerce admin client, modelled in Dafny

This project models the client-side core of a small e-commerce storefront and
administration app: the Redux store with its session (`auth`) and user
(`user`, `users`) slices, the async thunks for users, products and the session,
the fetch gateway (`authenticatedFetch`, `handleResponse`), the product and
user form dialogs, the breadcrumb trail of the top navigation bar, the
storefront product list, the product and user administration pages, the
categories page and the `useAuth` hook.

Each source file has a module of its own:

| module | file | form |
|---|---|---|
| `Storage` | `storage.dfy` | class `LocalStorage` over a string map |
| `Api` | `api.dfy` | functions plus methods that change storage |
| `UserSlice` | `user_slice.dfy` | class `UserStore`, updated in place by its reducer cases |
| `UserActions`, `AuthActions`, `ProductsActions` | `user_actions.dfy`, `auth_actions.dfy`, `products_actions.dfy` | functions from the service's answer to the thunk's outcome |
| `AuthSlice` | `auth_slice.dfy` | class `Session`, updated in place, token mirrored in storage |
| `Store` | `store.dfy` | class `RootStore`: the dispatch boundary. It registers the user reducer twice and keeps both copies equal |
| `ProductForm`, `UserForm` | `product_form.dfy`, `user_form.dfy` | classes holding the form record and the error record |
| `TopNavBar` | `top_nav_bar.dfy` | a specification function plus the component's loops as methods |
| `ProductsPage`, `CategoriesPage` | `products_page.dfy`, `categories_page.dfy` | functions, plus the grouping loop as a method |
| `AdminProductsPage`, `AdminUsersPage` | `admin_products_page.dfy`, `admin_users_page.dfy` | classes for the page state |
| `UseAuth` | `use_auth.dfy` | functions for the decisions, methods over the store |

`Wrappers`, `RequestStatus`, `Text`, `Seqs` and `Catalog` hold shared values:
`Option`/`Result`, the request status, ASCII string helpers, `filter`,
`findIndex`, `indexOf` and `Set`-style deduplication, and the product record.

JavaScript `null` and `undefined` are `None`. An optional object key that may
also hold `undefined` is `IdKey = Absent | Present(Option<int>)`, so object
spread can be modelled exactly. Navigation (`router.push`,
`window.location.href`) is returned as the pushed path. Network answers,
`Date.now()`, `parseFloat`, `Number()` and `window.confirm` are parameters.

## Model

| member | source | states |
|---|---|---|
| Storage.LocalStorage.GetItem | src/services/api.ts:5 | `getItem` gives null exactly when the key is absent, otherwise the stored string |
| Storage.LocalStorage.SetItem | src/store/slices/authSlice.ts:49 | `setItem` binds the key to the value and changes no other key |
| Storage.LocalStorage.RemoveItem | src/services/api.ts:31 | `removeItem` drops exactly that key; reading it afterwards gives null |
| Api.Classify | src/services/api.ts:29-41 | 401 is checked before `ok`: it always throws "Unauthorized access". Any other non-2xx status throws "API error: " followed by its status text. A 2xx response yields its parsed body, or the parser's error |
| Api.HandleResponse | src/services/api.ts:29-41 | The result is `Classify`'s. A 401 erases the stored token and navigates to "/login". Every other status leaves storage alone and does not navigate |
| Api.UsableToken | src/services/api.ts:11-15 | A token is usable exactly when it is present and non-empty |
| Api.WithBearer | src/services/api.ts:17-23 | The options and headers are copied; "Authorization: Bearer <token>" is merged last, so it wins; no other header changes |
| Api.BearerTokenRecoverable | src/services/api.ts:21 | The header value starts with "Bearer " and the rest is exactly the token |
| Api.AuthenticatedFetch | src/services/api.ts:7-27 | With no usable token, it throws "Authentication required" and builds no request. Otherwise it sends the bearer request. The response then goes through `handleResponse`, and a network error propagates unchanged |
| Api.UnauthorizedThenRefused | src/services/api.ts:7-34 | After a 401, the next authenticated call is refused before any request is sent |
| UserSlice.IndexOfId | src/store/slices/userSlice.ts:90-92 | `findIndex` gives -1 exactly when no user has the id; otherwise it gives the first position holding it |
| UserSlice.ReplaceFirstById | src/store/slices/userSlice.ts:88-95 | The length is kept. Only the first user with the payload's id becomes the payload. A list without that id is unchanged |
| UserSlice.RemoveById | src/store/slices/userSlice.ts:109-111 | A user survives exactly when it was in the list and its id differs from the deleted one |
| UserSlice.RemoveByIdAppend | src/store/slices/userSlice.ts:111 | Removing from a concatenation removes from each part, so the survivors keep their order |
| UserSlice.RemoveAbsentId | src/store/slices/userSlice.ts:111 | Deleting an id nobody carries leaves the list unchanged |
| UserSlice.RemoveByIdIdempotent | src/store/slices/userSlice.ts:109-111 | Deleting the same id twice is the same as deleting it once |
| UserSlice.ReplaceWithSelfIsNoOp | src/store/slices/userSlice.ts:90-95 | Updating a user with its own record changes nothing |
| UserSlice.SelectionAfterUpdate | src/store/slices/userSlice.ts:96-98 | The selection becomes the payload when `selectedUser?.id` equals the payload's id; otherwise it is unchanged |
| UserSlice.SelectionAfterDelete | src/store/slices/userSlice.ts:112-114 | The selection is cleared exactly when it is empty or holds the deleted id; otherwise it is unchanged |
| UserSlice.DeleteRemovesIdEverywhere | src/store/slices/userSlice.ts:109-115 | After a delete, no listed user and no selected user carries the id |
| UserSlice.UserStore.constructor | src/store/slices/userSlice.ts:38-43 | The initial state: no users, no selection, "idle", no error |
| UserSlice.UserStore.SelectUser | src/store/slices/userSlice.ts:49-51 | Only the selection changes; it becomes the given user |
| UserSlice.UserStore.ClearSelectedUser | src/store/slices/userSlice.ts:52-54 | Only the selection changes; it is emptied |
| UserSlice.UserStore.Pending | src/store/slices/userSlice.ts:59-61 | The status becomes "loading". The list, the selection and the earlier error are kept |
| UserSlice.UserStore.Rejected | src/store/slices/userSlice.ts:66-69 | The status becomes "failed" and the error becomes the payload. The list and the selection are kept |
| UserSlice.UserStore.FetchFulfilled | src/store/slices/userSlice.ts:62-65 | The list becomes the payload and the status "succeeded". The selection and the error are kept |
| UserSlice.UserStore.CreateFulfilled | src/store/slices/userSlice.ts:75-78 | The payload is appended at the end and the status becomes "succeeded" |
| UserSlice.UserStore.UpdateFulfilled | src/store/slices/userSlice.ts:88-99 | The list becomes `ReplaceFirstById` of the old list, the selection becomes `SelectionAfterUpdate`, and the status becomes "succeeded" |
| UserSlice.UserStore.DeleteFulfilled | src/store/slices/userSlice.ts:109-115 | The list becomes `RemoveById` of the old list, the selection becomes `SelectionAfterDelete`, and the status becomes "succeeded" |
| UserSlice.EmptySelectionTakesUndefinedIdUpdate | src/store/slices/userSlice.ts:96-98 | With nothing selected, an update fills the selection exactly when the payload's id is undefined |
| UserSlice.CreateMayDuplicateIds | src/store/slices/userSlice.ts:75-78 | Creating a user whose id is already listed leaves two users with that id |
| UserActions.RejectionMessage | src/store/actions/userActions.ts:33-37 | An `Error` is rejected with its message; anything else with "An unknown error occurred" |
| UserActions.Spread | src/store/actions/userActions.ts:48-51 | `{ id, ...data }`: the id key of the data wins whenever it is present, even when it is undefined. All other fields are copied |
| UserActions.CreateUserPayload | src/store/actions/userActions.ts:48-51 | The id is the clock reading only when the form data has no id key |
| UserActions.UpdateUserPayload | src/store/actions/userActions.ts:70-73 | The id argument is used only when the form data has no id key |
| UserActions.CreateIgnoresClockWhenIdKeyPresent | src/store/actions/userActions.ts:48-51 | With an id key present, the created user is the same at every clock reading |
| UserActions.SpreadRoundTrip | src/store/actions/userActions.ts:70-73 | Reading the spread user back as form data gives the original data, with only the id key changed |
| UserActions.FetchUsers | src/store/actions/userActions.ts:27-39 | A network error is rejected with its message. A response is settled by `handleResponse`, and what it throws is rejected via `RejectionMessage`. Only a 401 touches storage, and only a 401 navigates, to "/login" |
| AuthActions.Login | src/store/actions/authActions.ts:4-17 | The thunk fulfils exactly when the gateway answers. The payload carries the response's token, possibly missing, and the typed username. Any failure becomes the fixed message |
| AuthActions.LoginFailureDropsCause | src/store/actions/authActions.ts:13-15 | Two failed logins give the same rejection, whatever was thrown |
| AuthActions.Logout | src/store/actions/authActions.ts:19-21 | `logout` always fulfils with true |
| AuthActions.CheckAuth | src/store/actions/authActions.ts:23-29 | A session is restored exactly when the stored token is non-empty. It carries that token and "restored_user" |
| AuthSlice.LoginError | src/store/slices/authSlice.ts:55 | The recorded error is the payload when it is non-empty, otherwise "Login failed"; it is never empty |
| AuthSlice.Session.constructor | src/store/slices/authSlice.ts:15-22 | The initial state is signed out: no token, not loading, no error, no user, "idle" |
| AuthSlice.Session.RestoreSession | src/store/slices/authSlice.ts:28-35 | A non-empty stored token authenticates with the given username. Otherwise the session is unchanged |
| AuthSlice.Session.LoginPending | src/store/slices/authSlice.ts:40-43 | Loading starts and the error is cleared. The session is kept |
| AuthSlice.Session.LoginFulfilled | src/store/slices/authSlice.ts:44-52 | A non-empty token authenticates and is written to storage. Without one, only loading stops |
| AuthSlice.Session.LoginRejected | src/store/slices/authSlice.ts:53-56 | Loading stops and the error becomes `LoginError(payload)`. The session is kept |
| AuthSlice.Session.LogoutFulfilled | src/store/slices/authSlice.ts:59-64 | The session is signed out and the stored token is erased. Loading and error are kept |
| AuthSlice.Session.CheckAuthFulfilled | src/store/slices/authSlice.ts:67-73 | A restored session authenticates with its token and user. Null changes nothing |
| ProductsActions.FetchProducts | src/store/actions/productsActions.ts:6-16 | The service's products are passed through; any failure becomes "Failed to fetch products" |
| ProductsActions.FetchProductById | src/store/actions/productsActions.ts:18-28 | The product is passed through; a failure names the requested id |
| ProductsActions.CreateProduct | src/store/actions/productsActions.ts:30-40 | The created product is passed through; any failure becomes "Failed to create product" |
| ProductsActions.UpdateProduct | src/store/actions/productsActions.ts:42-58 | The updated product is passed through; a failure names the id argument |
| ProductsActions.DeleteProduct | src/store/actions/productsActions.ts:60-70 | The thunk fulfils with the id it was given, not with the service's answer; a failure names that id |
| ProductsActions.TemplatedReasonNamesProduct | src/store/actions/productsActions.ts:25 | Messages templated on two numeric ids are equal only when the ids are equal |
| ProductsActions.DeleteRejectionsIdentifyProduct | src/store/actions/productsActions.ts:67 | Two failed deletes give the same rejection only for the same product |
| ProductsActions.UpdateRejectionsIdentifyProduct | src/store/actions/productsActions.ts:55 | Two failed updates give the same rejection only for the same product |
| Store.RootStore.constructor | src/store/index.ts:6-13 | The new store is signed out, and both user registrations start empty and equal |
| Store.RootStore.SelectUser | src/store/index.ts:9-11 | `selectUser` reaches both registrations: each selection becomes the user, and the copies stay equal |
| Store.RootStore.ClearSelectedUser | src/store/index.ts:9-11 | `clearSelectedUser` empties the selection in both registrations |
| Store.RootStore.UsersPending | src/store/index.ts:9-11 | A pending user thunk sets "loading" in both registrations |
| Store.RootStore.UsersRejected | src/store/index.ts:9-11 | A rejected user thunk records "failed" and the reason in both registrations |
| Store.RootStore.DispatchFetchUsers | src/store/slices/userSlice.ts:59-69 | The outcome follows the transport: a network error gives its message, and a delivered response gives the classified body or the rejection message. On success the list becomes that list and the status is "succeeded". On failure "failed" and the reason are recorded. A 401 erases exactly the stored token and navigates to "/login"; any other answer leaves storage alone and does not navigate |
| Store.RootStore.DispatchCreateUser | src/store/actions/userActions.ts:42-58 | The thunk always fulfils: the spread payload is appended and the status is "succeeded" |
| Store.RootStore.DispatchUpdateUser | src/store/actions/userActions.ts:61-80 | The thunk always fulfils: the first user with the payload's id is replaced, and so is a matching selection |
| Store.RootStore.DispatchDeleteUser | src/store/actions/userActions.ts:83-96 | The thunk always fulfils: every user with the id is removed, and a matching selection is cleared |
| Store.RootStore.DispatchLogin | src/store/slices/authSlice.ts:40-56 | The outcome is `Login`'s, and the whole new session is given. A rejection ends loading and records the message, and nothing else changes, storage included. A fulfilment with a token signs in as the typed username, clears the error and stores exactly that token. One without a token only ends loading and clears the error |
| Store.RootStore.DispatchLogout | src/store/slices/authSlice.ts:59-64 | The session is signed out with no token and no user. Loading and the error are kept. Storage loses exactly the token key |
| Store.RootStore.DispatchCheckAuth | src/store/slices/authSlice.ts:67-73 | A non-empty stored token authenticates the session with that token and the placeholder user, and nothing else changes. Otherwise the whole session is unchanged |
| Store.ReloadAfterUnauthorized | src/services/api.ts:30-33 | After a 401 and a reload, the fresh store's session check leaves it signed out |
| ProductForm.FromProduct | src/components/Modal/ProductFormModal.tsx:43-50 | The form takes every field from the product |
| ProductForm.Validate | src/components/Modal/ProductFormModal.tsx:81-90 | Each of title, price and category fails with its own message exactly when it is empty (price: not positive). The form is valid exactly when all three pass |
| ProductForm.PriceOf | src/components/Modal/ProductFormModal.tsx:70 | `parseFloat(value) \|\| 0`: the parsed number, or 0 when parsing fails |
| ProductForm.ProductFormModal.constructor | src/components/Modal/ProductFormModal.tsx:28-40 | A blank form with the placeholder image, and no errors |
| ProductForm.ProductFormModal.Reset | src/components/Modal/ProductFormModal.tsx:42-60 | The form holds the product's fields, or the blank form when there is no product. The errors are kept |
| ProductForm.ProductFormModal.HandleChange | src/components/Modal/ProductFormModal.tsx:62-79 | Only the named field changes; a price is parsed. Only that field's error is cleared |
| ProductForm.ProductFormModal.HandleSubmit | src/components/Modal/ProductFormModal.tsx:92-101 | The errors become `Validate(form)`. The form is submitted exactly when no error is set, with the product's id, or undefined when there is no product |
| ProductForm.SubmitUnedited | src/components/Modal/ProductFormModal.tsx:42-101 | Opening a product and saving without edits submits it unchanged under its own id exactly when it passes the checks |
| ProductForm.SubmitBlank | src/components/Modal/ProductFormModal.tsx:81-90 | Saving the blank add form is refused with all three messages |
| ProductForm.UnparsablePriceRefused | src/components/Modal/ProductFormModal.tsx:62-90 | With title and category filled in and an unparsable price, the save is refused on the price alone |
| UserForm.Validate | src/components/Modal/UserFormModal.tsx:107-118 | Each empty identity field fails with its own message. The password is required only when adding. The form is valid exactly when nothing fails |
| UserForm.AsUserFormData | src/components/Modal/UserFormModal.tsx:120-125 | The submitted record carries every form field, the id key included, even when the id is undefined |
| UserForm.UserFormModal.constructor | src/components/Modal/UserFormModal.tsx:29-46 | A blank form with an undefined id, and no errors |
| UserForm.UserFormModal.Reset | src/components/Modal/UserFormModal.tsx:48-72 | The form takes the user's id, name, email and username with an empty password; without a user it is blank. The errors are kept |
| UserForm.UserFormModal.HandleChange | src/components/Modal/UserFormModal.tsx:74-105 | First and last name go into the nested name, other fields to the top level. Only that field and its error change |
| UserForm.UserFormModal.HandleSubmit | src/components/Modal/UserFormModal.tsx:120-125 | The errors become `Validate(form, editing)`, and the record is submitted exactly when none is set |
| UserForm.AddFormCreatesUserWithoutId | src/components/Modal/UserFormModal.tsx:60-72 | The filled add form is accepted exactly when all five fields are given. The user it creates has an undefined id, whatever the clock says |
| UserForm.EditWithEmptyPassword | src/components/Modal/UserFormModal.tsx:48-59 | Editing a user and saving with the password left empty is accepted exactly when the four identity fields are set. The update then keeps the user's id and carries an empty password |
| Text.Lower | src/app/products/page.tsx:33 | Lower-casing keeps the length, maps each character, and leaves no upper-case letter |
| Text.Capitalize | src/components/TopNavBar.tsx:36 | Only the first character is upper-cased; the rest and the length are kept |
| Text.Truncate | src/components/TopNavBar.tsx:45-47 | A short string is kept. A longer one becomes its first n characters followed by "..." |
| Text.EmptyTermMatches | src/app/products/page.tsx:33-34 | The empty search term matches every string |
| Text.JoinSplit | src/components/TopNavBar.tsx:25-26 | Joining the pieces of a split gives back the original string |
| Text.SplitJoin | src/components/TopNavBar.tsx:25-26 | Splitting a join of separator-free pieces gives back those pieces |
| Seqs.FindIndex | src/store/slices/userSlice.ts:90-92 | -1 exactly when no element passes; otherwise the first position that does |
| Seqs.IndexOf | src/components/TopNavBar.tsx:32 | -1 exactly when the value is absent; otherwise its first position |
| Seqs.Distinct | src/app/products/page.tsx:28 | `new Set`: the same members, no duplicates, in order of first appearance |
| Catalog.CategoryList | src/app/products/page.tsx:28 | One category per product, in list order |
| TopNavBar.SegmentsMembers | src/components/TopNavBar.tsx:25-27 | The crumb segments are exactly the non-empty path pieces other than "admin" |
| TopNavBar.PathSegmentsMembers | src/components/TopNavBar.tsx:31 | The link segments are exactly the non-empty path pieces |
| TopNavBar.Breadcrumbs | src/components/TopNavBar.tsx:22-54 | A missing or empty pathname gives no crumbs; otherwise there is one crumb per segment |
| TopNavBar.AccumulatePath | src/components/TopNavBar.tsx:30-34 | The loop builds the link up to the first occurrence of the segment |
| TopNavBar.ComputeTitle | src/components/TopNavBar.tsx:36-48 | The step-by-step title computation (capitalise, replace for a product crumb, then cut) equals the crumb title |
| TopNavBar.GenerateBreadcrumbs | src/components/TopNavBar.tsx:22-54 | The component's loops give exactly `Breadcrumbs` |
| TopNavBar.MapSegments | src/components/TopNavBar.tsx:29-51 | The `map` over the segments gives one crumb per segment, each with its own link and title |
| TopNavBar.CrumbTitles | src/components/TopNavBar.tsx:36-48 | An ordinary crumb shows its segment capitalised. A product crumb is at most 33 characters. It shows the selected product's title, cut at 30, when there is one. Without one it reads "Product <segment>" when that fits |
| TopNavBar.RepeatedSegmentsSharePath | src/components/TopNavBar.tsx:32-34 | Two crumbs for the same segment text have the same link |
| TopNavBar.PathUpToIsJoin | src/components/TopNavBar.tsx:32-34 | The accumulated link is "/" followed by the first segments joined by "/" |
| TopNavBar.WellFormedPathSegments | src/components/TopNavBar.tsx:31 | For a path of non-empty, slash-free pieces, the link segments are exactly those pieces |
| TopNavBar.WellFormedSegments | src/components/TopNavBar.tsx:25-27 | For such a path without "admin", the crumb segments are exactly its pieces |
| TopNavBar.WellFormedBreadcrumbs | src/components/TopNavBar.tsx:25-31 | For such a path, the crumbs are built over its own pieces, both as crumb segments and as link segments |
| TopNavBar.CrumbPathsArePrefixes | src/components/TopNavBar.tsx:29-34 | For a path of non-empty, slash-free pieces, every crumb link starts with "/", is a prefix of the pathname, and ends with its segment. A doubled slash ("/a//b") drops the empty piece from the link, so there the link need not be a prefix |
| TopNavBar.WellFormedCrumbPath | src/components/TopNavBar.tsx:29-34 | Crumb i links to the path up to the first occurrence of its segment |
| TopNavBar.RepeatedLinkShorter | src/components/TopNavBar.tsx:32 | A repeated segment's first occurrence comes earlier, so its link is strictly shorter than the path up to the repeat |
| TopNavBar.LinkStopsAtFirstOccurrence | src/components/TopNavBar.tsx:32 | A repeated segment links to its first occurrence, not to its own position |
| ProductsPage.CategoryButtons | src/app/products/page.tsx:26-29 | "all" comes first. Then each product category appears once, in order of first appearance, and nothing else |
| ProductsPage.FilteredProducts | src/app/products/page.tsx:31-42 | A product is shown exactly when the search term occurs in its title or description, ignoring case, and the category matches |
| ProductsPage.NoFilterKeepsAll | src/app/products/page.tsx:31-42 | An empty search with no category shows every product in order |
| ProductsPage.FilterKeepsOrder | src/app/products/page.tsx:31 | Filtering keeps the products' relative order |
| ProductsPage.AllMeansNoCategory | src/app/products/page.tsx:36-39 | "all" and "" select the same products |
| ProductsPage.FoundByOwnTitle | src/app/products/page.tsx:33 | A product is always found by its own title |
| ProductsPage.ChooseCategory | src/app/products/page.tsx:75-77 | The "all" button stores ""; any other button stores its own category |
| ProductsPage.ChoiceHighlightsItself | src/app/products/page.tsx:79-80 | After a non-empty button is chosen, exactly that button is highlighted among the non-empty buttons |
| ProductsPage.EmptyChoiceHighlightsBoth | src/app/products/page.tsx:75-80 | "all" and a "" category button both store "", so choosing either highlights both and no other button |
| ProductsPage.ChoiceFilters | src/app/products/page.tsx:36-39 | A category button shows exactly the matching products of that category; "all" shows every matching product |
| ProductsPage.GridProducts | src/app/products/page.tsx:99-103 | The grid is empty unless the products have loaded; then it shows exactly the filtered products |
| AdminProductsPage.ManageProductsPage.constructor | src/app/admin/products/page.tsx:30-32 | The modal is closed in add mode with an empty search |
| AdminProductsPage.ManageProductsPage.HandleAdd | src/app/admin/products/page.tsx:40-44 | The selection is cleared and the modal opens in add mode |
| AdminProductsPage.ManageProductsPage.HandleEdit | src/app/admin/products/page.tsx:46-50 | The product is selected and the modal opens in edit mode |
| AdminProductsPage.ManageProductsPage.HandleSubmit | src/app/admin/products/page.tsx:58-71 | The modal closes. Add mode dispatches a create of the data. Edit mode dispatches an update under the selected product's id, whatever id the form carries. With no selection it throws before dispatching |
| AdminProductsPage.ManageProductsPage.CloseModal | src/app/admin/products/page.tsx:73-76 | The modal closes and the selection is cleared |
| AdminProductsPage.ManageProductsPage.SetSearchTerm | src/app/admin/products/page.tsx:105 | Only the search term changes |
| AdminProductsPage.DeleteRequest | src/app/admin/products/page.tsx:52-56 | A delete of that id is dispatched exactly when confirmed |
| AdminProductsPage.ListedProducts | src/app/admin/products/page.tsx:78-82 | A product is listed exactly when the term occurs in its title or category, ignoring case |
| AdminProductsPage.EmptySearchListsAll | src/app/admin/products/page.tsx:78-82 | An empty search lists every product in order |
| AdminProductsPage.ListingKeepsOrder | src/app/admin/products/page.tsx:78-82 | The listing keeps the products' relative order |
| AdminProductsPage.DisplayTitle | src/app/admin/products/page.tsx:169-171 | A title over 20 characters shows its first 20 followed by "..."; a shorter one shows whole |
| AdminProductsPage.EditAndSaveUnchanged | src/app/admin/products/page.tsx:46-71 | Editing a product and saving untouched dispatches an update of it, under its own id and with its own fields, exactly when it passes the form's checks |
| AdminUsersPage.ManageUsersPage.constructor | src/app/admin/users/page.tsx:24-26 | The modal is closed in add mode with an empty search, over a consistent store |
| AdminUsersPage.ManageUsersPage.HandleAdd | src/app/admin/users/page.tsx:32-36 | The store's selection is cleared and the modal opens in add mode |
| AdminUsersPage.ManageUsersPage.HandleEdit | src/app/admin/users/page.tsx:38-42 | The user is selected in the store and the modal opens in edit mode |
| AdminUsersPage.ManageUsersPage.HandleDelete | src/app/admin/users/page.tsx:44-48 | A confirmed delete of the row's id, which may be undefined, removes every user with that id, clears a matching selection and sets "succeeded". An unconfirmed one changes nothing |
| AdminUsersPage.ManageUsersPage.HandleSubmit | src/app/admin/users/page.tsx:50-58 | The modal closes. Add mode appends the created user and sets "succeeded", keeping the selection and the error. Edit mode applies an update whose id comes from the form data, not from the selection, and sets "succeeded" |
| AdminUsersPage.ManageUsersPage.CloseModal | src/app/admin/users/page.tsx:60-63 | The modal closes and the store's selection is cleared |
| AdminUsersPage.ManageUsersPage.SetSearchTerm | src/app/admin/users/page.tsx:94 | Only the search term changes |
| AdminUsersPage.SubmittedId | src/app/admin/users/page.tsx:56 | `data.id!` is the id key's value, or undefined when the key is absent |
| AdminUsersPage.UpdateKeepsSubmittedId | src/app/admin/users/page.tsx:56 | The update payload's id is always the submitted id |
| AdminUsersPage.ListedUsers | src/app/admin/users/page.tsx:65-71 | A user is listed exactly when the term occurs in the first name, last name, email or username, ignoring case |
| AdminUsersPage.EmptySearchListsAll | src/app/admin/users/page.tsx:65-71 | An empty search lists every user in order |
| AdminUsersPage.ListingKeepsOrder | src/app/admin/users/page.tsx:65-71 | The listing keeps the users' relative order |
| AdminUsersPage.EditAndSaveUnchanged | src/app/admin/users/page.tsx:38-58 | Editing a user and saving the untouched form succeeds exactly when the four identity fields are set. The selection then keeps the user's id and carries an empty password |
| CategoriesPage.Group | src/app/categories/page.tsx:31-36 | A category's group holds exactly the products of that category |
| CategoriesPage.GroupAppend | src/app/categories/page.tsx:35 | Grouping a concatenation groups each part, so products keep their order within a group |
| CategoriesPage.GroupedStep | src/app/categories/page.tsx:31-36 | One `forEach` step keeps the key order and every group exact |
| CategoriesPage.GroupsStep | src/app/categories/page.tsx:35 | Pushing a product onto its category's list keeps every list equal to that category's products so far |
| CategoriesPage.GroupByCategory | src/app/categories/page.tsx:28-36 | The keys are the distinct categories in order of first appearance. Each key maps to exactly its products, in list order |
| CategoriesPage.EachProductInItsGroup | src/app/categories/page.tsx:31-36 | Every product is in the group of its own category and in no other |
| CategoriesPage.FirstCategoryFirst | src/app/categories/page.tsx:39 | The first key is the first product's category |
| CategoriesPage.OpenOnRender | src/app/categories/page.tsx:38-41 | With products loaded and no open state, exactly the first product's category opens. Otherwise nothing changes |
| CategoriesPage.Toggle | src/app/categories/page.tsx:44-49 | Only the toggled category changes, to the opposite of what it read; a category never seen before opens |
| CategoriesPage.ToggleTwice | src/app/categories/page.tsx:44-49 | Toggling twice restores every category's open state |
| CategoriesPage.ShouldFetch | src/app/categories/page.tsx:22-26 | The page fetches exactly while the products are idle |
| CategoriesPage.RateCellOf | src/app/categories/page.tsx:144 | The rate is shown unless there is no rating or the rate is 0; then "N/A" |
| CategoriesPage.CountCellOf | src/app/categories/page.tsx:145 | The rating count, or 0 without a rating |
| CategoriesPage.StockCellOf | src/app/categories/page.tsx:148-150 | The stock value when the product has that key, otherwise "In Stock" |
| UseAuth.RedirectTarget | src/hooks/useAuth.ts:28-37 | Signed in and `redirectIfAuth` goes to "/products". Signed out and not `redirectIfAuth` goes to `redirectPath`. The two mixed cases stay |
| UseAuth.DefaultRedirect | src/hooks/useAuth.ts:28-31 | With the defaults, a signed-out visitor goes to "/login" and a signed-in one stays |
| UseAuth.LoginNavigation | src/hooks/useAuth.ts:17-21 | The login pushes "/products" exactly when the thunk fulfils |
| UseAuth.Mount | src/hooks/useAuth.ts:13-15 | Mounting checks the stored session. A non-empty stored token signs in with the placeholder user. Otherwise the whole session is unchanged |
| UseAuth.HandleLogin | src/hooks/useAuth.ts:17-21 | It navigates exactly when the gateway answers, and the whole new session and storage are given. A failure only ends loading and records the message. A token signs in and is stored. An answer without one still navigates to "/products", only ends loading and clears the error |
| UseAuth.HandleLogout | src/hooks/useAuth.ts:23-26 | The session is signed out, keeping loading and the error. Exactly the token key is erased, and "/login" is pushed |
| UseAuth.LoginThenGuard | src/hooks/useAuth.ts:17-37 | After a login with a token, a page that turns signed-in users away redirects to "/products" |

## Left out

- Network calls of the product, user and login services: their answer is a parameter, a `Result` or a `Transport`. The URL assembly in `src/services/*.ts` is not part of this model.
- JSON parsing: `response.json()` is a parameter, the parsed body or the message of its error.
- Asynchrony: the thunks' `setTimeout` delays, promise ordering and concurrent dispatches. Each dispatch is one atomic pending-then-terminal step.
- `Date.now()` is a parameter `now`.
- Floating point: prices and rates are reals, so rounding and NaN are not modelled.
- `parseFloat` is a parameter (`None` stands for NaN). The breadcrumb test `!isNaN(Number(segment))` is a parameter `numeric`.
- Text.Lower: folds ASCII letters only. JavaScript's Unicode case mapping is not modelled.
- Text.Capitalize: upper-cases ASCII letters only, for the same reason.
- Text.Truncate: counts characters, whereas JavaScript's `length` and `substring` count UTF-16 code units. A title with characters outside the Basic Multilingual Plane, such as emoji, is cut at a different place.
- Api.WithBearer: header names are compared case-sensitively, and `options.headers` is taken to be a plain record (not a `Headers` object or an array of pairs).
- `window.confirm` is a boolean parameter. `window.location.href` and `router.push` become a returned path; the page reload after a 401 is `Store.ReloadAfterUnauthorized`.
- The products slice is not part of this model. The admin products page keeps the selection slot itself: `selectProduct` sets it and `clearSelectedProduct` empties it. The product thunks' outcomes are not applied to a product list.
- CategoriesPage.GroupByCategory: the key order is insertion order. JavaScript lists integer-like keys (such as "10") first in numeric order, and a category named like an `Object.prototype` member reads an inherited value; neither is modelled.
- Redux Toolkit's immutability machinery, action objects and selectors; a reducer case is a method on the state object.
- Rendering: markup, CSS classes, images, loading spinners and error banners. Only the values the markup shows are modelled.
- The login page, the product detail page, the navigation menu and the search bar component are not part of this model.
- The top bar's own logout button (`src/components/TopNavBar.tsx:17-20`) does what `UseAuth.HandleLogout` does, and is not modelled separately.
- `toFixed` price formatting is presentation and is not modelled.
