# E-Ration state layer and page rules, in Dafny

This project models the client-side core of the e-ration management web
app `ration-hub-helper-main`. It has two layers:

- **The state layer.** `src/store/index.ts` holds four stores: the session,
  the inventory, the user directory and the assignment ledger.
- **The page rules.** These are the rules the pages put around the stores:
  - the route table and its role gate;
  - the sign-in, sign-up and create-shopkeeper forms;
  - the admin and shopkeeper assignment pages and the customer purchase page;
  - the user directory page;
  - the three dashboards and the shopkeeper's customer list.

## The modules

**Shared building blocks**
- `Seqs` holds the JavaScript array operations the code relies on: `filter`, `find`, `findIndex`, the conditional `map` and `includes`.
- `Types` holds the record shapes of `src/types/index.ts` together with the `{ ...old, ...patch }` merges.

**The state layer**
- `Store` has one class, `AppStore`.
  - Its fields are the session (`currentUser`, `isAuthenticated`), `products`, the visible user list `users`, the module-level backing array `mockUsers`, and `assignments`.
  - A further flag, `shared`, records that the visible list is still the very array `mockUsers` (store/index.ts:197). `register` and the first `addUser` push in place into that array, so their entries land in the visible list as well.
  - Each store handler is a method with a `modifies` clause. It is specified against a list function of the old state: `UpdateProducts`, `RemoveProducts`, `ApplyStockEffect` and so on.
  - Lemmas next to those functions prove the list facts: positional ids, id reuse after a delete, order-preserving removal, and the exact, unfloored stock decrement.

**Views and guards**
- `LedgerViews` defines the derived views of a ledger: a stable newest-first sort, its `slice`, the quantity sum and the set of distinct recipients.
- `Routes` encodes the route table of `src/App.tsx` and `ProtectedRoute`.
- `AssignGuards` defines the In-stock and Confirm guards that the assignment and purchase pages share, and proves that under them a confirmed amount never takes stock below zero.

**The pages**
- One module per page: `LoginPage`, `RegisterPage`, `CreateShopUserPage`, `AdminAssignPage`, `ShopAssignPage`, `BuyProductsPage`, `ViewUsersPage`, `AdminDashboardPage`, `ShopDashboardPage`, `ShopUsersPage` and `CustomerDashboardPage`.
- Pure guards and derivations are functions.
- Each submit handler is a method that takes the `AppStore` and calls its methods.

**Runs from the start-up state**
- `Scenarios` holds methods stated by what they must produce. Each starts from a freshly built store:
  - sign-in as the seeded admin;
  - the duplicated visible entry after the first `addUser`;
  - a registration;
  - a rice assignment;
  - stock going below zero;
  - ledger ids.

## Modelling choices

**Values**
- Ids are `nat`. Every id in the program is `String(n)` for a count `n`, or a hard-coded numeral, and `String` is injective on those.
- An empty picker and a `null` selection are `None`.
- Timestamps are a `Time = nat` field. Each operation that stamps one takes it as the parameter `now`.
- Quantities and prices are `int`. Prices are whole numbers here.

**Merges**
- A `Partial<...>` update is a patch record of `Option`s. `Some(v)` overrides a field and `None` leaves it alone.

**Behaviour the model follows as the code has it** (each point is easy to misread)
- `updateProduct` merges into every product with the id, not just one found product.
- `updateUser` merges every match in the visible list but only the first match in the backing array (`findIndex`).
- `addAssignment` reads the old quantity from the first product with the id. `updateProduct` then writes `old − q` into every product with that id.
- While the visible list is still the backing array, `addUser` leaves the new user in it twice: its push into the backing array already shows in the visible list, and the visible list then gets the user appended once more.
- A purchase on the customer page is always booked with issuer id 2, "Shop User". It is never booked with the customer as issuer.

## Model

| member | source | states |
|---|---|---|
| Seqs.Filter | ration-hub-helper-main/src/store/index.ts:181 | `filter` never lengthens a list |
| Seqs.FilterSpec | ration-hub-helper-main/src/store/index.ts:199 | `filter` keeps exactly the elements that pass, each as often as it occurs in the input |
| Seqs.FilterCons | ration-hub-helper-main/src/store/index.ts:181 | the head of a list survives `filter` exactly when it passes, and the rest is filtered alone |
| Seqs.FilterConcat | ration-hub-helper-main/src/store/index.ts:181 | `filter` distributes over concatenation, so survivors keep their order |
| Seqs.FilterAllPass | ration-hub-helper-main/src/store/index.ts:181 | a `filter` that every element passes returns the list unchanged |
| Seqs.FilterNonePass | ration-hub-helper-main/src/pages/shopkeeper/ShopUsers.tsx:34-36 | a `filter` that no element passes returns the empty list |
| Seqs.FilterIdempotent | ration-hub-helper-main/src/store/index.ts:199 | filtering twice with one predicate equals filtering once |
| Seqs.IndexWhere | ration-hub-helper-main/src/store/index.ts:228 | `findIndex` gives None exactly when nothing passes; otherwise it gives the first passing index |
| Seqs.Find | ration-hub-helper-main/src/store/index.ts:114-118 | `find` gives None exactly when nothing passes; otherwise a passing element with no passing element before it |
| Seqs.FindHead | ration-hub-helper-main/src/store/index.ts:265 | `find` returns the head when the head passes |
| Seqs.FindUnique | ration-hub-helper-main/src/store/index.ts:265 | `find` returns the only passing element |
| Seqs.FindConcat | ration-hub-helper-main/src/store/index.ts:114-118 | appending leaves a successful `find` unchanged; a failing one is decided by the appended part |
| Seqs.MapWhere | ration-hub-helper-main/src/store/index.ts:174-176 | the conditional `map` keeps the length and applies the update exactly where the predicate holds |
| Seqs.MapWhereNoMatch | ration-hub-helper-main/src/store/index.ts:174-176 | a conditional `map` that matches nothing returns the list unchanged |
| Seqs.ContainsAtOffset | ration-hub-helper-main/src/pages/shopkeeper/AssignProducts.tsx:45 | `includes` holds exactly when the query occurs at some offset |
| Seqs.ContainsEmpty | ration-hub-helper-main/src/pages/shopkeeper/AssignProducts.tsx:45 | every string includes the empty string |
| Types.MergeProduct | ration-hub-helper-main/src/store/index.ts:175 | a product merge keeps id and creation time, and takes the patched quantity and image when given |
| Types.MergeUser | ration-hub-helper-main/src/store/index.ts:223 | a user merge keeps id and creation time, and keeps role and password unless the patch names them |
| Types.MergeNothing | ration-hub-helper-main/src/store/index.ts:172-178 | merging an empty patch returns the record unchanged |
| Types.MergeProductIdempotent | ration-hub-helper-main/src/store/index.ts:175 | merging the same product patch twice equals merging it once |
| Types.MergeUserIdempotent | ration-hub-helper-main/src/store/index.ts:223 | merging the same user patch twice equals merging it once |
| Store.FindByCredentials | ration-hub-helper-main/src/store/index.ts:114-118 | the login lookup finds a record exactly when one has that email, role and password, and it is the first such record |
| Store.WithRole | ration-hub-helper-main/src/store/index.ts:199 | `getUsersByRole` keeps exactly the users with the role, with their multiplicities |
| Store.UserWithId | ration-hub-helper-main/src/store/index.ts:200 | `getUserById` gives None exactly when no user has the id; otherwise the first such user |
| Store.ProductWithId | ration-hub-helper-main/src/store/index.ts:265 | the product lookup gives None exactly when no product has the id; otherwise the first such product |
| Store.AssignmentsOfUser | ration-hub-helper-main/src/store/index.ts:254 | `getAssignmentsByUser` keeps exactly the entries booked to the user |
| Store.AssignmentsIssuedBy | ration-hub-helper-main/src/store/index.ts:255 | `getAssignmentsByAssignedBy` keeps exactly the entries the user issued |
| Store.UpdateProducts | ration-hub-helper-main/src/store/index.ts:172-178 | same length; every product with the id is merged with the patch, and every other is unchanged |
| Store.RemoveProducts | ration-hub-helper-main/src/store/index.ts:179-183 | exactly the products with the id disappear; every other keeps its multiplicity |
| Store.UpdateUsers | ration-hub-helper-main/src/store/index.ts:221-225 | same length; every user with the id is merged, and every other is unchanged |
| Store.UpdateFirstUser | ration-hub-helper-main/src/store/index.ts:228-231 | only the first user with the id is merged; with no such user the list is unchanged |
| Store.RemoveUsers | ration-hub-helper-main/src/store/index.ts:234-239 | exactly the users with the id disappear; every other keeps its multiplicity |
| Store.ApplyStockEffect | ration-hub-helper-main/src/store/index.ts:265-270 | with no product carrying the id, nothing changes; otherwise every product with the id gets the FIRST such product's quantity minus q, with no floor |
| Store.PositionsAreUnique | ration-hub-helper-main/src/store/index.ts:164-171 | ids that equal position + 1 are unique |
| Store.UpdateProductsKeepsIds | ration-hub-helper-main/src/store/index.ts:172-178 | an update changes no id, keeps ids positional, and is a no-op for an absent id |
| Store.RemoveProductsAbsent | ration-hub-helper-main/src/store/index.ts:179-183 | deleting an absent id is a no-op |
| Store.RemoveProductsKeepsOrder | ration-hub-helper-main/src/store/index.ts:179-183 | deletion splits over concatenation, so the rest keeps its order |
| Store.RemoveProductsCons | ration-hub-helper-main/src/store/index.ts:181 | the head survives a delete exactly when its id differs |
| Store.RemoveProductsUnique | ration-hub-helper-main/src/store/index.ts:179-183 | deleting an id only one product carries removes exactly that product |
| Store.StockEffectExact | ration-hub-helper-main/src/store/index.ts:265-270 | with unique ids, the matching product loses exactly q, and nothing else changes |
| Store.AppendProductKeepsPositions | ration-hub-helper-main/src/store/index.ts:164-171 | appending at id length + 1 keeps ids positional |
| Store.DeleteThenAddReusesId | ration-hub-helper-main/src/store/index.ts:164-183 | after deleting any product but the last, the next added product gets the id the last product still has |
| Store.AppendEntryKeepsPositions | ration-hub-helper-main/src/store/index.ts:256-262 | appending a ledger entry at id length + 1 keeps ledger ids positional |
| Store.AppStore.constructor | ration-hub-helper-main/src/store/index.ts:6-105 | the start-up state: the seed inventory, directory and ledger, signed out, the visible list shared with the backing array |
| Store.AppStore.Login | ration-hub-helper-main/src/store/index.ts:106-127 | success exactly when a backing record matches; the session is then that first record, and on failure it is unchanged |
| Store.AppStore.Register | ration-hub-helper-main/src/store/index.ts:128-147 | always succeeds; appends one customer with id length + 1 (also visible while shared) and signs it in |
| Store.AppStore.Logout | ration-hub-helper-main/src/store/index.ts:148-150 | clears the session and nothing else |
| Store.AppStore.AddProduct | ration-hub-helper-main/src/store/index.ts:164-171 | appends one product with id length + 1, and keeps ids positional |
| Store.AppStore.UpdateProduct | ration-hub-helper-main/src/store/index.ts:172-178 | the inventory becomes `UpdateProducts` of the old one |
| Store.AppStore.DeleteProduct | ration-hub-helper-main/src/store/index.ts:179-183 | the inventory becomes `RemoveProducts` of the old one |
| Store.AppStore.AddUser | ration-hub-helper-main/src/store/index.ts:201-219 | id from the backing length; the backing array gains the user once; the visible list gains it twice while shared, else once; aliasing ends |
| Store.AppStore.UpdateUser | ration-hub-helper-main/src/store/index.ts:220-232 | the visible list merges every match, and the backing array only its first |
| Store.AppStore.DeleteUser | ration-hub-helper-main/src/store/index.ts:233-240 | both lists drop the id, and the ledger is untouched |
| Store.AppStore.AddAssignment | ration-hub-helper-main/src/store/index.ts:256-271 | appends one entry with id length + 1, keeps ledger ids positional, and applies the stock effect |
| LedgerViews.InsertByTime | ration-hub-helper-main/src/pages/shopkeeper/Dashboard.tsx:32-33 | the insertion step of the sort adds exactly one element |
| LedgerViews.InsertKeepsOrder | ration-hub-helper-main/src/pages/shopkeeper/Dashboard.tsx:32-33 | inserting into a newest-first list keeps it newest first |
| LedgerViews.SortNewest | ration-hub-helper-main/src/pages/shopkeeper/Dashboard.tsx:32-33 | the copied sort is a permutation of the entries, newest first |
| LedgerViews.Newest | ration-hub-helper-main/src/pages/shopkeeper/Dashboard.tsx:32-34 | sort then `slice(0, k)` gives min(length, k) entries drawn from the input, newest first, and no entry left out is newer than one kept |
| LedgerViews.SliceKeepsNewest | ration-hub-helper-main/src/pages/shopkeeper/Dashboard.tsx:32-34 | a prefix of a newest-first arrangement keeps the newest entries of the input |
| LedgerViews.NewestFromInput | ration-hub-helper-main/src/pages/shopkeeper/Dashboard.tsx:32-34 | every recent entry comes from the input |
| LedgerViews.TotalQuantity | ration-hub-helper-main/src/pages/shopkeeper/Dashboard.tsx:25 | the `reduce` sum of quantities; its facts are TotalQuantityConcat and TotalQuantityBounds |
| LedgerViews.TotalQuantityConcat | ration-hub-helper-main/src/pages/shopkeeper/Dashboard.tsx:25 | the quantity sum over a concatenation is the sum of the two sums |
| LedgerViews.TotalQuantityBounds | ration-hub-helper-main/src/pages/shopkeeper/Dashboard.tsx:25 | the sum is 0 on no entries, and non-negative when every quantity is |
| LedgerViews.RecipientIdsBound | ration-hub-helper-main/src/pages/shopkeeper/Dashboard.tsx:28-29 | there are never more distinct recipients than entries |
| LedgerViews.RecipientIds | ration-hub-helper-main/src/pages/shopkeeper/Dashboard.tsx:28-29 | the `new Set` of recipient ids; bounded by RecipientIdsBound |
| LedgerViews.DistinctRecipientCount | ration-hub-helper-main/src/pages/shopkeeper/Dashboard.tsx:28-29 | the set size is at most the number of entries, and 0 on none |
| Routes.Admit | ration-hub-helper-main/src/App.tsx:131-143 | signed out, or signed in under another role, redirects to /login; the page renders exactly for the route's role |
| Routes.RouteRole | ration-hub-helper-main/src/App.tsx:51-114 | a path is gated exactly when it is in the protected table, and on that entry's role |
| Routes.Visit | ration-hub-helper-main/src/App.tsx:45-117 | ungated paths render; gated ones go through the admission rule |
| Routes.PrefixRole | ration-hub-helper-main/src/App.tsx:51-114 | the role a path's first segment names; GatedByPrefix ties it to the fifteen gated entries of the route table (the table itself is the constant `ProtectedRoutes`, the three open paths `PublicRoutes`) |
| Routes.GatedByPrefix | ration-hub-helper-main/src/App.tsx:51-114 | every /admin, /shopkeeper and /customer route is gated on exactly the role its prefix names |
| Routes.PublicRoutesOpen | ration-hub-helper-main/src/App.tsx:46-48 | /, /login and /register render for any session |
| Routes.SignedOutAdmitsNothing | ration-hub-helper-main/src/App.tsx:134-136 | signed out, no protected route renders |
| LoginPage.RedirectPath | ration-hub-helper-main/src/pages/auth/Login.tsx:44-54 | the redirect target of each role is a route gated on that role |
| LoginPage.DefaultCredentials | ration-hub-helper-main/src/pages/auth/Login.tsx:77-92 | each role's demo email and password; DefaultCredentialsSignIn proves they sign in |
| LoginPage.SelectTab | ration-hub-helper-main/src/pages/auth/Login.tsx:105-108 | choosing a tab sets the role and fills in that role's demo credentials |
| LoginPage.DefaultCredentialsSignIn | ration-hub-helper-main/src/pages/auth/Login.tsx:77-92 | each role's demo credentials sign in as the seeded user of that role |
| LoginPage.Submit | ration-hub-helper-main/src/pages/auth/Login.tsx:25-74 | a redirect happens exactly when a record matches; it clears the error, goes to the role's dashboard, and that page admits; on failure the error is set and the session kept |
| RegisterPage.Validate | ration-hub-helper-main/src/pages/auth/Register.tsx:39-47 | a mismatch error exactly when the two passwords differ; the length error exactly when they agree but are shorter than 6; otherwise the form passes |
| RegisterPage.Payload | ration-hub-helper-main/src/pages/auth/Register.tsx:52-59 | `register` gets the six fields |
| RegisterPage.ConfirmationNotSent | ration-hub-helper-main/src/pages/auth/Register.tsx:52-59 | the confirmation never reaches `register` |
| RegisterPage.Submit | ration-hub-helper-main/src/pages/auth/Register.tsx:34-75 | an invalid form shows its message and leaves the stores alone; a valid one appends the customer to the backing array (and to the visible list while shared), signs it in and goes to /login |
| RegisterPage.SignInAfterRegistration | ration-hub-helper-main/src/store/index.ts:114-145 | after registering, login with the same email and password as customer succeeds; it finds the new record unless an older one matches first |
| AssignGuards.ConfirmedAssignmentKeepsStock | ration-hub-helper-main/src/pages/admin/AssignProducts.tsx:210-213 | for a confirmable amount on the store's product, every product with the id ends at quantity − q ≥ 0 |
| AssignGuards.InStock | ration-hub-helper-main/src/pages/admin/AssignProducts.tsx:160 | a row's button is enabled only while quantity > 0 |
| AssignGuards.Confirmable | ration-hub-helper-main/src/pages/admin/AssignProducts.tsx:210-213 | the Confirm button is enabled exactly when 0 < q ≤ quantity |
| AssignGuards.SomeAmountConfirmable | ration-hub-helper-main/src/pages/admin/AssignProducts.tsx:160-213 | some amount can be confirmed exactly when the product is in stock |
| AdminAssignPage.Shopkeepers | ration-hub-helper-main/src/pages/admin/AssignProducts.tsx:46 | the picker lists exactly the shopkeepers, with their multiplicities, and no admin or customer |
| AdminAssignPage.AssignEnabled | ration-hub-helper-main/src/pages/admin/AssignProducts.tsx:160 | the Assign button needs a picked shopkeeper and stock |
| AdminAssignPage.EnabledAssignCanConfirm | ration-hub-helper-main/src/pages/admin/AssignProducts.tsx:160-213 | an enabled Assign button leads to a dialog where one unit can be confirmed; out of stock, no amount can |
| AdminAssignPage.AssignmentData | ration-hub-helper-main/src/pages/admin/AssignProducts.tsx:61-69 | the entry built from the product, the picked shopkeeper and the signed-in admin; Submit states what it becomes |
| AdminAssignPage.Submit | ration-hub-helper-main/src/pages/admin/AssignProducts.tsx:54-71 | submits exactly when id, product and session are present and the id names a user; then one entry is added with the fields set; with the confirm guard, stock stays ≥ 0 |
| CreateShopUserPage.ShopkeeperDraft | ration-hub-helper-main/src/pages/admin/CreateShopUser.tsx:44-52 | the record is always a shopkeeper and copies the six fields |
| CreateShopUserPage.RequiredFilled | ration-hub-helper-main/src/pages/admin/CreateShopUser.tsx:34 | name, email, password and Aadhaar must be non-empty |
| CreateShopUserPage.OptionalFieldsNotRequired | ration-hub-helper-main/src/pages/admin/CreateShopUser.tsx:34 | city and contact may be empty, and any non-empty Aadhaar is accepted |
| CreateShopUserPage.Submit | ration-hub-helper-main/src/pages/admin/CreateShopUser.tsx:29-71 | creates exactly when the required fields are filled; then adds one shopkeeper and clears the form, else changes nothing |
| ShopAssignPage.FilteredCustomers | ration-hub-helper-main/src/pages/shopkeeper/AssignProducts.tsx:43-46 | exactly the customers whose number is set and includes the query |
| ShopAssignPage.EmptyQueryListsAllReachable | ration-hub-helper-main/src/pages/shopkeeper/AssignProducts.tsx:43-46 | the empty query lists exactly the customers with a number |
| ShopAssignPage.FilteredCustomersMatchAtOffset | ration-hub-helper-main/src/pages/shopkeeper/AssignProducts.tsx:43-46 | every match holds the query at some offset of its number |
| ShopAssignPage.SearchEnabled | ration-hub-helper-main/src/pages/shopkeeper/AssignProducts.tsx:119 | the Search button is enabled only for a non-empty query |
| ShopAssignPage.SearchListsOnlyHolders | ration-hub-helper-main/src/pages/shopkeeper/AssignProducts.tsx:43-46 | once Search is enabled, every listed customer has a non-empty number at least as long as the query |
| ShopAssignPage.AssignEnabled | ration-hub-helper-main/src/pages/shopkeeper/AssignProducts.tsx:172 | the Assign button needs a chosen customer and stock |
| ShopAssignPage.EnabledAssignCanConfirm | ration-hub-helper-main/src/pages/shopkeeper/AssignProducts.tsx:172-256 | an enabled Assign button leads to a dialog where one unit can be confirmed; out of stock, no amount can |
| ShopAssignPage.SelectUser | ration-hub-helper-main/src/pages/shopkeeper/AssignProducts.tsx:52-55 | selecting remembers the customer and closes the dialog |
| ShopAssignPage.Submit | ration-hub-helper-main/src/pages/shopkeeper/AssignProducts.tsx:63-77 | submits exactly when customer, product and session are present; one entry, customer as recipient, shopkeeper as issuer; with the confirm guard, stock stays ≥ 0 |
| BuyProductsPage.PurchaseData | ration-hub-helper-main/src/pages/customer/BuyProducts.tsx:23-33 | one unit, booked to the customer, issued by id 2 "Shop User" |
| BuyProductsPage.BuyEnabled | ration-hub-helper-main/src/pages/customer/BuyProducts.tsx:84 | the Buy button is enabled only while quantity > 0 |
| BuyProductsPage.Buy | ration-hub-helper-main/src/pages/customer/BuyProducts.tsx:17-33 | buys exactly when someone is signed in; one entry and a stock effect of 1 |
| BuyProductsPage.PurchaseKeepsStock | ration-hub-helper-main/src/pages/customer/BuyProducts.tsx:84 | through an enabled Buy button on the store's product, stock stays ≥ 0 |
| BuyProductsPage.DuplicateIdDefeatsBuyGuard | ration-hub-helper-main/src/pages/customer/BuyProducts.tsx:84 | with two products under one id, an enabled button can drive both to −1 |
| ViewUsersPage.RolesPartition | ration-hub-helper-main/src/pages/admin/ViewUsers.tsx:49-50 | the three role filters together have exactly as many entries as the directory |
| ViewUsersPage.Tabs | ration-hub-helper-main/src/pages/admin/ViewUsers.tsx:49-50 | the tabs are the role filters; admins are in neither; with the admins they account for everyone |
| ViewUsersPage.EditPrefill | ration-hub-helper-main/src/pages/admin/ViewUsers.tsx:57-66 | the form starts from the user; a missing city or number shows as "" |
| ViewUsersPage.EditPatch | ration-hub-helper-main/src/pages/admin/ViewUsers.tsx:89-94 | the patch names only name, email, city and number |
| ViewUsersPage.EditKeepsProtectedFields | ration-hub-helper-main/src/pages/admin/ViewUsers.tsx:83-94 | an edit never changes id, role, password, smart card, Aadhaar or creation time |
| ViewUsersPage.UnchangedEditRoundTrip | ration-hub-helper-main/src/pages/admin/ViewUsers.tsx:57-94 | saving unchanged returns the user, except that a missing city or number becomes "" |
| ViewUsersPage.SaveTwiceSameAsOnce | ration-hub-helper-main/src/pages/admin/ViewUsers.tsx:89-94 | saving the same edit twice leaves the visible list as saving it once |
| ViewUsersPage.SubmitEdit | ration-hub-helper-main/src/pages/admin/ViewUsers.tsx:83-94 | saves exactly when a user is selected; both lists are updated and stop being shared; no role or password changes |
| ViewUsersPage.ConfirmDelete | ration-hub-helper-main/src/pages/admin/ViewUsers.tsx:68-76 | deletes from both lists only when confirmed, which ends their sharing; every user's history survives |
| ViewUsersPage.UserHistory | ration-hub-helper-main/src/pages/admin/ViewUsers.tsx:112-114 | the history is exactly the entries booked to the user |
| ViewUsersPage.HistoryGrowsAtEnd | ration-hub-helper-main/src/pages/admin/ViewUsers.tsx:112-114 | a new entry joins the end of its recipient's history and leaves any other history alone |
| AdminDashboardPage.Cards | ration-hub-helper-main/src/pages/admin/Dashboard.tsx:44-171 | the cards count the inventory, the tabs and the ledger; the two role counts cover the directory exactly when it has no admin |
| AdminDashboardPage.EditPrefill | ration-hub-helper-main/src/pages/admin/Dashboard.tsx:58-67 | the form starts from the product; an empty unit falls back to kg |
| AdminDashboardPage.ProductData | ration-hub-helper-main/src/pages/admin/Dashboard.tsx:82-88 | the submitted object copies the form and carries image "" |
| AdminDashboardPage.AsPatch | ration-hub-helper-main/src/pages/admin/Dashboard.tsx:90-91 | read as a patch, every key is present |
| AdminDashboardPage.EditReplacesFields | ration-hub-helper-main/src/pages/admin/Dashboard.tsx:82-91 | an edit replaces every field and clears the image |
| AdminDashboardPage.UnchangedEditClearsImage | ration-hub-helper-main/src/pages/admin/Dashboard.tsx:58-91 | saving unchanged only clears the image (and fills an empty unit) |
| AdminDashboardPage.SaveTwiceSameAsOnce | ration-hub-helper-main/src/pages/admin/Dashboard.tsx:82-91 | saving the same product edit twice leaves the inventory as saving it once |
| AdminDashboardPage.SubmitProduct | ration-hub-helper-main/src/pages/admin/Dashboard.tsx:78-96 | no selection adds a product; a selection updates that id |
| AdminDashboardPage.ConfirmDeleteProduct | ration-hub-helper-main/src/pages/admin/Dashboard.tsx:108-113 | deletes only when confirmed |
| ShopDashboardPage.MyAssignments | ration-hub-helper-main/src/pages/shopkeeper/Dashboard.tsx:22 | exactly the entries the signed-in user issued; none when signed out |
| ShopDashboardPage.Summarize | ration-hub-helper-main/src/pages/shopkeeper/Dashboard.tsx:22-34 | total quantity (0 on none); distinct customers (at most the entries); the recent list is the 5 newest of the shopkeeper's own entries (all when fewer), drawn from them, newest first |
| ShopUsersPage.ShopkeeperAssignments | ration-hub-helper-main/src/pages/shopkeeper/ShopUsers.tsx:26-28 | the shopkeeper's entries; none when signed out |
| ShopUsersPage.ShopCustomers | ration-hub-helper-main/src/pages/shopkeeper/ShopUsers.tsx:23-36 | exactly the customers served by the signed-in user, with their multiplicities; no non-customer; none when signed out |
| ShopUsersPage.LatestAssignment | ration-hub-helper-main/src/pages/shopkeeper/ShopUsers.tsx:75-82 | some entry exactly when the customer has one, and it is the newest |
| ShopUsersPage.ListedCustomerHasLatest | ration-hub-helper-main/src/pages/shopkeeper/ShopUsers.tsx:73-94 | every listed customer has a latest entry, so "Never" is unreachable |
| CustomerDashboardPage.MyPurchases | ration-hub-helper-main/src/pages/customer/Dashboard.tsx:24 | exactly the entries booked to the signed-in user; none when signed out |
| CustomerDashboardPage.TotalPurchased | ration-hub-helper-main/src/pages/customer/Dashboard.tsx:27 | the quantity sum of those entries, 0 on none |
| CustomerDashboardPage.RecentPurchases | ration-hub-helper-main/src/pages/customer/Dashboard.tsx:30-32 | the 3 newest of the customer's entries (all when fewer), drawn from them with their multiplicities, newest first |
| CustomerDashboardPage.LineAmount | ration-hub-helper-main/src/pages/customer/Dashboard.tsx:36-37 | price × quantity when `find` by id finds the product, else 0 |
| CustomerDashboardPage.TotalSpent | ration-hub-helper-main/src/pages/customer/Dashboard.tsx:35-38 | the `reduce` sum of line amounts; its facts are the two lemmas below |
| CustomerDashboardPage.MissingProductAddsNothing | ration-hub-helper-main/src/pages/customer/Dashboard.tsx:35-38 | an entry whose product is gone adds nothing to the amount spent |
| CustomerDashboardPage.NothingSpentOnVanishedProducts | ration-hub-helper-main/src/pages/customer/Dashboard.tsx:35-38 | with every product gone, nothing was spent |
| Scenarios.AdminSignIn | ration-hub-helper-main/src/store/index.ts:46-127 | the seeded admin signs in as admin, but not as customer |
| Scenarios.AddUsersFromStart | ration-hub-helper-main/src/store/index.ts:197-215 | from start-up, the first add leaves 5 visible users over 4 backing ones; the second leaves 6 over 5 |
| Scenarios.RegisterFromStart | ration-hub-helper-main/src/store/index.ts:128-146 | from start-up, registering shows 4 users in both lists and signs in id 4 |
| Scenarios.AssignRiceFromStart | ration-hub-helper-main/src/store/index.ts:256-271 | assigning 10 kg of rice to the seeded customer leaves 90 kg and a second entry with id 2 |
| Scenarios.NoFloorOnStock | ration-hub-helper-main/src/store/index.ts:265-270 | assigning 10 from 5 leaves −5 |
| Scenarios.LedgerIdsFromStart | ration-hub-helper-main/src/store/index.ts:256-262 | two entries after the seed carry ids 1, 2, 3 in order |

## Left out

**Timing and output**
- The artificial delays and `async`/`await` of `login` and `register` (store/index.ts:108, 130) are timing only. Both are modelled as synchronous.
- `console.log` calls have no effect on state.

**UI plumbing**
- React component state, dialogs, toasts, loading flags and navigation are not modelled. `window.confirm` becomes a `confirmed` parameter, and a navigation is a returned path.
- The try/catch error paths of the handlers are not modelled, because none of the modelled calls throws. This covers Login's "An error occurred" message.

**Parsing and contexts**
- `parseInt`/`parseFloat` of form strings and their `NaN` results are not modelled. Quantities and prices arrive as `int`.
- The shopkeeper-page guards take the dialog's product and amount as parameters. The model does not capture that these are React state snapshots, which can differ from the store's current record; the stock lemmas state that proviso instead.

**Money, dates and strings**
- Prices are JavaScript floats and are modelled as `int`; `formatCurrency` (lib/utils.ts:18-24) is not modelled. Amounts spent are stated only for the missing-product rule.
- Date formatting (lib/utils.ts:10-16) is not modelled. Neither are the PurchaseHistory and AssignHistory pages, which only render a filter that `AssignmentsOfUser` and `AssignmentsIssuedBy` already model.
- String length is the number of `char`s. JavaScript counts UTF-16 code units; the two agree on the ASCII inputs of the forms.

**Outside the core**
- `generateId` and `debounce` (lib/utils.ts) use randomness and timers, and the stores never call them.
- Pure rendering files are not modelled: the layouts, sidebars, Home, shopkeeper Profile and AssignedProducts.
- The admin and customer profile pages named in the route table are not part of this model.

**Patches and session**
- A patch that sets a key to `undefined` is not modelled, because no caller does it.
- After `updateUser`, `currentUser` keeps the old record, as in the code. No property about it is stated.

**Weaker contracts**
- Routes.RouteRole: paths are compared with the table as exact, case-sensitive strings. React Router's default matching ignores ASCII case and accepts trailing slashes, so in the app "/ADMIN" and "/admin/" reach the gated admin page. A matcher that normalises the path was too costly to verify against the literal route table.
- Routes.Visit: inherits that exact matching, so the model renders "/ADMIN" ungated where the app redirects a signed-out visitor to /login.
- Store.AppStore.AddProduct: it does not say that the new id may collide after a delete. `Store.DeleteThenAddReusesId` states that.
- RegisterPage.Submit: the "Registration failed" branch is modelled but unreachable, because `register` always reports success. The contract states only the reachable outcomes.
