/** The admin's user directory page of src/pages/admin/ViewUsers.tsx: two
    role tabs, an edit dialog limited to four fields, a confirmed delete,
    and each user's assignment history. */
module ViewUsersPage {
  import opened Seqs
  import opened Types
  import opened Store

  /** Every user has exactly one of the three roles, so the three role
      filters split the directory. */
  lemma RolesPartition(users: seq<User>)
    ensures |WithRole(users, Admin)| + |WithRole(users, Shopkeeper)| + |WithRole(users, Customer)| == |users|
  {
    var a, s, c := WithRole(users, Admin), WithRole(users, Shopkeeper), WithRole(users, Customer);
    assert multiset(a) + multiset(s) + multiset(c) == multiset(users) by {
      forall u ensures (multiset(a) + multiset(s) + multiset(c))[u] == multiset(users)[u] {
      }
    }
    assert |multiset(a) + multiset(s) + multiset(c)| == |multiset(users)|;
  }

  datatype RoleTabs = RoleTabs(shopkeepers: seq<User>, customers: seq<User>)

  /** The Shopkeepers and Customers tabs: order-preserving role filters
      that together show everyone except the admins. */
  function Tabs(users: seq<User>): (t: RoleTabs)
    ensures forall u :: u in t.shopkeepers <==> u in users && u.role == Shopkeeper
    ensures forall u :: u in t.customers <==> u in users && u.role == Customer
    ensures forall u :: u in users && u.role == Admin ==> u !in t.shopkeepers && u !in t.customers
    ensures |t.shopkeepers| + |t.customers| + |WithRole(users, Admin)| == |users|
  {
    RolesPartition(users);
    RoleTabs(WithRole(users, Shopkeeper), WithRole(users, Customer))
  }

  /** The edit dialog's four inputs. */
  datatype EditForm = EditForm(name: string, email: string, city: string, contactNumber: string)

  /** `handleEditUser`: the form starts from the user, a missing city or
      contact number showing as the empty string. */
  function EditPrefill(u: User): (f: EditForm)
    ensures f.name == u.name && f.email == u.email
    ensures f.city == (if u.city.Some? then u.city.value else "")
    ensures f.contactNumber == (if u.contactNumber.Some? then u.contactNumber.value else "")
  {
    EditForm(u.name, u.email,
             if u.city.Some? then u.city.value else "",
             if u.contactNumber.Some? then u.contactNumber.value else "")
  }

  /** `handleEditSubmit` hands `updateUser` exactly these four keys. */
  function EditPatch(f: EditForm): (p: UserPatch)
    ensures p.role.None? && p.password.None?
    ensures p.smartCardNumber.None? && p.aadharNumber.None?
    ensures p.name == Some(f.name) && p.email == Some(f.email)
    ensures p.city == Some(f.city) && p.contactNumber == Some(f.contactNumber)
  {
    NoUserChanges.(name := Some(f.name), email := Some(f.email),
                   city := Some(f.city), contactNumber := Some(f.contactNumber))
  }

  /** An edit sets the four fields and never touches id, role, password,
      smart card, Aadhaar number or creation time. */
  lemma EditKeepsProtectedFields(u: User, f: EditForm)
    ensures var m := MergeUser(u, EditPatch(f));
      && m.id == u.id && m.role == u.role && m.password == u.password
      && m.smartCardNumber == u.smartCardNumber && m.aadharNumber == u.aadharNumber
      && m.createdAt == u.createdAt
      && m.name == f.name && m.email == f.email
      && m.city == Some(f.city) && m.contactNumber == Some(f.contactNumber)
  {
  }

  /** Saving the dialog unchanged gives back the user, except that a missing
      city or contact number is stored as the empty string. */
  lemma UnchangedEditRoundTrip(u: User)
    ensures var m := MergeUser(u, EditPatch(EditPrefill(u)));
      && (u.city.Some? && u.contactNumber.Some? ==> m == u)
      && (u.city.None? ==> m.city == Some(""))
      && (u.contactNumber.None? ==> m.contactNumber == Some(""))
  {
  }

  /** Saving the same edit twice leaves the visible list as saving it once. */
  lemma SaveTwiceSameAsOnce(users: seq<User>, id: Id, f: EditForm)
    ensures UpdateUsers(UpdateUsers(users, id, EditPatch(f)), id, EditPatch(f)) == UpdateUsers(users, id, EditPatch(f))
  {
    var patch := EditPatch(f);
    var once := UpdateUsers(users, id, patch);
    var twice := UpdateUsers(once, id, patch);
    forall i | 0 <= i < |users| ensures twice[i] == once[i] {
      if users[i].id == id {
        MergeUserIdempotent(users[i], patch);
      }
    }
  }

  /** `handleEditSubmit`: without a selected user nothing happens; otherwise
      the four fields are written to that id in both user lists, and no
      record's role or password changes. */
  method SubmitEdit(store: AppStore, selectedUser: Option<User>, form: EditForm) returns (saved: bool)
    requires store.Valid()
    modifies store`mockUsers, store`users, store`shared
    ensures store.Valid()
    ensures saved <==> selectedUser.Some?
    ensures !saved ==>
      && store.users == old(store.users) && store.mockUsers == old(store.mockUsers)
      && store.shared == old(store.shared)
    ensures saved ==>
      && store.users == UpdateUsers(old(store.users), selectedUser.value.id, EditPatch(form))
      && store.mockUsers == UpdateFirstUser(old(store.mockUsers), selectedUser.value.id, EditPatch(form))
      && !store.shared
    ensures |store.users| == |old(store.users)|
    ensures forall i :: 0 <= i < |store.users| ==>
      store.users[i].role == old(store.users)[i].role && store.users[i].password == old(store.users)[i].password
  {
    if selectedUser.None? {
      return false;
    }
    store.UpdateUser(selectedUser.value.id, EditPatch(form));
    saved := true;
  }

  /** `handleDeleteUser`: the user goes only when the prompt is confirmed;
      the ledger, and so the deleted id's history, is kept. */
  method ConfirmDelete(store: AppStore, id: Id, confirmed: bool)
    requires store.Valid()
    modifies store`mockUsers, store`users, store`shared
    ensures store.Valid()
    ensures !confirmed ==>
      && store.users == old(store.users) && store.mockUsers == old(store.mockUsers)
      && store.shared == old(store.shared)
    ensures confirmed ==>
      && store.users == RemoveUsers(old(store.users), id) && store.mockUsers == RemoveUsers(old(store.mockUsers), id)
      && !store.shared
    ensures UserHistory(store.assignments, id) == UserHistory(old(store.assignments), id)
  {
    if confirmed {
      store.DeleteUser(id);
    }
  }

  /** `getUserAssignments`: the entries booked to the user, in ledger order. */
  function UserHistory(ledger: seq<Assignment>, userId: Id): (r: seq<Assignment>)
    ensures forall a :: a in r <==> a in ledger && a.userId == userId
  {
    AssignmentsOfUser(ledger, userId)
  }

  /** A new ledger entry joins the end of its recipient's history and
      leaves every other history as it was. */
  lemma HistoryGrowsAtEnd(ledger: seq<Assignment>, a: Assignment, userId: Id)
    ensures UserHistory(ledger + [a], userId)
      == UserHistory(ledger, userId) + (if a.userId == userId then [a] else [])
  {
    FilterConcat(ledger, [a], (x: Assignment) => x.userId == userId);
    assert Filter([a], (x: Assignment) => x.userId == userId) == (if a.userId == userId then [a] else []) by {
      assert [a][1..] == [];
    }
  }
}
