/** The admin's "create shopkeeper" form of
    src/pages/admin/CreateShopUser.tsx. */
module CreateShopUserPage {
  import opened Seqs
  import opened Types
  import opened Store

  /** The six text inputs; all start empty. */
  datatype ShopUserForm = ShopUserForm(
    name: string,
    email: string,
    password: string,
    city: string,
    contactNumber: string,
    aadharNumber: string)

  const EmptyForm := ShopUserForm("", "", "", "", "", "")

  /** The required-field check: name, email, password and Aadhaar number
      must be non-empty; nothing else about them is checked. */
  predicate RequiredFilled(f: ShopUserForm)
  {
    f.name != "" && f.email != "" && f.password != "" && f.aadharNumber != ""
  }

  /** The record handed to `addUser`: always a shopkeeper, with the form's
      six fields and no smart card. */
  function ShopkeeperDraft(f: ShopUserForm): (d: UserDraft)
    ensures d.role == Shopkeeper && d.smartCardNumber.None?
    ensures d.name == f.name && d.email == f.email && d.password == f.password
    ensures d.city == Some(f.city) && d.contactNumber == Some(f.contactNumber)
    ensures d.aadharNumber == Some(f.aadharNumber)
  {
    UserDraft(f.name, f.email, f.password, Shopkeeper, None,
              Some(f.city), Some(f.contactNumber), Some(f.aadharNumber))
  }

  /** City and contact number may be left empty, and any non-empty text is
      accepted as an Aadhaar number. */
  lemma OptionalFieldsNotRequired(f: ShopUserForm, city: string, contact: string, aadhar: string)
    requires aadhar != ""
    ensures RequiredFilled(f.(city := city, contactNumber := contact, aadharNumber := aadhar))
        <==> f.name != "" && f.email != "" && f.password != ""
  {
  }

  /** `handleSubmit`: with a required field missing nothing is added and
      the form is kept; otherwise one shopkeeper is added and every field is
      cleared. */
  method Submit(store: AppStore, form: ShopUserForm, now: Time) returns (next: ShopUserForm, created: bool)
    requires store.Valid()
    modifies store`mockUsers, store`users, store`shared
    ensures store.Valid()
    ensures created <==> RequiredFilled(form)
    ensures !created ==>
      && next == form
      && store.mockUsers == old(store.mockUsers) && store.users == old(store.users)
      && store.shared == old(store.shared)
    ensures created ==>
      var u := UserFromDraft(ShopkeeperDraft(form), |old(store.mockUsers)| + 1, now);
      && next == EmptyForm && !store.shared
      && store.mockUsers == old(store.mockUsers) + [u]
      && store.users == (if old(store.shared) then old(store.users) + [u, u] else old(store.users) + [u])
  {
    if !RequiredFilled(form) {
      next, created := form, false;
      return;
    }
    store.AddUser(ShopkeeperDraft(form), now);
    next, created := EmptyForm, true;
  }
}
