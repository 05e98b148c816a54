/** The customer sign-up page of src/pages/auth/Register.tsx: two
    validation checks in a fixed order, then `register` with everything the
    form holds except the confirmation. */
module RegisterPage {
  import opened Seqs
  import opened Types
  import opened Store

  /** The form state; every input starts as the empty string. */
  datatype RegisterForm = RegisterForm(
    name: string,
    email: string,
    password: string,
    confirmPassword: string,
    smartCardNumber: string,
    contactNumber: string,
    city: string)

  const MismatchMessage := "Passwords do not match"
  const ShortPasswordMessage := "Password must be at least 6 characters"
  const FailedMessage := "Registration failed. Please try again."
  const MinPasswordLength := 6

  /** The validation chain: the confirmation is compared first, the length
      is checked only when the two agree. None means the form may be sent. */
  function Validate(form: RegisterForm): (r: Option<string>)
    ensures r == Some(MismatchMessage) <==> form.password != form.confirmPassword
    ensures r == Some(ShortPasswordMessage) <==>
      form.password == form.confirmPassword && |form.password| < MinPasswordLength
    ensures r.None? <==>
      form.password == form.confirmPassword && |form.password| >= MinPasswordLength
  {
    if form.password != form.confirmPassword then Some(MismatchMessage)
    else if |form.password| < MinPasswordLength then Some(ShortPasswordMessage)
    else None
  }

  /** The object handed to `register`; the confirmation is not part of it. */
  function Payload(form: RegisterForm): (d: RegisterData)
    ensures d.name == form.name && d.email == form.email && d.password == form.password
    ensures d.smartCardNumber == Some(form.smartCardNumber)
    ensures d.contactNumber == Some(form.contactNumber) && d.city == Some(form.city)
  {
    RegisterData(form.name, form.email, form.password,
                 Some(form.smartCardNumber), Some(form.contactNumber), Some(form.city))
  }

  /** The confirmation never reaches the store. */
  lemma ConfirmationNotSent(form: RegisterForm, c: string)
    ensures Payload(form.(confirmPassword := c)) == Payload(form)
  {
  }

  /** `handleSubmit`: an invalid form shows its message and leaves the
      stores alone; a valid one registers the customer and leads to the
      sign-in page. Because `register` always succeeds, the failure message
      is never shown. */
  method Submit(store: AppStore, form: RegisterForm, now: Time)
      returns (error: Option<string>, navigateTo: Option<string>)
    requires store.Valid()
    modifies store`mockUsers, store`users, store`currentUser, store`isAuthenticated
    ensures store.Valid()
    ensures Validate(form).Some? ==>
      && error == Validate(form) && navigateTo.None?
      && store.mockUsers == old(store.mockUsers) && store.users == old(store.users)
      && store.currentUser == old(store.currentUser) && store.isAuthenticated == old(store.isAuthenticated)
    ensures Validate(form).None? ==>
      var u := CustomerFromRegistration(Payload(form), |old(store.mockUsers)| + 1, now);
      && error.None? && navigateTo == Some("/login")
      && store.mockUsers == old(store.mockUsers) + [u]
      && store.users == (if old(store.shared) then old(store.users) + [u] else old(store.users))
      && store.currentUser == Some(u) && store.isAuthenticated
  {
    error := Validate(form);
    navigateTo := None;
    if error.None? {
      var ok := store.Register(Payload(form), now);
      if ok {
        navigateTo := Some("/login");
      } else {
        error := Some(FailedMessage);
      }
    }
  }

  /** The new customer can sign in with the credentials just registered,
      unless an older record with the same email and password already
      holds the customer role: there is no duplicate check, and sign-in
      then resolves to the older record. */
  lemma SignInAfterRegistration(mockUsers: seq<User>, d: RegisterData, now: Time)
    ensures var u := CustomerFromRegistration(d, |mockUsers| + 1, now);
      var found := FindByCredentials(mockUsers + [u], d.email, Customer, d.password);
      var older := FindByCredentials(mockUsers, d.email, Customer, d.password);
      && found.Some?
      && (older.None? ==> found == Some(u))
      && (older.Some? ==> found == older)
  {
    var u := CustomerFromRegistration(d, |mockUsers| + 1, now);
    var p := (v: User) => CredentialsMatch(v, d.email, Customer, d.password);
    FindConcat(mockUsers, [u], p);
    assert FindByCredentials(mockUsers + [u], d.email, Customer, d.password) == Find(mockUsers + [u], p);
    assert FindByCredentials(mockUsers, d.email, Customer, d.password) == Find(mockUsers, p);
    FindHead([u], p);
  }
}
