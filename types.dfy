/** The record shapes of src/types/index.ts: users, products and ledger
    entries, the `Omit<..., 'id' | 'createdAt'>` drafts that callers hand to
    the stores, and the `Partial<...>` patches that updates merge in with
    object spread. Identifiers are the numbers `n` of `String(n)`;
    timestamps are the clock readings of `new Date()` at creation. */
module Types {
  import opened Seqs

  type Id = nat
  type Time = nat

  datatype Role = Admin | Shopkeeper | Customer

  datatype User = User(
    id: Id,
    name: string,
    email: string,
    password: string,
    role: Role,
    smartCardNumber: Option<string>,
    city: Option<string>,
    contactNumber: Option<string>,
    aadharNumber: Option<string>,
    createdAt: Time)

  /** `mrp` is a JavaScript number; it is kept here as a whole number. */
  datatype Product = Product(
    id: Id,
    name: string,
    mrp: int,
    quantity: int,
    unit: string,
    image: Option<string>,
    createdAt: Time)

  datatype Assignment = Assignment(
    id: Id,
    productId: Id,
    productName: string,
    userId: Id,
    userName: string,
    assignedBy: Id,
    assignedByName: string,
    quantity: int,
    createdAt: Time)

  /** `Omit<Product, 'id' | 'createdAt'>` */
  datatype ProductDraft = ProductDraft(name: string, mrp: int, quantity: int, unit: string, image: Option<string>)

  /** `Omit<User, 'id' | 'createdAt'>` */
  datatype UserDraft = UserDraft(
    name: string,
    email: string,
    password: string,
    role: Role,
    smartCardNumber: Option<string>,
    city: Option<string>,
    contactNumber: Option<string>,
    aadharNumber: Option<string>)

  /** `Omit<ProductAssignment, 'id' | 'createdAt'>` */
  datatype AssignmentDraft = AssignmentDraft(
    productId: Id,
    productName: string,
    userId: Id,
    userName: string,
    assignedBy: Id,
    assignedByName: string,
    quantity: int)

  /** `RegisterData`: what the registration form hands to `register`. */
  datatype RegisterData = RegisterData(
    name: string,
    email: string,
    password: string,
    smartCardNumber: Option<string>,
    contactNumber: Option<string>,
    city: Option<string>)

  /** `Partial<Omit<Product, 'id' | 'createdAt'>>`: a present key overrides. */
  datatype ProductPatch = ProductPatch(
    name: Option<string>,
    mrp: Option<int>,
    quantity: Option<int>,
    unit: Option<string>,
    image: Option<string>)

  /** `Partial<Omit<User, 'id' | 'createdAt'>>`: a present key overrides. */
  datatype UserPatch = UserPatch(
    name: Option<string>,
    email: Option<string>,
    password: Option<string>,
    role: Option<Role>,
    smartCardNumber: Option<string>,
    city: Option<string>,
    contactNumber: Option<string>,
    aadharNumber: Option<string>)

  const NoProductChanges := ProductPatch(None, None, None, None, None)
  const NoUserChanges := UserPatch(None, None, None, None, None, None, None, None)

  /** The value of one key after `{ ...old, ...patch }`. */
  function Override<T>(current: T, patch: Option<T>): T
  {
    if patch.Some? then patch.value else current
  }

  /** An optional key after the spread: a present patch value defines it. */
  function OverrideOptional<T>(current: Option<T>, patch: Option<T>): Option<T>
  {
    if patch.Some? then patch else current
  }

  /** `{ ...product, ...updates }` */
  function MergeProduct(p: Product, u: ProductPatch): (r: Product)
    ensures r.id == p.id && r.createdAt == p.createdAt
    ensures u.quantity.None? ==> r.quantity == p.quantity
    ensures u.quantity.Some? ==> r.quantity == u.quantity.value
    ensures u.image.Some? ==> r.image == u.image
  {
    p.(name := Override(p.name, u.name),
       mrp := Override(p.mrp, u.mrp),
       quantity := Override(p.quantity, u.quantity),
       unit := Override(p.unit, u.unit),
       image := OverrideOptional(p.image, u.image))
  }

  /** `{ ...user, ...updates }` */
  function MergeUser(x: User, u: UserPatch): (r: User)
    ensures r.id == x.id && r.createdAt == x.createdAt
    ensures u.role.None? ==> r.role == x.role
    ensures u.password.None? ==> r.password == x.password
  {
    x.(name := Override(x.name, u.name),
       email := Override(x.email, u.email),
       password := Override(x.password, u.password),
       role := Override(x.role, u.role),
       smartCardNumber := OverrideOptional(x.smartCardNumber, u.smartCardNumber),
       city := OverrideOptional(x.city, u.city),
       contactNumber := OverrideOptional(x.contactNumber, u.contactNumber),
       aadharNumber := OverrideOptional(x.aadharNumber, u.aadharNumber))
  }

  /** Merging an empty patch yields the record unchanged. */
  lemma MergeNothing(p: Product, x: User)
    ensures MergeProduct(p, NoProductChanges) == p
    ensures MergeUser(x, NoUserChanges) == x
  {
  }

  /** Merging the same product patch twice is merging it once. */
  lemma MergeProductIdempotent(p: Product, pu: ProductPatch)
    ensures MergeProduct(MergeProduct(p, pu), pu) == MergeProduct(p, pu)
  {
  }

  /** Merging the same user patch twice is merging it once. */
  lemma MergeUserIdempotent(x: User, uu: UserPatch)
    ensures MergeUser(MergeUser(x, uu), uu) == MergeUser(x, uu)
  {
  }
}
