/** The admin dashboard of src/pages/admin/Dashboard.tsx: four count cards
    and the product table with its add/edit dialog and confirmed delete. */
module AdminDashboardPage {
  import opened Seqs
  import opened Types
  import opened Store
  import opened ViewUsersPage

  /** The four cards. */
  datatype Counts = Counts(products: nat, shopkeepers: nat, customers: nat, assignments: nat)

  /** Inventory size, shopkeeper and customer counts, ledger size; the two
      role counts cover the whole directory exactly when it holds no admin. */
  function Cards(products: seq<Product>, users: seq<User>, ledger: seq<Assignment>): (c: Counts)
    ensures c.products == |products| && c.assignments == |ledger|
    ensures c.shopkeepers == |Tabs(users).shopkeepers| && c.customers == |Tabs(users).customers|
    ensures c.shopkeepers + c.customers <= |users|
    ensures c.shopkeepers + c.customers == |users| <==> forall u :: u in users ==> u.role != Admin
  {
    var t := Tabs(users);
    var admins := WithRole(users, Admin);
    assert admins != [] ==> admins[0] in admins;
    Counts(|products|, |t.shopkeepers|, |t.customers|, |ledger|)
  }

  /** The product dialog; amounts are taken as already parsed. */
  datatype ProductForm = ProductForm(name: string, mrp: int, quantity: int, unit: string)

  const DefaultUnit := "kg"

  /** `openEditProductDialog`: the form starts from the product, an empty
      unit falling back to kilograms. */
  function EditPrefill(p: Product): (f: ProductForm)
    ensures f.name == p.name && f.mrp == p.mrp && f.quantity == p.quantity
    ensures p.unit != "" ==> f.unit == p.unit
    ensures p.unit == "" ==> f.unit == DefaultUnit
  {
    ProductForm(p.name, p.mrp, p.quantity, if p.unit != "" then p.unit else DefaultUnit)
  }

  /** The object both add and edit send: the form plus an empty image. */
  function ProductData(f: ProductForm): (d: ProductDraft)
    ensures d.image == Some("")
    ensures d.name == f.name && d.mrp == f.mrp && d.quantity == f.quantity && d.unit == f.unit
  {
    ProductDraft(f.name, f.mrp, f.quantity, f.unit, Some(""))
  }

  /** The same object read as a patch: every key is present. */
  function AsPatch(d: ProductDraft): (u: ProductPatch)
    ensures u.name == Some(d.name) && u.mrp == Some(d.mrp) && u.quantity == Some(d.quantity)
    ensures u.unit == Some(d.unit) && u.image == d.image
  {
    ProductPatch(Some(d.name), Some(d.mrp), Some(d.quantity), Some(d.unit), d.image)
  }

  /** Saving the same product edit twice leaves the inventory as saving it once. */
  lemma SaveTwiceSameAsOnce(products: seq<Product>, id: Id, f: ProductForm)
    ensures var patch := AsPatch(ProductData(f));
      UpdateProducts(UpdateProducts(products, id, patch), id, patch) == UpdateProducts(products, id, patch)
  {
    var patch := AsPatch(ProductData(f));
    var once := UpdateProducts(products, id, patch);
    var twice := UpdateProducts(once, id, patch);
    forall i | 0 <= i < |products| ensures twice[i] == once[i] {
      if products[i].id == id {
        MergeProductIdempotent(products[i], patch);
      }
    }
  }

  /** An edit replaces every field of the product it hits, and clears its image. */
  lemma EditReplacesFields(p: Product, f: ProductForm)
    ensures MergeProduct(p, AsPatch(ProductData(f)))
      == Product(p.id, f.name, f.mrp, f.quantity, f.unit, Some(""), p.createdAt)
  {
  }

  /** Saving the edit dialog unchanged only clears the image (and fills an
      empty unit with the default). */
  lemma UnchangedEditClearsImage(p: Product)
    ensures MergeProduct(p, AsPatch(ProductData(EditPrefill(p))))
      == p.(image := Some(""), unit := if p.unit != "" then p.unit else DefaultUnit)
  {
  }

  /** `handleProductSubmit`: with no product selected the form is added as a
      new product; otherwise it is merged into the selected id. */
  method SubmitProduct(store: AppStore, selected: Option<Product>, form: ProductForm, now: Time)
    modifies store`products
    ensures selected.None? ==>
      store.products == old(store.products) + [ProductFromDraft(ProductData(form), |old(store.products)| + 1, now)]
    ensures selected.Some? ==>
      store.products == UpdateProducts(old(store.products), selected.value.id, AsPatch(ProductData(form)))
  {
    var data := ProductData(form);
    if selected.Some? {
      store.UpdateProduct(selected.value.id, AsPatch(data));
    } else {
      store.AddProduct(data, now);
    }
  }

  /** `handleDeleteProduct`: the product goes only when the prompt is confirmed. */
  method ConfirmDeleteProduct(store: AppStore, id: Id, confirmed: bool)
    modifies store`products
    ensures confirmed ==> store.products == RemoveProducts(old(store.products), id)
    ensures !confirmed ==> store.products == old(store.products)
  {
    if confirmed {
      store.DeleteProduct(id);
    }
  }
}
