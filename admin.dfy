/** The admin dashboard component: its state hooks as fields, its event handlers
    as methods. Network replies and the confirmation dialog's answer are inputs. */
module Admin {
  import opened Records
  import opened Ids
  import opened Reconcile
  import opened Draft

  /** All the state the handlers read or write, at one instant. */
  datatype AdminState = AdminState(
    products: seq<Product>,
    users: seq<User>,
    newProduct: ProductFields,
    editingProduct: Option<Product>,
    productError: string,
    showProductModal: bool,
    newUser: UserFields,
    editingUser: Option<User>,
    showUserModal: bool)

  class AdminDashboard {
    var products: seq<Product>
    var users: seq<User>
    /** The product draft the form edits. */
    var newProduct: ProductFields
    /** None: the form creates a product; Some(p): it edits p. */
    var editingProduct: Option<Product>
    var productError: string
    var showProductModal: bool
    /** The user draft the form edits. */
    var newUser: UserFields
    var editingUser: Option<User>
    var showUserModal: bool

    function State(): AdminState
      reads this
    {
      AdminState(products, users, newProduct, editingProduct, productError,
                 showProductModal, newUser, editingUser, showUserModal)
    }

    /** The state on mount, before any fetch has answered. */
    constructor ()
      ensures State() == AdminState([], [], EmptyProductDraft, None, "", false,
                                    EmptyUserDraft, None, false)
    {
      products, users := [], [];
      newProduct, editingProduct := EmptyProductDraft, None;
      productError, showProductModal := "", false;
      newUser, editingUser, showUserModal := EmptyUserDraft, None, false;
    }

    /** The "Create Product" / "Update Product" button. A draft that fails
        validation sends nothing and only sets the error. A valid draft clears
        the error and is sent: as a PUT of the edited product, whose reply then
        replaces every entry with that id, or as a POST under a fresh id, whose
        reply is appended. A reply (`response` is Some) closes the form and
        resets the draft; a failed request (None) changes nothing more. */
    method SubmitProduct(response: Option<Product>) returns (sent: Request)
      requires editingProduct.None? && ValidateDraft(newProduct).None? ==> NumericIds(products)
      modifies this
      ensures var err := ValidateDraft(old(newProduct));
        err.Some? ==> sent == NoRequest && State() == old(State()).(productError := err.value)
      ensures ValidateDraft(old(newProduct)).None? && old(editingProduct).Some? ==>
        var id := old(editingProduct).value.id;
        sent == Put(id, Entry(id, old(newProduct))) &&
        State() == if response.None? then old(State()).(productError := "")
                   else old(State()).(products := ReplaceById(old(products), id, response.value),
                                      editingProduct := None, showProductModal := false,
                                      newProduct := EmptyProductDraft, productError := "")
      ensures ValidateDraft(old(newProduct)).None? && old(editingProduct).None? ==>
        sent == Post(Entry(NextId(old(products)), old(newProduct))) &&
        State() == if response.None? then old(State()).(productError := "")
                   else old(State()).(products := old(products) + [response.value],
                                      showProductModal := false,
                                      newProduct := EmptyProductDraft, productError := "")
    {
      productError := "";
      var err := ValidateDraft(newProduct);
      if err.Some? {
        productError := err.value;
        return NoRequest;
      }
      if editingProduct.Some? {
        var id := editingProduct.value.id;
        sent := Put(id, Entry(id, newProduct));
        if response.Some? {
          products := ReplaceById(products, id, response.value);
          editingProduct := None;
          showProductModal := false;
          ResetNewProduct();
        }
      } else {
        var newId := NextId(products);
        sent := Post(Entry(newId, newProduct));
        if response.Some? {
          products := products + [response.value];
          showProductModal := false;
          ResetNewProduct();
        }
      }
    }

    /** Puts the product draft back to its defaults. */
    method ResetNewProduct()
      modifies this
      ensures State() == old(State()).(newProduct := EmptyProductDraft)
    {
      newProduct := EmptyProductDraft;
    }

    /** The "Create Product" button: create mode, empty draft, form open. */
    method BeginCreateProduct()
      modifies this
      ensures State() == old(State()).(editingProduct := None, newProduct := EmptyProductDraft,
                                       showProductModal := true)
    {
      editingProduct := None;
      ResetNewProduct();
      showProductModal := true;
    }

    /** A product's "Edit" button: edit mode on `product`, its fields as the draft. */
    method EditProduct(product: Product)
      modifies this
      ensures State() == old(State()).(editingProduct := Some(product), newProduct := product.fields,
                                       showProductModal := true)
    {
      editingProduct := Some(product);
      newProduct := product.fields;
      showProductModal := true;
    }

    /** A user's "Edit" button: edit mode on `user`, its fields as the draft. */
    method EditUser(user: User)
      modifies this
      ensures State() == old(State()).(editingUser := Some(user), newUser := user.fields,
                                       showUserModal := true)
    {
      editingUser := Some(user);
      newUser := user.fields;
      showUserModal := true;
    }

    /** A product's "Delete" button. A refused confirmation sends nothing; a
        confirmed delete that succeeds drops every entry with that id, one that
        fails leaves the list as it was. */
    method DeleteProduct(id: string, confirmed: bool, succeeded: bool) returns (sent: bool)
      modifies this
      ensures sent == confirmed
      ensures State() == if confirmed && succeeded
                         then old(State()).(products := RemoveById(old(products), id))
                         else old(State())
    {
      sent := confirmed;
      if confirmed && succeeded {
        products := RemoveById(products, id);
      }
    }

    /** A user's "Delete" button, with the same shape as DeleteProduct. */
    method DeleteUser(id: string, confirmed: bool, succeeded: bool) returns (sent: bool)
      modifies this
      ensures sent == confirmed
      ensures State() == if confirmed && succeeded
                         then old(State()).(users := RemoveById(old(users), id))
                         else old(State())
    {
      sent := confirmed;
      if confirmed && succeeded {
        users := RemoveById(users, id);
      }
    }

    /** "Add Image": a blank image with the next display index at the end. */
    method AddImage()
      modifies this
      ensures State() == old(State()).(newProduct := old(newProduct).(
                images := old(newProduct.images) + [NewImage(old(newProduct.images))]))
    {
      newProduct := newProduct.(images := newProduct.images + [NewImage(newProduct.images)]);
    }

    /** An image's "Remove" button: `splice(index, 1)` on a copy of the images. */
    method RemoveImage(index: int)
      modifies this
      ensures State() == old(State()).(newProduct := old(newProduct).(
                images := Splice(old(newProduct.images), index)))
    {
      newProduct := newProduct.(images := Splice(newProduct.images, index));
    }

    /** "Add Size": an empty size label at the end. */
    method AddSize()
      modifies this
      ensures State() == old(State()).(newProduct := old(newProduct).(
                sizes := old(newProduct.sizes) + [""]))
    {
      newProduct := newProduct.(sizes := newProduct.sizes + [""]);
    }

    /** A size's "Remove" button: `splice(index, 1)` on a copy of the sizes. */
    method RemoveSize(index: int)
      modifies this
      ensures State() == old(State()).(newProduct := old(newProduct).(
                sizes := Splice(old(newProduct.sizes), index)))
    {
      newProduct := newProduct.(sizes := Splice(newProduct.sizes, index));
    }

    /** Typing in an image's URL box: copy the images, rename the one at `index`. */
    method ChangeImageUrl(index: int, value: string)
      requires 0 <= index < |newProduct.images|
      modifies this
      ensures var imgs := old(newProduct.images);
        State() == old(State()).(newProduct := old(newProduct).(
          images := imgs[index := imgs[index].(name := value)]))
    {
      var images := newProduct.images;
      var updated := new Image[|images|](i requires 0 <= i < |images| => images[i]);
      updated[index] := updated[index].(name := value);
      newProduct := newProduct.(images := updated[..]);
    }

    /** Typing in a size's box: copy the sizes, overwrite the one at `index`. */
    method ChangeSize(index: int, value: string)
      requires 0 <= index < |newProduct.sizes|
      modifies this
      ensures State() == old(State()).(newProduct := old(newProduct).(
                sizes := old(newProduct.sizes)[index := value]))
    {
      var sizes := newProduct.sizes;
      var updated := new string[|sizes|](i requires 0 <= i < |sizes| => sizes[i]);
      updated[index] := value;
      newProduct := newProduct.(sizes := updated[..]);
    }

    /** The name box. */
    method SetProductName(name: string)
      modifies this
      ensures State() == old(State()).(newProduct := old(newProduct).(name := name))
    {
      newProduct := newProduct.(name := name);
    }

    /** The price box, given the number `parseFloat` read from it. */
    method SetProductPrice(price: real)
      modifies this
      ensures State() == old(State()).(newProduct := old(newProduct).(price := Amount(price)))
    {
      newProduct := newProduct.(price := Amount(price));
    }

    /** The category select; "" is its "Select category" entry. */
    method SetProductCategory(cid: string)
      modifies this
      ensures State() == old(State()).(newProduct := old(newProduct).(cid := cid))
    {
      newProduct := newProduct.(cid := cid);
    }

    /** The "Active" check box. */
    method SetProductStatus(status: bool)
      modifies this
      ensures State() == old(State()).(newProduct := old(newProduct).(status := status))
    {
      newProduct := newProduct.(status := status);
    }

    /** Closing the product form: the draft and the mode stay as they are. */
    method HideProductModal()
      modifies this
      ensures State() == old(State()).(showProductModal := false)
    {
      showProductModal := false;
    }
  }
}
