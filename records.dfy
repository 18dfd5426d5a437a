/** The records the admin dashboard holds in its state: products, users, their
    drafts, and the requests it sends to the backend. */
module Records {

  datatype Option<T> = None | Some(value: T)

  /** A product's price as the form holds it: the empty string (the `price === ''`
      test of the submit handler) or a number. */
  datatype Price = Blank | Amount(value: real)

  /** One image descriptor of a product: a display index and a name (its URL). */
  datatype Image = Image(id: int, name: string)

  /** The editable fields of a product; the product draft is a value of this type. */
  datatype ProductFields = ProductFields(
    name: string,
    price: Price,
    status: bool,
    images: seq<Image>,
    sizes: seq<string>,
    cid: string)

  /** The editable fields of a user; the user draft is a value of this type. */
  datatype UserFields = UserFields(
    fullName: string,
    email: string,
    password: string,
    address: string,
    phoneNumber: string,
    role: string)

  /** A record as the backend stores it: a string identifier and its fields. */
  datatype Entry<F> = Entry(id: string, fields: F)

  type Product = Entry<ProductFields>
  type User = Entry<UserFields>

  /** The product draft's defaults, set on mount and by every reset. */
  const EmptyProductDraft: ProductFields := ProductFields("", Amount(0.0), true, [], [], "")

  /** The user draft's defaults, set on mount. */
  const EmptyUserDraft: UserFields := UserFields("", "", "", "", "", "user")

  /** What a product submit sends: nothing, a PUT to /products/{id}, or a POST to /products. */
  datatype Request = NoRequest | Put(id: string, body: Product) | Post(body: Product)
}
