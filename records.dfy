/** The records the storefront stores and passes around (the declarations under src/types). */
module Records {
  import opened Common

  /** A cart line: a product snapshot plus its quantity. `price` is carried along
      and never computed with. */
  datatype Item = Item(id: int, title: string, price: real, image: string, quantity: int)

  /** A user record. The registry entries, the auth payloads and the
      `currentUser` entry are all of this shape; fields a writer omits are `None`. */
  datatype User = User(
    userId: Option<string>,
    firstName: string,
    lastName: Option<string>,
    username: string,
    password: Option<string>,
    email: string,
    address: Option<string>)

  /** The `auth` cookie: its value and its `max-age` attribute (`None`: a session cookie). */
  datatype Cookie = Cookie(value: string, maxAge: Option<int>)
}
