/** The records the storefront passes between its screens.  Prices, quantities
    and minimum order quantities are whole rupees and pieces; ratings are kept
    in integer tenths (4.2 stars is 42). */
module Types {

  datatype Option<T> = None | Some(value: T)

  /** A catalogue entry.  Catalogue entries are never changed at run time. */
  datatype Product = Product(
    id: string,
    name: string,
    price: int,
    originalPrice: int,
    moq: int,
    image: string,
    category: string,
    rating: int,
    supplier: string,
    discount: int,
    isNew: bool)

  /** One line of the shopping cart. */
  datatype CartItem = CartItem(
    id: string,
    name: string,
    price: int,
    quantity: int,
    moq: int,
    image: string,
    category: string)

  datatype AddressType = HomeAddress | OfficeAddress | OtherAddress

  /** The fields a user types into an address form; an empty landmark stands
      for "no landmark". */
  datatype AddressFields = AddressFields(
    name: string,
    phone: string,
    pincode: string,
    city: string,
    state: string,
    street: string,
    landmark: string,
    addressType: AddressType)

  /** A blank form; the address type starts at 'home'. */
  const EmptyForm: AddressFields := AddressFields("", "", "", "", "", "", "", HomeAddress)

  /** The six fields both address forms mark as required (the landmark is
      optional); a form with any of them empty cannot be submitted. */
  predicate RequiredFilled(f: AddressFields) {
    f.name != "" && f.phone != "" && f.pincode != "" && f.city != "" && f.state != "" && f.street != ""
  }

  /** An entry of the address book: form fields plus identity and default flag. */
  datatype Address = Address(id: string, fields: AddressFields, isDefault: bool)

  /** What the single "current address" slot of the device store may hold:
      the bare form written by onboarding, or a full address-book entry
      mirrored there by the address book. */
  datatype StoredAddress = Plain(form: AddressFields) | Saved(entry: Address)
  {
    function Fields(): AddressFields {
      match this
      case Plain(f) => f
      case Saved(a) => a.fields
    }
  }

  /** The device's key/value store.  Keys holding plain text ('isLoggedIn',
      'loginTime', 'userPhone') live in `text`; the two JSON-valued keys are
      kept decoded, 'userAddress' in `userAddress` and 'userAddresses' in
      `userAddresses` (None means the key is absent). */
  datatype Store = Store(
    text: map<string, string>,
    userAddress: Option<StoredAddress>,
    userAddresses: Option<seq<Address>>)
}
