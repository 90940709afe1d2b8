/** The business listing as the backend returns it and the components read it. */
module Listing {
  import opened Wrappers

  /** A business listing. `description` and `images` may be missing from a response
      (they are read through `?.` or a truthiness test); the other text fields are
      strings, where an absent value and `""` are treated alike by the components. */
  datatype Business = Business(
    id: string,
    name: string,
    category: string,
    description: Option<string>,
    address: string,
    phone: string,
    email: string,
    website: string,
    logo: string,
    images: Option<seq<string>>,
    status: string)
}
