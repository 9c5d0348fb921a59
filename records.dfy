// The two records the core passes around: the ticket being answered and the
// customer profile returned by the public user API. Both are plain JSON
// objects in the source; every field the core reads through `||` is a string
// here, with the empty string standing for a missing or empty field.

module Records {

  /** { email, subject, description } as the controller assembles it. */
  datatype Ticket = Ticket(email: string, subject: string, description: string)

  /** The profile fields the core reads: `id`, `name`, `email`, `company.name`
      and `address.city`. */
  datatype Profile = Profile(id: int, name: string, email: string, companyName: string, city: string)
}
