/** The user whose portfolio is generated: an immutable record of four
    free-form strings. No field is validated or escaped. */
module Users {

  /** The four fields are set once by the constructor; the destructors
      `name`, `email`, `phoneNumber` and `address` are the getters. */
  datatype User = User(name: string, email: string, phoneNumber: string, address: string)

  /** Each getter returns exactly the argument the constructor was given,
      and a user is determined by its four getters. */
  lemma GettersReturnArguments(name: string, email: string, phoneNumber: string, address: string, other: User)
    ensures User(name, email, phoneNumber, address).name == name
    ensures User(name, email, phoneNumber, address).email == email
    ensures User(name, email, phoneNumber, address).phoneNumber == phoneNumber
    ensures User(name, email, phoneNumber, address).address == address
    ensures other == User(name, email, phoneNumber, address) <==>
      other.name == name && other.email == email && other.phoneNumber == phoneNumber && other.address == address
  {
  }
}
