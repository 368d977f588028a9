/** The two record types of the API and their Go zero values. */
module Records {

  datatype Option<T> = None | Some(value: T)

  /** A user record; every field is a plain string. */
  datatype User = User(id: string, name: string, email: string, password: string)

  /** A post record. The owner is a pointer in Go (`*User`), so it can be
      nil: here None. */
  datatype Post = Post(id: string, caption: string, imageURL: string, user: Option<User>)

  /** `User{}`: every field empty. */
  const ZeroUser := User("", "", "", "")

  /** `Post{}`: every field empty and the owner nil. */
  const ZeroPost := Post("", "", "", None)
}
