/** The records that cross the slices: user identities, stored timestamps,
    comments and image files. All are plain values, copied into the state tree. */
module Entities {
  import opened Wrappers

  /** A signed-in user as the auth slice stores it, and as posts and comments
      embed it as an author snapshot. The identity provider may leave the name,
      the email and the photo URL null (None); the id is always present. */
  datatype User = User(id: string, name: Option<string>, email: Option<string>, photoUrl: Option<string>)

  /** A formatted calendar date such as "March 3, 2023". Formatting a real date
      never yields the empty string. */
  type DateText = s: string | s != "" witness "January 1, 1970"

  /** The `toDate` member of a stored value: absent, present but not a function,
      or the document store's conversion, whose locale formatting is opaque here. */
  datatype ToDate = NoMember | NotCallable | Callable(formatted: DateText)

  /** A value stored in a date field: a falsy value (null, undefined, ""), a
      string, or an object with a possible `toDate` member (a store timestamp). */
  datatype Stamp = Falsy | Str(s: string) | Obj(toDate: ToDate)

  /** A comment embedded in a post. Its author is whoever was signed in when it
      was written, possibly nobody. */
  datatype Comment = Comment(author: Option<User>, body: string, published: Stamp)

  /** An image file picked in the form; only its name matters to the client. */
  datatype File = File(name: string)
}
