/** The signed-in user as the auth session reports it (`getKindeServerSession().getUser()`).
    The session call itself is outside the model: its answer is passed in. */
module Session {
  import opened Wrappers

  datatype KindeUser = KindeUser(id: Option<string>)

  /** `!user || !user.id`: no user, or a user whose id is missing or empty (falsy). */
  predicate Unauthenticated(user: Option<KindeUser>) {
    user.None? || user.value.id.None? || user.value.id.value == ""
  }

  /** The id of an authenticated user. */
  function UserId(user: Option<KindeUser>): (id: string)
    requires !Unauthenticated(user)
    ensures id != "" && user.value.id == Some(id)
  {
    user.value.id.value
  }
}
