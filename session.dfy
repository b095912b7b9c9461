/** The cached answer of the session check, as both the router and the header read it. */
module Session {
  import opened Wrappers

  datatype User = User(id: string, username: string)

  datatype SessionResponse = SessionResponse(authenticated: bool, user: Option<User>)
}
