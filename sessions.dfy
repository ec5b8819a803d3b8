/** The sessions controller: log a user in by email and password and hand
    back a token whose subject is the user's id. It only reads the table. */
module Sessions {
  import opened Domain

  /** The JSON body of `POST /sessions`; an absent field is `None`. */
  datatype Credentials = Credentials(email: Option<string>, password: Option<string>)

  /** A signed JWT, reduced to the subject `sign` is given (the secret and
      the expiry come from configuration and are not modelled). */
  datatype Token = Token(subject: Id)

  datatype Session = Session(user: PublicUser, token: Token)

  /** `findUnique({ where: { email } })`, relying on the unique constraint. */
  function FindByEmail(users: map<Id, User>, email: string): (r: Option<User>)
    requires EmailsUnique(users)
    ensures r.Some? <==> EmailTaken(users, email)
    ensures r.Some? ==> exists id | id in users :: users[id] == r.value && r.value.email == email
  {
    if EmailTaken(users, email) then
      var id :| id in users && users[id].email == email;
      Some(users[id])
    else
      None
  }

  /** `sessionsController`. `compare` stands for bcrypt's `compare`, and
      `lookupOk` for whether the database query completes. An absent email
      makes the query throw, an absent password makes `compare` throw: both
      end in the catch-all 500. */
  function Login(users: map<Id, User>, c: Credentials, compare: (string, string) -> bool, lookupOk: bool)
    : (r: Response<Session>)
    requires EmailsUnique(users)
    ensures c.email.None? || !lookupOk ==> r == Response(500, Message(ServerError))
    // an unknown email is refused with 401 and the shared message
    ensures c.email.Some? && lookupOk && !EmailTaken(users, c.email.value) ==>
              r == Response(401, Message(WrongCredentials))
    // a known email without a password: `compare` throws, 500
    ensures c.email.Some? && lookupOk && EmailTaken(users, c.email.value) && c.password.None? ==>
              r == Response(500, Message(ServerError))
    // success exactly when a user has that email and the password matches its hash
    ensures r.status == 200 <==>
              && c.email.Some? && c.password.Some? && lookupOk
              && exists id | id in users :: users[id].email == c.email.value
                                            && compare(c.password.value, users[id].password)
    // on success: the user without its password, and a token for that user's id
    ensures r.status == 200 ==>
              exists id | id in users ::
                && users[id].email == c.email.value
                && r.body == Json(Session(WithoutPassword(users[id]), Token(users[id].id)))
    ensures r.status in {200, 401, 500}
  {
    if c.email.None? || !lookupOk then
      Response(500, Message(ServerError))
    else
      match FindByEmail(users, c.email.value)
      case None => Response(401, Message(WrongCredentials))
      case Some(user) =>
        if c.password.None? then Response(500, Message(ServerError))
        else if !compare(c.password.value, user.password) then Response(401, Message(WrongCredentials))
        else Response(200, Json(Session(WithoutPassword(user), Token(user.id))))
  }

  /** A known email with a wrong password gets exactly the answer an unknown
      email gets, so the response does not reveal which emails are registered. */
  lemma FailedLoginsIndistinguishable(users: map<Id, User>, unknown: Credentials, wrong: Credentials,
                                      compare: (string, string) -> bool)
    requires EmailsUnique(users)
    requires unknown.email.Some? && !EmailTaken(users, unknown.email.value)
    requires wrong.email.Some? && wrong.password.Some? && EmailTaken(users, wrong.email.value)
    requires forall id | id in users && users[id].email == wrong.email.value ::
               !compare(wrong.password.value, users[id].password)
    ensures Login(users, wrong, compare, true) == Login(users, unknown, compare, true)
    ensures Login(users, wrong, compare, true) == Response(401, Message(WrongCredentials))
  {
  }
}
