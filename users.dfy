/** The users controller: `createUser` registers a user under an email no
    other user has, storing only the bcrypt hash of the password. */
module Users {
  import opened Domain

  /** The JSON body of `POST /users`; an absent field is `None`. */
  datatype UserRequest = UserRequest(name: Option<string>, email: Option<string>, password: Option<string>)

  /** Whether the email lookup and the hash-then-insert complete or throw. */
  datatype RegisterFaults = RegisterFaults(lookupOk: bool, insertOk: bool)

  /** The bcrypt cost factor the controller passes to `hash`. */
  const SaltRounds := 8

  predicate Complete(req: UserRequest)
  {
    Truthy(req.name) && Truthy(req.email) && Truthy(req.password)
  }

  /** `createUser` on a world snapshot; `hash` stands for bcrypt's `hash`. */
  function RegisterStep(w: World, req: UserRequest, hash: (string, nat) -> string, f: RegisterFaults)
    : (r: Step<PublicUser>)
    requires Consistent(w)
    ensures Consistent(r.world)
    ensures r.world.reminders == w.reminders && r.world.queue == w.queue && r.world.outbox == w.outbox
    // any answer but 201 leaves the user table as it was
    ensures r.response.status != 201 ==> r.world.users == w.users
    ensures r.response.status == 201 <==> |r.world.users| == |w.users| + 1
  {
    if !Complete(req) then
      Step(w, Response(400, Message(UserFieldsRequired)))
    else if !f.lookupOk then
      Step(w, Response(500, Message(UserCreationFailed)))
    else if EmailTaken(w.users, req.email.value) then
      Step(w, Response(409, Message(EmailInUse)))
    else if !f.insertOk then
      Step(w, Response(500, Message(UserCreationFailed)))
    else
      var hashed := hash(req.password.value, SaltRounds);
      var w' := InsertUser(w, req.name.value, req.email.value, hashed);
      var id := NewId(w.nextId);
      Step(w', Response(201, Json(WithoutPassword(w'.users[id]))))
  }

  /** A request missing a field is answered 400; an email already in use is
      answered 409; either way the user table is unchanged. */
  lemma RejectedRegistrationChangesNothing(w: World, req: UserRequest, hash: (string, nat) -> string,
                                           f: RegisterFaults)
    requires Consistent(w)
    ensures !Complete(req) ==>
              RegisterStep(w, req, hash, f) == Step(w, Response(400, Message(UserFieldsRequired)))
    ensures Complete(req) && f.lookupOk && EmailTaken(w.users, req.email.value) ==>
              RegisterStep(w, req, hash, f) == Step(w, Response(409, Message(EmailInUse)))
  {
  }

  /** A lookup that throws, or a hash or insert that throws, lands in the
      catch-all: 500 with the generic creation-failure message, and the user
      table is unchanged. */
  lemma FailedQueryAnswersServerError(w: World, req: UserRequest, hash: (string, nat) -> string,
                                      f: RegisterFaults)
    requires Consistent(w)
    ensures Complete(req) && !f.lookupOk ==>
              RegisterStep(w, req, hash, f) == Step(w, Response(500, Message(UserCreationFailed)))
    ensures Complete(req) && f.lookupOk && !EmailTaken(w.users, req.email.value) && !f.insertOk ==>
              RegisterStep(w, req, hash, f) == Step(w, Response(500, Message(UserCreationFailed)))
  {
  }

  /** A complete request with an unused email adds exactly one user, whose
      stored password is `hash(password, 8)`, and answers 201 with that user
      minus its password. */
  lemma AcceptedRegistrationStoresHash(w: World, req: UserRequest, hash: (string, nat) -> string,
                                       f: RegisterFaults)
    requires Consistent(w)
    requires Complete(req) && f.lookupOk && f.insertOk && !EmailTaken(w.users, req.email.value)
    ensures var id := NewId(w.nextId);
            var stored := User(id, req.name.value, req.email.value, hash(req.password.value, SaltRounds));
            var r := RegisterStep(w, req, hash, f);
            && id !in w.users
            && r.world.users == w.users[id := stored]
            && r.response == Response(201, Json(PublicUser(id, req.name.value, req.email.value)))
  {
  }

  /** The controller run once per request, in sequence. */
  function RegisterEach(w: World, reqs: seq<UserRequest>, hash: (string, nat) -> string,
                        fs: seq<RegisterFaults>): World
    requires Consistent(w)
    requires |fs| == |reqs|
    decreases |reqs|
  {
    if reqs == [] then w
    else RegisterEach(RegisterStep(w, reqs[0], hash, fs[0]).world, reqs[1..], hash, fs[1..])
  }

  /** Across any sequence of registrations, no two users share an email, and
      the table only grows. */
  lemma {:induction false} RegistrationsKeepEmailsUnique(w: World, reqs: seq<UserRequest>,
                                                         hash: (string, nat) -> string, fs: seq<RegisterFaults>)
    requires Consistent(w)
    requires |fs| == |reqs|
    ensures EmailsUnique(RegisterEach(w, reqs, hash, fs).users)
    ensures w.users.Keys <= RegisterEach(w, reqs, hash, fs).users.Keys
    decreases |reqs|
  {
    if reqs != [] {
      var next := RegisterStep(w, reqs[0], hash, fs[0]).world;
      RegistrationsKeepEmailsUnique(next, reqs[1..], hash, fs[1..]);
    }
  }

  /** `createUser`: validate, look the email up, hash, insert, answer
      without the password. */
  method CreateUser(db: Backend, req: UserRequest, hash: (string, nat) -> string, f: RegisterFaults)
    returns (res: Response<PublicUser>)
    requires db.Valid()
    modifies db
    ensures db.Valid()
    ensures Step(db.State(), res) == RegisterStep(old(db.State()), req, hash, f)
  {
    if !Complete(req) {
      return Response(400, Message(UserFieldsRequired));
    }
    if !f.lookupOk {
      return Response(500, Message(UserCreationFailed));
    }
    var userExists := exists id | id in db.users :: db.users[id].email == req.email.value;
    if userExists {
      return Response(409, Message(EmailInUse));
    }
    if !f.insertOk {
      return Response(500, Message(UserCreationFailed));
    }
    var hashedPassword := hash(req.password.value, SaltRounds);
    var id := NewId(db.nextId);
    var user := User(id, req.name.value, req.email.value, hashedPassword);
    ghost var inserted := InsertUser(db.State(), user.name, user.email, user.password);
    db.users := db.users[id := user];
    db.nextId := db.nextId + 1;
    assert db.State() == inserted;
    return Response(201, Json(WithoutPassword(user)));
  }
}
