/** Shared vocabulary of the reminder service: the rows of the two database
    tables, the jobs of the delay queue, the mails handed to the transport,
    HTTP responses, and the `Backend` object that holds all of that state. */
module Domain {

  datatype Option<+T> = None | Some(value: T)

  /** Primary keys. They are strings because the login controller puts a
      user's id into a JWT as its subject, and a JWT subject is a string. */
  type Id = string

  /** The three values the reminder `status` column takes. */
  datatype Status = Agendado | Enviado | Erro

  datatype Reminder = Reminder(id: Id, message: string, notificationDate: int, status: Status)

  /** A user row; `password` holds the bcrypt hash, never the plaintext. */
  datatype User = User(id: Id, name: string, email: string, password: string)

  /** What the controllers send back for a user: every column but the password. */
  datatype PublicUser = PublicUser(id: Id, name: string, email: string)

  function WithoutPassword(u: User): PublicUser
  {
    PublicUser(u.id, u.name, u.email)
  }

  /** A queue entry: its name, its payload `{reminderId}` and its delay in milliseconds. */
  datatype Job = Job(name: string, reminderId: Id, delay: nat)

  /** A mail handed to the transport (the HTML body is not modelled). */
  datatype Mail = Mail(from: string, to: string, subject: string)

  /** JavaScript truthiness of an optional string field: absent and "" are
      both falsy. */
  predicate Truthy(field: Option<string>)
  {
    field.Some? && field.value != ""
  }

  /** The fixed `{ message }` texts the service answers with; `Text` gives
      the string each one renders as in the JSON body. */
  datatype Notice =
    | RemindersRequired      // createReminder, missing message or date
    | InvalidDateFormat      // createReminder, unparsable date
    | ServerError            // createReminder, getReminders, sessions: catch-all
    | UserFieldsRequired     // createUser, missing name, email or password
    | EmailInUse             // createUser, email already registered
    | UserCreationFailed     // createUser: catch-all
    | WrongCredentials       // sessions: unknown email or wrong password
    | TokenMissing           // authMiddleware: no Authorization header
    | TokenInvalid           // authMiddleware: any verification failure

  function Text(n: Notice): string
  {
    match n
    case RemindersRequired => "Mensagem e data/hora de notificação são obrigatórios."
    case InvalidDateFormat => "Formato de data/hora de notificação inválido."
    case ServerError => "Erro interno do servidor."
    case UserFieldsRequired => "Nome, e-mail e senha são obrigatórios."
    case EmailInUse => "Este e-mail já está em uso."
    case UserCreationFailed => "Erro interno ao criar usuário."
    case WrongCredentials => "E-mail e/ou senha incorretos"
    case TokenMissing => "Token não fornecido."
    case TokenInvalid => "Token inválido."
  }

  /** A JSON response body: either `{ message: Text(notice) }` or the returned data. */
  datatype Body<+T> = Message(notice: Notice) | Json(value: T)

  datatype Response<+T> = Response(status: int, body: Body<T>)

  /** A snapshot of everything the service keeps outside a request: the
      reminder and user tables, the delay queue, the mails sent so far, and the
      counter behind the id allocator. */
  datatype World = World(
    reminders: map<Id, Reminder>,
    users: map<Id, User>,
    queue: seq<Job>,
    outbox: seq<Mail>,
    nextId: nat)

  /** A world after a controller ran, with the response it gave. */
  datatype Step<+T> = Step(world: World, response: Response<T>)

  /** The database's unique constraint on `User.email`. */
  ghost predicate EmailsUnique(users: map<Id, User>)
  {
    forall a, b | a in users && b in users && users[a].email == users[b].email :: a == b
  }

  /** Every queued job names an id the allocator has already handed out,
      and no two jobs name the same reminder. */
  ghost predicate OneJobPerReminder(w: World)
  {
    && (forall i | 0 <= i < |w.queue| :: |w.queue[i].reminderId| <= w.nextId)
    && (forall i, j | 0 <= i < j < |w.queue| :: w.queue[i].reminderId != w.queue[j].reminderId)
  }

  /** The world invariant: every row sits under its own id, no id is longer
      than the allocator counter, emails are unique, and each reminder has at
      most one job. */
  ghost predicate Consistent(w: World)
  {
    && (forall id | id in w.reminders :: w.reminders[id].id == id && |id| <= w.nextId)
    && (forall id | id in w.users :: w.users[id].id == id && |id| <= w.nextId)
    && EmailsUnique(w.users)
    && OneJobPerReminder(w)
  }

  /** The id the database hands out next. The model only needs it to differ
      from every id in use: the n-th id is n+1 characters long. */
  function NewId(n: nat): (id: Id)
    ensures |id| == n + 1
  {
    if n == 0 then "#" else NewId(n - 1) + "#"
  }

  /** Inserts a reminder row under the id the allocator hands out next. */
  function InsertReminder(w: World, message: string, notificationDate: int, status: Status): (w': World)
    requires Consistent(w)
    ensures Consistent(w')
    ensures NewId(w.nextId) !in w.reminders
    ensures w'.reminders == w.reminders[NewId(w.nextId) := Reminder(NewId(w.nextId), message, notificationDate, status)]
    ensures w'.users == w.users && w'.queue == w.queue && w'.outbox == w.outbox
    ensures w'.nextId == w.nextId + 1
  {
    var id := NewId(w.nextId);
    w.(reminders := w.reminders[id := Reminder(id, message, notificationDate, status)], nextId := w.nextId + 1)
  }

  /** Whether some user already has this email. */
  predicate EmailTaken(users: map<Id, User>, email: string)
  {
    exists id | id in users :: users[id].email == email
  }

  /** Inserts a user row under the id the allocator hands out next; the
      caller has checked that the email is not taken. */
  function InsertUser(w: World, name: string, email: string, password: string): (w': World)
    requires Consistent(w)
    requires !EmailTaken(w.users, email)
    ensures Consistent(w')
    ensures NewId(w.nextId) !in w.users
    ensures w'.users == w.users[NewId(w.nextId) := User(NewId(w.nextId), name, email, password)]
    ensures w'.reminders == w.reminders && w'.queue == w.queue && w'.outbox == w.outbox
  {
    var id := NewId(w.nextId);
    w.(users := w.users[id := User(id, name, email, password)], nextId := w.nextId + 1)
  }

  /** The Prisma client, the BullMQ queue and the mail transport together:
      every piece of state that the controllers and the worker change in place. */
  class Backend {
    var reminders: map<Id, Reminder>
    var users: map<Id, User>
    var queue: seq<Job>
    var outbox: seq<Mail>
    var nextId: nat

    ghost function State(): World
      reads this
    {
      World(reminders, users, queue, outbox, nextId)
    }

    ghost predicate Valid()
      reads this
    {
      Consistent(State())
    }

    constructor ()
      ensures Valid()
      ensures State() == World(map[], map[], [], [], 0)
    {
      reminders, users, queue, outbox, nextId := map[], map[], [], [], 0;
    }
  }
}
