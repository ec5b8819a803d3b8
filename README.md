# reminders-api, modelled in Dafny

A small reminder service written in TypeScript on Express, Prisma, BullMQ and
nodemailer. A client posts a reminder (a message and a notification time).
The controller stores it with status `AGENDADO` ("scheduled") and puts one
`send-notification` job on a delay queue. The job carries only the reminder id
and a delay of `max(0, notificationDate - now)` milliseconds. When the job
fires, the worker reloads the reminder and skips it unless it is still
`AGENDADO`. Otherwise it mails it and records `ENVIADO` ("sent"). If anything
throws on the way, it records `ERRO` ("error"). Around this sit user
registration, login with a JWT, and a middleware that checks the bearer token.

The model keeps the database tables, the queue and the outbox of sent mails as
in-memory state:

- `domain.dfy` (module `Domain`): the rows, jobs, mails and responses. A
  response message is a `Notice`, and `Text` gives the Portuguese string it
  renders as. It also
  holds the `World` snapshot of all state, the `Consistent` invariant (rows
  under their own id, fresh ids, unique emails, at most one queued job per
  reminder) and the `Backend` class. That
  class holds the same state as fields that the operations update in place.
- `reminders.dfy` (`Reminders`): `createReminder` and `getReminders`.
- `worker.dfy` (`Worker`): the job handler, the mail subject, and the
  redelivery lemmas.
- `users.dfy` (`Users`): `createUser`.
- `sessions.dfy` (`Sessions`): the login controller, a pure function.
- `auth.dfy` (`Auth`): `authMiddleware`, the header split and the request
  object it updates.

Each operation that changes state comes in two forms. A method that takes the
`Backend` runs it step by step. A function on `World` gives the new state and the
response. Each method's `ensures` says that it ends in exactly the state and
response the function gives. The lemmas state what the source promises about
the functions.

Library calls are parameters:

- date parsing: `string -> Option<int>`, in milliseconds;
- bcrypt `hash` and `compare`: functions;
- JWT `verify`: `string -> Option<Claims>`;
- the current time: an `int`;
- database, queue and mail failures: records of booleans, each saying whether
  one call completes or throws.

Primary keys are strings, because the login controller uses a user's id as the
JWT subject. New keys come from a counter in the state. The n-th key is n+1
characters long, so it differs from every key handed out before.

Four behaviours of the code are worth stating explicitly:

- A notification time in the past is accepted and scheduled with delay 0. It is
  not refused with 400.
- Reminders and their listing are not scoped by user.
- When the final `ERRO` write throws, the handler's promise rejects and the job
  fails (`Failed`). Nothing else happens.
- If the reload itself throws, the catch block writes `ERRO` whatever the status
  was. So a reminder that is already `ENVIADO` can end as `ERRO`
  (`FailedReloadOverwritesSent`). "Terminal states are never left" therefore
  holds only when the reload succeeds (`OnlyScheduledRemindersMove`).

## Model

| member | source | states |
|---|---|---|
| `Domain.InsertReminder` | src/controllers/remindersController.ts:38-43 | an insert puts exactly one row under an id not in use, leaves the other tables alone and keeps the world consistent |
| `Domain.InsertUser` | src/controllers/usersController.ts:31-37 | inserting a user whose email is unused adds exactly one row under a fresh id and keeps emails unique |
| `Reminders.Delay` | src/controllers/remindersController.ts:45-50 | the delay is never negative, is at least the time remaining, is either zero or exactly that time, and is zero exactly when the time has passed |
| `Reminders.CreateReminderStep` | src/controllers/remindersController.ts:17-60 | creation keeps the world consistent (so no reminder ever gets a second queued job), changes only the reminder table and the queue, adds at most one job, and adds one exactly when it answers 201 |
| `Reminders.RejectedRequestChangesNothing` | src/controllers/remindersController.ts:22-36 | a missing or empty message or date, or a date that does not parse, gives 400 with its own message, and the table and queue are unchanged |
| `Reminders.AcceptedRequestStoresAndSchedules` | src/controllers/remindersController.ts:38-58 | a valid request stores one AGENDADO reminder with the given message and parsed date under a fresh id; then either one `send-notification` job with that id and the clamped delay is queued and the answer is 201 with the reminder, or the enqueue throws, the reminder stays stored with no job, and the answer is 500; if the insert throws, nothing changes and the answer is 500 |
| `Reminders.PastDateIsScheduledImmediately` | src/controllers/remindersController.ts:45-51 | a notification time already past is accepted with 201 and its job has delay 0 |
| `Reminders.CreateReminder` | src/controllers/remindersController.ts:17-60 | the imperative controller (insert, then enqueue, each possibly throwing) ends in exactly the state and response of `CreateReminderStep`, and keeps the invariant |
| `Reminders.GetReminders` | src/controllers/remindersController.ts:62-70 | the answer is 200 with exactly the stored reminders, or 500 when the query throws; nothing is modified |
| `Worker.Subject` | src/worker.ts:39 | the subject is "Seu lembrete: ", then the first min(20, length) characters of the message, then "..." |
| `Worker.ShortMessageQuotedWhole` | src/worker.ts:39 | a message of at most 20 characters appears whole in the subject |
| `Worker.Deliver` | src/worker.ts:15-68 | handling a job changes only the status of the job's own reminder (message, date, other rows, users and queue untouched) and appends at most one mail |
| `Worker.SettledJobIsSkipped` | src/worker.ts:22-31 | once the reload succeeds, when the reminder is absent or not AGENDADO, the job completes with no mail and no write |
| `Worker.ScheduledReminderDelivery` | src/worker.ts:33-66 | once the reload succeeds, for an AGENDADO reminder, one mail (sender, fixed test address, subject from the message) goes out exactly when the send succeeds; the status ends ENVIADO exactly when the send and the ENVIADO write succeed, and ERRO exactly when one of them throws and the ERRO write succeeds (so a delivered mail can end as ERRO); the job completes exactly when a final status was written |
| `Worker.OnlyScheduledRemindersMove` | src/worker.ts:26-55 | once the reload succeeds, the only transitions are AGENDADO to ENVIADO and AGENDADO to ERRO |
| `Worker.FailedReloadOverwritesSent` | src/worker.ts:20-66 | when the reload throws and the ERRO write succeeds, an ENVIADO reminder becomes ERRO and no mail is sent |
| `Worker.FailedReloadRecordsError` | src/worker.ts:20-66 | when the reload throws, no mail is sent; a present reminder of any status becomes ERRO and the job completes if the ERRO write succeeds; otherwise (reminder absent or write throws) nothing changes and the job fails |
| `Worker.CompletedRunSettles` | src/worker.ts:26-66 | after a run that completes, the reminder is absent or no longer AGENDADO |
| `Worker.SettledStaysSettled` | src/worker.ts:26-31 | a reminder that is absent or not AGENDADO stays so through another delivery, which sends no mail |
| `Worker.SettledRedeliveriesSendNothing` | src/worker.ts:22-31 | any number of further deliveries of a settled reminder's job send no mail |
| `Worker.RedeliverySendsAtMostOnce` | src/worker.ts:15-68 | processing the same job repeatedly in sequence, with every run completing, sends at most one mail |
| `Worker.FailedWritesAllowSecondMail` | src/worker.ts:35-66 | when the mail goes out but both status writes throw, the job fails with the reminder still AGENDADO, and a redelivery mails it again |
| `Worker.CreatedReminderIsDelivered` | src/controllers/remindersController.ts:38-51 | a reminder created with nothing throwing, whose queued job is then handled with nothing throwing, is mailed once and ends ENVIADO |
| `Worker.DeliveryKeepsConsistent` | src/worker.ts:15-68 | handling a job keeps the world invariant: ids, emails and the queue are left as they were |
| `Worker.SendMail` | src/worker.ts:35-46 | sending appends exactly that mail to the outbox and changes nothing else |
| `Worker.WriteStatus` | src/worker.ts:52-55 | the status update of an existing row changes that row's status column and nothing else |
| `Worker.HandleJob` | src/worker.ts:15-68 | the imperative handler with its try/catch ends in exactly the state and job outcome of `Deliver`, and keeps the invariant |
| `Users.RegisterStep` | src/controllers/usersController.ts:11-46 | registration keeps the world consistent (emails unique), touches only the user table, leaves it unchanged on any answer but 201, and adds one user exactly when it answers 201; the 201 body is a `PublicUser`, a type with no password field |
| `Users.RejectedRegistrationChangesNothing` | src/controllers/usersController.ts:15-27 | a missing or empty name, email or password gives 400, and an email in use gives 409; the table is unchanged in both cases |
| `Users.FailedQueryAnswersServerError` | src/controllers/usersController.ts:21-44 | for a complete request, a throwing email lookup, or a throwing hash or insert after an unused email, gives 500 "Erro interno ao criar usuário." and leaves the world unchanged |
| `Users.AcceptedRegistrationStoresHash` | src/controllers/usersController.ts:29-41 | a complete request with an unused email adds exactly one user whose stored password is hash(password, 8), and answers 201 with that user minus its password |
| `Users.RegistrationsKeepEmailsUnique` | src/controllers/usersController.ts:21-37 | across any sequence of registrations, emails stay unique and no user disappears |
| `Users.CreateUser` | src/controllers/usersController.ts:11-46 | the imperative controller ends in exactly the state and response of `RegisterStep`, and keeps the invariant |
| `Sessions.FindByEmail` | src/controllers/sessionsController.ts:17 | the lookup finds a user exactly when one has that email, and returns that stored row |
| `Sessions.Login` | src/controllers/sessionsController.ts:13-47 | an unknown email gives 401 "E-mail e/ou senha incorretos"; the answer is 200 exactly when a user has the email and the password matches its hash, and then carries that user without its password and a token whose subject is its id; a missing email or a failing query gives 500, and so does a missing password when the email is known; the user returned is a `PublicUser`, a type with no password field; the answer is always 200, 401 or 500, and the table is only read |
| `Sessions.FailedLoginsIndistinguishable` | src/controllers/sessionsController.ts:17-31 | a known email with a wrong password gets the very same 401 response as an unknown email |
| `Auth.Split` | src/middleware/authMiddleware.ts:19 | splitting gives at least one piece, exactly one when the separator does not occur, and no piece contains the separator |
| `Auth.JoinSplit` | src/middleware/authMiddleware.ts:19 | joining the pieces with the separator gives the header back |
| `Auth.SplitAfterFirst` | src/middleware/authMiddleware.ts:19 | a first piece without a separator splits off on its own |
| `Auth.BearerToken` | src/middleware/authMiddleware.ts:19 | there is a token exactly when the header contains a space, and it is the text between the first and the second space (or the end), so it contains no space; with `SchemeThenToken` and `SchemeTokenThenRest` this pins the second piece of the split |
| `Auth.SchemeTokenThenRest` | src/middleware/authMiddleware.ts:19 | a header `<scheme> <token> <rest>` yields exactly `token`: the second piece is taken whatever follows, and two spaces in a row give an empty token |
| `Auth.SchemeThenToken` | src/middleware/authMiddleware.ts:19 | a header `<scheme> <token>` yields exactly that token |
| `Auth.Authenticate` | src/middleware/authMiddleware.ts:11-40 | an absent or empty header gives 401 "Token não fornecido."; a header without a space gives 401 "Token inválido."; the request proceeds exactly when the second field verifies to a payload whose `sub` is a string, and then with that `sub` as the user id; every refusal is a 401 with one of the two messages, and once a header is present every refusal (no token, `verify` throwing, a non-string `sub`) is "Token inválido." |
| `Auth.AuthMiddleware` | src/middleware/authMiddleware.ts:6-41 | `next` is called and `req.user.id` set to the subject exactly when `Authenticate` proceeds; otherwise the 401 response is returned and `req.user` is left as it was |

## Left out

- BullMQ itself: delays elapsing in real time, durability, retries, stalled-job detection and concurrent workers. The queue is a sequence of jobs. Redelivery is covered only when it is sequential (`DeliverEach`).
- The Redis and nodemailer client configuration (src/lib/queue.ts, src/lib/mail.ts). The transport is an injected success-or-throw outcome.
- JavaScript `Date` parsing is the `parseDate` parameter. `toLocaleString` and the HTML body of the mail are not modelled. The mail keeps sender, recipient and subject.
- The `delay / 1000` in the log line, and all `console` output.
- `Worker.Subject`: JavaScript's `substring` counts UTF-16 code units. The model counts Dafny characters, so the two differ for characters outside the Basic Multilingual Plane.
- bcrypt and jsonwebtoken are parameters. bcrypt's random salt is folded into the `hash` function. The secret and the expiry of the token are not modelled.
- `Sessions.Login`: does not model `sign` throwing. With a string subject and the configured secret, it is treated as always succeeding.
- `Users.CreateUser`: a `hash` that throws is folded into the insert outcome (`insertOk`). Both lead to the same 500.
- JavaScript truthiness is modelled for absent and empty strings. A field sent with a non-string JSON value is not modelled.
- `Reminders.GetReminders`: returns the stored reminders as a set. The order in which `findMany` lists them is not modelled.
- The `createdAt`/`updatedAt` columns, and any column the Prisma schema adds beyond those used here. The schema is not part of this model. New reminders start as `AGENDADO`, which is what the worker's guard expects.
- `deleteReminder`, `patchReminder` and `getReminderById` are routed in src/routes/remindersRoutes.ts, but their bodies are not part of this model.
- Express routing and bootstrap (src/routes, src/index.ts).
