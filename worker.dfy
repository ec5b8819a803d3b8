/** The queue worker: for each `send-notification` job it reloads the
    reminder, skips it unless it is still AGENDADO, mails it, and records
    ENVIADO, or ERRO when anything in between throws. */
module Worker {
  import opened Domain
  import Reminders

  const Sender := "Lembretes App <lembretes@app.com>"
  const Recipient := "usuario-teste@email.com"
  const SubjectPrefix := "Seu lembrete: "

  /** How much of the message the subject quotes. */
  const SubjectQuote := 20

  function Min(a: int, b: int): int
  {
    if a <= b then a else b
  }

  /** The mail subject: the fixed prefix, the first twenty characters of the
      message (all of it when shorter), then an ellipsis. */
  function Subject(message: string): (s: string)
    ensures |s| == |SubjectPrefix| + Min(SubjectQuote, |message|) + 3
    ensures s[..|SubjectPrefix|] == SubjectPrefix
    ensures s[|s| - 3..] == "..."
    ensures forall i | 0 <= i < Min(SubjectQuote, |message|) :: s[|SubjectPrefix| + i] == message[i]
  {
    SubjectPrefix + message[..Min(SubjectQuote, |message|)] + "..."
  }

  /** A message of at most twenty characters appears whole in the subject. */
  lemma ShortMessageQuotedWhole(message: string)
    requires |message| <= SubjectQuote
    ensures Subject(message) == SubjectPrefix + message + "..."
  {
  }

  /** Which of the worker's library calls complete and which throw: the
      reload, the mail transport, the ENVIADO write and the ERRO write. */
  datatype DeliveryFaults = DeliveryFaults(findOk: bool, sendOk: bool, sentWriteOk: bool, errorWriteOk: bool)

  /** No call throws. */
  const Smooth := DeliveryFaults(true, true, true, true)

  /** How the job ends for the queue: the handler returned, or it threw. */
  datatype JobOutcome = Completed | Failed

  datatype Run = Run(world: World, outcome: JobOutcome)

  /** The `update` of one reminder's status column. */
  function SetStatus(w: World, id: Id, s: Status): World
    requires id in w.reminders
  {
    w.(reminders := w.reminders[id := w.reminders[id].(status := s)])
  }

  /** The catch block: write ERRO. The write throws when the row is gone,
      and then the job itself fails with nothing changed. */
  function RecordError(w: World, id: Id, f: DeliveryFaults): Run
  {
    if id in w.reminders && f.errorWriteOk then Run(SetStatus(w, id, Erro), Completed)
    else Run(w, Failed)
  }

  /** The job handler on a world snapshot. */
  function Deliver(w: World, job: Job, f: DeliveryFaults): (r: Run)
    // only the status column of the job's own reminder can change ...
    ensures r.world.users == w.users && r.world.queue == w.queue && r.world.nextId == w.nextId
    ensures r.world.reminders.Keys == w.reminders.Keys
    ensures forall id | id in w.reminders ::
              r.world.reminders[id] == w.reminders[id].(status := r.world.reminders[id].status)
    ensures forall id | id in w.reminders && id != job.reminderId :: r.world.reminders[id] == w.reminders[id]
    // ... and at most one mail is added
    ensures |w.outbox| <= |r.world.outbox| <= |w.outbox| + 1
    ensures r.world.outbox[..|w.outbox|] == w.outbox
  {
    var id := job.reminderId;
    if !f.findOk then RecordError(w, id, f)
    else if id !in w.reminders || w.reminders[id].status != Agendado then Run(w, Completed)
    else if !f.sendOk then RecordError(w, id, f)
    else
      var mailed := w.(outbox := w.outbox + [Mail(Sender, Recipient, Subject(w.reminders[id].message))]);
      if f.sentWriteOk then Run(SetStatus(mailed, id, Enviado), Completed)
      else RecordError(mailed, id, f)
  }

  /** The worker keeps the world invariant: it only rewrites a status, so
      ids, emails and the queue stay as they were. */
  lemma DeliveryKeepsConsistent(w: World, job: Job, f: DeliveryFaults)
    requires Consistent(w)
    ensures Consistent(Deliver(w, job, f).world)
  {
    var r := Deliver(w, job, f);
    assert r.world.users == w.users && r.world.queue == w.queue && r.world.nextId == w.nextId;
    forall id | id in r.world.reminders
      ensures r.world.reminders[id].id == id && |id| <= r.world.nextId
    {
      assert r.world.reminders[id] == w.reminders[id].(status := r.world.reminders[id].status);
    }
  }

  /** The reminder is gone or no longer AGENDADO: the job is skipped. */
  ghost predicate Settled(w: World, id: Id)
  {
    id !in w.reminders || w.reminders[id].status != Agendado
  }

  /** A job whose reminder is absent or already processed is a no-op: no mail,
      no write. */
  lemma SettledJobIsSkipped(w: World, job: Job, f: DeliveryFaults)
    requires f.findOk && Settled(w, job.reminderId)
    ensures Deliver(w, job, f) == Run(w, Completed)
  {
  }

  /** For an AGENDADO reminder: exactly one mail, to the fixed test address,
      whose subject quotes the message, when the transport succeeds; none when
      it throws. The status ends ENVIADO only when both the mail and the
      ENVIADO write went through, and ERRO when either threw and the ERRO
      write went through; it ends ERRO even though the mail was delivered when
      only the ENVIADO write threw. */
  lemma ScheduledReminderDelivery(w: World, job: Job, f: DeliveryFaults)
    requires f.findOk
    requires job.reminderId in w.reminders && w.reminders[job.reminderId].status == Agendado
    ensures var r := Deliver(w, job, f);
            var before := w.reminders[job.reminderId];
            var after := r.world.reminders[job.reminderId].status;
            && (r.world.outbox == if f.sendOk then w.outbox + [Mail(Sender, Recipient, Subject(before.message))]
                                  else w.outbox)
            && (after == Enviado <==> f.sendOk && f.sentWriteOk)
            && (after == Erro <==> !(f.sendOk && f.sentWriteOk) && f.errorWriteOk)
            && (r.outcome == Completed <==> after != Agendado)
  {
  }

  /** Whenever the reload succeeds, the worker only moves a reminder from
      AGENDADO to ENVIADO or to ERRO; ENVIADO and ERRO are never left. */
  lemma OnlyScheduledRemindersMove(w: World, job: Job, f: DeliveryFaults, id: Id)
    requires f.findOk
    requires id in w.reminders
    ensures var before := w.reminders[id].status;
            var after := Deliver(w, job, f).world.reminders[id].status;
            before == after || (before == Agendado && after != Agendado)
  {
  }

  /** When the reload itself throws, the catch block writes ERRO whatever the
      status was, so a reminder already ENVIADO can end as ERRO. */
  lemma FailedReloadOverwritesSent(w: World, job: Job, f: DeliveryFaults)
    requires !f.findOk && f.errorWriteOk
    requires job.reminderId in w.reminders && w.reminders[job.reminderId].status == Enviado
    ensures Deliver(w, job, f).world.reminders[job.reminderId].status == Erro
    ensures Deliver(w, job, f).world.outbox == w.outbox
  {
  }

  /** When the reload itself throws, nothing is mailed and the catch block
      tries to write ERRO: the reminder, whatever its status, becomes ERRO and
      the job completes if the row exists and the write goes through;
      otherwise the write throws and the job fails with nothing changed. */
  lemma FailedReloadRecordsError(w: World, job: Job, f: DeliveryFaults)
    requires !f.findOk
    ensures var r := Deliver(w, job, f);
            var id := job.reminderId;
            && r.world.outbox == w.outbox
            && if id in w.reminders && f.errorWriteOk then
                 && r.world.reminders == w.reminders[id := w.reminders[id].(status := Erro)]
                 && r.outcome == Completed
               else
                 r == Run(w, Failed)
  {
  }

  /** A run that completes leaves the reminder settled, so a later delivery
      of the same job is skipped. */
  lemma CompletedRunSettles(w: World, job: Job, f: DeliveryFaults)
    ensures Deliver(w, job, f).outcome == Completed ==> Settled(Deliver(w, job, f).world, job.reminderId)
  {
  }

  /** Once settled, a reminder stays settled and no further delivery of the
      job, whatever throws, sends it a mail. */
  lemma SettledStaysSettled(w: World, job: Job, f: DeliveryFaults)
    requires Settled(w, job.reminderId)
    ensures Settled(Deliver(w, job, f).world, job.reminderId)
    ensures Deliver(w, job, f).world.outbox == w.outbox
  {
  }

  /** The same job delivered once per entry of `fs`, in sequence; the result
      completes only if every run did. */
  function DeliverEach(w: World, job: Job, fs: seq<DeliveryFaults>): Run
    decreases |fs|
  {
    if fs == [] then Run(w, Completed)
    else
      var first := Deliver(w, job, fs[0]);
      var rest := DeliverEach(first.world, job, fs[1..]);
      Run(rest.world, if first.outcome == Completed then rest.outcome else Failed)
  }

  /** Deliveries of a settled reminder never mail. */
  lemma {:induction false} SettledRedeliveriesSendNothing(w: World, job: Job, fs: seq<DeliveryFaults>)
    requires Settled(w, job.reminderId)
    ensures DeliverEach(w, job, fs).world.outbox == w.outbox
    decreases |fs|
  {
    if fs != [] {
      SettledStaysSettled(w, job, fs[0]);
      SettledRedeliveriesSendNothing(Deliver(w, job, fs[0]).world, job, fs[1..]);
    }
  }

  /** Sequential redelivery is idempotent: however often the same job is
      processed, if every run completes, at most one mail goes out. */
  lemma {:induction false} RedeliverySendsAtMostOnce(w: World, job: Job, fs: seq<DeliveryFaults>)
    requires DeliverEach(w, job, fs).outcome == Completed
    ensures var out := DeliverEach(w, job, fs).world.outbox;
            |w.outbox| <= |out| <= |w.outbox| + 1 && out[..|w.outbox|] == w.outbox
  {
    if fs != [] {
      var first := Deliver(w, job, fs[0]);
      CompletedRunSettles(w, job, fs[0]);
      SettledRedeliveriesSendNothing(first.world, job, fs[1..]);
    }
  }

  /** The guard is a read, not a claim: when the mail goes out but both
      status writes throw, the reminder is still AGENDADO and a redelivery
      mails it a second time. */
  lemma FailedWritesAllowSecondMail(w: World, job: Job)
    requires job.reminderId in w.reminders && w.reminders[job.reminderId].status == Agendado
    ensures var first := Deliver(w, job, DeliveryFaults(true, true, false, false));
            var second := Deliver(first.world, job, Smooth);
            && first.outcome == Failed
            && |second.world.outbox| == |w.outbox| + 2
  {
  }

  /** End to end: a reminder created through `createReminder` whose job is
      then processed with nothing throwing is mailed once and ends ENVIADO. */
  lemma CreatedReminderIsDelivered(w: World, req: Reminders.ReminderRequest,
                                   parseDate: string -> Option<int>, now: int)
    requires Consistent(w)
    requires Truthy(req.message) && Truthy(req.notificationDate)
    requires parseDate(req.notificationDate.value).Some?
    ensures var created := Reminders.CreateReminderStep(w, req, parseDate, now, Reminders.CreateFaults(true, true));
            && |created.world.queue| == |w.queue| + 1
            && var job := created.world.queue[|w.queue|];
               var delivered := Deliver(created.world, job, Smooth);
               && job.reminderId == NewId(w.nextId)
               && delivered.outcome == Completed
               && delivered.world.reminders[job.reminderId].status == Enviado
               && delivered.world.outbox == w.outbox + [Mail(Sender, Recipient, Subject(req.message.value))]
  {
    var created := Reminders.CreateReminderStep(w, req, parseDate, now, Reminders.CreateFaults(true, true));
    Reminders.AcceptedRequestStoresAndSchedules(w, req, parseDate, now, Reminders.CreateFaults(true, true));
    ScheduledReminderDelivery(created.world, created.world.queue[|w.queue|], Smooth);
  }

  /** `transporter.sendMail`: the mail joins the outbox. */
  method SendMail(db: Backend, m: Mail)
    modifies db
    ensures db.State() == old(db.State()).(outbox := old(db.outbox) + [m])
  {
    db.outbox := db.outbox + [m];
  }

  /** `prisma.reminder.update` of the status column of an existing row. */
  method WriteStatus(db: Backend, id: Id, s: Status)
    requires id in db.reminders
    modifies db
    ensures db.State() == SetStatus(old(db.State()), id, s)
  {
    db.reminders := db.reminders[id := db.reminders[id].(status := s)];
  }

  /** The handler passed to `new Worker`, with its try/catch: `thrown`
      records that a call inside the `try` threw. */
  method HandleJob(db: Backend, job: Job, f: DeliveryFaults) returns (outcome: JobOutcome)
    requires db.Valid()
    modifies db
    ensures db.Valid()
    ensures Run(db.State(), outcome) == Deliver(old(db.State()), job, f)
  {
    ghost var before := db.State();
    var reminderId := job.reminderId;
    var thrown := !f.findOk;
    outcome := Completed;
    if !thrown && reminderId in db.reminders && db.reminders[reminderId].status == Agendado {
      var reminder := db.reminders[reminderId];
      thrown := !f.sendOk;
      if !thrown {
        SendMail(db, Mail(Sender, Recipient, Subject(reminder.message)));
        thrown := !f.sentWriteOk;
        if !thrown {
          WriteStatus(db, reminderId, Enviado);
        }
      }
    }
    if thrown {
      if reminderId in db.reminders && f.errorWriteOk {
        WriteStatus(db, reminderId, Erro);
      } else {
        outcome := Failed;
      }
    }
    assert Run(db.State(), outcome) == Deliver(before, job, f);
    DeliveryKeepsConsistent(before, job, f);
  }
}
