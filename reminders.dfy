/** The reminders controller: `createReminder` validates the request body,
    inserts a reminder and schedules one delivery job for it; `getReminders`
    lists the table. */
module Reminders {
  import opened Domain

  /** The JSON body of `POST /reminders`; an absent field is `None`. */
  datatype ReminderRequest = ReminderRequest(message: Option<string>, notificationDate: Option<string>)

  /** Whether the database insert and the queue `add` complete or throw. */
  datatype CreateFaults = CreateFaults(insertOk: bool, enqueueOk: bool)

  const JobName := "send-notification"

  /** The queue delay for a reminder due at `notificationDate` when it is
      scheduled at `now` (both in milliseconds): the remaining time, or zero
      once that time has passed. */
  function Delay(notificationDate: int, now: int): (d: nat)
    ensures d >= notificationDate - now
    ensures d == 0 || d == notificationDate - now
    ensures d == 0 <==> notificationDate <= now
  {
    var delay := notificationDate - now;
    if delay > 0 then delay else 0
  }

  /** `createReminder` on a world snapshot. `parseDate` stands for
      `new Date(s).getTime()`, `None` for an invalid date. */
  function CreateReminderStep(w: World, req: ReminderRequest, parseDate: string -> Option<int>,
                              now: int, f: CreateFaults): (r: Step<Reminder>)
    requires Consistent(w)
    ensures Consistent(r.world)
    // nothing but the reminder table and the queue ever changes
    ensures r.world.users == w.users && r.world.outbox == w.outbox
    // at most one job is added, and only together with a new reminder
    // (`Consistent` also keeps every reminder to one job at most)
    ensures |w.queue| <= |r.world.queue| <= |w.queue| + 1
    ensures |r.world.queue| == |w.queue| + 1 <==> r.response.status == 201
  {
    if !Truthy(req.message) || !Truthy(req.notificationDate) then
      Step(w, Response(400, Message(RemindersRequired)))
    else
      match parseDate(req.notificationDate.value)
      case None => Step(w, Response(400, Message(InvalidDateFormat)))
      case Some(date) =>
        if !f.insertOk then
          Step(w, Response(500, Message(ServerError)))
        else
          var id := NewId(w.nextId);
          var stored := Reminder(id, req.message.value, date, Agendado);
          var inserted := InsertReminder(w, req.message.value, date, Agendado);
          if !f.enqueueOk then
            Step(inserted, Response(500, Message(ServerError)))
          else
            // every job already queued names an id shorter than the new one
            assert forall i | 0 <= i < |w.queue| :: w.queue[i].reminderId != id;
            Step(inserted.(queue := w.queue + [Job(JobName, id, Delay(date, now))]),
                 Response(201, Json(stored)))
  }

  /** A request that fails validation is answered with 400 and leaves the
      reminder table and the queue as they were. */
  lemma RejectedRequestChangesNothing(w: World, req: ReminderRequest, parseDate: string -> Option<int>,
                                      now: int, f: CreateFaults)
    requires Consistent(w)
    // a missing or empty field: 400, nothing stored, nothing queued
    ensures !Truthy(req.message) || !Truthy(req.notificationDate) ==>
              CreateReminderStep(w, req, parseDate, now, f) == Step(w, Response(400, Message(RemindersRequired)))
    // a date that does not parse: 400, nothing stored, nothing queued
    ensures Truthy(req.message) && Truthy(req.notificationDate)
            && parseDate(req.notificationDate.value).None? ==>
              CreateReminderStep(w, req, parseDate, now, f) == Step(w, Response(400, Message(InvalidDateFormat)))
  {
  }

  /** A valid request stores exactly one reminder, with the given message,
      the parsed date and status AGENDADO, under an id not used before; the
      one job that follows carries only that id and the clamped delay. When
      the enqueue throws, the reminder stays stored with no job for it. */
  lemma AcceptedRequestStoresAndSchedules(w: World, req: ReminderRequest, parseDate: string -> Option<int>,
                                          now: int, f: CreateFaults)
    requires Consistent(w)
    requires Truthy(req.message) && Truthy(req.notificationDate)
    requires parseDate(req.notificationDate.value).Some?
    ensures var id := NewId(w.nextId);
              var stored := Reminder(id, req.message.value, parseDate(req.notificationDate.value).value, Agendado);
              var r := CreateReminderStep(w, req, parseDate, now, f);
              if !f.insertOk then
                r == Step(w, Response(500, Message(ServerError)))
              else
                && id !in w.reminders
                && r.world.reminders == w.reminders[id := stored]
                && if f.enqueueOk then
                     && r.world.queue == w.queue + [Job(JobName, id, Delay(stored.notificationDate, now))]
                     && r.response == Response(201, Json(stored))
                   else
                     // the reminder stays stored, no job refers to it, and the caller sees 500
                     && r.world.queue == w.queue
                     && r.response == Response(500, Message(ServerError))
  {
  }

  /** A notification time that has already passed is not refused: the
      reminder is stored and its job is due at once. */
  lemma PastDateIsScheduledImmediately(w: World, req: ReminderRequest, parseDate: string -> Option<int>,
                                       now: int, f: CreateFaults)
    requires Consistent(w)
    requires Truthy(req.message) && Truthy(req.notificationDate)
    requires parseDate(req.notificationDate.value).Some?
    requires parseDate(req.notificationDate.value).value <= now
    requires f.insertOk && f.enqueueOk
    ensures var r := CreateReminderStep(w, req, parseDate, now, f);
            && r.response.status == 201
            && |r.world.queue| == |w.queue| + 1
            && r.world.queue[|w.queue|].delay == 0
  {
  }

  /** `createReminder`: the insert comes first, then the enqueue, each of
      which may throw into the controller's catch-all 500. */
  method CreateReminder(db: Backend, req: ReminderRequest, parseDate: string -> Option<int>,
                        now: int, f: CreateFaults) returns (res: Response<Reminder>)
    requires db.Valid()
    modifies db
    ensures db.Valid()
    ensures Step(db.State(), res) == CreateReminderStep(old(db.State()), req, parseDate, now, f)
  {
    if !Truthy(req.message) || !Truthy(req.notificationDate) {
      return Response(400, Message(RemindersRequired));
    }
    var parsed := parseDate(req.notificationDate.value);
    if parsed.None? {
      return Response(400, Message(InvalidDateFormat));
    }
    if !f.insertOk {
      return Response(500, Message(ServerError));
    }
    ghost var expected := CreateReminderStep(db.State(), req, parseDate, now, f);
    var id := NewId(db.nextId);
    var newReminder := Reminder(id, req.message.value, parsed.value, Agendado);
    db.reminders := db.reminders[id := newReminder];
    db.nextId := db.nextId + 1;

    var delay := parsed.value - now;
    if !f.enqueueOk {
      assert db.State() == expected.world;
      return Response(500, Message(ServerError));
    }
    db.queue := db.queue + [Job(JobName, id, if delay > 0 then delay else 0)];
    assert db.State() == expected.world;
    return Response(201, Json(newReminder));
  }

  /** `getReminders`: every stored reminder (the order `findMany` yields is
      not modelled), or 500 when the query throws. Nothing is changed. */
  method GetReminders(db: Backend, findOk: bool) returns (res: Response<set<Reminder>>)
    ensures findOk ==> res.status == 200 && res.body.Json?
    ensures findOk ==> forall r :: r in res.body.value <==> exists id :: id in db.reminders && db.reminders[id] == r
    ensures !findOk ==> res == Response(500, Message(ServerError))
  {
    if !findOk {
      return Response(500, Message(ServerError));
    }
    res := Response(200, Json(db.reminders.Values));
  }
}
