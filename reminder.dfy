/** The mutable `Reminder` object (python/icloudbridge.py:153-275) and the reminder
    write calls it goes through: `update_reminder` (python/icloudbridge.py:816-855),
    `complete_reminder`, `uncomplete_reminder` and `delete_reminder`. The server is not
    modelled: each call takes the `Response` its request gets back. */
module ReminderObject {
  import opened Wrappers
  import opened JsonValues
  import opened Errors
  import opened IsoDates
  import opened Transport
  import opened Records
  import opened Requests

  /** `Reminder.from_dict(self._request(...))` on the answer to a create or update: an
      object body is mapped; no body (a 204) or any other JSON value has no `get`. */
  function ReminderReply(r: Response<Decoded>, lib: DateLib): (o: Result<ReminderData, Error>)
    ensures Request(r).Failure? ==> o == Failure(Request(r).error)
    ensures Request(r) == Success(None) ==> o == Failure(AttributeError)
    ensures r.Ok? && r.status != 204 && r.body.Some? && r.body.value.JObject? ==>
              o == ReminderFromDict(r.body.value.fields, lib)
    ensures r.Ok? && r.status != 204 && r.body.Some? && !r.body.value.JObject? ==> o == Failure(AttributeError)
  {
    match Request(r)
    case Failure(e) => Failure(e)
    case Success(body) =>
      if body.Some? && body.value.JObject? then ReminderFromDict(body.value.fields, lib)
      else Failure(AttributeError)
  }

  /** The state `save` leaves: the five editable fields and the completion state as the
      server returned them, the identity and the list as they were. */
  function AfterSave(before: ReminderData, reply: ReminderData): ReminderData {
    ReminderData(before.id, reply.title, reply.notes, reply.isCompleted, reply.priority,
                 reply.dueDate, reply.completionDate, before.listId)
  }

  /** The state `complete` and `uncomplete` leave: only the completion state is taken
      from the server. */
  function AfterToggle(before: ReminderData, reply: ReminderData): ReminderData {
    before.(isCompleted := reply.isCompleted, completionDate := reply.completionDate)
  }

  /** The payload `complete` (`true`) or `uncomplete` (`false`) sends. */
  function TogglePayload(done: bool): Object {
    map["isCompleted" := JBool(done)]
  }

  /** `save` keeps the reminder's identity and list whatever the server answers. */
  lemma {:induction false} SaveKeepsIdentity(before: ReminderData, reply: ReminderData)
    ensures AfterSave(before, reply).id == before.id && AfterSave(before, reply).listId == before.listId
    ensures AfterSave(before, reply) == reply <==> reply.id == before.id && reply.listId == before.listId
  {
  }

  /** A toggle changes nothing but the two completion fields, and an answer that agrees
      with the reminder in both leaves it as it was. */
  lemma {:induction false} ToggleTouchesOnlyCompletion(before: ReminderData, reply: ReminderData)
    ensures var a := AfterToggle(before, reply);
            a.(isCompleted := before.isCompleted, completionDate := before.completionDate) == before
    ensures AfterToggle(before, reply) == before <==>
              reply.isCompleted == before.isCompleted && reply.completionDate == before.completionDate
  {
  }

  class Reminder {
    var id: Json
    var title: Json
    var notes: Json
    var isCompleted: Json
    var priority: Json
    var dueDate: Option<DateTime>
    var completionDate: Option<DateTime>
    var listId: Json
    /** Whether the `_client` back-reference is set. */
    var attached: bool

    function Fields(): ReminderData
      reads this
    {
      ReminderData(id, title, notes, isCompleted, priority, dueDate, completionDate, listId)
    }

    /** A reminder built by `from_dict`, with or without a client. */
    constructor (data: ReminderData, withClient: bool)
      ensures Fields() == data && attached == withClient
    {
      id, title, notes, isCompleted, priority := data.id, data.title, data.notes, data.isCompleted, data.priority;
      dueDate, completionDate, listId := data.dueDate, data.completionDate, data.listId;
      attached := withClient;
    }

    /** `save`: send the current title, notes, priority and due date (each only when it is
        not `None`; never the completion state) and adopt the server's answer. Without a
        client nothing is sent; on any error the object is left as it was. */
    method Save(reply: Response<Decoded>, lib: DateLib) returns (sent: Option<Object>, err: Option<Error>)
      modifies this
      ensures attached == old(attached)
      ensures !attached ==> sent == None && err == Some(NotAttached) && Fields() == old(Fields())
      ensures attached ==> sent.Some? && sent.value.Keys <= {"title", "notes", "priority", "dueDate"}
      ensures attached ==> && Carries(sent.value, "title", old(title)) && Carries(sent.value, "notes", old(notes))
                           && Carries(sent.value, "priority", old(priority))
                           && Carries(sent.value, "dueDate", DateArg(old(dueDate)))
      ensures attached && ReminderReply(reply, lib).Failure? ==>
                err == Some(ReminderReply(reply, lib).error) && Fields() == old(Fields())
      ensures attached && ReminderReply(reply, lib).Success? ==>
                err == None && Fields() == AfterSave(old(Fields()), ReminderReply(reply, lib).value)
    {
      if !attached {
        return None, Some(NotAttached);
      }
      var payload := UpdatePayload(title, notes, None, priority, dueDate);
      sent := Some(payload);
      var updated := ReminderReply(reply, lib);
      if updated.Failure? {
        return sent, Some(updated.error);
      }
      var u := updated.value;
      title, notes, isCompleted, priority := u.title, u.notes, u.isCompleted, u.priority;
      dueDate, completionDate := u.dueDate, u.completionDate;
      err := None;
    }

    /** `complete` (`done`) and `uncomplete` (`!done`): send only the completion state and
        adopt the completion state of the answer; nothing else changes. */
    method Toggle(done: bool, reply: Response<Decoded>, lib: DateLib) returns (sent: Option<Object>, err: Option<Error>)
      modifies this
      ensures attached == old(attached)
      ensures !attached ==> sent == None && err == Some(NotAttached) && Fields() == old(Fields())
      ensures attached ==> sent == Some(TogglePayload(done))
      ensures attached && ReminderReply(reply, lib).Failure? ==>
                err == Some(ReminderReply(reply, lib).error) && Fields() == old(Fields())
      ensures attached && ReminderReply(reply, lib).Success? ==>
                err == None && Fields() == AfterToggle(old(Fields()), ReminderReply(reply, lib).value)
    {
      if !attached {
        return None, Some(NotAttached);
      }
      var payload := UpdatePayload(JNull, JNull, Some(done), JNull, None);
      assert payload == TogglePayload(done) by {
        assert payload.Keys == {"isCompleted"};
      }
      sent := Some(payload);
      var updated := ReminderReply(reply, lib);
      if updated.Failure? {
        return sent, Some(updated.error);
      }
      isCompleted, completionDate := updated.value.isCompleted, updated.value.completionDate;
      err := None;
    }

    /** `delete`: without a client a `RuntimeError` and no request; otherwise the error of
        the `DELETE` request, if any. The object itself is not changed. */
    method Delete(reply: Response<Decoded>) returns (requested: bool, err: Option<Error>)
      ensures requested <==> attached
      ensures !attached ==> err == Some(NotAttached)
      ensures attached ==> (err.None? <==> Request(reply).Success?)
      ensures attached && err.Some? ==> Request(reply) == Failure(err.value)
    {
      if !attached {
        return false, Some(NotAttached);
      }
      requested := true;
      var r := Request(reply);
      err := if r.Failure? then Some(r.error) else None;
    }
  }
}
