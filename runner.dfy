/** The runner object and its reply handles (smalld_click/smalld_click.py:18-92,
    smalld_click/utils.py:8-25). The `pending` dict and the executor's queue are
    fields the methods update in place; which of the three things happens to an
    inbound message is the function `Dispatch.Step`. */
module Runner {
  import opened Wrappers
  import opened Dispatch
  import opened Commands

  /** `Completable`: a one-shot handoff. Only its stored result is modelled; the
      condition variable's wait and notify are the `signalled` parameter of
      `SmallDCliRunner.Await`. */
  class Completable {
    var result: Option<Msg>

    constructor ()
      ensures result == None
    {
      result := None;
    }

    /** `complete_with(result)`: stores the message. A second call overwrites
        the first; nothing guards against it. */
    method CompleteWith(msg: Msg)
      modifies this
      ensures result == Some(msg)
    {
      result := Some(msg);
    }
  }

  class SmallDCliRunner {
    const prefix: string
    const name: string
    var timeout: real
    /** `self.create_message`: turns a text into the outbound payload. */
    const createMessage: string -> Outbound
    /** `self.pending`: the handle each blocked command waits on, by key. */
    var pending: map<Key, Completable>
    /** The tasks handed to `self.executor.submit`, oldest first. */
    var submitted: seq<Task>

    /** `__init__`, with the source's defaults: `prefix` "", `name` None,
        `timeout` 60 and `create_message` None. `name` falls back to `cli.name`,
        or to "" when that is None or empty; `create_message` falls back to
        `plain_message`. The smalld client, the click command and the executor
        are not modelled beyond this. */
    constructor (cliName: Option<string>, prefix: string := "", name: Option<string> := None,
                 timeout: real := 60.0, createMessage: Option<string -> Outbound> := None)
      ensures this.prefix == prefix
      ensures this.name == if name.Some? then name.value else cliName.GetOr("")
      ensures this.timeout == timeout
      ensures this.createMessage == createMessage.GetOr(PlainMessage)
      ensures pending == map[] && submitted == []
    {
      this.prefix := prefix;
      this.name := if name.Some? then name.value else cliName.GetOr("");
      this.timeout := timeout;
      var f: string -> Outbound := createMessage.GetOr(PlainMessage);
      this.createMessage := f;
      pending := map[];
      submitted := [];
    }

    /** `on_message(msg)`: pops and completes the handle waiting under the
        sender's key; failing that, drops a message that does not start with
        `prefix + name`; failing that, submits a command task and returns it.
        Every handle other than the popped one is left as it was. */
    method OnMessage(msg: Msg) returns (r: Option<Task>)
      modifies this`pending, this`submitted, pending.Values
      ensures pending == Step(old(pending), prefix, name, msg).pending
      ensures Step(old(pending), prefix, name, msg).action.Completed? ==>
        && Step(old(pending), prefix, name, msg).action.handle.result == Some(msg)
        && submitted == old(submitted) && r == None
      ensures Step(old(pending), prefix, name, msg).action.Dropped? ==>
        submitted == old(submitted) && r == None
      ensures Step(old(pending), prefix, name, msg).action.Submitted? ==>
        var task := Step(old(pending), prefix, name, msg).action.task;
        submitted == old(submitted) + [task] && r == Some(task)
      ensures forall h :: h in old(pending).Values ==>
        h.result == old(h.result) || (KeyOf(msg) in old(pending) && h == old(pending)[KeyOf(msg)])
    {
      var key := KeyOf(msg);
      if key in pending {
        var handle := pending[key];
        assert Step(pending, prefix, name, msg) == Outcome(pending - {key}, Completed(key, handle));
        pending := pending - {key};
        handle.CompleteWith(msg);
        return None;
      }
      if !Text.StartsWith(msg.content, prefix + name) {
        assert Step(pending, prefix, name, msg) == Outcome(pending, Dropped);
        return None;
      }
      var task := Task(msg, CommandText(prefix, msg.content));
      assert Step(pending, prefix, name, msg) == Outcome(pending, Submitted(task));
      submitted := submitted + [task];
      return Some(task);
    }

    /** The registration half of `wait_for_message(user_id, channel_id)`: a fresh
        handle is stored under the key, replacing any earlier one. */
    method Register(userId: string, channelId: string) returns (handle: Completable)
      modifies this`pending
      ensures fresh(handle) && handle.result == None
      ensures pending == old(pending)[(userId, channelId) := handle]
    {
      handle := new Completable();
      pending := pending[(userId, channelId) := handle];
    }

    /** The waiting half of `wait_for_message`. `signalled` is what
        `handle.wait(self.timeout)` returned. When it is true the handle's result
        is returned; otherwise whatever entry the key holds is removed and
        TimeoutError is raised. */
    method Await(userId: string, channelId: string, handle: Completable, signalled: bool)
      returns (r: Result<Option<Msg>, Exc>)
      modifies this`pending
      ensures signalled ==> r == Success(handle.result) && pending == old(pending)
      ensures !signalled ==>
        r == Failure(TimeoutError(TimeoutMessage)) && pending == old(pending) - {(userId, channelId)}
    {
      if signalled {
        return Success(handle.result);
      }
      pending := pending - {(userId, channelId)};
      return Failure(TimeoutError(TimeoutMessage));
    }
  }
}
