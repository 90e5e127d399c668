/** How `on_message` routes one inbound message (smalld_click/smalld_click.py:47-61),
    stated on values: the `pending` map before and after, and what happened to
    the message. `H` stands for the reply handle, so the same definitions serve
    the runner class, whose handles are objects. */
module Dispatch {
  import opened Text

  /** The fields of an inbound message the runner reads: `msg["content"]`,
      `msg["author"]["id"]` and `msg["channel_id"]`. */
  datatype Msg = Msg(content: string, authorId: string, channelId: string)

  /** A conversation key: (user id, channel id). */
  type Key = (string, string)

  function KeyOf(msg: Msg): Key {
    (msg.authorId, msg.channelId)
  }

  /** The work `executor.submit(self.handle_command, msg, command)` hands to the pool. */
  datatype Task = Task(msg: Msg, command: string)

  /** What `on_message` did with the message. */
  datatype Action<H> =
    | Completed(key: Key, handle: H)  // popped the pending handle and completed it with the message
    | Dropped                         // not addressed to the runner: ignored
    | Submitted(task: Task)           // a new command task was submitted

  datatype Outcome<H> = Outcome(pending: map<Key, H>, action: Action<H>)

  /** The command text of line 59: `content[len(prefix):].lstrip()`. Python
      slicing past the end gives the empty string. Only the prefix is removed;
      the name stays in front. */
  function CommandText(prefix: string, content: string): (r: string)
    ensures |r| <= |content| && r == content[|content| - |r|..]
    ensures |prefix| <= |content| ==> |r| <= |content| - |prefix|
    ensures |prefix| <= |content| ==> AllSpace(content[|prefix|..|content| - |r|])
    ensures |prefix| > |content| ==> r == []
    ensures r == [] || !IsSpace(r[0])
  {
    if |prefix| <= |content| then LStrip(content[|prefix|..]) else []
  }

  /** One call of `on_message`, checking in its fixed order: a pending reply
      for the sender's key, then the `prefix + name` test, then submission. */
  function Step<H>(pending: map<Key, H>, prefix: string, name: string, msg: Msg): Outcome<H> {
    var key := KeyOf(msg);
    if key in pending then
      Outcome(pending - {key}, Completed(key, pending[key]))
    else if !StartsWith(msg.content, prefix + name) then
      Outcome(pending, Dropped)
    else
      Outcome(pending, Submitted(Task(msg, CommandText(prefix, msg.content))))
  }

  /** A pending reply takes priority: the message completes the handle waiting
      under its key and is not treated as a command, even when its content
      starts with `prefix + name`. */
  lemma ReplyTakesPriority<H>(pending: map<Key, H>, prefix: string, name: string, msg: Msg)
    requires KeyOf(msg) in pending
    ensures Step(pending, prefix, name, msg)
      == Outcome(pending - {KeyOf(msg)}, Completed(KeyOf(msg), pending[KeyOf(msg)]))
  {
  }

  /** Only the sender's key is touched: every other entry keeps its handle, and
      the sender's key is absent afterwards. */
  lemma OnlyOwnKeyTouched<H>(pending: map<Key, H>, prefix: string, name: string, msg: Msg)
    ensures var after := Step(pending, prefix, name, msg).pending;
      && after.Keys == pending.Keys - {KeyOf(msg)}
      && (forall k :: k in after ==> after[k] == pending[k])
  {
  }

  /** With no pending reply and content that does not start with
      `prefix + name`, the message is dropped and nothing changes. */
  lemma UnmatchedIsDropped<H>(pending: map<Key, H>, prefix: string, name: string, msg: Msg)
    requires KeyOf(msg) !in pending && !StartsWith(msg.content, prefix + name)
    ensures Step(pending, prefix, name, msg) == Outcome(pending, Dropped)
  {
  }

  /** Otherwise exactly one task is submitted; it carries the whole message and
      the content after the prefix, left-stripped, with the name still at its
      front whenever the name does not itself start with whitespace. */
  lemma MatchedIsSubmitted<H>(pending: map<Key, H>, prefix: string, name: string, msg: Msg)
    requires KeyOf(msg) !in pending && StartsWith(msg.content, prefix + name)
    ensures var o := Step(pending, prefix, name, msg);
      && o.pending == pending
      && o.action.Submitted?
      && o.action.task.msg == msg
      && o.action.task.command == LStrip(msg.content[|prefix|..])
      && (name == [] || !IsSpace(name[0]) ==> StartsWith(o.action.task.command, name))
  {
  }

  /** `on_message` over a sequence of inbound messages with no reply wait
      registered in between: the final map and what happened to each message.
      Dispatch alone never adds an entry nor replaces a handle. */
  function Run<H>(pending: map<Key, H>, prefix: string, name: string, msgs: seq<Msg>): (r: (map<Key, H>, seq<Action<H>>))
    ensures forall k :: k in r.0 ==> k in pending && r.0[k] == pending[k]
  {
    if msgs == [] then (pending, [])
    else
      var o := Step(pending, prefix, name, msgs[0]);
      var rest := Run(o.pending, prefix, name, msgs[1..]);
      (rest.0, [o.action] + rest.1)
  }

  /** True when some message of `msgs` is sent under `key`. */
  predicate Mentions(msgs: seq<Msg>, key: Key) {
    exists i :: 0 <= i < |msgs| && KeyOf(msgs[i]) == key
  }

  /** The number of actions that completed the handle waiting under `key`. */
  function Completions<H>(actions: seq<Action<H>>, key: Key): nat {
    if actions == [] then 0
    else (if actions[0].Completed? && actions[0].key == key then 1 else 0) + Completions(actions[1..], key)
  }

  /** Conversations do not interfere: messages from other users or other
      channels never touch the entry waiting under `key`. */
  lemma {:induction false} RunIsolatesKeys<H>(pending: map<Key, H>, prefix: string, name: string,
                                              msgs: seq<Msg>, key: Key)
    requires !Mentions(msgs, key)
    ensures var r := Run(pending, prefix, name, msgs);
      && (key in r.0 <==> key in pending)
      && (key in pending ==> r.0[key] == pending[key])
      && Completions(r.1, key) == 0
  {
    if msgs != [] {
      var o := Step(pending, prefix, name, msgs[0]);
      assert KeyOf(msgs[0]) != key;
      assert !Mentions(msgs[1..], key) by {
        forall i | 0 <= i < |msgs[1..]| ensures KeyOf(msgs[1..][i]) != key {
          assert msgs[1..][i] == msgs[i + 1];
        }
      }
      RunIsolatesKeys(o.pending, prefix, name, msgs[1..], key);
    }
  }

  /** A pending handle is completed exactly once if a message arrives under its
      key and never otherwise. */
  lemma {:induction false} CompletedAtMostOnce<H>(pending: map<Key, H>, prefix: string, name: string,
                                                  msgs: seq<Msg>, key: Key)
    ensures Completions(Run(pending, prefix, name, msgs).1, key)
      == if key in pending && Mentions(msgs, key) then 1 else 0
  {
    if msgs != [] {
      var o := Step(pending, prefix, name, msgs[0]);
      var tail := msgs[1..];
      assert Mentions(msgs, key) <==> KeyOf(msgs[0]) == key || Mentions(tail, key) by {
        if Mentions(tail, key) {
          var i :| 0 <= i < |tail| && KeyOf(tail[i]) == key;
          assert msgs[i + 1] == tail[i];
        }
        if Mentions(msgs, key) && KeyOf(msgs[0]) != key {
          var i :| 0 <= i < |msgs| && KeyOf(msgs[i]) == key;
          assert tail[i - 1] == msgs[i];
        }
      }
      CompletedAtMostOnce(o.pending, prefix, name, tail, key);
    }
  }
}
