/** Client code that drives a runner through the sequences the repository's tests
    exercise, and three interleavings the reply handoff allows, proved from the
    method contracts alone. The thread that blocks in `wait_for_message` is
    written out as its two halves, `Register` and `Await`, with the
    dispatcher's `OnMessage` calls between them. */
module Scenarios {
  import opened Wrappers
  import opened Dispatch
  import opened Commands
  import opened Runner

  /** A runner built with only the click command takes the source's defaults:
      no prefix, the command's own name, a 60-second wait, and outbound
      payloads that carry the text unchanged. */
  method DefaultsApply() {
    var runner := new SmallDCliRunner(Some("command"));
    assert runner.prefix == "" && runner.name == "command" && runner.timeout == 60.0;
    assert runner.createMessage("hello").content == "hello";
    var named := new SmallDCliRunner(None, "!", Some("bot"));
    assert named.name == "bot" && named.pending == map[];
  }

  /** A command asks for a reply; the same user answers in the same channel
      with text that would itself match the command. The answer completes the
      wait, is returned to the command and starts no new command. */
  method ReplyReachesWaitingCommand() {
    var runner := new SmallDCliRunner(Some("command"), "", None, 1.0);
    var h := runner.Register("author_id", "channel_id");
    var reply := Msg("command", "author_id", "channel_id");
    var task := runner.OnMessage(reply);
    assert task == None && runner.submitted == [];
    assert h.result == Some(reply);
    var r := runner.Await("author_id", "channel_id", h, true);
    assert r == Success(Some(reply));
    assert runner.pending == map[];
  }

  /** A wait that times out leaves no entry for its key and raises TimeoutError;
      the user's late message is then matched as a fresh command. */
  method TimedOutWaitLeavesNoEntry() {
    var runner := new SmallDCliRunner(Some("command"), "", None, 0.2);
    var h := runner.Register("author_id", "channel_id");
    var r := runner.Await("author_id", "channel_id", h, false);
    assert r == Failure(TimeoutError(TimeoutMessage));
    assert ("author_id", "channel_id") !in runner.pending;
    var late := Msg("command", "author_id", "channel_id");
    assert Text.StartsWith(late.content, runner.prefix + runner.name);
    var task := runner.OnMessage(late);
    assert task.Some? && task.value.msg == late;
    assert h.result == None;
  }

  /** Replies from two users waiting in the same channel each reach their own
      command, in either order of arrival (the reverse order is the next method). */
  method RepliesStayInTheirConversation() {
    var runner := new SmallDCliRunner(Some("command"), "!", None, 1.0);
    var h1 := runner.Register("user1", "channel");
    var h2 := runner.Register("user2", "channel");
    var m2 := Msg("two", "user2", "channel");
    var t2 := runner.OnMessage(m2);
    assert h2.result == Some(m2) && h1.result == None;
    var m1 := Msg("one", "user1", "channel");
    var t1 := runner.OnMessage(m1);
    assert h1.result == Some(m1) && h2.result == Some(m2);
    assert runner.pending == map[] && runner.submitted == [];
  }

  /** The same two waits, with the replies arriving in the other order. */
  method RepliesStayInTheirConversationReversed() {
    var runner := new SmallDCliRunner(Some("command"), "!", None, 1.0);
    var h1 := runner.Register("user1", "channel");
    var h2 := runner.Register("user2", "channel");
    var m1 := Msg("one", "user1", "channel");
    var t1 := runner.OnMessage(m1);
    assert h1.result == Some(m1) && h2.result == None;
    var m2 := Msg("two", "user2", "channel");
    var t2 := runner.OnMessage(m2);
    assert h1.result == Some(m1) && h2.result == Some(m2);
    assert runner.pending == map[] && runner.submitted == [];
  }

  /** A second wait under the same key replaces the first (last writer wins).
      When the first, now orphaned, wait times out it removes the key, which
      by then holds the second wait's handle: the second command's reply is
      matched as a new command instead of reaching it. */
  method StaleTimeoutDropsNewerWait() {
    var runner := new SmallDCliRunner(Some("command"), "", None, 1.0);
    var first := runner.Register("author_id", "channel_id");
    var second := runner.Register("author_id", "channel_id");
    assert runner.pending[("author_id", "channel_id")] == second;
    var r := runner.Await("author_id", "channel_id", first, false);
    assert ("author_id", "channel_id") !in runner.pending;
    var reply := Msg("command again", "author_id", "channel_id");
    assert Text.StartsWith(reply.content, runner.prefix + runner.name);
    var task := runner.OnMessage(reply);
    assert task.Some? && second.result == None;
  }

  /** A reply delivered after registration but before the waiting thread
      reaches `handle.wait` is stored in the handle, yet the wait can still
      report a timeout: the message is popped, and the command sees
      TimeoutError. */
  method ReplyBeforeWaitCanBeLost() {
    var runner := new SmallDCliRunner(Some("command"), "", None, 1.0);
    var h := runner.Register("author_id", "channel_id");
    var reply := Msg("yes", "author_id", "channel_id");
    var task := runner.OnMessage(reply);
    var r := runner.Await("author_id", "channel_id", h, false);
    assert h.result == Some(reply) && r.Failure? && task == None;
  }
}
