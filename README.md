# smalld-click conversation dispatch, modelled in Dafny

smalld-click runs click command-line programs as chat bots on a Discord client
(smalld). Its runner, `SmallDCliRunner`, receives every inbound message and
keeps one dictionary, `pending`, from a conversation key (author id, channel id)
to the reply handle of a command that is blocked waiting for that user's next
message in that channel. For each message the runner, in this fixed order:

1. pops the handle pending under the sender's key, if there is one, and
   completes it with the whole message;
2. otherwise drops the message unless its content starts with `prefix + name`;
3. otherwise strips the prefix (only the prefix), left-trims the rest and
   submits a command task to its worker pool.

A command that asks the user something registers a fresh handle under the key
(replacing any earlier one) and waits on it; on timeout it removes the key and
raises `TimeoutError`. A worker runs each task under `managed_click_execution`,
which shows click errors, silently absorbs `Exit`, `Abort` and `TimeoutError`,
and logs anything else. The worker is meant to parse the command text
(`parse_command`) and run it, but as written the call at line 71 passes one
argument to a two-parameter function: TypeError is raised before any parsing
and is logged, so no command runs (see "## Findings"). The model keeps that
handler as written and also models the corrected one.

The project has five modules:

- `Text` (text.dfy): the Python string operations the runner uses:
  `str.isspace`, `startswith`, `lstrip()` and `split(maxsplit=1)`, with their
  characterisations proved.
- `Commands` (commands.dfy): `parse_command`, the body of `handle_command`,
  `managed_click_execution` and `plain_message`, as functions. `shlex.split` is
  the function parameter `split`. Click's `make_context` followed by `invoke`
  is the function parameter `invoke`, which yields the exception raised, if any.
- `Dispatch` (dispatch.dfy): one `on_message` call as the pure function `Step`
  on the `pending` map. `Run` folds `Step` over a sequence of messages. Both
  are generic in the handle type.
- `Runner` (runner.dfy): the classes `Completable` and `SmallDCliRunner`.
  `pending` is a `map` field and the executor's queue is the `submitted`
  field. `OnMessage` is proved against `Dispatch.Step`. `wait_for_message` is
  split at its blocking call into `Register` (store a fresh handle) and `Await`
  (the outcome of `handle.wait`), so that the dispatcher's `OnMessage` calls
  can be placed between the two halves.
- `Scenarios` (scenarios.dfy): client methods that drive a runner through the
  sequences the repository's tests exercise, and three interleavings the reply
  handoff allows, proved from the method contracts alone. They cover the
  constructor's defaults, a reply reaching its waiting command, a timed-out wait leaving no entry,
  two users' replies staying apart in either order, a stale timeout removing a newer wait, and a
  reply that arrives before the wait begins.

Three behaviours of the code worth knowing:

- A tokenising error would not produce a usage error. `args` is `None`
  whenever `error` is set, so `handle_command` would return at lines 72-73,
  and the `ctx.fail` branch at lines 80-81 cannot be reached. This holds once
  line 71 passes the name (`Commands.TokenizeErrorIsSilent` is about the
  corrected handler). As written, the command fails at line 71 before it is
  tokenised.
- The timeout path removes the key at line 91 without checking which handle
  the key holds. Suppose a second wait has replaced the first under the same
  key. When the first wait times out, it removes the second wait's entry
  (`Scenarios.StaleTimeoutDropsNewerWait`).
- `complete_with` does not guard against a second call; it overwrites.
  `Completable.wait` does not check whether the handle was already completed.
  So a reply delivered before the waiter reaches `wait` can be popped and
  stored, and the wait can still time out (`Scenarios.ReplyBeforeWaitCanBeLost`).

## Model

| member | source | states |
|---|---|---|
| Text.IsSpace | smalld_click/smalld_click.py:59 | holds exactly for the characters CPython's `lstrip()` and `split()` treat as whitespace (ASCII 9-13 and 28-32, and the Unicode spaces); `SkipSpace`, `SkipWord`, `LStrip` and the `SplitOnce*` lemmas are stated with it |
| Text.StartsWith | smalld_click/smalld_click.py:57 | `str.startswith`: the pattern is no longer than the string and is its prefix; `Dispatch.UnmatchedIsDropped` and `Dispatch.MatchedIsSubmitted` use it to split the two branches of line 57 |
| Text.SkipSpace | smalld_click/smalld_click.py:59 | the index reached by skipping whitespace: everything skipped is whitespace and it stops at the end or at a non-whitespace character |
| Text.SkipWord | smalld_click/smalld_click.py:101 | the index reached by skipping a word: nothing skipped is whitespace and it stops at the end or at whitespace |
| Text.LStrip | smalld_click/smalld_click.py:59 | `lstrip()` returns a suffix of its input; everything removed is whitespace; the result is empty or starts with non-whitespace |
| Text.SplitOnce | smalld_click/smalld_click.py:101 | `split(maxsplit=1)` yields at most two pieces |
| Text.SplitOnceBlank | smalld_click/smalld_click.py:101 | `split(maxsplit=1)` yields no piece exactly when the string is blank, which is when the unpacking at line 101 fails |
| Text.SplitOnceFirstWord | smalld_click/smalld_click.py:101 | the first piece is non-empty, has no whitespace, starts at the first non-whitespace character and runs up to the next whitespace or the end |
| Text.SplitOnceSingle | smalld_click/smalld_click.py:101-104 | with a single piece, only whitespace follows the first word, so the `rest` joined at line 104 is empty |
| Text.SplitOnceSecond | smalld_click/smalld_click.py:101-104 | the second piece is the non-blank tail of the string, starting with non-whitespace, and only whitespace lies between it and the first word |
| Text.Join | smalld_click/smalld_click.py:104 | `"".join(rest)` of zero pieces is empty and of one piece is that piece |
| Commands.PlainMessage | smalld_click/smalld_click.py:95-96 | the default message factory's payload carries exactly the given text as its content; `Runner.SmallDCliRunner.constructor` installs it when no `create_message` is given |
| Commands.Tokenize | smalld_click/smalld_click.py:106-113 | exactly one of `args` and `error` is set: the tokens when the tokeniser succeeds, its ValueError message when it fails |
| Commands.ParseCommand | smalld_click/smalld_click.py:99-113 | `parse_command` as written raises ValueError exactly when the name is non-empty and the command is blank; with an empty name it tokenises the whole command |
| Commands.WrongNameNeverRejected | smalld_click/smalld_click.py:101-104 | as written, the result is never `(None, None)`: a non-empty name only drops the first word, whatever that word is |
| Commands.LongerWordSlipsThrough | smalld_click/smalld_click.py:101-103 | for name "g" and command "gx y", the code as written tokenises "y", while the intended check returns `(None, None)` |
| Commands.ParseCommandChecked | smalld_click/smalld_click.py:99-113 | intended `parse_command`: it yields tokens only when the name is empty or equals the first word; a different first word gives `(None, None)` |
| Commands.CallParseCommand | smalld_click/smalld_click.py:71 | the call `parse_command(*actuals)` raises TypeError exactly when the number of arguments is not two; otherwise it is `ParseCommand` on them |
| Commands.RunParsed | smalld_click/smalld_click.py:72-83 | the exception that leaves the handler body, given the parse outcome; no ensures of its own: `IntendedRunsCommand`, `IntendedRejectsWrongName` and `TokenizeErrorIsSilent` prove that no tokens returns early and that tokens run `invoke(prefix + name, tokens)`; `EveryCommandLoggedAsWritten` and `BlankCommandLoggedIntended` prove that an exception from the parse call propagates to the log |
| Commands.HandleCommand | smalld_click/smalld_click.py:63-83 | `handle_command` as written; no ensures of its own: `EveryCommandLoggedAsWritten` proves that it ends every command in a logged TypeError |
| Commands.HandleCommandIntended | smalld_click/smalld_click.py:63-83 | `handle_command` with line 71 corrected; no ensures of its own: `IntendedRunsCommand`, `IntendedRejectsWrongName`, `BlankCommandLoggedIntended`, `TokenizeErrorIsSilent` and `TimedOutWaitEndsQuietly` prove what it does with a matching name, a wrong name, a blank command, a tokenising error and a timed-out wait |
| Commands.ManagedExecution | smalld_click/smalld_click.py:116-128 | every exception is caught. ClickException is shown with its message. Exit, Abort and TimeoutError are absorbed. Anything else is logged. A normal return finishes. |
| Commands.EveryCommandLoggedAsWritten | smalld_click/smalld_click.py:71 | as written, every accepted command ends in a logged TypeError, whatever its text, tokeniser or command |
| Commands.ArityMismatchExample | smalld_click/smalld_click.py:71-83 | for "!g" with prefix "!" and name "g", the intended handler finishes the command; the handler as written does not |
| Commands.IntendedRunsCommand | smalld_click/smalld_click.py:71-83 | the intended handler runs the command under `prefix + name`, on the tokens of the text after the name, and classifies what it raises |
| Commands.IntendedRejectsWrongName | smalld_click/smalld_click.py:72-73 | the intended handler finishes, without running anything, a command whose first word is not the name |
| Commands.BlankCommandLoggedIntended | smalld_click/smalld_click.py:100-101 | once line 71 is corrected, a blank command with a non-empty name makes the unpacking at line 101 raise ValueError, which the bare `except` logs; this is reachable from `on_message` when the name is whitespace only, for "! " with prefix "!" gives the command text "" |
| Commands.TokenizeErrorIsSilent | smalld_click/smalld_click.py:71-81 | for any prefix and name, once line 71 is corrected, a command whose text after the name the tokeniser rejects ends normally: no usage error is shown and nothing runs |
| Commands.TimedOutWaitEndsQuietly | smalld_click/smalld_click.py:125-126 | for any prefix, name and timeout message, once line 71 is corrected, a command that a timed-out reply wait aborts ends silently (absorbed) |
| Dispatch.CommandText | smalld_click/smalld_click.py:59 | `content[len(prefix):].lstrip()` is a suffix of the content; only whitespace lies between the prefix and it; it is empty when the prefix is longer than the content, and otherwise empty or starting with non-whitespace |
| Dispatch.Step | smalld_click/smalld_click.py:47-61 | one `on_message` call on the `pending` map; no ensures of its own: `ReplyTakesPriority`, `OnlyOwnKeyTouched`, `UnmatchedIsDropped` and `MatchedIsSubmitted` prove each of its three branches and what it leaves alone |
| Dispatch.Run | smalld_click/smalld_click.py:47-61 | over any sequence of messages with no wait registered, dispatch never adds a pending entry and never replaces a handle: every entry left is an original entry with its original handle |
| Dispatch.ReplyTakesPriority | smalld_click/smalld_click.py:52-55 | with a handle pending under the sender's key, the key is removed and that handle is completed, and nothing is submitted, even when the content matches `prefix + name` |
| Dispatch.OnlyOwnKeyTouched | smalld_click/smalld_click.py:52 | after a message, the keys are the old keys minus the sender's key, and every other entry keeps its handle |
| Dispatch.UnmatchedIsDropped | smalld_click/smalld_click.py:57-58 | with nothing pending under the key and content not starting with `prefix + name`, the message is dropped and `pending` is unchanged |
| Dispatch.MatchedIsSubmitted | smalld_click/smalld_click.py:59-61 | otherwise one task is submitted, carrying the whole message and the content minus the prefix, left-trimmed; the name is still at its front whenever the name does not start with whitespace |
| Dispatch.RunIsolatesKeys | smalld_click/smalld_click.py:47-55 | over any sequence of messages, none sent under a key, that key's entry is unchanged and its handle is never completed |
| Dispatch.CompletedAtMostOnce | smalld_click/smalld_click.py:52-55 | over any sequence of messages, a pending handle is completed exactly once if some message arrives under its key, and never otherwise |
| Runner.Completable.constructor | smalld_click/utils.py:9-11 | a new handle holds no result |
| Runner.Completable.CompleteWith | smalld_click/utils.py:17-20 | `complete_with` stores the message, overwriting any earlier one |
| Runner.SmallDCliRunner.constructor | smalld_click/smalld_click.py:19-36 | with the defaults `prefix=""`, `name=None`, `timeout=60`, `create_message=None`: `name` is the given name if one is given, else `cli.name`, else ""; `create_message` is the given factory, else `plain_message`; `pending` starts empty and nothing has been submitted |
| Runner.SmallDCliRunner.OnMessage | smalld_click/smalld_click.py:47-61 | `pending` becomes `Step`'s map. A popped handle is completed with the message, with nothing submitted and None returned. A dropped message changes nothing. A matched message appends exactly one task, which is returned. No other handle changes. |
| Runner.SmallDCliRunner.Register | smalld_click/smalld_click.py:85-87 | a fresh, uncompleted handle is stored under the key, replacing any earlier entry (last writer wins); the other entries are unchanged |
| Runner.SmallDCliRunner.Await | smalld_click/smalld_click.py:88-92 | when the wait is signalled, it returns the handle's result and leaves `pending` as it is; on timeout it removes the key and raises TimeoutError |

## Left out

- `Completable`'s condition variable (smalld_click/utils.py:8-25). Its
  `wait(timeout)` is the free boolean `signalled` of `Await`, and `notify` is
  not modelled. The blocking and the threads are left out.
- Atomicity of `pending` under concurrent access: the model runs every
  operation one after another.
- `__enter__`/`__exit__`, `patch_click_functions`/`restore_click_functions` and
  the monkey-patching of click's `echo`/`prompt` in smalld_click/utils.py:28-55:
  process-wide replacement of foreign library functions.
- The `conversation` module (`Conversation`, `say`, `ask`, `get_reply`, output
  buffering and flushing, private-channel escalation) is not part of this
  model. So the creation and entry of the `Conversation` and the parent click
  `Context` at lines 64-69 are left out, and so is the flush when they exit.
- `ThreadPoolExecutor` is left out. `submit` is the append to `submitted`, and
  the returned future is the returned task.
- The `executor` argument of `__init__` is left out: it only matters to the
  pool. `create_message` is kept as the field `createMessage`, but its uses
  are in the conversation module, which is not part of this model.
- `timeout` is kept as a field, but it has no effect beyond `signalled`.
- Runner.SmallDCliRunner.Await: `signalled` over-approximates
  `Completable.wait`. Python's `wait` returns True only after a `notify`, which
  `complete_with` sends right after storing the result. The model also allows a
  signalled wait on a handle that was never completed, returning
  `Success(None)`.
- Click's `make_context`, `invoke` and `fail` are the function parameter
  `invoke`, and `ctx.fail` is modelled as raising a ClickException with the
  error text. The tokenising itself (`shlex.split`) is the function parameter
  `split`.
- What `e.show()` prints and what `logger.exception` writes are left out; the
  model keeps only which of the two happens. The smalld transport and
  `get_distribution` versioning are left out too.
- Exceptions raised while the `ExitStack` closes its contexts are left out.
- `Runner.SmallDCliRunner.constructor` receives `cli.name` as a value. So the
  AttributeError that `cli=None` with no name raises at line 32 is not
  modelled.
- An inbound message keeps only the three fields the runner reads.

## Findings

| source | as written | input that shows it | evidently intended | confidence | as-written member | corrected member |
|---|---|---|---|---|---|---|
| smalld_click/smalld_click.py:71 | `parse_command(command)` passes one argument to a two-parameter function, so every command raises TypeError, which the bare `except` logs | message "!g" to a runner with prefix "!" and name "g" | `parse_command(self.name, command)`, running the command | high, not executed | Commands.EveryCommandLoggedAsWritten | Commands.IntendedRunsCommand |
| smalld_click/smalld_click.py:101-102 | `name, *rest = ...` rebinds `name`, so `name != name` never holds and any first word is dropped | message "!gx y" with prefix "!" and name "g": the task's command is "gx y". As written, that task fails at line 71 first. The direct call `parse_command("g", "gx y")` drops "gx" and tokenises "y", and so would the task once line 71 passes the name | return `(None, None)` when the first word is not the runner's name | medium, not executed | Commands.LongerWordSlipsThrough | Commands.ParseCommandChecked |

The main model keeps the code as written: `Commands.HandleCommand` and
`Commands.ParseCommand`. The corrected handler, `Commands.HandleCommandIntended`,
passes the name and uses `Commands.ParseCommandChecked`. The lemmas
`IntendedRunsCommand`, `IntendedRejectsWrongName`, `BlankCommandLoggedIntended`,
`TokenizeErrorIsSilent` and `TimedOutWaitEndsQuietly` are about this corrected
handler.
