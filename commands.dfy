/** What happens to one accepted command once a worker runs it: `parse_command`,
    the body of `handle_command`, and the exception classification done by
    `managed_click_execution` (smalld_click/smalld_click.py:63-128).

    The command-line framework is outside the model: `shlex.split` is the
    function parameter `split`, and click's `make_context` followed by `invoke`
    is the function parameter `invoke`, which yields the exception it raises,
    if any. */
module Commands {
  import opened Wrappers
  import opened Text

  /** The exception kinds that can leave a command body. */
  datatype Exc =
    | ClickException(message: string)   // click.exceptions.ClickException and its subclasses, UsageError among them
    | Exit(code: int)                   // click.exceptions.Exit
    | Abort                             // click.exceptions.Abort
    | TimeoutError(message: string)     // raised by a reply wait that timed out
    | ValueError(message: string)
    | TypeError(message: string)
    | OtherException(message: string)   // anything else

  /** How `managed_click_execution` ends a command. */
  datatype Disposition =
    | Finished              // the body returned normally
    | Shown(message: string)  // a ClickException, shown to the user through `e.show()`
    | Absorbed              // Exit, Abort or TimeoutError: silently ended
    | Logged(error: Exc)    // anything else: logged for operators

  /** The pair `(args, error)` that `parse_command` returns. */
  datatype Parsed = Parsed(args: Option<seq<string>>, error: Option<string>)

  /** The tokeniser: `shlex.split`, which returns the tokens or raises
      ValueError with a message. */
  type Tokenizer = string -> Result<seq<string>, string>

  /** `click`'s `make_context(prog_name, args)` followed by `invoke(ctx)`:
      `None` when the command returns, otherwise the exception it raises. */
  type Invoker = (string, seq<string>) -> Option<Exc>

  const TimeoutMessage := "timed out while waiting for user response"
  const UnpackMessage := "not enough values to unpack (expected at least 1, got 0)"
  const ArityMessage := "parse_command() missing 1 required positional argument: 'command'"

  /** `plain_message(msg)`: the outbound payload `{"content": msg}`. */
  datatype Outbound = Outbound(content: string)

  function PlainMessage(text: string): (r: Outbound)
    ensures r.content == text
  {
    Outbound(text)
  }

  /** The try/except around `shlex.split(command)`: either the tokens and no
      error, or no tokens and the ValueError's message. */
  function Tokenize(command: string, split: Tokenizer): (p: Parsed)
    ensures p.args.Some? <==> p.error.None?
    ensures split(command).Success? ==> p.args == Some(split(command).value)
    ensures split(command).Failure? ==> p.error == Some(split(command).error)
  {
    match split(command)
    case Success(tokens) => Parsed(Some(tokens), None)
    case Failure(message) => Parsed(None, Some(message))
  }

  /** `parse_command(name, command)` as written. With a non-empty name the
      first word of `command` is dropped; a blank `command` makes the unpacking
      `name, *rest = ...` raise ValueError (outside the try). The unpacking
      rebinds `name`, so the wrong-name test `name != name` compares the first
      word with itself and never fires. */
  function ParseCommand(name: string, command: string, split: Tokenizer): (r: Result<Parsed, Exc>)
    ensures r.Failure? <==> name != [] && AllSpace(command)
    ensures r.Failure? ==> r.error == ValueError(UnpackMessage)
    ensures name == [] ==> r == Success(Tokenize(command, split))
  {
    if name != [] then
      var parts := SplitOnce(command);
      SplitOnceBlank(command);
      if parts == [] then Failure(ValueError(UnpackMessage))
      else
        var first, rest := parts[0], parts[1..];
        // smalld_click.py:102 compares the rebound name with itself.
        if first != first then Success(Parsed(None, None))
        else Success(Tokenize(Join(rest), split))
    else
      Success(Tokenize(command, split))
  }

  /** The wrong-name early return of `parse_command` never fires: whatever the
      name and the command, the result is never `(None, None)`, and a non-empty
      name only ever drops the first word. */
  lemma WrongNameNeverRejected(name: string, command: string, split: Tokenizer)
    requires ParseCommand(name, command, split).Success?
    ensures ParseCommand(name, command, split).value.args.Some?
         || ParseCommand(name, command, split).value.error.Some?
    ensures name != [] ==>
      ParseCommand(name, command, split).value == Tokenize(Join(SplitOnce(command)[1..]), split)
  {
  }

  /** `parse_command` as evidently intended: with a non-empty name, a command
      whose first word is not that name gives `(None, None)`. */
  function ParseCommandChecked(name: string, command: string, split: Tokenizer): (r: Result<Parsed, Exc>)
    ensures r.Failure? <==> name != [] && AllSpace(command)
    ensures r.Success? && r.value.args.Some? ==> name == [] || SplitOnce(command)[0] == name
    ensures r.Success? && name != [] && SplitOnce(command)[0] != name ==> r.value == Parsed(None, None)
  {
    if name != [] then
      var parts := SplitOnce(command);
      SplitOnceBlank(command);
      if parts == [] then Failure(ValueError(UnpackMessage))
      else if parts[0] != name then Success(Parsed(None, None))
      else Success(Tokenize(Join(parts[1..]), split))
    else
      Success(Tokenize(command, split))
  }

  /** The dead check on a concrete command: the message "!gx y" starts with the
      prefix "!" followed by the name "g", so the runner accepts it with the
      command text "gx y". As written, the first word "gx" is dropped and "y" is
      tokenised; as intended, the wrong first word gives `(None, None)`. */
  lemma LongerWordSlipsThrough(split: Tokenizer)
    ensures ParseCommand("g", "gx y", split) == Success(Tokenize("y", split))
    ensures ParseCommandChecked("g", "gx y", split) == Success(Parsed(None, None))
  {
  }

  /** The call `parse_command(*actuals)`: Python raises TypeError unless exactly
      the two declared parameters are supplied. The message is CPython's for
      one argument, the only arity used (line 71); its wording for no
      arguments or for three or more differs and is not modelled. */
  function CallParseCommand(actuals: seq<string>, split: Tokenizer): (r: Result<Parsed, Exc>)
    ensures r == Failure(TypeError(ArityMessage)) <==> |actuals| != 2
  {
    if |actuals| != 2 then Failure(TypeError(ArityMessage))
    else ParseCommand(actuals[0], actuals[1], split)
  }

  /** `managed_click_execution`: every exception leaving the body is caught.
      ClickException is shown, Exit, Abort and TimeoutError end the command
      silently, and anything else is logged. */
  function ManagedExecution(raised: Option<Exc>): (d: Disposition)
    ensures raised == None <==> d == Finished
    ensures d.Shown? <==> raised.Some? && raised.value.ClickException?
    ensures d.Shown? ==> d.message == raised.value.message
    ensures d == Absorbed <==>
      raised.Some? && (raised.value.Exit? || raised.value.Abort? || raised.value.TimeoutError?)
    ensures d.Logged? ==> raised == Some(d.error)
  {
    match raised
    case None => Finished
    case Some(ClickException(m)) => Shown(m)
    case Some(Exit(_)) => Absorbed
    case Some(Abort) => Absorbed
    case Some(TimeoutError(_)) => Absorbed
    case Some(e) => Logged(e)
  }

  /** Lines 72-83 of `handle_command`, given the outcome of the parse call:
      the exception that leaves the body, if any. No tokens: return early.
      A non-empty tokeniser error: `ctx.fail` raises a UsageError. Otherwise the
      command runs under the program name `prefix + name`. The source builds the
      context (line 75) before `ctx.fail` (lines 80-81); testing the error first
      makes no difference here, because `Tokenize` never sets both tokens and an
      error, so the usage-error branch is only reached with no tokens, where the
      early return has already happened. */
  function RunParsed(parsed: Result<Parsed, Exc>, progName: string, invoke: Invoker): Option<Exc>
  {
    match parsed
    case Failure(e) => Some(e)
    case Success(Parsed(args, error)) =>
      if args.None? then None
      else if error.Some? && error.value != [] then Some(ClickException(error.value))
      else invoke(progName, args.value)
  }

  /** `handle_command(msg, command)` as written: line 71 calls
      `parse_command(command)` with one argument although the function takes two. */
  function HandleCommand(prefix: string, name: string, command: string,
                         split: Tokenizer, invoke: Invoker): Disposition
  {
    ManagedExecution(RunParsed(CallParseCommand([command], split), prefix + name, invoke))
  }

  /** `handle_command` as evidently intended: the runner's name is passed to
      the parse, and the parse rejects a command whose first word is not it. */
  function HandleCommandIntended(prefix: string, name: string, command: string,
                                 split: Tokenizer, invoke: Invoker): (d: Disposition)
  {
    ManagedExecution(RunParsed(ParseCommandChecked(name, command, split), prefix + name, invoke))
  }

  /** As written, no command ever runs: every accepted command ends in a logged
      TypeError, whatever its text, the tokeniser and the command do. */
  lemma EveryCommandLoggedAsWritten(prefix: string, name: string, command: string,
                                    split: Tokenizer, invoke: Invoker)
    ensures HandleCommand(prefix, name, command, split, invoke) == Logged(TypeError(ArityMessage))
  {
  }

  /** The discrepancy on a concrete command: for the message "!g" sent to a
      runner with prefix "!" and name "g", whose command takes no arguments and
      returns, the intended handler finishes the command while the handler as
      written logs a TypeError. */
  lemma ArityMismatchExample(split: Tokenizer, invoke: Invoker)
    requires split("") == Success([])
    requires invoke("!g", []) == None
    ensures HandleCommandIntended("!", "g", "g", split, invoke) == Finished
    ensures HandleCommand("!", "g", "g", split, invoke) != Finished
  {
    var command := "g";
    assert !IsSpace(command[0]);
    assert SkipSpace(command, 0) == 0 && SkipWord(command, 1) == 1 && SkipWord(command, 0) == 1;
    assert SkipSpace(command, 1) == 1;
    assert command[0..1] == command;
    assert SplitOnce(command) == [command];
    assert Join(SplitOnce(command)[1..]) == [];
    assert "!" + "g" == "!g";
    assert !AllSpace(command);
    IntendedRunsCommand("!", "g", command, split, invoke);
  }

  /** The intended handler runs the command on the tokens of what follows the
      name, under the program name `prefix + name`, and classifies what it raises. */
  lemma IntendedRunsCommand(prefix: string, name: string, command: string,
                            split: Tokenizer, invoke: Invoker)
    requires name == [] ==> split(command).Success?
    requires name != [] ==> !AllSpace(command) && SplitOnce(command)[0] == name
                            && split(Join(SplitOnce(command)[1..])).Success?
    ensures var text := if name == [] then command else Join(SplitOnce(command)[1..]);
      HandleCommandIntended(prefix, name, command, split, invoke)
        == ManagedExecution(invoke(prefix + name, split(text).value))
  {
  }

  /** The intended handler ends a command whose first word is not the runner's
      name without running it. */
  lemma IntendedRejectsWrongName(prefix: string, name: string, command: string,
                                 split: Tokenizer, invoke: Invoker)
    requires name != [] && !AllSpace(command) && SplitOnce(command)[0] != name
    ensures HandleCommandIntended(prefix, name, command, split, invoke) == Finished
  {
  }

  /** A blank command for a runner with a non-empty name: the unpacking at
      line 101 raises ValueError, which the bare `except` logs. */
  lemma BlankCommandLoggedIntended(prefix: string, name: string, command: string,
                                   split: Tokenizer, invoke: Invoker)
    requires name != [] && AllSpace(command)
    ensures HandleCommandIntended(prefix, name, command, split, invoke) == Logged(ValueError(UnpackMessage))
  {
  }

  /** A command the tokeniser rejects (an unterminated quote, say) ends silently:
      `args` is None, so the handler returns at line 73 and the usage-error
      branch at lines 80-81 is never reached. */
  lemma TokenizeErrorIsSilent(prefix: string, name: string, command: string,
                              split: Tokenizer, invoke: Invoker)
    requires name == [] ==> split(command).Failure?
    requires name != [] ==> !AllSpace(command) && SplitOnce(command)[0] == name
                            && split(Join(SplitOnce(command)[1..])).Failure?
    ensures HandleCommandIntended(prefix, name, command, split, invoke) == Finished
  {
  }

  /** A reply wait that timed out inside the command ends it quietly, whatever
      the timeout's message. */
  lemma TimedOutWaitEndsQuietly(prefix: string, name: string, command: string,
                                split: Tokenizer, invoke: Invoker, m: string)
    requires name == [] ==> split(command).Success?
    requires name != [] ==> !AllSpace(command) && SplitOnce(command)[0] == name
                            && split(Join(SplitOnce(command)[1..])).Success?
    requires var text := if name == [] then command else Join(SplitOnce(command)[1..]);
      invoke(prefix + name, split(text).value) == Some(TimeoutError(m))
    ensures HandleCommandIntended(prefix, name, command, split, invoke) == Absorbed
  {
    IntendedRunsCommand(prefix, name, command, split, invoke);
  }
}
