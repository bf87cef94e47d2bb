/**
 * The preparation half of `runCommand` in `run.js`: the working directory, the merged
 * environment, the platform wrapper and the split into executable and arguments.
 */
module Command {
  import opened Wrappers
  import opened Text
  import opened Tokenizer
  import opened Environment

  /** The host state `runCommand` reads: `process.platform`, `process.env` and `process.cwd()`. */
  datatype Host = Host(platform: string, env: map<string, string>, cwd: string)

  /** What is handed to `child_process.spawn`. */
  datatype Invocation = Invocation(executable: string, args: seq<string>, cwd: string, env: map<string, string>)

  /** `/^win/.test(process.platform)` */
  predicate IsWindows(platform: string) {
    |platform| >= 3 && platform[..3] == "win"
  }

  /** `process.env.comspec` as it reads inside a string concatenation: `"undefined"` when unset. */
  function Comspec(env: map<string, string>): string {
    if "comspec" in env then env["comspec"] else "undefined"
  }

  /** The command line after the Windows `comspec /c` wrapper (`run.js:30-32`); unchanged elsewhere. */
  function CommandLine(host: Host, command: string): string {
    if IsWindows(host.platform) then Comspec(host.env) + " /c " + command else command
  }

  /** `cwd || process.cwd()`: an absent or empty directory falls back to the current one. */
  function ResolvedCwd(host: Host, cwd: Option<string>): string {
    if cwd.None? || cwd.value == "" then host.cwd else cwd.value
  }

  /** `apply(env || {}, Object.create(process.env))` */
  function MergedEnv(host: Host, env: Option<map<string, string>>): map<string, string> {
    Overlay(if env.Some? then env.value else map[], host.env)
  }

  /**
   * What `runCommand` spawns, or the error it throws before spawning: the first
   * space-separated piece of the command line is the executable, and only the remaining
   * pieces go through `joinQuotes`.
   */
  function Prepared(host: Host, command: string, cwd: Option<string>, env: Option<map<string, string>>)
    : Result<Invocation, JoinError>
  {
    var pieces := SplitSpace(CommandLine(host, command));
    match Joined(pieces[1..])
    case Success(args) => Success(Invocation(pieces[0], args, ResolvedCwd(host, cwd), MergedEnv(host, env)))
    case Failure(e) => Failure(e)
  }

  /** The statements of `runCommand` up to the call of `spawn`, in the source's order. */
  method PrepareRun(host: Host, command: string, cwd: Option<string>, env: Option<map<string, string>>)
    returns (r: Result<Invocation, JoinError>)
    ensures r == Prepared(host, command, cwd, env)
  {
    var dir := host.cwd;
    if cwd.Some? && cwd.value != "" {
      dir := cwd.value;
    }
    var overrides := if env.Some? then env.value else map[];
    var merged := Apply(overrides, host.env);
    var line := command;
    if IsWindows(host.platform) {
      line := Comspec(host.env) + " /c " + line;
    }
    var args := SplitSpace(line);
    var executable := args[0];
    args := args[1..];
    var stringArgs := JoinQuotes(args);
    match stringArgs
    case Failure(e) =>
      r := Failure(e);
    case Success(a) =>
      r := Success(Invocation(executable, a, dir, merged));
  }

  /**
   * Off Windows, a command whose arguments neither open nor close a quote is split
   * naively on spaces, and the executable and arguments joined again give the command.
   */
  lemma UnquotedCommandSplitsNaively(host: Host, command: string, cwd: Option<string>, env: Option<map<string, string>>)
    requires !IsWindows(host.platform)
    requires forall i :: 1 <= i < |SplitSpace(command)| ==> Plain(SplitSpace(command)[i])
    ensures Prepared(host, command, cwd, env).Success?
    ensures [Prepared(host, command, cwd, env).value.executable] + Prepared(host, command, cwd, env).value.args
      == SplitSpace(command)
    ensures JoinSpace([Prepared(host, command, cwd, env).value.executable] + Prepared(host, command, cwd, env).value.args)
      == command
  {
    var pieces := SplitSpace(command);
    assert forall i :: 0 <= i < |pieces[1..]| ==> Plain(pieces[1..][i]) by {
      forall i | 0 <= i < |pieces[1..]| ensures Plain(pieces[1..][i]) { assert pieces[1..][i] == pieces[i + 1]; }
    }
    PlainArgsUnchanged(pieces[1..]);
    assert [pieces[0]] + pieces[1..] == pieces;
    JoinSplit(command);
  }

  /**
   * Off Windows, the first word is the executable as it stands, even when it opens a
   * quote: it never goes through `joinQuotes`, which only sees the words after it.
   */
  lemma ExecutableNeverJoined(host: Host, word: string, rest: string, cwd: Option<string>, env: Option<map<string, string>>)
    requires !IsWindows(host.platform)
    requires Space !in word
    ensures Prepared(host, word + " " + rest, cwd, env) ==
      match Joined(SplitSpace(rest))
      case Success(a) => Success(Invocation(word, a, ResolvedCwd(host, cwd), MergedEnv(host, env)))
      case Failure(e) => Failure(e)
  {
    SplitAfterWord(word, rest);
    assert ([word] + SplitSpace(rest))[1..] == SplitSpace(rest);
  }

  /**
   * On Windows the wrapped line splits into the pieces of the interpreter path, `/c`,
   * and the pieces of the command; an interpreter path with spaces is itself split, so
   * only its first piece becomes the executable.
   */
  lemma WindowsLinePieces(host: Host, command: string)
    requires IsWindows(host.platform)
    ensures SplitSpace(CommandLine(host, command)) == SplitSpace(Comspec(host.env)) + ["/c"] + SplitSpace(command)
  {
    var c := Comspec(host.env);
    assert c + " /c " + command == c + " " + ("/c" + " " + command);
    SplitAround(c, "/c" + " " + command);
    SplitAfterWord("/c", command);
  }

  /**
   * On Windows, with an interpreter path free of spaces, the interpreter is the
   * executable, `/c` its first argument, and the whole original command, first word
   * included, goes through `joinQuotes` after it.
   */
  lemma WindowsWrapsInInterpreter(host: Host, command: string, cwd: Option<string>, env: Option<map<string, string>>)
    requires IsWindows(host.platform)
    requires Space !in Comspec(host.env)
    ensures Prepared(host, command, cwd, env) ==
      match Joined(SplitSpace(command))
      case Success(a) => Success(Invocation(Comspec(host.env), ["/c"] + a, ResolvedCwd(host, cwd), MergedEnv(host, env)))
      case Failure(e) => Failure(e)
  {
    var c := Comspec(host.env);
    assert c + " /c " + command == c + " " + ("/c" + " " + command);
    SplitAfterWord(c, "/c" + " " + command);
    SplitAfterWord("/c", command);
    var pieces := [c] + ([ "/c"] + SplitSpace(command));
    assert SplitSpace(CommandLine(host, command)) == pieces;
    assert pieces[1..] == ["/c"] + SplitSpace(command);
    assert Plain("/c");
    PlainTokenFirst("/c", SplitSpace(command));
  }

  /**
   * A quoted executable name with a space is not supported. For `"my prog"`,
   * `"my big prog" x` or any such name, the executable becomes the first word (`"my`).
   * The words up to the closing one are pushed as plain arguments, and the closing word
   * reaches `joinQuotes` with no group open, so `runCommand` throws before spawning,
   * whatever words follow.
   */
  lemma QuotedExecutableThrows(host: Host, word: string, mids: seq<string>, close: string, tail: seq<string>,
                               cwd: Option<string>, env: Option<map<string, string>>)
    requires !IsWindows(host.platform)
    requires Space !in word
    requires forall i :: 0 <= i < |mids| ==> Plain(mids[i]) && Space !in mids[i]
    requires Space !in close && EndsWithQuote(close) && !StartsWithQuote(close)
    requires forall i :: 0 <= i < |tail| ==> Space !in tail[i]
    ensures Prepared(host, word + " " + JoinSpace(mids + [close] + tail), cwd, env)
      == Failure(CloseWithoutOpen(close))
  {
    var parts := mids + [close] + tail;
    assert forall i :: 0 <= i < |mids| ==> Space !in mids[i];
    SpaceFreeAround(mids, close, tail);
    SplitJoin(parts);
    ExecutableNeverJoined(host, word, JoinSpace(parts), cwd, env);
    PlainThenStrayClose(mids, close, tail);
  }

  /**
   * `cat "the file name"` (`cat`, a space, and the three words of the quoted name
   * joined by spaces) with no directory and no overrides spawns `cat` with the one
   * quoted argument `"the file name"`, in the current directory, with the ambient
   * environment.
   */
  lemma QuotedFileNameCommand(host: Host, rest: string)
    requires !IsWindows(host.platform)
    requires rest == JoinSpace(["\"the", "file", "name\""])
    ensures Prepared(host, "cat" + " " + rest, None, None)
      == Success(Invocation("cat", ["\"the file name\""], host.cwd, host.env))
  {
    var words := ["\"the", "file", "name\""];
    assert forall i :: 0 <= i < |words| ==> Space !in words[i];
    SplitJoin(words);
    ExecutableNeverJoined(host, "cat", rest, None, None);
    QuotedFileNameArgument();
    assert Overlay(map[], host.env) == host.env;
  }
}
