/** The command registry and the error handler: the five registered command
    names, and the notice `on_command_error` sends for a failed invocation. */
module Commands {
  import Colours

  /** The prefix every command is typed with. */
  const Prefix: string := "!@"

  datatype Command = Ping | Invite | Stats | Uptime | Help

  /** The name each command is registered under. */
  function Name(c: Command): string
  {
    match c
    case Ping => "ping"
    case Invite => "invite"
    case Stats => "stats"
    case Uptime => "uptime"
    case Help => "help"
  }

  /** Why an invocation failed: the name matched no registered command, or a
      handler raised an error whose string form is `text`. */
  datatype CommandError = CommandNotFound(invokedWith: string) | Raised(text: string)

  datatype Lookup = Found(command: Command) | Failed(error: CommandError)

  /** Looks a typed name up among the registered commands; an unknown name is
      the not-found condition, never any other error. */
  function Resolve(name: string): (r: Lookup)
    ensures r.Found? ==> Name(r.command) == name
    ensures r.Failed? ==> r.error == CommandNotFound(name)
    ensures r.Failed? <==> forall c: Command :: Name(c) != name
  {
    if name == Name(Ping) then Found(Ping)
    else if name == Name(Invite) then Found(Invite)
    else if name == Name(Stats) then Found(Stats)
    else if name == Name(Uptime) then Found(Uptime)
    else if name == Name(Help) then Found(Help)
    else Failed(CommandNotFound(name))
  }

  /** Every registered name resolves to its own command, so no two commands
      share a name. */
  lemma ResolveName(c: Command)
    ensures Resolve(Name(c)) == Found(c)
  {
  }

  /** How long a notice stays in the channel. */
  datatype Lifetime = Persistent | DeleteAfter(seconds: nat)

  const NotFoundLifetimeSeconds: nat := 10

  datatype NoticeKind = CommandNotFoundNotice | ErrorOccurredNotice

  datatype Notice = Notice(kind: NoticeKind, body: string, colour: int, lifetime: Lifetime)

  /** The start of the code block the error text is wrapped in. */
  const Fence: string := "```"

  /** The not-found notice points the user at the help command. */
  const NotFoundBody: string := "Use `" + (Prefix + Name(Help)) + "` to see all available commands."

  /** `s` occurs in `t` as a contiguous piece. */
  predicate Contains(t: string, s: string)
  {
    exists i, j :: 0 <= i <= j <= |t| && t[i..j] == s
  }

  /** A string contains every middle piece of a concatenation. */
  lemma ContainsMiddle(a: string, b: string, c: string)
    ensures Contains(a + b + c, b)
  {
    var t := a + b + c;
    assert t[|a|..|a| + |b|] == b;
  }

  /** `on_command_error`: an unknown command gets a red notice that deletes
      itself after ten seconds; any other error gets a red notice that stays
      and carries the error text. */
  function OnCommandError(e: CommandError): (n: Notice)
    ensures n.colour == Colours.Red
    ensures n.kind == CommandNotFoundNotice <==> e.CommandNotFound?
    ensures n.lifetime == DeleteAfter(NotFoundLifetimeSeconds) <==> e.CommandNotFound?
    ensures n.lifetime == Persistent <==> e.Raised?
    ensures e.Raised? ==> Contains(n.body, e.text)
  {
    match e
    case CommandNotFound(_) =>
      Notice(CommandNotFoundNotice, NotFoundBody, Colours.Red, DeleteAfter(NotFoundLifetimeSeconds))
    case Raised(text) =>
      var body := Fence + text + Fence;
      ContainsMiddle(Fence, text, Fence);
      Notice(ErrorOccurredNotice, body, Colours.Red, Persistent)
  }

  /** The error text inside a persistent notice: its body without the fences. */
  function ErrorText(n: Notice): (text: string)
    requires n.kind == ErrorOccurredNotice && |n.body| >= 2 * |Fence|
    ensures |text| == |n.body| - 2 * |Fence|
  {
    n.body[|Fence|..|n.body| - |Fence|]
  }

  /** The error notice carries the error's text verbatim: it can be read back. */
  lemma ErrorTextRoundTrip(text: string)
    ensures OnCommandError(Raised(text)).kind == ErrorOccurredNotice
    ensures ErrorText(OnCommandError(Raised(text))) == text
  {
    var body := OnCommandError(Raised(text)).body;
    assert body == Fence + text + Fence;
    assert body[|Fence|..|body| - |Fence|] == text;
  }

  /** Typing an unregistered name ends in the short-lived notice, which names
      the help command with its prefix. */
  lemma UnknownNameGivesNotFoundNotice(name: string)
    requires forall c: Command :: Name(c) != name
    ensures Resolve(name).Failed?
    ensures OnCommandError(Resolve(name).error).lifetime == DeleteAfter(NotFoundLifetimeSeconds)
    ensures Contains(OnCommandError(Resolve(name).error).body, Prefix + Name(Help))
  {
    ContainsMiddle("Use `", Prefix + Name(Help), "` to see all available commands.");
  }
}
