/** The periodic presence update: on each tick one of four status lines is
    chosen by the command counter and shown as the bot's activity. */
module StatusRotation {
  import opened SessionStats

  /** The four status lines, in list order, with the values they show. */
  datatype StatusLine =
    | WatchingServers(guilds: nat)
    | MessagesProcessed(messages: nat)
    | CommandsUsed(commands: nat)
    | AlwaysOnline

  /** The status lines rendered from the live statistics and guild count. */
  function StatusMessages(s: Stats, guildCount: nat): (lines: seq<StatusLine>)
    ensures |lines| == 4
  {
    [WatchingServers(guildCount), MessagesProcessed(s.messagesSent), CommandsUsed(s.commandsUsed), AlwaysOnline]
  }

  /** The list position a tick selects: the command counter modulo the list length. */
  function RotationIndex(commandsUsed: nat): (i: nat)
    ensures i < 4
    ensures (commandsUsed - i) % 4 == 0
  {
    commandsUsed % 4
  }

  /** The activity a tick sets. Which line is chosen depends on the command
      counter alone; what it shows depends on the live values. */
  function Tick(s: Stats, guildCount: nat): (line: StatusLine)
    ensures line.WatchingServers? <==> s.commandsUsed % 4 == 0
    ensures line.MessagesProcessed? <==> s.commandsUsed % 4 == 1
    ensures line.CommandsUsed? <==> s.commandsUsed % 4 == 2
    ensures line.AlwaysOnline? <==> s.commandsUsed % 4 == 3
    ensures line.WatchingServers? ==> line.guilds == guildCount
    ensures line.MessagesProcessed? ==> line.messages == s.messagesSent
    ensures line.CommandsUsed? ==> line.commands == s.commandsUsed
  {
    StatusMessages(s, guildCount)[RotationIndex(s.commandsUsed)]
  }

  /** Commands 0, 1, 2, 3, 4 select lines 0, 1, 2, 3 and then line 0 again. */
  lemma RotationExample()
    ensures RotationIndex(0) == 0 && RotationIndex(1) == 1 && RotationIndex(2) == 2
    ensures RotationIndex(3) == 3 && RotationIndex(4) == 0
  {
  }

  /** Each command moves the rotation on by exactly one position. */
  lemma CommandAdvancesRotation(s: Stats)
    ensures RotationIndex(OnCommand(s).commandsUsed) == (RotationIndex(s.commandsUsed) + 1) % 4
  {
  }

  /** The rotation does not move with time: however many ticks and other
      events pass, as long as no command is invoked the same line is chosen. */
  lemma RotationStableWithoutCommands(s: Stats, events: seq<Event>, botUser: UserId)
    requires forall i :: 0 <= i < |events| ==> !events[i].Command?
    ensures RotationIndex(Run(s, events, botUser).commandsUsed) == RotationIndex(s.commandsUsed)
  {
    RunCounters(s, events, botUser);
    NoCommandsCounted(events);
  }

  lemma {:induction false} NoCommandsCounted(events: seq<Event>)
    requires forall i :: 0 <= i < |events| ==> !events[i].Command?
    ensures CountCommands(events) == 0
    decreases |events|
  {
    if |events| > 0 {
      assert !events[0].Command?;
      NoCommandsCounted(events[1..]);
    }
  }

  /** After any run of events the rotation has moved on by the number of
      commands among them, modulo four; four commands bring it back. */
  lemma RotationAfterRun(s: Stats, events: seq<Event>, botUser: UserId)
    ensures RotationIndex(Run(s, events, botUser).commandsUsed)
         == (RotationIndex(s.commandsUsed) + CountCommands(events)) % 4
  {
    RunCounters(s, events, botUser);
  }
}
