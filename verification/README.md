# Discord status bot — session statistics, uptime, latency, status rotation, command errors

The bot keeps one in-memory record of session statistics (`bot_stats`: start
time, messages seen, commands used, servers joined, members served), updates it
from four gateway events, rotates its presence line every five minutes, and
declares five commands (`ping`, `invite`, `stats`, `uptime`, `help`) that answer
with reports built from that record and from the guilds it can see. With the
client library's default settings the fifth registration, `help`, fails while
the script is being loaded, because the library already provides a built-in
`help` (see `Commands.Resolve` under "## Left out"). This project models the
logic inside the handlers as if all five were registered, as pure Dafny
functions, and proves what they promise.

Modules, one per component:

- `SessionStats` (`session_stats.dfy`): the statistics record, one transition per
  event (`OnReady`, `OnMessage`, `OnGuildJoin`, `OnCommand`), and `Run`, which
  handles a sequence of events in delivery order.
- `Uptime` (`uptime.dfy`): the difference of two instants as a Python
  `timedelta` in normal form, and its `divmod` split into days, hours, minutes
  and seconds. It also holds the uptime shown by `ping` and the reply of
  `uptime`.
- `Latency` (`latency.dfy`): the four latency buckets and the report colour.
- `Colours` (`colours.dfy`): the green and red embed colours shared by the
  reports and the error notices.
- `StatusRotation` (`status_rotation.dfy`): the four status lines and the
  rotation index `commands_used % 4`.
- `Commands` (`commands.dfy`): the five registered command names, and the
  notice `on_command_error` sends.
- `Reports` (`reports.dfy`): the figures of the `ping` and `stats` reports,
  including the member total over all guilds.

Inputs the bot takes from its environment are parameters here: the current
instant (`now`, whole microseconds), the latency (whole milliseconds), the bot's
own user id, the guild list with its member, channel and role counts, the user
count, and where a command was invoked.

Behaviours of the code that follow from the lines cited:

- `start_time` is overwritten on every ready signal, so it holds the last
  connection's instant (main.py:26, `SessionStats.ReadyOverwrites`).
- Before the first ready signal `ping` shows "Unknown" and `uptime` sends
  nothing, because its `if` has no `else` (main.py:76-83, 239-253).
- The `stats` command reports the number of users the bot can see
  (main.py:229). The member total over all guilds is part of `ping`
  (main.py:109).
- The status line advances only when a command is invoked, never with time,
  because its index is `commands_used` modulo four (main.py:67,
  `StatusRotation.RotationStableWithoutCommands`).

A wall clock that moves backwards gives a negative `timedelta`. The model covers
this with Python's floor semantics: one microsecond back reads as
`-1d 23h 59m 59s` (`Uptime.ElapsedClockMovedBack`).

## Model

| member | source | states |
|---|---|---|
| SessionStats.OnReady | main.py:24-26 | the start time becomes the current instant whatever it was before; no counter changes |
| SessionStats.OnMessage | main.py:35-41 | a message from the bot itself leaves the record unchanged; any other message raises `messages_sent` by exactly one and changes nothing else |
| SessionStats.OnGuildJoin | main.py:46-48 | a guild join raises `servers_joined` by one and changes nothing else |
| SessionStats.OnCommand | main.py:51-53 | a command raises `commands_used` by one and changes nothing else |
| SessionStats.RunCounters | main.py:16-53 | after any event sequence each counter equals its old value plus the number of events of its own kind, so counters never decrease; `members_served` never changes |
| SessionStats.FreshRunCountsMessages | main.py:16-41 | from the initial record, `messages_sent` is the number of messages from other users, however they interleave with other events |
| SessionStats.RunWithoutReadyKeepsStart | main.py:24-26 | with no ready signal in a run, the start time is unchanged |
| SessionStats.RunStartIsLastReady | main.py:24-26 | after a run the start time is the instant of the last ready signal in it |
| SessionStats.ReadyOverwrites | main.py:26 | a second ready signal replaces the first start time; it is not set once |
| SessionStats.StepsCommute | main.py:36-53 | any two events other than two ready signals give the same record in either order |
| Uptime.DeltaOfMicros | main.py:77 | the difference is in `timedelta` normal form (0 <= seconds < 86400, 0 <= microseconds < 10^6) and has exactly the given length |
| Uptime.Difference | main.py:77 | `now - start_time` is a normal delta whose length is the difference of the instants |
| Uptime.DeltaOfTotal | main.py:77-78 | the normal form is unique: any normal delta is rebuilt from its own length |
| Uptime.Split | main.py:78-80 | hours < 24, minutes < 60, seconds < 60, days kept; the parts add back up to the delta's whole seconds |
| Uptime.Elapsed | main.py:77-81 | the displayed uptime is bounded and stands for the elapsed time rounded down to whole seconds |
| Uptime.ClockUnique | main.py:78-80 | two bounded readings with the same total seconds are equal, so the split is the only valid display |
| Uptime.ElapsedWholeSeconds | main.py:77-81 | t whole seconds after the start, days*86400 + hours*3600 + minutes*60 + seconds == t and days == t / 86400 |
| Uptime.ElapsedExample | main.py:77-81 | one day, two hours, three minutes and four seconds after the start reads as 1d 2h 3m 4s |
| Uptime.ElapsedClockMovedBack | main.py:77-80 | an instant one microsecond before the start reads as -1 days, 23:59:59 |
| Uptime.PingUptime | main.py:76-83 | `ping` shows "Unknown" exactly when the start time is unset, otherwise a bounded reading of the elapsed whole seconds |
| Uptime.UptimeCommand | main.py:239-253 | `uptime` sends no reply exactly when the start time is unset; otherwise its reply holds the recorded start and a bounded reading of the elapsed seconds |
| Uptime.PingAndUptimeAgree | main.py:240-243 | the copy of the split in `uptime` shows the same reading as the one in `ping` |
| Latency.Classify | main.py:89-100 | Excellent iff < 100 ms, Good iff 100-199, Average iff 200-299, Poor iff >= 300 |
| Latency.ClassifyMonotone | main.py:89-100 | a larger latency never gives a better bucket |
| Latency.ClassifyBoundaries | main.py:89-100 | 99 and 100, 199 and 200, 299 and 300 fall on the sides of each boundary that the `if`/`elif` chain gives |
| Latency.ReportColour | main.py:115 | the report is green (0x00ff00) exactly below 200 ms and red (0xff0000) otherwise |
| Latency.ColourMatchesBucket | main.py:89-115 | the report is green exactly when the bucket is Excellent or Good, and red exactly when it is Average or Poor |
| StatusRotation.StatusMessages | main.py:58-63 | there are exactly four status lines |
| StatusRotation.RotationIndex | main.py:67 | the index is below four and congruent to the command count modulo four |
| StatusRotation.Tick | main.py:57-67 | the chosen line is servers, messages, commands or "always online" as the command count is 0, 1, 2 or 3 modulo four, and shows the live values |
| StatusRotation.RotationExample | main.py:67 | command counts 0, 1, 2, 3, 4 select lines 0, 1, 2, 3, 0 |
| StatusRotation.CommandAdvancesRotation | main.py:51-67 | each command moves the rotation on by exactly one position, modulo four |
| StatusRotation.RotationStableWithoutCommands | main.py:56-67 | with no command in between, any number of ticks and other events select the same line |
| StatusRotation.RotationAfterRun | main.py:51-67 | after any run of events the index has moved by the number of commands in it, modulo four |
| Commands.Resolve | main.py:71-275 | a name resolves to the command registered under it; it fails with the not-found condition, and no other error, exactly when no command has that name |
| Commands.ResolveName | main.py:71-275 | each of the five registered names resolves to its own command |
| Commands.OnCommandError | main.py:278-293 | both notices are red; the not-found notice deletes itself after 10 seconds; every other error gives a persistent notice whose body contains the error text |
| Commands.ErrorTextRoundTrip | main.py:288-293 | the error text is carried verbatim and can be read back from the notice body |
| Commands.UnknownNameGivesNotFoundNotice | main.py:280-286 | an unregistered name ends in the 10-second notice, which names the help command with its prefix |
| Reports.TotalMembers | main.py:109 | the left-to-right accumulation equals the sum of the member counts, and no single guild's count exceeds it |
| Reports.TotalMembersExample | main.py:109 | guilds of 10, 20 and 30 members total 60 |
| Reports.Ping | main.py:71-183 | in a direct message the report fails with a raised error that the handler keeps as a persistent notice; otherwise the report holds `ping`'s uptime ("Unknown" iff unstarted, else the bounded elapsed reading), the latency as given, its bucket, the colour of main.py:115 (green below 200 ms, red otherwise, so agreeing with the bucket), the guild count, the member, channel and role sums, the stored counters and the current guild's members |
| Reports.StatsCommand | main.py:210-234 | `stats` reports the three usage counters exactly as stored, the guild and user counts and the latency |
| Reports.StatsReportsEvents | main.py:210-224 | after any event run from the initial record, `stats` reports exactly the counted messages, commands and guild joins |

## Left out

- The chat-platform client library: gateway connection, `bot.run`, `change_presence`, `ctx.send`, embed construction and field layout, and the invite URL. They are foreign code.
- Prefix parsing, `process_commands`, and the moment `on_command` fires belong to the client library and are not modelled.
- Commands.Resolve: the not-found condition is raised by the client library, not by the bot's own code, and the model states the library's lookup in a simplified form. A bare prefix with no name raises nothing in the library, but here `Resolve("")` fails as not found; this rests on library code that is not part of this model.
- Commands.Resolve: the script as written does not start with the library version it needs. `intents.message_content` (main.py:10) exists only in version 2 of the library. In that version the bot built at main.py:13 already registers a built-in `help`, so registering the bot's own `help` (main.py:255) raises a registration error while the module is loaded, and `bot.run` (main.py:311) is never reached. The model describes the handlers as they behave once all five commands are registered, for example with the built-in `help` switched off. This rests on library code that is not part of this model and was not executed.
- Reports.TotalMembers: a guild's member count is a whole number here. In the library it can be absent for an unavailable guild, and then the member total at main.py:109 raises a type error and `ping` ends in the persistent error notice. The model does not cover that path.
- Reports.Ping: has the same gap, for the member total and for the current guild's member count (main.py:165), which fails the same way when absent.
- The `invite` and `help` commands: they send static text and an invite URL, with no logic.
- The five-minute timer of the presence loop and the `keep_alive` sleep loop: they are asynchronous scheduling. A tick is a call of `StatusRotation.Tick`.
- `bot.latency * 1000` and `round`: these are floating point. The latency is taken as whole milliseconds.
- `datetime.now()` and `strftime`: the instant is a parameter in whole microseconds, and the start time is returned as an instant, not formatted text.
- The decimal and Markdown text of reports, the emoji, and the thousands separators: these are formatting, with no behaviour.
- Reports.Ping: the error text is the inner `AttributeError` message. The library's wrapping of command errors is foreign code. A missing guild owner, which would fail the same way, is not modelled.
- Reading the token from the environment and the console prints at startup: these are I/O.
- `members_served` is never written by the code. The model keeps it and proves it stays at its initial value.
