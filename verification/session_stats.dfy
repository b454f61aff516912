/** The bot's in-memory session statistics (the `bot_stats` record) and the
    gateway events that change it. Every handler is a pure transition from one
    record to the next; nothing is persisted. */
module SessionStats {

  /** A wall-clock reading in whole microseconds, the resolution of a Python
      `datetime`. Only differences of instants are ever used. */
  type Instant = int

  /** The identity of a chat-platform user; two users are equal when their ids are. */
  type UserId = nat

  /** `start_time`: `None` until the first ready signal. */
  datatype StartTime = Unset | StartedAt(at: Instant)

  datatype Stats = Stats(
    startTime: StartTime,
    messagesSent: nat,
    commandsUsed: nat,
    serversJoined: nat,
    membersServed: nat)

  /** The record as the process creates it: no start time, every counter zero. */
  const Initial: Stats := Stats(Unset, 0, 0, 0, 0)

  /** The gateway events the bot subscribes to. */
  datatype Event =
    | Ready(now: Instant)
    | Message(author: UserId)
    | GuildJoin
    | Command

  /** `on_ready`: records the current instant as the start time. A later ready
      signal (after a reconnect) overwrites the earlier one. */
  function OnReady(s: Stats, now: Instant): (r: Stats)
    ensures r.startTime == StartedAt(now)
    ensures r.messagesSent == s.messagesSent && r.commandsUsed == s.commandsUsed
    ensures r.serversJoined == s.serversJoined && r.membersServed == s.membersServed
  {
    s.(startTime := StartedAt(now))
  }

  /** `on_message`: counts every message except those the bot itself wrote. */
  function OnMessage(s: Stats, author: UserId, botUser: UserId): (r: Stats)
    ensures author == botUser ==> r == s
    ensures author != botUser ==> r.messagesSent == s.messagesSent + 1
    ensures r.startTime == s.startTime && r.commandsUsed == s.commandsUsed
    ensures r.serversJoined == s.serversJoined && r.membersServed == s.membersServed
  {
    if author == botUser then s else s.(messagesSent := s.messagesSent + 1)
  }

  /** `on_guild_join`: counts one more server joined. */
  function OnGuildJoin(s: Stats): (r: Stats)
    ensures r.serversJoined == s.serversJoined + 1
    ensures r.startTime == s.startTime && r.messagesSent == s.messagesSent
    ensures r.commandsUsed == s.commandsUsed && r.membersServed == s.membersServed
  {
    s.(serversJoined := s.serversJoined + 1)
  }

  /** `on_command`: counts one more command invocation. */
  function OnCommand(s: Stats): (r: Stats)
    ensures r.commandsUsed == s.commandsUsed + 1
    ensures r.startTime == s.startTime && r.messagesSent == s.messagesSent
    ensures r.serversJoined == s.serversJoined && r.membersServed == s.membersServed
  {
    s.(commandsUsed := s.commandsUsed + 1)
  }

  /** Dispatches one event to its handler. */
  function Step(s: Stats, e: Event, botUser: UserId): Stats
  {
    match e
    case Ready(now) => OnReady(s, now)
    case Message(author) => OnMessage(s, author, botUser)
    case GuildJoin => OnGuildJoin(s)
    case Command => OnCommand(s)
  }

  /** Handles a sequence of events in gateway-delivery order. */
  function Run(s: Stats, events: seq<Event>, botUser: UserId): Stats
    decreases |events|
  {
    if |events| == 0 then s else Run(Step(s, events[0], botUser), events[1..], botUser)
  }

  /** How many of the events are messages from someone other than the bot. */
  function CountMessages(events: seq<Event>, botUser: UserId): nat
    decreases |events|
  {
    if |events| == 0 then 0
    else (if events[0].Message? && events[0].author != botUser then 1 else 0)
         + CountMessages(events[1..], botUser)
  }

  /** How many of the events are command invocations. */
  function CountCommands(events: seq<Event>): nat
    decreases |events|
  {
    if |events| == 0 then 0
    else (if events[0].Command? then 1 else 0) + CountCommands(events[1..])
  }

  /** How many of the events are guild joins. */
  function CountJoins(events: seq<Event>): nat
    decreases |events|
  {
    if |events| == 0 then 0
    else (if events[0].GuildJoin? then 1 else 0) + CountJoins(events[1..])
  }

  /** Each counter after a run is its value before plus the number of events
      of its own kind: counters are independent and never decrease, and
      `members_served` is never touched. */
  lemma {:induction false} RunCounters(s: Stats, events: seq<Event>, botUser: UserId)
    ensures Run(s, events, botUser).messagesSent == s.messagesSent + CountMessages(events, botUser)
    ensures Run(s, events, botUser).commandsUsed == s.commandsUsed + CountCommands(events)
    ensures Run(s, events, botUser).serversJoined == s.serversJoined + CountJoins(events)
    ensures Run(s, events, botUser).membersServed == s.membersServed
    decreases |events|
  {
    if |events| > 0 {
      RunCounters(Step(s, events[0], botUser), events[1..], botUser);
    }
  }

  /** From a fresh record, `messages_sent` is exactly the number of messages
      other users sent, however they interleave with other events. */
  lemma FreshRunCountsMessages(events: seq<Event>, botUser: UserId)
    ensures Run(Initial, events, botUser).messagesSent == CountMessages(events, botUser)
    ensures Run(Initial, events, botUser).commandsUsed == CountCommands(events)
    ensures Run(Initial, events, botUser).serversJoined == CountJoins(events)
    ensures Run(Initial, events, botUser).membersServed == 0
  {
    RunCounters(Initial, events, botUser);
  }

  /** Without any ready signal the start time is left as it was. */
  lemma {:induction false} RunWithoutReadyKeepsStart(s: Stats, events: seq<Event>, botUser: UserId)
    requires forall i :: 0 <= i < |events| ==> !events[i].Ready?
    ensures Run(s, events, botUser).startTime == s.startTime
    decreases |events|
  {
    if |events| > 0 {
      assert !events[0].Ready?;
      RunWithoutReadyKeepsStart(Step(s, events[0], botUser), events[1..], botUser);
    }
  }

  /** The start time after a run is the instant of the LAST ready signal:
      later signals overwrite earlier ones. */
  lemma {:induction false} RunStartIsLastReady(s: Stats, events: seq<Event>, botUser: UserId, k: nat)
    requires k < |events| && events[k].Ready?
    requires forall i :: k < i < |events| ==> !events[i].Ready?
    ensures Run(s, events, botUser).startTime == StartedAt(events[k].now)
    decreases |events|
  {
    if k == 0 {
      var rest := events[1..];
      forall i | 0 <= i < |rest| ensures !rest[i].Ready? {
        assert rest[i] == events[i + 1];
      }
      RunWithoutReadyKeepsStart(Step(s, events[0], botUser), rest, botUser);
    } else {
      var rest := events[1..];
      assert rest[k - 1] == events[k];
      forall i | k - 1 < i < |rest| ensures !rest[i].Ready? {
        assert rest[i] == events[i + 1];
      }
      RunStartIsLastReady(Step(s, events[0], botUser), rest, botUser, k - 1);
    }
  }

  /** A second ready signal replaces the first start time: the start time is
      not set once. */
  lemma ReadyOverwrites(s: Stats, first: Instant, second: Instant)
    ensures OnReady(OnReady(s, first), second).startTime == StartedAt(second)
    ensures first != second ==> OnReady(OnReady(s, first), second) != OnReady(s, first)
  {
  }

  /** Two events commute unless both are ready signals: the handlers touch
      disjoint fields of the record. */
  lemma StepsCommute(s: Stats, a: Event, b: Event, botUser: UserId)
    requires !(a.Ready? && b.Ready?)
    ensures Step(Step(s, a, botUser), b, botUser) == Step(Step(s, b, botUser), a, botUser)
  {
  }
}
