/** The numeric content of the `ping` and `stats` reports: the statistics
    record, the live guild snapshot, the latency bucket and the uptime. Embed
    layout, emoji and wording are not modelled. */
module Reports {
  import opened SessionStats
  import Uptime
  import Latency
  import Commands
  import Colours

  /** What the bot can see of one guild. */
  datatype Guild = Guild(memberCount: nat, channels: nat, roles: nat)

  /** The sum of a sequence of counts. */
  function Sum(xs: seq<nat>): nat
    decreases |xs|
  {
    if |xs| == 0 then 0 else xs[0] + Sum(xs[1..])
  }

  /** Summing two pieces and adding the results is summing the whole. */
  lemma {:induction false} SumAppend(xs: seq<nat>, ys: seq<nat>)
    ensures Sum(xs + ys) == Sum(xs) + Sum(ys)
    decreases |xs|
  {
    if |xs| == 0 {
      assert xs + ys == ys;
    } else {
      assert (xs + ys)[1..] == xs[1..] + ys;
      SumAppend(xs[1..], ys);
    }
  }

  /** No single count exceeds the sum. */
  lemma {:induction false} SumBoundsEach(xs: seq<nat>, i: nat)
    requires i < |xs|
    ensures xs[i] <= Sum(xs)
    decreases |xs|
  {
    if i > 0 {
      SumBoundsEach(xs[1..], i - 1);
    }
  }

  function MemberCounts(guilds: seq<Guild>): (xs: seq<nat>)
    ensures |xs| == |guilds|
    ensures forall i :: 0 <= i < |guilds| ==> xs[i] == guilds[i].memberCount
  {
    seq(|guilds|, i requires 0 <= i < |guilds| => guilds[i].memberCount)
  }

  function ChannelCounts(guilds: seq<Guild>): (xs: seq<nat>)
    ensures |xs| == |guilds|
    ensures forall i :: 0 <= i < |guilds| ==> xs[i] == guilds[i].channels
  {
    seq(|guilds|, i requires 0 <= i < |guilds| => guilds[i].channels)
  }

  function RoleCounts(guilds: seq<Guild>): (xs: seq<nat>)
    ensures |xs| == |guilds|
    ensures forall i :: 0 <= i < |guilds| ==> xs[i] == guilds[i].roles
  {
    seq(|guilds|, i requires 0 <= i < |guilds| => guilds[i].roles)
  }

  /** The member total over every guild the bot is in, accumulated guild by
      guild from left to right. */
  method TotalMembers(guilds: seq<Guild>) returns (total: nat)
    ensures total == Sum(MemberCounts(guilds))
    ensures forall i :: 0 <= i < |guilds| ==> guilds[i].memberCount <= total
  {
    var counts := MemberCounts(guilds);
    total := 0;
    var k := 0;
    while k < |guilds|
      invariant 0 <= k <= |guilds|
      invariant total == Sum(counts[..k])
    {
      assert counts[..k + 1] == counts[..k] + [counts[k]];
      SumAppend(counts[..k], [counts[k]]);
      assert Sum([counts[k]]) == counts[k] + Sum([]);
      total := total + guilds[k].memberCount;
      k := k + 1;
    }
    assert counts[..k] == counts;
    forall i | 0 <= i < |guilds|
      ensures guilds[i].memberCount <= total
    {
      SumBoundsEach(counts, i);
    }
  }

  /** Three guilds with 10, 20 and 30 members make 60 members in all. */
  lemma TotalMembersExample()
    ensures Sum(MemberCounts([Guild(10, 0, 0), Guild(20, 0, 0), Guild(30, 0, 0)])) == 60
  {
    var xs := MemberCounts([Guild(10, 0, 0), Guild(20, 0, 0), Guild(30, 0, 0)]);
    assert xs == [10, 20, 30];
    assert xs[1..] == [20, 30];
    assert xs[1..][1..] == [30];
  }

  /** The figures of the status report. */
  datatype PingReport = PingReport(
    uptime: Uptime.UptimeText,
    latencyMs: int,
    bucket: Latency.Bucket,
    colour: int,
    servers: nat,
    totalMembers: nat,
    channels: nat,
    roles: nat,
    messages: nat,
    commands: nat,
    currentGuildMembers: nat)

  /** The string form of the error `ping` raises when it reads the current
      guild's name outside a guild. */
  const NoGuildError: string := "'NoneType' object has no attribute 'name'"

  /** Where a command was invoked: a direct message has no guild. */
  datatype Place = DirectMessage | InGuild(guild: Guild)

  datatype PingOutcome = Reported(report: PingReport) | Errored(error: Commands.CommandError)

  /** `ping`, given the statistics, the current instant, the latency in whole
      milliseconds, the guilds the bot is in and the guild it was invoked in
      (reading the guild's name fails in a direct message). */
  function Ping(s: Stats, now: Instant, latencyMs: int, guilds: seq<Guild>, place: Place): (o: PingOutcome)
    ensures o.Errored? <==> place.DirectMessage?
    ensures o.Errored? ==> o.error.Raised? && OnErrorPersists(o.error)
    ensures o.Reported? ==> (o.report.uptime.Unknown? <==> s.startTime.Unset?)
    ensures o.Reported? ==> o.report.uptime == Uptime.PingUptime(s.startTime, now)
    ensures o.Reported? ==> o.report.latencyMs == latencyMs
    ensures o.Reported? ==> o.report.bucket == Latency.Classify(latencyMs)
    ensures o.Reported? ==> o.report.colour == Latency.ReportColour(latencyMs)
    ensures o.Reported? ==> (o.report.colour == Colours.Green <==> o.report.bucket in {Latency.Excellent, Latency.Good})
    ensures o.Reported? ==> o.report.servers == |guilds| && o.report.messages == s.messagesSent && o.report.commands == s.commandsUsed
    ensures o.Reported? ==> o.report.totalMembers == Sum(MemberCounts(guilds))
    ensures o.Reported? ==> o.report.channels == Sum(ChannelCounts(guilds))
    ensures o.Reported? ==> o.report.roles == Sum(RoleCounts(guilds))
    ensures o.Reported? ==> forall i :: 0 <= i < |guilds| ==> guilds[i].memberCount <= o.report.totalMembers
    ensures o.Reported? ==> o.report.currentGuildMembers == place.guild.memberCount
  {
    if place.DirectMessage? then Errored(Commands.Raised(NoGuildError))
    else
      var members := Sum(MemberCounts(guilds));
      assert forall i :: 0 <= i < |guilds| ==> guilds[i].memberCount <= members by {
        forall i | 0 <= i < |guilds| ensures guilds[i].memberCount <= members {
          SumBoundsEach(MemberCounts(guilds), i);
        }
      }
      Latency.ColourMatchesBucket(latencyMs);
      Reported(PingReport(
        Uptime.PingUptime(s.startTime, now),
        latencyMs,
        Latency.Classify(latencyMs),
        Latency.ReportColour(latencyMs),
        |guilds|,
        members,
        Sum(ChannelCounts(guilds)),
        Sum(RoleCounts(guilds)),
        s.messagesSent,
        s.commandsUsed,
        place.guild.memberCount))
  }

  /** The error handler keeps the notice for this error in the channel. */
  predicate OnErrorPersists(e: Commands.CommandError)
  {
    Commands.OnCommandError(e).lifetime == Commands.Persistent
  }

  /** The figures of the detailed statistics report. */
  datatype StatsReport = StatsReport(
    messages: nat,
    commands: nat,
    serversJoined: nat,
    totalServers: nat,
    totalUsers: nat,
    latencyMs: int)

  /** `stats`: the three usage counters as stored, the number of guilds and
      of users the bot can see, and the latency. */
  function StatsCommand(s: Stats, guilds: seq<Guild>, userCount: nat, latencyMs: int): (r: StatsReport)
    ensures r.messages == s.messagesSent && r.commands == s.commandsUsed && r.serversJoined == s.serversJoined
    ensures r.totalServers == |guilds| && r.totalUsers == userCount && r.latencyMs == latencyMs
  {
    StatsReport(s.messagesSent, s.commandsUsed, s.serversJoined, |guilds|, userCount, latencyMs)
  }

  /** After any run of events from a fresh record, `stats` reports exactly
      the number of counted messages, commands and guild joins. */
  lemma StatsReportsEvents(events: seq<Event>, botUser: UserId, guilds: seq<Guild>, userCount: nat, latencyMs: int)
    ensures StatsCommand(Run(Initial, events, botUser), guilds, userCount, latencyMs).messages == CountMessages(events, botUser)
    ensures StatsCommand(Run(Initial, events, botUser), guilds, userCount, latencyMs).commands == CountCommands(events)
    ensures StatsCommand(Run(Initial, events, botUser), guilds, userCount, latencyMs).serversJoined == CountJoins(events)
  {
    FreshRunCountsMessages(events, botUser);
  }
}
