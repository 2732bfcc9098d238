/** The codec from end to end: commands, escaping, UTF-8, framing, cuts, lines and records. */
module EndToEnd {
  import opened Sequences
  import opened Utf8
  import opened Protocol
  import opened Codec
  import opened Transport
  import Client
  import Escape
  import Demux
  import Session
  import SessionMatching
  import SessionSafety
  import SessionTheorems

  /** The line that rendering a command gives. */
  function CommandLine(c: Command): Bytes {
    Encode(RowsText(CommandRows(c)))
  }

  function CommandLines(commands: seq<Command>): (r: seq<Bytes>)
    ensures |r| == |commands|
    ensures forall i :: 0 <= i < |commands| ==> r[i] == CommandLine(commands[i])
  {
    seq(|commands|, i requires 0 <= i < |commands| => CommandLine(commands[i]))
  }

  predicate Sendable(c: Command) {
    Renderable(c) && CleanCommand(c)
  }

  /** Framed lines, however the bytes are cut, are what a reader reads. */
  lemma {:induction false} FramedLinesAreRead(lines: seq<Bytes>, stream: seq<Read>)
    requires forall i :: 0 <= i < |lines| ==> IsOneLine(lines[i])
    requires Delivered(stream) == Framed(lines)
    ensures ReadAll(Reader([], false, stream)) == lines
  {
    var r := Reader([], false, stream);
    ReadAllGivesLines(r);
    assert Visible(r) == Delivered(stream);
    FramedLines(lines, false);
    assert [] + Framed(lines) == Framed(lines);
  }

  /**
   Whatever commands are rendered and framed, and however the bytes are cut on the way, reading the
   stream gives one line a command, and parsing that line gives the records the command stands for.
   */
  lemma {:induction false} CommandsSurviveTheWire(commands: seq<Command>, stream: seq<Read>)
    requires forall i :: 0 <= i < |commands| ==> Sendable(commands[i])
    requires Delivered(stream) == Framed(CommandLines(commands))
    ensures ReadAll(Reader([], false, stream)) == CommandLines(commands)
    ensures forall i :: 0 <= i < |commands| ==>
              DataRecords(ReadAll(Reader([], false, stream))[i]) == RowRecords(CommandRows(commands[i]))
  {
    var lines := CommandLines(commands);
    forall i | 0 <= i < |commands|
      ensures IsOneLine(lines[i]) && DataRecords(lines[i]) == RowRecords(CommandRows(commands[i]))
    {
      CommandIsOneLine(commands[i]);
      CommandRoundTrip(commands[i]);
    }
    FramedLinesAreRead(lines, stream);
  }

  /** The tables a server puts on the data lines of one response, one table a line. */
  type Tables = seq<seq<Row>>

  predicate Carries(lines: seq<Bytes>, tables: Tables) {
    && |lines| == |tables|
    && forall i :: 0 <= i < |tables| ==>
         Proper(tables[i]) && CleanRows(tables[i]) && lines[i] == Encode(RowsText(tables[i]))
  }

  /** The same for the data lines a server sends: rows of any clean keys and any Unicode values. */
  lemma {:induction false} DataSurvivesTheWire(tables: Tables, lines: seq<Bytes>, stream: seq<Read>)
    requires Carries(lines, tables)
    requires Delivered(stream) == Framed(lines)
    ensures ReadAll(Reader([], false, stream)) == lines
    ensures forall i :: 0 <= i < |tables| ==> DataRecords(lines[i]) == RowRecords(tables[i])
  {
    forall i | 0 <= i < |tables|
      ensures IsOneLine(lines[i]) && DataRecords(lines[i]) == RowRecords(tables[i])
    {
      RowsAreOneLine(tables[i]);
      RowsRoundTrip(tables[i]);
    }
    FramedLinesAreRead(lines, stream);
  }

  lemma {:induction false} PlainIsSendable(name: string, params: Params)
    requires name != "" && Clean(name) && CleanBlock(params)
    ensures Sendable(Client.Plain(name, params))
  {
  }

  lemma {:induction false} UseIsSendable(n: int)
    ensures Sendable(Client.UseById(n)) && Sendable(Client.UseByPort(n))
  {
    UseWords();
    PlainIsSendable("use", [Param("sid", One(Text(Client.IntText(n))))]);
    PlainIsSendable("use", [Param("port", One(Text(Client.IntText(n))))]);
  }

  lemma {:induction false} NicknameIsSendable(nickname: string)
    ensures Sendable(Client.SetNickname(nickname))
  {
    UpdateWord();
    NicknameWord();
    PlainIsSendable("clientupdate", [Param("client_nickname", One(Text(nickname)))]);
  }

  lemma {:induction false} RegisterIsSendable(r: Client.Registration)
    ensures Sendable(Client.Register(r))
  {
    var channel := if r.channel.Some? then Text(Client.IntText(r.channel.value)) else Null;
    RegisterWord();
    EventWords();
    PlainIsSendable("servernotifyregister", [Param("event", One(Text(r.event))), Param("id", One(channel))]);
  }

  /** Which command stands where in the setup. */
  lemma {:induction false} SetupCommandAt(config: Client.Config, i: nat)
    requires i < |Client.SetupSteps(config)|
    ensures var u, n := |Client.UseSteps(config)|, |Client.NicknameSteps(config)|;
            var command := Client.SetupSteps(config)[i].command;
            if i < u then
              if config.serverId.Some? then command == Client.UseById(config.serverId.value)
              else config.serverPort.Some? && command == Client.UseByPort(config.serverPort.value)
            else if i < u + n then config.nickname.Some? && command == Client.SetNickname(config.nickname.value)
            else i - u - n < |config.registrations| && command == Client.Register(config.registrations[i - u - n])
  {
  }

  /** Whatever the configuration, and whatever nickname and event names it holds, its setup is sendable. */
  lemma {:induction false} SetupIsSendable(config: Client.Config, i: nat)
    requires i < |Client.SetupSteps(config)|
    ensures Sendable(Client.SetupSteps(config)[i].command)
  {
    SetupCommandAt(config, i);
    KnownIsSendable(config, Client.SetupSteps(config)[i].command);
  }

  lemma {:induction false} KnownIsSendable(config: Client.Config, command: Command)
    requires || (config.serverId.Some? && command == Client.UseById(config.serverId.value))
             || (config.serverPort.Some? && command == Client.UseByPort(config.serverPort.value))
             || (config.nickname.Some? && command == Client.SetNickname(config.nickname.value))
             || exists i :: 0 <= i < |config.registrations| && command == Client.Register(config.registrations[i])
    ensures Sendable(command)
  {
    if config.serverId.Some? && command == Client.UseById(config.serverId.value) {
      UseIsSendable(config.serverId.value);
    } else if config.serverPort.Some? && command == Client.UseByPort(config.serverPort.value) {
      UseIsSendable(config.serverPort.value);
    } else if config.nickname.Some? && command == Client.SetNickname(config.nickname.value) {
      NicknameIsSendable(config.nickname.value);
    } else {
      var i :| 0 <= i < |config.registrations| && command == Client.Register(config.registrations[i]);
      RegisterIsSendable(config.registrations[i]);
    }
  }

  // ----- The setup as text -----

  lemma {:induction false} PlainLine(name: string, params: Params)
    requires name != "" && Clean(name) && CleanBlock(params)
    ensures CommandLine(Client.Plain(name, params)) == Encode(Spaced(name, BlockText(params)))
  {
    PlainIsSendable(name, params);
    CommandTextIsOfRows(Client.Plain(name, params));
  }

  lemma {:induction false} OneParamText(p: Param)
    ensures BlockText([p]) == ParamText(p)
  {
    assert [p][..0] == [];
    assert BlockText([p]) == Spaced(BlockText([]), ParamText(p));
  }

  lemma {:induction false} TwoParamsText(p: Param, q: Param)
    ensures BlockText([p, q]) == Spaced(ParamText(p), ParamText(q))
  {
    assert [p, q][..1] == [p];
    OneParamText(p);
  }

  /** A number as text: its decimal digits, behind a minus sign if it is negative, and nothing in it to escape. */
  lemma {:induction false} IntTextIs(n: int)
    ensures IsNumber(Client.IntText(n), n) && Client.IntText(n)[0] != '+'
    ensures Escape.Escaped(Client.IntText(n)) == Client.IntText(n)
  {
    NumberNotEscaped(Client.IntText(n), n);
  }

  /** A command with one argument, and perhaps a second one behind it. */
  lemma {:induction false} ArgumentLine(name: string, key: string, text: string, prefix: string)
    requires name != "" && Clean(name) && Clean(key) && prefix == name + " " + (key + "=")
    ensures CommandLine(Client.Plain(name, [Param(key, One(Text(text)))])) == Encode(prefix + Escape.Escaped(text))
  {
    var p := Param(key, One(Text(text)));
    OneParamText(p);
    PlainLine(name, [p]);
    assert name + " " + (key + "=" + Escape.Escaped(text)) == prefix + Escape.Escaped(text);
  }

  lemma {:induction false} SpacedRest(first: string, second: string, rest: string)
    requires first != "" && rest == if second == "" then "" else " " + second
    ensures Spaced(first, second) == first + rest
  {
    if second != "" {
      Regroup(first, " ", second);
    } else {
      assert first + rest == first;
    }
  }

  lemma {:induction false} PrefixAndRest(name: string, key: string, escaped: string, prefix: string, rest: string)
    requires name != "" && prefix == name + " " + (key + "=")
    ensures Spaced(name, key + "=" + escaped + rest) == prefix + escaped + rest
  {
    assert name + " " + (key + "=" + escaped + rest) == name + " " + (key + "=") + escaped + rest;
  }

  lemma {:induction false} ArgumentsLine(
      name: string, key: string, text: string, prefix: string, q: Param, rest: string)
    requires name != "" && Clean(name) && Clean(key) && Clean(q.key) && prefix == name + " " + (key + "=")
    requires rest == if ParamText(q) == "" then "" else " " + ParamText(q)
    ensures CommandLine(Client.Plain(name, [Param(key, One(Text(text))), q])) ==
            Encode(prefix + Escape.Escaped(text) + rest)
  {
    var p := Param(key, One(Text(text)));
    TwoParamsText(p, q);
    SpacedRest(ParamText(p), ParamText(q), rest);
    assert CleanBlock([p, q]);
    PlainLine(name, [p, q]);
    PrefixAndRest(name, key, Escape.Escaped(text), prefix, rest);
  }

  /** The words that the setup is made of. */
  lemma {:induction false} UseWords()
    ensures Clean("use") && Clean("sid") && Clean("port")
    ensures "use" + " " + ("sid" + "=") == "use sid=" && "use" + " " + ("port" + "=") == "use port="
  {
  }

  lemma {:induction false} UpdateWord()
    ensures Clean("clientupdate")
  {
  }

  lemma {:induction false} NicknameWord()
    ensures Clean("client_nickname")
  {
  }

  lemma {:induction false} NicknamePrefix()
    ensures "clientupdate" + " " + ("client_nickname" + "=") == "clientupdate client_nickname="
  {
  }

  lemma {:induction false} RegisterWord()
    ensures Clean("servernotifyregister")
  {
  }

  lemma {:induction false} EventWords()
    ensures Clean("event") && Clean("id")
    ensures "servernotifyregister" + " " + ("event" + "=") == "servernotifyregister event="
  {
  }

  /** What follows the event name: the channel, exactly when one is given. */
  function ChannelText(channel: Option<int>): string {
    match channel
    case None => ""
    case Some(n) => " id=" + Client.IntText(n)
  }

  lemma {:induction false} ChannelRest(channel: Option<int>, text: string)
    requires text == ParamText(Param("id", One(if channel.Some? then Text(Client.IntText(channel.value)) else Null)))
    ensures ChannelText(channel) == if text == "" then "" else " " + text
  {
    match channel
    case None =>
    case Some(n) =>
      IntTextIs(n);
      assert text == "id" + "=" + Client.IntText(n);
      assert " " + ("id" + "=" + Client.IntText(n)) == " id=" + Client.IntText(n);
  }

  /**
   The setup of a configuration, line by line: `use` by id, or by port if there is only that; the nickname,
   which alone may be refused; and the registrations in order.
   */
  lemma {:induction false} SetupLine(config: Client.Config, i: nat)
    requires i < |Client.SetupSteps(config)|
    ensures var u := if config.serverId.Some? || config.serverPort.Some? then 1 else 0;
            var n := if config.nickname.Some? then 1 else 0;
            var step := Client.SetupSteps(config)[i];
            && |Client.SetupSteps(config)| == u + n + |config.registrations|
            && (step.mayBeRefused <==> u <= i < u + n)
            && CommandLine(step.command) ==
               if i < u && config.serverId.Some? then Encode("use sid=" + Client.IntText(config.serverId.value))
               else if i < u then Encode("use port=" + Client.IntText(config.serverPort.value))
               else if i < u + n then Encode("clientupdate client_nickname=" + Escape.Escaped(config.nickname.value))
               else
                 var r := config.registrations[i - u - n];
                 Encode("servernotifyregister event=" + Escape.Escaped(r.event) + ChannelText(r.channel))
  {
    var u := if config.serverId.Some? || config.serverPort.Some? then 1 else 0;
    var n := if config.nickname.Some? then 1 else 0;
    SetupCommandAt(config, i);
    if i < u {
      UseWords();
      var number := if config.serverId.Some? then config.serverId.value else config.serverPort.value;
      IntTextIs(number);
      ArgumentLine("use", "sid", Client.IntText(number), "use sid=");
      ArgumentLine("use", "port", Client.IntText(number), "use port=");
    } else if i < u + n {
      UpdateWord();
      NicknameWord();
      NicknamePrefix();
      ArgumentLine("clientupdate", "client_nickname", config.nickname.value, "clientupdate client_nickname=");
    } else {
      RegisterWord();
      EventWords();
      var r := config.registrations[i - u - n];
      var q := Param("id", One(if r.channel.Some? then Text(Client.IntText(r.channel.value)) else Null));
      ChannelRest(r.channel, ParamText(q));
      ArgumentsLine("servernotifyregister", "event", r.event, "servernotifyregister event=", q, ChannelText(r.channel));
    }
  }

  /** The setup a client writes reaches a reader as its commands, in order, however the bytes are cut. */
  lemma {:induction false} SetupSurvivesTheWire(config: Client.Config, stream: seq<Read>)
    requires Delivered(stream) == Framed(CommandLines(Client.CommandsOf(Client.SetupSteps(config))))
    ensures var commands := Client.CommandsOf(Client.SetupSteps(config));
            var lines := ReadAll(Reader([], false, stream));
            && lines == CommandLines(commands)
            && forall i :: 0 <= i < |commands| ==> DataRecords(lines[i]) == RowRecords(CommandRows(commands[i]))
  {
    var commands := Client.CommandsOf(Client.SetupSteps(config));
    forall i | 0 <= i < |commands| ensures Sendable(commands[i]) {
      SetupIsSendable(config, i);
    }
    CommandsSurviveTheWire(commands, stream);
  }

  // ----- From the server's bytes to the caller's rows -----

  /** Responses and events, merged in any way, framed and cut in any way, come apart again in order. */
  lemma {:induction false} StreamSortsApart(m: seq<Bytes>, responses: seq<Demux.Response>, events: seq<Bytes>,
                                            stream: seq<Read>)
    requires forall i :: 0 <= i < |m| ==> IsOneLine(m[i])
    requires Delivered(stream) == Framed(m)
    requires Demux.IsMerge(m, Demux.AllResponseLines(responses), events)
    requires forall i :: 0 <= i < |responses| ==> Demux.IsResponse(responses[i])
    requires forall i :: 0 <= i < |events| ==> IsEventLine(events[i])
    ensures Demux.Sort(ReadAll(Reader([], false, stream))) == Demux.Sorted([], responses, events)
  {
    FramedLinesAreRead(m, stream);
    Demux.DemuxSeparates(m, responses, events);
  }

  function TablesRecords(tables: Tables): seq<Record> {
    if |tables| == 0 then [] else TablesRecords(tables[..|tables| - 1]) + RowRecords(tables[|tables| - 1])
  }

  lemma {:induction false} CarriedBefore(lines: seq<Bytes>, tables: Tables, n: nat)
    requires Carries(lines, tables) && n < |lines|
    ensures Carries(lines[..n], tables[..n]) && DataRecords(lines[n]) == RowRecords(tables[n])
  {
    RowsRoundTrip(tables[n]);
  }

  lemma {:induction false} TablesOfLast(tables: Tables, records: seq<Record>, last: seq<Record>)
    requires |tables| > 0
    requires TablesRecords(tables[..|tables| - 1]) == records && RowRecords(tables[|tables| - 1]) == last
    ensures TablesRecords(tables) == records + last
  {
  }

  lemma {:induction false} RecordsAndTables(
      lines: seq<Bytes>, tables: Tables, n: nat, records: seq<Record>, last: seq<Record>)
    requires |lines| == |tables| == n + 1
    requires BlockRecords(lines[..n]) == records == TablesRecords(tables[..n])
    requires DataRecords(lines[n]) == last == RowRecords(tables[n])
    ensures BlockRecords(lines) == TablesRecords(tables)
  {
    RecordsOfLast(lines, records, last);
    TablesOfLast(tables, records, last);
  }

  lemma {:induction false} BlockRecordsOfTables(lines: seq<Bytes>, tables: Tables)
    requires Carries(lines, tables)
    ensures BlockRecords(lines) == TablesRecords(tables)
  {
    if |lines| == 0 {
    } else {
      var n := |lines| - 1;
      CarriedBefore(lines, tables, n);
      BlockRecordsOfTables(lines[..n], tables[..n]);
      RecordsAndTables(lines, tables, n, BlockRecords(lines[..n]), DataRecords(lines[n]));
    }
  }

  /** A call that returns rows returns exactly the tables on the data lines of the response to a line it wrote. */
  lemma {:induction false} CallerGetsTheResponseRows(
      config: Session.Config, now: real, actions: seq<Session.Action>, s: Session.State, c: nat, tables: seq<Tables>)
    returns (slot: nat)
    requires SessionMatching.Reaches(config, now, actions, s)
    requires c in s.calls && s.calls[c].phase.Finished? && s.calls[c].phase.outcome.Rows?
    requires |Demux.Sort(s.received).responses| <= |tables|
    requires forall i :: 0 <= i < |Demux.Sort(s.received).responses| ==>
               Carries(Demux.Sort(s.received).responses[i].data, tables[i])
    ensures slot < |s.wire| && s.wire[slot] == Session.Issued(c, s.calls[c].line)
    ensures slot < |tables| && s.calls[c].phase.outcome.records == TablesRecords(tables[slot])
  {
    var answer;
    slot, answer := SessionMatching.ResultsAreOwn(config, now, actions, s, c);
    BlockRecordsOfTables(Demux.Sort(s.received).responses[slot].data, tables[slot]);
  }

  /**
   What a server sends on one connection: a greeting, then its responses and its events, merged in any
   way with blank lines anywhere, every line framed and the bytes cut in any way.
   */
  ghost predicate IsSentAs(
      stream: seq<Read>, greeting: seq<Bytes>, m: seq<Bytes>, responses: seq<Demux.Response>, events: seq<Bytes>)
  {
    && Delivered(stream) == Framed(greeting + m)
    && (forall i :: 0 <= i < |greeting| ==> IsOneLine(greeting[i]))
    && (forall i :: 0 <= i < |m| ==> IsOneLine(m[i]))
    && Demux.IsMerge(m, Demux.AllResponseLines(responses), events)
    && (forall i :: 0 <= i < |responses| ==> Demux.IsResponse(responses[i]))
    && (forall i :: 0 <= i < |events| ==> IsEventLine(events[i]))
  }

  /** The lines behind the greeting sort into the server's responses and events; any part of them into a part. */
  lemma {:induction false} ReceivedIsSent(
      stream: seq<Read>, greeting: seq<Bytes>, m: seq<Bytes>, responses: seq<Demux.Response>, events: seq<Bytes>,
      received: seq<Bytes>)
    requires IsSentAs(stream, greeting, m, responses, events)
    requires greeting + received <= ReadAll(Reader([], false, stream))
    ensures Demux.Sort(received).responses <= responses && Demux.Sort(received).events <= events
  {
    FramedLinesAreRead(greeting + m, stream);
    assert received <= m by {
      assert (greeting + received)[|greeting|..] == received && (greeting + m)[|greeting|..] == m;
    }
    Demux.SortGrows(received, m);
    Demux.DemuxSeparates(m, responses, events);
  }

  /**
   From the server's bytes to the caller's rows: whatever the server sends and however the bytes are cut,
   a call that returns rows returns exactly the tables of the server's response to a line that this very
   call wrote, in every run, with every interleaving of callers, events and blank lines.
   */
  lemma {:induction false} CallerGetsTheServersRows(
      config: Session.Config, now: real, actions: seq<Session.Action>, s: Session.State, c: nat,
      stream: seq<Read>, greeting: seq<Bytes>, m: seq<Bytes>, responses: seq<Demux.Response>, events: seq<Bytes>,
      tables: seq<Tables>)
    returns (slot: nat)
    requires IsSentAs(stream, greeting, m, responses, events)
    requires |tables| == |responses| && forall i :: 0 <= i < |tables| ==> Carries(responses[i].data, tables[i])
    requires SessionMatching.Reaches(config, now, actions, s)
    requires greeting + s.received <= ReadAll(Reader([], false, stream))
    requires c in s.calls && s.calls[c].phase.Finished? && s.calls[c].phase.outcome.Rows?
    ensures slot < |s.wire| && s.wire[slot] == Session.Issued(c, s.calls[c].line)
    ensures slot < |tables| && s.calls[c].phase.outcome.records == TablesRecords(tables[slot])
  {
    ReceivedIsSent(stream, greeting, m, responses, events, s.received);
    slot := CallerGetsTheResponseRows(config, now, actions, s, c, tables);
  }

  /**
   From the server's bytes to the waiters: whatever the server sends and however the bytes are cut, the
   events that waiters have been handed are the server's events in order, up to some point, missing only
   those that were dropped; no event is ever made up, repeated or moved.
   */
  lemma {:induction false} WaitersGetTheServersEvents(
      config: Session.Config, now: real, actions: seq<Session.Action>, s: Session.State,
      stream: seq<Read>, greeting: seq<Bytes>, m: seq<Bytes>, responses: seq<Demux.Response>, events: seq<Bytes>)
    requires IsSentAs(stream, greeting, m, responses, events)
    requires s == Session.Run(Session.Initial(config, now), actions)
    requires greeting + s.received <= ReadAll(Reader([], false, stream))
    ensures |s.log.fates| <= |events|
    ensures SessionTheorems.EventLines(s.log.handed) ==
            SessionSafety.Select(events[..|s.log.fates|], s.log.fates)
  {
    ReceivedIsSent(stream, greeting, m, responses, events, s.received);
    SessionTheorems.EventsAreConserved(config, now, actions, s);
    assert s.log.published[..|s.log.fates|] == events[..|s.log.fates|];
  }
}
