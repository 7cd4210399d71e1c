/** Runs in which a client that pipelines commands hangs. In the first it sends a slow command and, without
    waiting, a second one with its data set. The core never stops and answers properly, and still the second
    command hangs: the drain loop opens the data set and leaves its lines queued behind it. */
module Pipelining {
  import opened Framing
  import opened Auth
  import opened HttpRequest
  import opened HttpResponse
  import opened Model
  import opened Machine
  import opened Invariants
  import opened Reachable
  import opened Theorems
  import opened Typing
  import opened History
  import opened Provisos
  import opened StoppedCores

  // ---------------------------------------------------------------- commands

  lemma AuthorizeRuns(w: World, s: State, id: nat, line: Line, words: seq<string>, level: Level)
    requires AtPrompt(s, id) && Says(line, words) && !ColonEnded(words)
    requires words[0] == "authorize" && AuthorizeCommand(w, w.answers(s.tick), words) == Some(level)
    ensures var t := LineFromClient(w, s, id, line);
      && AtPrompt(t, id) && t.cores == s.cores && t.coreIDCounter == s.coreIDCounter
      && t.sessions[id].level == level && t.sessions[id].coreID == s.sessions[id].coreID
  {
    hide SplitString, AuthorizeCommand, LineFromClient, CountStatus, Blank, ColonEnded;
    ServerCommandRuns(w, s, id, line, words);
  }

  lemma CreateRuns(w: World, s: State, id: nat, line: Line, words: seq<string>)
    requires AtPrompt(s, id) && Says(line, words) && !ColonEnded(words) && s.cores == map[]
    requires |words| == 2 && words[0] == "create-graph" && ValidGraphName(words[1]) && w.answers(s.tick).started
    requires s.sessions[id].level.Admin? && s.sessions[id].coreID == 0
    ensures var t := LineFromClient(w, s, id, line);
      && AtPrompt(t, id) && t.cores == map[s.coreIDCounter + 1 := FreshCore(words[1])]
      && t.sessions[id].level == s.sessions[id].level
  {
    hide SplitString, LineFromClient, CountStatus, Blank, ValidGraphName, ColonEnded;
    ServerCommandRuns(w, s, id, line, words);
    assert FindNamed(s, words[1]).None?;
  }

  lemma UseRuns(w: World, s: State, id: nat, line: Line, words: seq<string>, c: nat)
    requires AtPrompt(s, id) && Says(line, words) && !ColonEnded(words) && id > 0
    requires |words| == 2 && words[0] == "use-graph" && s.cores == map[c := FreshCore(words[1])]
    ensures var t := LineFromClient(w, s, id, line);
      && AtPrompt(t, id) && t.cores == s.cores && t.sessions[id].coreID == c
      && t.sessions[id].level == s.sessions[id].level
  {
    hide Touches, FindNamed;
    hide SplitString, LineFromClient, CountStatus, Blank, ColonEnded;
    ServerCommandRuns(w, s, id, line, words);
    assert NamedRunning(s, c, words[1]);
    var b := Begin(LogReceived(s, id, line), id, [line]);
    assert FindNamed(b, words[1]) == Some(c) by { assert NamedRunning(b, c, words[1]); }
  }

  /** The session waits for the only core's reply, with these lines held. */
  predicate Asked(s: State, id: nat, c: nat, held: seq<Line>) {
    && IsClient(s, id) && id > 0 && s.cores.Keys == {c} && s.marked == {} && s.cores[c].name == "g"
    && var x, k := s.sessions[id], s.cores[c];
      && x.kind.Tcp? && x.curCommand.None? && x.lineQueue == held && x.linebuf == "" && !x.jumped && x.coreID == c
      && k.life.Running? && k.expectingReply && !k.expectingDataset && k.commandQ == [] && k.lastClientID == id
      && k.linebuf == "" && !k.chatty
  }

  lemma AskRuns(w: World, s: State, id: nat, line: Line, words: seq<string>, c: nat)
    requires AtPrompt(s, id) && Says(line, words) && !ColonEnded(words) && id > 0 && c > 0 && s.marked == {}
    requires words[0] !in SERVER_COMMANDS && CoreCommand(w, line) == Some(Read)
    requires s.sessions[id].coreID == c && s.cores == map[c := FreshCore("g")]
    ensures Asked(LineFromClient(w, s, id, line), id, c, [])
  {
    hide SplitString, CoreCommand, ForwardToCore, ColonEnded, Opens;
    OpensByLastWord(line);
    assert NewEntry(id, line).Block() == [line];
    assert !IsWaiting(LogReceived(s, id, line), id);
    var b := Begin(LogReceived(s, id, line), id, [line]);
    assert LineFromClient(w, s, id, line) == ForwardToCore(w, w.answers(s.tick), b, id, NewEntry(id, line));
    ForwardAsks(w, w.answers(s.tick), b, id, NewEntry(id, line), c);
  }

  lemma ForwardAsks(w: World, a: Answer, s: State, id: nat, e: Entry, c: nat)
    requires IsClient(s, id) && id > 0 && e.clientID == id && e.Flushable() && CoreCommand(w, e.command) == Some(Read)
    requires s.cores == map[c := FreshCore("g")] && s.marked == {}
    requires var x := s.sessions[id];
      && x.kind.Tcp? && x.curCommand.None? && x.lineQueue == [] && x.linebuf == "" && !x.jumped && x.coreID == c
      && x.issued != []
    ensures Asked(ForwardToCore(w, a, s, id, e), id, c, [])
  {
    hide CoreCommand;
  }

  lemma HoldLine(w: World, s: State, id: nat, c: nat, held: seq<Line>, line: Line)
    requires Asked(s, id, c, held) && EndsLine(line)
    ensures Asked(LineFromClient(w, s, id, line), id, c, held + [line])
  {
    hide ProcessCommand, Opens;
  }

  /** The reply to the slow command lets the drain loop open the data set and stop. */
  lemma ReplyOpens(w: World, s: State, id: nat, c: nat, opener: Line, rest: seq<Line>, reply: Line)
    requires Asked(s, id, c, [opener] + rest) && rest != [] && Opens(opener) && EndsLine(opener) && !Opens(reply)
    ensures var t := CoreLine(w, s, c, reply);
      && IsClient(t, id) && t.cores.Keys == {c} && t.cores[c].life.Running? && !t.cores[c].Busy()
      && t.cores[c].commandQ == [] && !t.cores[c].chatty
      && t.sessions[id].kind.Tcp? && t.sessions[id].curCommand == Some(NewEntry(id, opener))
      && t.sessions[id].linebuf == ""
      && t.sessions[id].lineQueue == rest && t.sessions[id].jumped
  {
    hide ProcessCommand, Opens, CountStatus, Blank;
    var x := s.sessions[id];
    assert x.lineQueue[0] == opener && x.lineQueue[1..] == rest;
    var t := LineFromCore(s, c, reply);
    assert IsWaiting(s, id) && !IsWaiting(t, id);
    var u := DrainOne(w, t, id);
    assert u.sessions[id].curCommand == Some(NewEntry(id, opener)) && u.sessions[id].lineQueue == rest;
    assert Drain(w, t, id) == Drain(w, u, id) == u;
  }

  // ---------------------------------------------------------------- the run

  function ExampleWorld(codes: string -> Code): World {
    World(map["ask" := Read, "clear" := Admin, "shutdown" := Admin], (password: string, salt: string) => salt, codes,
          n => Answer("done\n", [], "no\n", true, true, map["u" := UserInfo("h", Admin)]))
  }

  const AUTHORIZE := "authorize" + After(' ', "password" + After(' ', "u:p"))
  const CREATE := "create-graph" + After(' ', "g")
  const USE := "use-graph" + After(' ', "g")
  const ASK := "ask"
  const ASK_WITH_DATA := "ask" + After(' ', "x:")
  const HELP_WITH_DATA := "help" + After(' ', "x:")
  const DROP := "drop-graph" + After(' ', "g")

  /** A word without the characters that mean something. */
  predicate Tame(w: string) {
    w != "" && forall i :: 0 <= i < |w| ==> w[i] !in {' ', '\t', '\n', '\r', '<', '>'}
  }

  lemma OneWord(a: string)
    requires Tame(a)
    ensures Says(a + "\n", [a]) && Plainly(a)
  {
    SplitNextWord(a, '\n', "");
    assert After('\n', "") == "\n";
    OnlyTame(a, "\n");
  }

  lemma MoreWords(a: string, rest: string, words: seq<string>)
    requires Tame(a) && Says(rest + "\n", words) && Plainly(rest)
    ensures Says(a + After(' ', rest) + "\n", [a] + words) && Plainly(a + After(' ', rest))
  {
    hide SplitString;
    SplitNextWord(a, ' ', rest + "\n");
    assert a + After(' ', rest) + "\n" == a + After(' ', rest + "\n");
    OnlyTame(a, " " + rest + "\n");
    OnlyTame(a, " " + rest);
  }

  lemma OnlyTame(a: string, rest: string)
    requires Tame(a)
    ensures forall c :: c in {'\n', '\r', '<', '>'} ==> (c in a + rest <==> c in rest)
  {
  }

  lemma ExampleWords()
    ensures Says(AUTHORIZE + "\n", ["authorize", "password", "u:p"]) && Plainly(AUTHORIZE)
    ensures Says(CREATE + "\n", ["create-graph", "g"]) && Plainly(CREATE)
    ensures Says(USE + "\n", ["use-graph", "g"]) && Plainly(USE)
    ensures Says(ASK + "\n", ["ask"]) && Plainly(ASK)
    ensures Says(ASK_WITH_DATA + "\n", ["ask", "x:"]) && Plainly(ASK_WITH_DATA)
    ensures Says(HELP_WITH_DATA + "\n", ["help", "x:"]) && Plainly(HELP_WITH_DATA)
    ensures Says(DROP + "\n", ["drop-graph", "g"]) && Plainly(DROP)
  {
    hide Says, Plainly;
    assert ["password"] + ["u:p"] == ["password", "u:p"];
    assert ["authorize"] + ["password", "u:p"] == ["authorize", "password", "u:p"];
    assert ["create-graph"] + ["g"] == ["create-graph", "g"] && ["use-graph"] + ["g"] == ["use-graph", "g"];
    assert ["ask"] + ["x:"] == ["ask", "x:"] && ["help"] + ["x:"] == ["help", "x:"];
    assert ["drop-graph"] + ["g"] == ["drop-graph", "g"];
    OneWord("u:p");
    MoreWords("password", "u:p", ["u:p"]);
    MoreWords("authorize", "password" + After(' ', "u:p"), ["password", "u:p"]);
    OneWord("g");
    MoreWords("create-graph", "g", ["g"]);
    MoreWords("use-graph", "g", ["g"]);
    OneWord("ask");
    OneWord("x:");
    MoreWords("ask", "x:", ["x:"]);
    MoreWords("help", "x:", ["x:"]);
    MoreWords("drop-graph", "g", ["g"]);
  }

  lemma ExampleLines()
    ensures Opens(ASK_WITH_DATA + "\n") && EndsLine(ASK_WITH_DATA + "\n") && !Opens("ok" + "\n")
  {
    ExampleWords();
    Colons();
    hide SplitString;
    OpensByLastWord(ASK_WITH_DATA + "\n");
    OneWord("ok");
    OpensByLastWord("ok" + "\n");
  }

  lemma JoinedCredentials()
    ensures Join(["u", "p"], ':') == "u:p" && TrimRight("u:p") == "u:p"
  {
    assert ["u", "p"][..1] == ["u"] && ["u", "p"][1] == "p";
    assert Join(["u"], ':') == "u";
  }

  lemma ExampleLogin(codes: string -> Code, n: nat)
    ensures AuthorizeCommand(ExampleWorld(codes), ExampleWorld(codes).answers(n), ["authorize", "password", "u:p"])
         == Some(Admin)
  {
    hide SplitString, Join, TrimRight, Fields;
    JoinedCredentials();
    assert forall i :: 0 <= i < 2 ==> ':' !in ["u", "p"][i];
    FieldsOfJoin(["u", "p"], ':');
  }

  lemma ExampleCommand(codes: string -> Code)
    ensures CoreCommand(ExampleWorld(codes), ASK + "\n") == Some(Read)
  {
    SplitWordFirst("ask", "\n", CORE_DELIMS);
    OnlyTame("ask", "\n");
  }

  // ---------------------------------------------------------------- step by step

  lemma Begins(w: World)
    ensures var s := Run(w, [Accept(Tcp)]);
      && AtPrompt(s, 1) && s.cores == map[] && s.coreIDCounter == 0 && s.marked == {}
      && s.sessions[1].coreID == 0
  {
    RunLast(w, [], Accept(Tcp));
    assert [] + [Accept(Tcp)] == [Accept(Tcp)];
  }

  /** A client logs in, creates a graph, and connects to it. */
  function Connecting(): seq<Event> {
    [Accept(Tcp)] + ClientBytes(1, AUTHORIZE + "\n") + ClientBytes(1, CREATE + "\n") + ClientBytes(1, USE + "\n")
  }

  lemma ConnectingConnects(codes: string -> Code)
    ensures var s := Run(ExampleWorld(codes), Connecting());
      && AtPrompt(s, 1) && s.cores == map[1 := FreshCore("g")] && s.marked == {}
      && s.sessions[1].coreID == 1 && s.sessions[1].level.Admin?
  {
    hide Run, LineFromClient, SplitString, AuthorizeCommand, CoreCommand, Says, Plainly, ColonEnded;
    var w := ExampleWorld(codes);
    ExampleWords();
    Colons();
    Begins(w);
    var e := [Accept(Tcp)];
    ExampleLogin(codes, Run(w, e).tick);
    TypeLine(w, e, 1, AUTHORIZE);
    AuthorizeRuns(w, Run(w, e), 1, AUTHORIZE + "\n", ["authorize", "password", "u:p"], Admin);
    e := e + ClientBytes(1, AUTHORIZE + "\n");
    TypeLine(w, e, 1, CREATE);
    CreateRuns(w, Run(w, e), 1, CREATE + "\n", ["create-graph", "g"]);
    e := e + ClientBytes(1, CREATE + "\n");
    TypeLine(w, e, 1, USE);
    UseRuns(w, Run(w, e), 1, USE + "\n", ["use-graph", "g"], 1);
  }

  /** The run up to the slow command. */
  function Opening(): seq<Event> {
    Connecting() + ClientBytes(1, ASK + "\n")
  }

  lemma OpeningAsks(codes: string -> Code)
    ensures Asked(Run(ExampleWorld(codes), Opening()), 1, 1, [])
  {
    hide Run, LineFromClient, Connecting, Says, Plainly, ColonEnded, CoreCommand;
    var w := ExampleWorld(codes);
    ExampleWords();
    Colons();
    ConnectingConnects(codes);
    ExampleCommand(codes);
    TypeLine(w, Connecting(), 1, ASK);
    AskRuns(w, Run(w, Connecting()), 1, ASK + "\n", ["ask"], 1);
  }

  lemma Colons()
    ensures !ColonEnded(["authorize", "password", "u:p"]) && !ColonEnded(["create-graph", "g"])
    ensures !ColonEnded(["use-graph", "g"]) && !ColonEnded(["drop-graph", "g"]) && !ColonEnded(["ask"])
    ensures ColonEnded(["ask", "x:"]) && ColonEnded(["help", "x:"])
  {
  }

  /** The client pipelines a whole second command: its head line, one line of data, and the blank line. Then
      the core answers the first command. */
  function Pipelined(head: string): seq<Event> {
    Opening() + ClientBytes(1, head + "\n") + ClientBytes(1, "data" + "\n") + ClientBytes(1, "" + "\n")
    + CoreBytes(1, "ok" + "\n")
  }

  /** The core is idle. The session is live and no core ever stopped. Yet the second command, which was received
      completely, has not been handled: it waits for its own lines, which wait behind it. */
  lemma PipelinedHangs(codes: string -> Code, head: string)
    requires Plainly(head) && Opens(head + "\n")
    ensures IsClient(Run(ExampleWorld(codes), Pipelined(head)), 1)
    ensures var s := Run(ExampleWorld(codes), Pipelined(head)); var x := s.sessions[1];
      && x.kind.Tcp? && Undisturbed(s.cores, x) && x.linebuf == ""
      && x.curCommand == Some(NewEntry(1, head + "\n")) && x.lineQueue == ["data\n", "\n"]
      && (forall c :: c in s.cores ==>
            s.cores[c].life.Running? && !s.cores[c].Busy() && s.cores[c].commandQ == [] && !s.cores[c].chatty)
  {
    hide Run, LineFromClient, CoreLine, Says, Opening, Opens;
    var w := ExampleWorld(codes);
    var opener := head + "\n";
    ExampleLines();
    OpeningAsks(codes);
    var e := Opening();
    TypeLine(w, e, 1, head);
    HoldLine(w, Run(w, e), 1, 1, [], opener);
    e := e + ClientBytes(1, opener);
    TypeLine(w, e, 1, "data");
    HoldLine(w, Run(w, e), 1, 1, [] + [opener], "data" + "\n");
    e := e + ClientBytes(1, "data" + "\n");
    TypeLine(w, e, 1, "");
    HoldLine(w, Run(w, e), 1, 1, [] + [opener] + ["data" + "\n"], "" + "\n");
    e := e + ClientBytes(1, "" + "\n");
    var rest := ["data" + "\n", "" + "\n"];
    assert [] + [opener] + ["data" + "\n"] + ["" + "\n"] == [opener] + rest;
    PrintLine(w, e, 1, "ok");
    ReplyOpens(w, Run(w, e), 1, 1, opener, rest, "ok" + "\n");
    assert "data" + "\n" == "data\n" && "" + "\n" == "\n";
    RunningIsUndisturbed(w, Pipelined(head), 1);
  }

  lemma PipelinedCommandHangs(codes: string -> Code)
    ensures IsClient(Run(ExampleWorld(codes), Pipelined(ASK_WITH_DATA)), 1)
    ensures var s := Run(ExampleWorld(codes), Pipelined(ASK_WITH_DATA)); var x := s.sessions[1];
      && x.kind.Tcp? && Undisturbed(s.cores, x)
      && x.curCommand == Some(NewEntry(1, ASK_WITH_DATA + "\n")) && x.lineQueue == ["data\n", "\n"]
      && (forall c :: c in s.cores ==>
            s.cores[c].life.Running? && !s.cores[c].Busy() && s.cores[c].commandQ == [] && !s.cores[c].chatty)
  {
    hide Run, Opens, Pipelined;
    ExampleLines();
    ExampleWords();
    PipelinedHangs(codes, ASK_WITH_DATA);
  }

  /** The pipelined command is one for the server, which takes no data set; the client, still waiting, sends
      another blank line. */
  function Refused(): seq<Event> {
    Pipelined(HELP_WITH_DATA) + [ClientByte(1, '\n')]
  }

  /** The data set ends without its lines and is refused. Now the session is stranded, though the core never
      stopped: nothing that it ever sends is handled again. */
  lemma RefusedCommandStrands(codes: string -> Code, more: seq<Event>)
    ensures var w := ExampleWorld(codes);
      var before, s, t := Run(w, Pipelined(HELP_WITH_DATA)), Run(w, Refused()), Run(w, Refused() + more);
      && s.cores == before.cores && Stranded(s, 1)
      && (1 in t.sessions ==> Stranded(t, 1) && Stuck(s.sessions[1], t.sessions[1]))
  {
    hide Run, Opens, Pipelined, Stranded, Stuck, SplitString;
    var w := ExampleWorld(codes);
    var head := HELP_WITH_DATA + "\n";
    ExampleWords();
    Colons();
    assert Opens(head) by { OpensByLastWord(head); }
    PipelinedHangs(codes, HELP_WITH_DATA);
    var s := Run(w, Pipelined(HELP_WITH_DATA));
    assert s.sessions[1].linebuf + "\n" == "\n";
    assert Blank("\n") by { BlankIffAllBlank("\n"); }
    assert !TakenByCore(w, s, 1, head);
    EndedDatasetStrandsForever(w, Pipelined(HELP_WITH_DATA), 1, more);
    RunLast(w, Pipelined(HELP_WITH_DATA), ClientByte(1, '\n'));
    RefusalLeavesCores(w, s, 1, head);
  }

  lemma RefusalLeavesCores(w: World, s: State, id: nat, head: Line)
    requires IsClient(s, id) && s.sessions[id].kind.Tcp? && s.sessions[id].curCommand == Some(NewEntry(id, head))
    requires s.sessions[id].linebuf + "\n" == "\n" && Opens(head) && Says(head, ["help", "x:"])
    ensures ReadClientByte(w, s, id, '\n').cores == s.cores
  {
    hide SplitString, Opens, ProcessCommand, Redirects;
    assert Blank("\n") by { BlankIffAllBlank("\n"); }
    var t := LogReceived(SetSession(s, id, s.sessions[id].(linebuf := "")), id, "\n");
    var e := NewEntry(id, head).Append("\n");
    RefusedCommand(w, SetCurrent(t, id, Some(e)), id, e);
    assert LineFromClient(w, SetSession(s, id, s.sessions[id].(linebuf := "")), id, "\n")
        == SetCurrent(ProcessCommand(w, SetCurrent(t, id, Some(e)), id, e), id, None);
  }

  lemma RefusedCommand(w: World, s: State, id: nat, e: Entry)
    requires id in s.sessions && e.dataset != []
    requires SplitString(e.command, BLANKS) != [] && SplitString(e.command, BLANKS)[0] in SERVER_COMMANDS
    ensures ProcessCommand(w, s, id, e).cores == s.cores
  {
    hide SplitString, Execute, CountStatus, Blank;
  }

  /** The client pipelines a second command, and the core exits before it has answered the first. */
  function Abandoned(): seq<Event> {
    Opening() + ClientBytes(1, ASK + "\n") + [CoreExit(1)]
  }

  /** The session is stranded, and whatever happens from then on, its second command is not even refused. */
  lemma AbandonedCommandHangs(codes: string -> Code, more: seq<Event>)
    ensures Stranded(Run(ExampleWorld(codes), Abandoned()), 1)
    ensures var s, t := Run(ExampleWorld(codes), Abandoned()), Run(ExampleWorld(codes), Abandoned() + more);
      1 in t.sessions ==> Stranded(t, 1) && Stuck(s.sessions[1], t.sessions[1])
  {
    hide Run, LineFromClient, Says, Opening, Stranded;
    var w := ExampleWorld(codes);
    ExampleWords();
    assert EndsLine(ASK + "\n");
    OpeningAsks(codes);
    var e := Opening();
    TypeLine(w, e, 1, ASK);
    HoldLine(w, Run(w, e), 1, 1, [], ASK + "\n");
    e := e + ClientBytes(1, ASK + "\n");
    CoreLossStrands(w, e, 1);
    StrandedForever(w, Abandoned(), more, 1);
  }

  /** While the client waits with a held line, another client arrives, authorizes, and drops the graph. */
  lemma DroppedCommandHangs(codes: string -> Code, more: seq<Event>) returns (events: seq<Event>)
    ensures var s, t := Run(ExampleWorld(codes), events), Run(ExampleWorld(codes), events + more);
      Stranded(s, 1) && (1 in t.sessions ==> Stranded(t, 1) && Stuck(s.sessions[1], t.sessions[1]))
  {
    hide Run, LineFromClient, Says, Opening, Opens, Stranded, Stuck, Inv, Plainly, ColonEnded, AuthorizeCommand;
    var w := ExampleWorld(codes);
    ExampleWords();
    Colons();
    OpeningAsks(codes);
    var e := Opening();
    TypeLine(w, e, 1, ASK);
    assert EndsLine(ASK + "\n");
    HoldLine(w, Run(w, e), 1, 1, [], ASK + "\n");
    e := e + ClientBytes(1, ASK + "\n");
    AlwaysInv(w, e);
    IDBelow(w, Run(w, e), 1);
    var j := Run(w, e).sessionIDCounter + 1;
    RunLast(w, e, Accept(Tcp));
    e := e + [Accept(Tcp)];
    var s := Run(w, e);
    assert Asked(s, 1, 1, [ASK + "\n"]) && AtPrompt(s, j);
    ExampleLogin(codes, s.tick);
    TypeLine(w, e, j, AUTHORIZE);
    AuthorizeRuns(w, s, j, AUTHORIZE + "\n", ["authorize", "password", "u:p"], Admin);
    AlwaysInv(w, e);
    InvBelow(w, s);
    LineOnward(w, s, j, AUTHORIZE + "\n");
    e := e + ClientBytes(j, AUTHORIZE + "\n");
    assert !Opens(DROP + "\n") by { SaysNothing(); }
    assert Drops(w, Run(w, e), j, DROP + "\n", 1);
    StoppedByOtherStrands(w, e, j, DROP, 1, more);
    events := e + ClientBytes(j, DROP + "\n");
  }

  lemma SaysNothing()
    ensures !Opens(DROP + "\n")
  {
    hide SplitString;
    ExampleWords();
    Colons();
    OpensByLastWord(DROP + "\n");
  }

  lemma RunningIsUndisturbed(w: World, events: seq<Event>, id: nat)
    requires var s := Run(w, events); id in s.sessions && forall c :: c in s.cores ==> s.cores[c].life.Running?
    ensures var s := Run(w, events); Undisturbed(s.cores, s.sessions[id])
  {
    hide Run, CoreOk, End, NoneStranded, Routes;
    var s := Run(w, events);
    ReachedSession(w, events, id);
    forall k | 0 <= k < |s.sessions[id].issued| && s.sessions[id].issued[k].fwd.Some?
      ensures Kept(s.cores, s.sessions[id].issued[k].fwd.value)
    {
      assert RefOk(s.cores, id, k, s.sessions[id].issued[k], s.sessions[id].issued[k].fwd.value);
    }
  }
}
