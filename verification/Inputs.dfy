/** What the server takes the bytes for that it reads: lines of clients, requests, and lines of cores, however
    the bytes arrive. */
module Inputs {
  import opened Framing
  import opened Auth
  import opened HttpRequest
  import opened HttpResponse
  import opened Model
  import opened Machine
  import opened Invariants
  import opened ClientLines
  import opened Reachable
  import opened Theorems
  import opened History

  // ---------------------------------------------------------------- while no core is read

  /** Nothing was heard from any core; new ones have said nothing, and were given a valid name. */
  ghost predicate Unheard(cores: Cores, cores': Cores) {
    && (forall c :: c in cores ==>
          c in cores' && cores'[c].emitted == cores[c].emitted && cores'[c].linebuf == cores[c].linebuf
          && cores'[c].name == cores[c].name)
    && (forall c :: c in cores' && c !in cores ==>
          cores'[c].emitted == [] && cores'[c].linebuf == "" && ValidGraphName(cores'[c].name))
  }

  lemma UnheardChain(a: Cores, b: Cores, c: Cores)
    requires Unheard(a, b) && Unheard(b, c)
    ensures Unheard(a, c)
  {
  }

  lemma UnheardSame(cores: Cores)
    ensures Unheard(cores, cores)
  {
  }

  lemma UnheardOne(cores: Cores, c: nat, k: Core)
    requires c in cores && k.emitted == cores[c].emitted && k.linebuf == cores[c].linebuf && k.name == cores[c].name
    ensures Unheard(cores, cores[c := k])
  {
  }

  lemma QueueHearsNothing(s: State, id: nat, c: nat, e: Entry)
    requires id in s.sessions && s.sessions[id].issued != [] && c in s.cores
    ensures var t := Enqueue(s, id, c, e);
      && t.cores[c := FlushCore(t.cores[c])] == s.cores[c := FlushCore(t.cores[c])]
      && FlushCore(t.cores[c]).emitted == s.cores[c].emitted && FlushCore(t.cores[c]).linebuf == s.cores[c].linebuf
      && FlushCore(t.cores[c]).name == s.cores[c].name
  {
  }

  lemma UnheardForward(w: World, a: Answer, s: State, id: nat, e: Entry)
    requires id in s.sessions && s.sessions[id].issued != []
    ensures Unheard(s.cores, ForwardToCore(w, a, s, id, e).cores)
  {
    hide CoreCommand, FlushCore, Emit, Enqueue, Unheard;
    var c := s.sessions[id].coreID;
    UnheardSame(s.cores);
    OutputKeepsCores(a, s, id, [], NotFound(a.refusal));
    OutputKeepsCores(a, s, id, [], Status(a.refusal, 0));
    if IsRunning(s, c) {
      QueueHearsNothing(s, id, c, e);
      UnheardOne(s.cores, c, FlushCore(Enqueue(s, id, c, e).cores[c]));
    }
  }

  lemma {:induction false} UnheardEmitAll(s: State, id: nat, outs: seq<Out>)
    requires id in s.sessions && s.sessions[id].issued != []
    ensures Unheard(s.cores, EmitAll(s, id, outs).cores)
  {
    EmitAllKeepsCores(s, id, outs);
  }

  lemma UnheardHelp(w: World, a: Answer, s: State, id: nat, words: seq<string>)
    requires id in s.sessions && s.sessions[id].issued != [] && words != []
    ensures Unheard(s.cores, Help(w, a, s, id, words).cores)
  {
    hide ForwardToCore, EmitAll, Listing, JoinWords, HelpListing, Unheard, SERVER_COMMANDS, CountStatus, Blank;
    var e := NewEntry(id, JoinWords(words));
    UnheardSame(s.cores);
    UnheardForward(w, a, s, id, e);
    if |words| == 1 {
      var t := EmitAll(s, id, HelpListing(a));
      UnheardEmitAll(s, id, HelpListing(a));
      UnheardForward(w, a, t, id, e);
      UnheardChain(s.cores, t.cores, ForwardToCore(w, a, t, id, e).cores);
    } else {
      UnheardEmitAll(s, id, Listing(a.status + words[1] + ":\n", a.data));
    }
  }

  lemma UnheardShutdown(w: World, a: Answer, s: State, id: nat, words: seq<string>)
    requires id in s.sessions && s.sessions[id].issued != []
    ensures Unheard(s.cores, Shutdown(w, a, s, id, words).cores)
  {
    hide ForwardToCore;
    UnheardForward(w, a, s, id, NewEntry(id, SHUTDOWN_LINE));
  }

  lemma UnheardManaging(a: Answer, s: State, id: nat, words: seq<string>)
    requires id in s.sessions && s.sessions[id].issued != [] && s.coreIDCounter + 1 !in s.cores
    ensures Unheard(s.cores, CreateGraph(a, s, id, words).cores)
    ensures Unheard(s.cores, DropGraph(a, s, id, words).cores)
  {
    hide FindNamed, ValidGraphName, Unheard, StopCore, CreateGraph;
    UnheardSame(s.cores);
    UnheardCreate(a, s, id, words);
    if |words| == 2 && FindNamed(s, words[1]).Some? {
      var c := FindNamed(s, words[1]).value;
      StopHearsNothing(s.cores[c]);
      UnheardOne(s.cores, c, StopCore(s.cores[c], Stopped));
    }
  }

  lemma UnheardCreate(a: Answer, s: State, id: nat, words: seq<string>)
    requires id in s.sessions && s.sessions[id].issued != [] && s.coreIDCounter + 1 !in s.cores
    ensures Unheard(s.cores, CreateGraph(a, s, id, words).cores)
  {
    hide FindNamed, ValidGraphName;
  }

  lemma StopHearsNothing(k: Core)
    ensures var t := StopCore(k, Stopped); t.emitted == k.emitted && t.linebuf == k.linebuf && t.name == k.name
  {
  }

  lemma UnheardVoid(w: World, a: Answer, s: State, id: nat, words: seq<string>)
    requires id in s.sessions && s.sessions[id].issued != [] && words != [] && s.coreIDCounter + 1 !in s.cores
    ensures Unheard(s.cores, ExecuteVoid(w, a, s, id, words).cores)
  {
    hide CreateGraph, DropGraph, Shutdown, FindNamed, AuthorizeCommand, WarnsOnReconnect, Unheard;
    UnheardSame(s.cores);
    UnheardManaging(a, s, id, words);
    UnheardShutdown(w, a, s, id, words);
  }

  lemma UnheardExecute(w: World, a: Answer, s: State, id: nat, words: seq<string>)
    requires id in s.sessions && s.sessions[id].issued != [] && s.coreIDCounter + 1 !in s.cores
    requires words != [] && words[0] in SERVER_COMMANDS
    ensures Unheard(s.cores, Execute(w, a, s, id, words).cores)
  {
    hide Emit, Quit, ExecuteVoid, EmitAll, Listing, Help, Unheard, SERVER_COMMANDS, ADMIN_COMMANDS, VOID_COMMANDS;
    UnheardSame(s.cores);
    if Rank(ServerLevel(words[0])) > Rank(s.sessions[id].level) {
      OutputKeepsCores(a, s, id, words, Status(a.refusal, 0));
    } else if words[0] in VOID_COMMANDS {
      UnheardVoid(w, a, s, id, words);
      OutputKeepsCores(a, ExecuteVoid(w, a, s, id, words), id, words, Status(a.status, 0));
    } else if words[0] == "help" {
      UnheardHelp(w, a, s, id, words);
    } else {
      OutputKeepsCores(a, s, id, words, Status(a.status, 0));
      UnheardEmitAll(s, id, Listing(a.status, a.data));
    }
  }

  lemma UnheardProcess(w: World, s: State, id: nat, e: Entry)
    requires id in s.sessions && s.coreIDCounter + 1 !in s.cores
    ensures Unheard(s.cores, ProcessCommand(w, s, id, e).cores)
  {
    hide ForwardToCore, Execute, SplitString, Unheard, Emit, SERVER_COMMANDS, Redirects;
    var a, b := w.answers(s.tick), Begin(s, id, e.Block());
    var words := SplitString(e.command, BLANKS);
    UnheardSame(s.cores);
    UnheardForward(w, a, b, id, e);
    OutputKeepsCores(a, b, id, words, Status(a.refusal, 0));
    OutputKeepsCores(a, b, id, words, NotFound(a.refusal));
    if words != [] && words[0] in SERVER_COMMANDS {
      UnheardExecute(w, a, b, id, words);
    }
  }

  lemma UnheardHandle(w: World, s: State, id: nat, line: Line, fromQueue: bool)
    requires id in s.sessions && s.coreIDCounter + 1 !in s.cores
    ensures Unheard(s.cores, HandleLine(w, s, id, line, fromQueue).cores)
  {
    hide ProcessCommand, Unheard, Opens, Blank, IsWaiting;
    var x := s.sessions[id];
    UnheardSame(s.cores);
    UnheardProcess(w, s, id, NewEntry(id, line));
    if x.curCommand.Some? {
      var e := x.curCommand.value.Append(line);
      UnheardProcess(w, SetCurrent(s, id, Some(e)), id, e);
    }
  }

  lemma UnheardLine(w: World, s: State, id: nat, line: Line)
    requires id in s.sessions && s.coreIDCounter + 1 !in s.cores
    ensures Unheard(s.cores, LineFromClient(w, s, id, line).cores)
  {
    hide HandleLine, Unheard, EnsureNewline;
    UnheardHandle(w, LogReceived(s, id, EnsureNewline(line)), id, EnsureNewline(line), false);
  }

  lemma UnheardRequest(w: World, s: State, id: nat, target: Target)
    requires id in s.sessions && s.coreIDCounter + 1 !in s.cores
    ensures Unheard(s.cores, HttpRun(w, s, id, target).cores)
  {
    hide LineFromClient, Unheard, Opens, FindNamed, CountStatus, Blank;
    UnheardSame(s.cores);
    match target {
      case ToCore(name, command) =>
        if FindNamed(s, name).Some? {
          UnheardLine(w, SetSession(s, id, s.sessions[id].(coreID := FindNamed(s, name).value)), id, command);
        }
      case Plain(command) => UnheardLine(w, s, id, command);
      case _ =>
    }
  }

  lemma UnheardHttpLine(w: World, s: State, id: nat, line: Line)
    requires id in s.sessions && s.coreIDCounter + 1 !in s.cores
    ensures Unheard(s.cores, LineFromHttpClient(w, s, id, line).cores)
  {
    hide HttpRun, ParseRequest, Unheard;
    var x := s.sessions[id];
    UnheardSame(s.cores);
    if line == "\n" {
      UnheardRequest(w, SetSession(s, id, x.(request := [], requests := x.requests + 1)), id,
                     ParseRequest((x.request + [line])[0]));
    }
  }

  lemma {:induction false} UnheardDrain(w: World, s: State, id: nat)
    requires id in s.sessions && CoreIDsBelow(s)
    ensures Unheard(s.cores, Drain(w, s, id).cores)
    decreases |s.sessions[id].lineQueue|
  {
    hide HandleLine, EnsureNewline, IsWaiting, Unheard;
    UnheardSame(s.cores);
    if Draining(s, id) {
      var line := EnsureNewline(s.sessions[id].lineQueue[0]);
      UnheardHandle(w, s, id, line, true);
      HandleOnward(w, s, id, line, true);
      DrainOneShrinks(w, s, id);
      UnheardDrain(w, DrainOne(w, s, id), id);
      UnheardChain(s.cores, DrainOne(w, s, id).cores, Drain(w, s, id).cores);
    }
  }

  // ---------------------------------------------------------------- lines of cores

  /** The bytes that a core printed while it was read from, without carriage returns. */
  function Printed(w: World, events: seq<Event>, c: nat): string {
    if events == [] then "" else
      var n := |events| - 1;
      var e := events[n];
      var heard := e.CoreByte? && e.core == c && e.c != '\r' && IsPresent(Run(w, events[..n]), c);
      Printed(w, events[..n], c) + if heard then [e.c] else ""
  }

  ghost predicate CoreFramed(k: Core, printed: string) {
    Cut(printed, EndsLine) == (k.emitted, k.linebuf) && NoNewline(k.linebuf)
  }

  lemma UnheardByte(w: World, s: State, id: nat, b: char)
    requires id in s.sessions && CoreIDsBelow(s)
    ensures Unheard(s.cores, ReadClientByte(w, s, id, b).cores)
  {
    hide LineFromClient, LineFromHttpClient, Unheard;
    var x := s.sessions[id];
    UnheardSame(s.cores);
    UnheardLine(w, SetSession(s, id, x.(linebuf := "")), id, x.linebuf + [b]);
    UnheardHttpLine(w, SetSession(s, id, x.(linebuf := "")), id, x.linebuf + [b]);
  }

  /** A line of one core is heard from that core and from no other. */
  lemma LineHeard(w: World, s: State, c: nat, line: Line)
    requires c in s.cores && CoreIDsBelow(s)
    ensures var t := CoreLine(w, s, c, line);
      Unheard(s.cores[c := s.cores[c].(emitted := s.cores[c].emitted + [line])], t.cores)
  {
    hide Drain, IsWaiting, CountStatus, Blank, Opens;
    var id, t := s.cores[c].lastClientID, LineFromCore(s, c, line);
    assert Unheard(s.cores[c := s.cores[c].(emitted := s.cores[c].emitted + [line])], t.cores);
    if IsClient(s, id) && IsWaiting(s, id) {
      UnheardDrain(w, t, id);
    }
  }

  lemma CoreByteHeard(w: World, s: State, c: nat, b: char)
    requires c in s.cores && CoreIDsBelow(s)
    ensures var k, t := s.cores[c], ReadCoreByte(w, s, c, b);
      if b == '\r' then t == s
      else if b == '\n' then
        Unheard(s.cores[c := k.(emitted := k.emitted + [k.linebuf + [b]], linebuf := "")], t.cores)
      else Unheard(s.cores[c := k.(linebuf := k.linebuf + [b])], t.cores)
  {
    hide CoreLine, Unheard;
    var k := s.cores[c];
    var s1 := SetCore(s, c, k.(linebuf := ""));
    LineHeard(w, s1, c, k.linebuf + [b]);
    UnheardSame(s.cores[c := k.(linebuf := k.linebuf + [b])]);
    assert s1.cores[c := s1.cores[c].(emitted := s1.cores[c].emitted + [k.linebuf + [b]])]
        == s.cores[c := k.(emitted := k.emitted + [k.linebuf + [b]], linebuf := "")];
  }

  /** What a step does to what was heard from the cores. */
  lemma StepHeard(w: World, s: State, e: Event, c: nat)
    requires Inv(w, s, 0) && c in Step(w, s, e).cores
    ensures var k' := Step(w, s, e).cores[c];
      if c !in s.cores then k'.emitted == [] && k'.linebuf == "" && ValidGraphName(k'.name)
      else
        var k := s.cores[c];
        if e.CoreByte? && e.core == c && IsPresent(s, c) && e.c != '\r' then
          if e.c == '\n' then k'.emitted == k.emitted + [k.linebuf + [e.c]] && k'.linebuf == ""
          else k'.emitted == k.emitted && k'.linebuf == k.linebuf + [e.c]
        else k'.emitted == k.emitted && k'.linebuf == k.linebuf
  {
    hide Inv, ReadClientByte, ReadCoreByte, RemoveAll, ConversationOver;
    InvBelow(w, s);
    match e {
      case ClientByte(id, b) => if id in s.sessions { UnheardByte(w, s, id, b); }
      case CoreByte(d, b) => if IsPresent(s, d) { CoreByteHeard(w, s, d, b); }
      case Reap => ReapLeavesCores(w, s);
      case _ =>
    }
  }

  /** Every core ever created has a valid name. */
  lemma {:induction false} NamesAreValid(w: World, events: seq<Event>, c: nat)
    requires c in Run(w, events).cores
    ensures ValidGraphName(Run(w, events).cores[c].name)
  {
    hide Step, Inv, ValidGraphName;
    if events != [] {
      var n := |events| - 1;
      var s := Run(w, events[..n]);
      AlwaysInv(w, events[..n]);
      StepHeard(w, s, events[n], c);
      if c in s.cores {
        StepLater(w, s, events[n]);
        NamesAreValid(w, events[..n], c);
      }
    }
  }

  lemma {:induction false} NothingPrinted(w: World, events: seq<Event>, c: nat)
    requires c !in Run(w, events).cores
    ensures Printed(w, events, c) == ""
  {
    hide Step, Inv;
    if events != [] {
      var n := |events| - 1;
      AlwaysInv(w, events[..n]);
      StepLater(w, Run(w, events[..n]), events[n]);
      NothingPrinted(w, events[..n], c);
    }
  }

  /** However a core's output arrives, what the server takes it for are its lines: the bytes printed, without
      carriage returns, cut at the newlines; the buffer holds the unfinished rest. */
  lemma {:induction false} CoreLinesAreTheStream(w: World, events: seq<Event>, c: nat)
    requires c in Run(w, events).cores
    ensures CoreFramed(Run(w, events).cores[c], Printed(w, events, c))
  {
    hide Step, Inv, Cut;
    if events == [] {
    } else {
      var n := |events| - 1;
      var s, e := Run(w, events[..n]), events[n];
      AlwaysInv(w, events[..n]);
      StepHeard(w, s, e, c);
      if c in s.cores {
        CoreLinesAreTheStream(w, events[..n], c);
        if e.CoreByte? && e.core == c && IsPresent(s, c) && e.c != '\r' {
          NextByte(Printed(w, events[..n], c), e.c, s.cores[c].emitted, s.cores[c].linebuf);
        } else {
          assert Printed(w, events[..n], c) + "" == Printed(w, events[..n], c);
        }
      } else {
        NothingPrinted(w, events[..n], c);
        assert Printed(w, events, c) == "";
        CutNothing();
      }
    }
  }

  lemma CutNothing()
    ensures Cut("", EndsLine) == ([], "")
  {
  }

  lemma {:induction false} NoReturnPrinted(w: World, events: seq<Event>, c: nat)
    ensures '\r' !in Printed(w, events, c)
  {
    hide Run;
    if events != [] {
      NoReturnPrinted(w, events[..|events|-1], c);
    }
  }

  /** The lines cut from a text are proper lines made of its characters. */
  lemma {:induction false} LinesOfText(text: string)
    ensures var (lines, rest) := Cut(text, EndsLine);
      NoNewline(rest) && (forall ch :: ch in rest ==> ch in text)
      && forall l :: l in lines ==> Proper(l) && forall ch :: ch in l ==> ch in text
  {
    hide Proper, Cut;
    if text == "" {
      CutNothing();
    } else {
      var before, b := text[..|text|-1], text[|text|-1];
      assert text == before + [b];
      LinesOfText(before);
      var (lines, rest) := Cut(before, EndsLine);
      NextByte(before, b, lines, rest);
    }
  }

  /** Every line taken from a core ends in its only newline and has no carriage return. */
  lemma CoreLinesAreProper(w: World, events: seq<Event>, c: nat, line: Line)
    requires c in Run(w, events).cores && line in Run(w, events).cores[c].emitted
    ensures Proper(line) && '\r' !in line
  {
    hide Run, Cut, Proper;
    CoreLinesAreTheStream(w, events, c);
    NoReturnPrinted(w, events, c);
    LinesOfText(Printed(w, events, c));
  }

  // ---------------------------------------------------------------- lines of clients

  /** The bytes that reached a session, without carriage returns. */
  function Typed(w: World, events: seq<Event>, id: nat): string {
    if events == [] then "" else
      var n := |events| - 1;
      var e := events[n];
      var heard := e.ClientByte? && e.id == id && e.c != '\r' && id in Run(w, events[..n]).sessions;
      Typed(w, events[..n], id) + if heard then [e.c] else ""
  }

  /** The lines of a request, up to the empty one. */
  predicate EndsRequest(lines: seq<Line>) {
    lines != [] && lines[|lines|-1] == "\n"
  }

  /** A TCP session was handed the lines that were typed; an HTTP session has completed the requests that were
      typed and keeps the lines of the next. The buffer holds the unfinished line. */
  ghost predicate SessionFramed(x: Session, typed: string) {
    var (lines, rest) := Cut(typed, EndsLine);
    && rest == x.linebuf && NoNewline(rest)
    && match x.kind
       case Tcp => lines == x.received
       case Http => |Cut(lines, EndsRequest).0| == x.requests && Cut(lines, EndsRequest).1 == x.request
  }

  lemma LineKeepsInput(w: World, s: State, id: nat, line: Line)
    requires id in s.sessions
    ensures var x, y := s.sessions[id], LineFromClient(w, s, id, line).sessions[id];
      && y.received == x.received + [EnsureNewline(line)]
      && y.kind == x.kind && y.linebuf == x.linebuf && y.request == x.request && y.requests == x.requests
  {
    hide HandleLine, EnsureNewline;
    HandlingKeepsLog(w, LogReceived(s, id, EnsureNewline(line)), id, EnsureNewline(line), false);
  }

  lemma RefusalKeepsInput(w: World, s: State, id: nat)
    requires id in s.sessions
    ensures SameLog(s.sessions[id], Refuse(w, s, id).sessions[id])
  {
  }

  lemma RequestKeepsInput(w: World, s: State, id: nat, target: Target)
    requires id in s.sessions
    ensures var x, y := s.sessions[id], HttpRun(w, s, id, target).sessions[id];
      y.kind == x.kind && y.linebuf == x.linebuf && y.request == x.request && y.requests == x.requests
  {
    hide LineFromClient, Opens, FindNamed, Refuse;
    RefusalKeepsInput(w, s, id);
    match target {
      case ToCore(name, command) =>
        if FindNamed(s, name).Some? {
          LineKeepsInput(w, SetSession(s, id, s.sessions[id].(coreID := FindNamed(s, name).value)), id, command);
        }
      case Plain(command) => LineKeepsInput(w, s, id, command);
      case _ =>
    }
  }

  lemma HttpLineFramed(w: World, s: State, id: nat, line: Line)
    requires id in s.sessions
    ensures var x, y := s.sessions[id], LineFromHttpClient(w, s, id, line).sessions[id];
      && y.kind == x.kind && y.linebuf == x.linebuf
      && y.request == (if line == "\n" then [] else x.request + [line])
      && y.requests == x.requests + if line == "\n" then 1 else 0
  {
    hide HttpRun, ParseRequest;
    var x := s.sessions[id];
    if line == "\n" {
      RequestKeepsInput(w, SetSession(s, id, x.(request := [], requests := x.requests + 1)), id,
                        ParseRequest((x.request + [line])[0]));
    }
  }

  /** A byte joins the line, or ends it and hands it over. */
  ghost predicate TookByte(x: Session, y: Session, b: char) {
    var line := x.linebuf + [b];
    && y.kind == x.kind
    && if b != '\n' then
         y.linebuf == line && y.received == x.received && y.request == x.request && y.requests == x.requests
       else
         && y.linebuf == ""
         && (x.kind.Tcp? ==> y.received == x.received + [line])
         && (x.kind.Http? ==> y.request == (if line == "\n" then [] else x.request + [line])
                              && y.requests == x.requests + if line == "\n" then 1 else 0)
  }

  lemma ReadByteTakes(w: World, s: State, id: nat, b: char)
    requires IsClient(s, id) && b != '\r'
    ensures id in ReadClientByte(w, s, id, b).sessions
    ensures TookByte(s.sessions[id], ReadClientByte(w, s, id, b).sessions[id], b)
  {
    hide LineFromClient, LineFromHttpClient, EnsureNewline;
    var x := s.sessions[id];
    if b == '\n' {
      var line := x.linebuf + [b];
      var s1 := SetSession(s, id, x.(linebuf := ""));
      assert EnsureNewline(line) == line by { EndsAlready(line); }
      LineKeepsInput(w, s1, id, line);
      HttpLineFramed(w, s1, id, line);
    }
  }

  lemma EndsAlready(line: Line)
    requires EndsLine(line)
    ensures EnsureNewline(line) == line
  {
  }

  lemma FramedByte(x: Session, y: Session, typed: string, b: char)
    requires SessionFramed(x, typed) && TookByte(x, y, b)
    ensures SessionFramed(y, typed + [b])
  {
    hide Cut, NoNewline;
    var (lines, rest) := Cut(typed, EndsLine);
    NextByte(typed, b, lines, rest);
    EmptyHasNone();
    CutOneMore(lines, x.linebuf + [b], EndsRequest);
  }

  lemma EmptyHasNone()
    ensures NoNewline("")
  {
  }

  predicate SameTyping(x: Session, y: Session) {
    && y.kind == x.kind && y.linebuf == x.linebuf && y.request == x.request && y.requests == x.requests
    && y.received == x.received
  }

  /** Core output runs held lines, but changes nothing of what was typed. */
  lemma {:induction false} DrainKeepsInput(w: World, s: State, id: nat)
    requires id in s.sessions
    ensures var t := Drain(w, s, id); id in t.sessions && SameTyping(s.sessions[id], t.sessions[id])
    decreases |s.sessions[id].lineQueue|
  {
    hide HandleLine, EnsureNewline, IsWaiting;
    if Draining(s, id) {
      HandlingKeepsLog(w, s, id, EnsureNewline(s.sessions[id].lineQueue[0]), true);
      DrainOneShrinks(w, s, id);
      DrainKeepsInput(w, DrainOne(w, s, id), id);
    }
  }

  lemma ReplyKeepsInput(w: World, s: State, c: nat, b: char)
    requires c in s.cores && s.cores[c].lastClientID in s.sessions
    ensures s.cores[c].lastClientID in ReadCoreByte(w, s, c, b).sessions
    ensures var id := s.cores[c].lastClientID;
      SameTyping(s.sessions[id], ReadCoreByte(w, s, c, b).sessions[id])
  {
    hide Drain, IsWaiting, CoreHears, CountStatus, Blank;
    var k, id := s.cores[c], s.cores[c].lastClientID;
    DrainKeepsInput(w, LineFromCore(SetCore(s, c, k.(linebuf := "")), c, k.linebuf + [b]), id);
  }

  lemma OtherStepsKeepInput(w: World, s: State, e: Event, id: nat)
    requires Inv(w, s, 0) && id in s.sessions && id in Step(w, s, e).sessions
    requires !(e.ClientByte? && e.id == id && e.c != '\r')
    ensures SameTyping(s.sessions[id], Step(w, s, e).sessions[id])
  {
    hide Inv, ReadClientByte, ReadCoreByte, Later, RemoveAll, ConversationOver;
    InvBelow(w, s);
    IDBelow(w, s, id);
    match e {
      case ClientByte(j, b) =>
        if j == id {
          ReturnIsDropped(w, s, id);
        } else if j in s.sessions {
          ClientByteOnward(w, s, j, b);
        }
      case CoreByte(c, b) =>
        if IsPresent(s, c) {
          CoreByteOnward(w, s, c, b);
          if s.cores[c].lastClientID == id {
            ReplyKeepsInput(w, s, c, b);
          }
        }
      case Reap => ReapLeavesCores(w, s);
      case _ =>
    }
  }

  /** What a client sends that is to be removed is kept aside: nothing is handed over any more. */
  lemma MarkedHandsNothing(w: World, s: State, id: nat, b: char)
    requires id in s.sessions && id in s.marked
    ensures var x := s.sessions[id];
      ReadClientByte(w, s, id, b) == if b == '\r' then s else SetSession(s, id, x.(linebuf := x.linebuf + [b]))
  {
    hide LineFromClient, LineFromHttpClient;
  }

  lemma ReturnIsDropped(w: World, s: State, id: nat)
    requires id in s.sessions
    ensures ReadClientByte(w, s, id, '\r') == s
  {
  }

  /** A live session was live before, or has just arrived. */
  lemma StaysLive(w: World, s: State, e: Event, id: nat)
    requires Inv(w, s, 0) && IsClient(Step(w, s, e), id)
    ensures if id in s.sessions then id !in s.marked
            else e.Accept? && id == s.sessionIDCounter + 1 && Step(w, s, e).sessions[id] == FreshSession(e.kind)
  {
    hide Inv, ReadClientByte, ReadCoreByte, RemoveAll, ConversationOver, LineFromClient, LineFromHttpClient;
    InvBelow(w, s);
    match e {
      case ClientByte(j, b) =>
        if j in s.sessions {
          ClientByteOnward(w, s, j, b);
          ByteKeepsMarks(w, s, j, b);
        }
      case CoreByte(c, b) =>
        if IsPresent(s, c) {
          CoreByteOnward(w, s, c, b);
          CoreByteKeepsMarks(w, s, c, b);
        }
      case Reap => ReapLeavesCores(w, s);
      case _ =>
    }
  }

  lemma ByteKeepsMarks(w: World, s: State, id: nat, b: char)
    requires id in s.sessions
    ensures ReadClientByte(w, s, id, b).marked == s.marked
  {
    hide LineFromClient, LineFromHttpClient;
  }

  lemma {:induction false} DrainKeepsMarks(w: World, s: State, id: nat)
    ensures Drain(w, s, id).marked == s.marked
    decreases if id in s.sessions then |s.sessions[id].lineQueue| else 0
  {
    hide DrainOne, IsWaiting;
    if Draining(s, id) {
      DrainOneShrinks(w, s, id);
      DrainKeepsMarks(w, DrainOne(w, s, id), id);
    }
  }

  lemma CoreByteKeepsMarks(w: World, s: State, c: nat, b: char)
    requires c in s.cores
    ensures ReadCoreByte(w, s, c, b).marked == s.marked
  {
    hide Drain, IsWaiting, CoreHears;
    var k := s.cores[c];
    DrainKeepsMarks(w, LineFromCore(SetCore(s, c, k.(linebuf := "")), c, k.linebuf + [b]), k.lastClientID);
  }

  lemma {:induction false} NothingTyped(w: World, events: seq<Event>, id: nat)
    requires id > Run(w, events).sessionIDCounter
    ensures Typed(w, events, id) == ""
  {
    hide Step, Inv;
    if events != [] {
      var n := |events| - 1;
      AlwaysInv(w, events[..n]);
      CounterGrows(w, Run(w, events[..n]), events[n]);
      NothingTyped(w, events[..n], id);
      if id in Run(w, events[..n]).sessions {
        IDBelow(w, Run(w, events[..n]), id);
        assert false;
      }
    }
  }

  lemma CounterGrows(w: World, s: State, e: Event)
    requires Inv(w, s, 0)
    ensures Step(w, s, e).sessionIDCounter >= s.sessionIDCounter
  {
    hide Inv, ReadClientByte, ReadCoreByte, RemoveAll, ConversationOver;
    InvBelow(w, s);
    match e {
      case ClientByte(j, b) => if j in s.sessions { ClientByteOnward(w, s, j, b); }
      case CoreByte(c, b) => if IsPresent(s, c) { CoreByteOnward(w, s, c, b); }
      case Reap => ReapLeavesCores(w, s);
      case _ =>
    }
  }

  /** However the bytes of a live client arrive, chopped in any way, what the server takes them for is what was
      typed, without carriage returns, cut at the newlines: the lines that a TCP session was handed, or the
      requests of an HTTP session. */
  lemma {:induction false} ClientLinesAreTheStream(w: World, events: seq<Event>, id: nat)
    requires IsClient(Run(w, events), id)
    ensures SessionFramed(Run(w, events).sessions[id], Typed(w, events, id))
  {
    hide Step, Inv, Cut, SessionFramed;
    if events != [] {
      var n := |events| - 1;
      var s, e := Run(w, events[..n]), events[n];
      AlwaysInv(w, events[..n]);
      StaysLive(w, s, e, id);
      if id in s.sessions {
        ClientLinesAreTheStream(w, events[..n], id);
        if e.ClientByte? && e.id == id && e.c != '\r' {
          ReadByteTakes(w, s, id, e.c);
          FramedByte(s.sessions[id], ReadClientByte(w, s, id, e.c).sessions[id], Typed(w, events[..n], id), e.c);
          assert Step(w, s, e) == ReadClientByte(w, s, id, e.c) by { ByteIsAStep(w, s, id, e.c); }
        } else {
          OtherStepsKeepInput(w, s, e, id);
          SameInputFramed(s.sessions[id], Step(w, s, e).sessions[id], Typed(w, events[..n], id));
          assert Typed(w, events, id) == Typed(w, events[..n], id);
        }
      } else {
        NothingTyped(w, events[..n], id);
        assert Typed(w, events, id) == "";
        FreshFramed(e.kind);
      }
    }
  }

  lemma ByteIsAStep(w: World, s: State, id: nat, b: char)
    requires id in s.sessions
    ensures Step(w, s, ClientByte(id, b)) == ReadClientByte(w, s, id, b)
  {
  }

  lemma SameInputFramed(x: Session, y: Session, typed: string)
    requires SessionFramed(x, typed) && SameTyping(x, y)
    ensures SessionFramed(y, typed)
  {
  }

  lemma FreshFramed(kind: Kind)
    ensures SessionFramed(FreshSession(kind), "")
  {
  }
}
