/** What travels on the pipe to a core is lines, so that the core can find its commands in the bytes. */
module Wire {
  import opened Framing
  import opened Auth
  import opened HttpRequest
  import opened HttpResponse
  import opened Model
  import opened Machine
  import opened Invariants
  import opened ClientLines
  import opened Steps
  import opened Reachable
  import opened Theorems
  import opened History

  // ---------------------------------------------------------------- the invariant

  /** All lines of a block end in a newline and hold no other. */
  ghost predicate Lined(b: Block) {
    forall l :: l in b ==> Proper(l)
  }

  ghost predicate CoreLined(k: Core) {
    forall i :: 0 <= i < |k.accepted| ==> Lined(k.accepted[i].entry.Block())
  }

  ghost predicate CoresLined(cores: Cores) {
    forall c :: c in cores ==> CoreLined(cores[c])
  }

  /** The empty line of an HTTP request that asks for nothing is the only held line without a newline. */
  predicate Held(l: Line) {
    l == "" || Proper(l)
  }

  ghost predicate SessionLined(x: Session, live: bool) {
    && (live ==> NoNewline(x.linebuf))
    && (forall l :: l in x.lineQueue ==> Held(l))
    && (x.curCommand.Some? ==> Lined(x.curCommand.value.Block()))
  }

  ghost predicate AllLined(s: State) {
    CoresLined(s.cores) && forall id :: id in s.sessions ==> SessionLined(s.sessions[id], id !in s.marked)
  }

  // ---------------------------------------------------------------- commands

  lemma SameAccepted(cores: Cores, c: nat, k: Core)
    requires CoresLined(cores) && (if c in cores then k.accepted == cores[c].accepted else k.accepted == [])
    ensures CoresLined(cores[c := k])
  {
  }

  lemma FlushAccepts(k: Core)
    ensures FlushCore(k).accepted == k.accepted
  {
  }

  lemma ForwardLined(w: World, a: Answer, s: State, id: nat, e: Entry)
    requires id in s.sessions && s.sessions[id].issued != [] && CoresLined(s.cores) && Lined(e.Block())
    ensures CoresLined(ForwardToCore(w, a, s, id, e).cores)
  {
    hide CoreCommand, FlushCore, Proper;
    var c := s.sessions[id].coreID;
    if IsRunning(s, c) && CoreCommand(w, e.command).Some?
       && Rank(s.sessions[id].level) >= Rank(CoreCommand(w, e.command).value) {
      var t := Enqueue(s, id, c, e);
      assert CoreLined(t.cores[c]) by { assert CoreLined(s.cores[c]); }
      FlushAccepts(t.cores[c]);
      SameAccepted(t.cores, c, FlushCore(t.cores[c]));
    }
  }

  lemma {:induction false} JoinWordsProper(words: seq<string>)
    requires forall k :: 0 <= k < |words| ==> NoNewline(words[k])
    ensures Proper(JoinWords(words))
  {
    if words != [] {
      JoinWordsProper(words[1..]);
      var rest := JoinWords(words[1..]);
      var line := words[0] + " " + rest;
      assert line[..|line|-1] == words[0] + " " + rest[..|rest|-1];
    }
  }

  lemma RebuiltLined(id: nat, command: Line)
    ensures Lined(NewEntry(id, JoinWords(SplitString(command, BLANKS))).Block())
  {
    var words := SplitString(command, BLANKS);
    forall k | 0 <= k < |words| ensures NoNewline(words[k]) {
      SplitGivesWords(command, BLANKS, k);
    }
    JoinWordsProper(words);
  }

  lemma HelpLined(w: World, a: Answer, s: State, id: nat, command: Line)
    requires id in s.sessions && s.sessions[id].issued != [] && CoresLined(s.cores)
    requires SplitString(command, BLANKS) != []
    ensures CoresLined(Help(w, a, s, id, SplitString(command, BLANKS)).cores)
  {
    hide CoresLined, ForwardToCore, SplitString, JoinWords, EmitAll, Listing, Lined;
    var words := SplitString(command, BLANKS);
    var e := NewEntry(id, JoinWords(words));
    RebuiltLined(id, command);
    ForwardLined(w, a, s, id, e);
    if |words| == 1 {
      EmitAllKeepsCores(s, id, HelpListing(a));
      ForwardLined(w, a, EmitAll(s, id, HelpListing(a)), id, e);
    } else {
      EmitAllKeepsCores(s, id, Listing(a.status + words[1] + ":\n", a.data));
    }
  }

  lemma ShutdownLined(w: World, a: Answer, s: State, id: nat, words: seq<string>)
    requires id in s.sessions && s.sessions[id].issued != [] && CoresLined(s.cores)
    ensures CoresLined(Shutdown(w, a, s, id, words).cores)
  {
    hide CoresLined, ForwardToCore;
    var c := s.sessions[id].coreID;
    if |words| == 1 && IsRunning(s, c) {
      var e := NewEntry(id, SHUTDOWN_LINE);
      assert Proper(SHUTDOWN_LINE) by { assert SHUTDOWN_LINE[..8] == "shutdown"; }
      ForwardLined(w, a, s, id, e);
      var t := ForwardToCore(w, a, s, id, e);
      SameAccepted(t.cores, c, StopCore(t.cores[c], Stopped));
    }
  }

  lemma VoidLined(w: World, a: Answer, s: State, id: nat, words: seq<string>)
    requires id in s.sessions && s.sessions[id].issued != [] && words != [] && CoresLined(s.cores) && CoreIDsBelow(s)
    ensures CoresLined(ExecuteVoid(w, a, s, id, words).cores)
  {
    hide CoresLined, Shutdown, FindNamed, ValidGraphName, AuthorizeCommand;
    ShutdownLined(w, a, s, id, words);
    if words[0] == "create-graph" && |words| == 2 {
      assert s.coreIDCounter + 1 !in s.cores;
      SameAccepted(s.cores, s.coreIDCounter + 1, FreshCore(words[1]));
    } else if words[0] == "drop-graph" && |words| == 2 && FindNamed(s, words[1]).Some? {
      var c := FindNamed(s, words[1]).value;
      SameAccepted(s.cores, c, StopCore(s.cores[c], Stopped));
    }
  }

  lemma ExecuteLined(w: World, a: Answer, s: State, id: nat, command: Line)
    requires id in s.sessions && s.sessions[id].issued != [] && CoresLined(s.cores) && CoreIDsBelow(s)
    requires SplitString(command, BLANKS) != [] && SplitString(command, BLANKS)[0] in SERVER_COMMANDS
    ensures CoresLined(Execute(w, a, s, id, SplitString(command, BLANKS)).cores)
  {
    hide CoresLined, Help, ExecuteVoid, EmitAll, SplitString, Listing;
    var words := SplitString(command, BLANKS);
    HelpLined(w, a, s, id, command);
    VoidLined(w, a, s, id, words);
    EmitAllKeepsCores(s, id, Listing(a.status, a.data));
  }

  /** A command line is proper, or the empty line that asks for nothing. */
  ghost predicate Presentable(e: Entry) {
    Lined(e.Block()) || (e.command == "" && e.dataset == [])
  }

  lemma ProcessLined(w: World, s: State, id: nat, e: Entry)
    requires id in s.sessions && CoresLined(s.cores) && CoreIDsBelow(s) && Presentable(e)
    ensures CoresLined(ProcessCommand(w, s, id, e).cores)
  {
    hide CoresLined, Execute, ForwardToCore, Lined;
    var a, b := w.answers(s.tick), Begin(s, id, e.Block());
    assert CoreIDsBelow(b);
    if SplitString(e.command, BLANKS) != [] {
      ForwardLined(w, a, b, id, e);
      if SplitString(e.command, BLANKS)[0] in SERVER_COMMANDS {
        ExecuteLined(w, a, b, id, e.command);
      }
    }
  }

  // ---------------------------------------------------------------- lines

  lemma ProcessKeepsLined(w: World, s: State, id: nat, e: Entry)
    requires AllLined(s) && id in s.sessions && CoreIDsBelow(s) && Presentable(e)
    ensures AllLined(ProcessCommand(w, s, id, e))
  {
    hide CoresLined, ProcessCommand, Lined, Presentable;
    ProcessLined(w, s, id, e);
  }

  lemma SessionKeepsLined(s: State, id: nat, y: Session)
    requires AllLined(s) && id in s.sessions && SessionLined(y, id !in s.marked)
    ensures AllLined(SetSession(s, id, y))
  {
    hide CoresLined, SessionLined;
  }

  /** A line of an open data set joins it. */
  lemma ContinueLined(w: World, s: State, id: nat, line: Line, fromQueue: bool)
    requires AllLined(s) && id in s.sessions && CoreIDsBelow(s) && Proper(line)
    requires s.sessions[id].curCommand.Some?
    ensures AllLined(HandleLine(w, s, id, line, fromQueue))
  {
    hide AllLined, ProcessCommand, Blank, Proper;
    var x := s.sessions[id];
    var e := x.curCommand.value;
    assert SessionLined(x, id !in s.marked) by { SessionOf(s, id); }
    if e.acceptsData && !e.dataFinished {
      var e' := e.Append(line);
      assert e'.Block() == e.Block() + [line];
      SessionKeepsLined(s, id, x.(curCommand := Some(e')));
      var s1 := SetCurrent(s, id, Some(e'));
      if e'.Flushable() {
        ProcessKeepsLined(w, s1, id, e');
        var t := ProcessCommand(w, s1, id, e');
        SessionOf(t, id);
        SessionKeepsLined(t, id, t.sessions[id].(curCommand := None));
      }
    } else {
      SessionKeepsLined(s, id, x.(lineQueue := x.lineQueue + [line]));
    }
  }

  lemma SessionOf(s: State, id: nat)
    requires AllLined(s) && id in s.sessions
    ensures SessionLined(s.sessions[id], id !in s.marked)
  {
  }

  lemma HandleKeepsLined(w: World, s: State, id: nat, line: Line, fromQueue: bool)
    requires AllLined(s) && id in s.sessions && CoreIDsBelow(s) && Held(line)
    requires s.sessions[id].curCommand.Some? ==> Proper(line)
    ensures AllLined(HandleLine(w, s, id, line, fromQueue))
  {
    hide AllLined, ProcessCommand, IsWaiting, Proper;
    var x := s.sessions[id];
    SessionOf(s, id);
    if x.curCommand.Some? {
      ContinueLined(w, s, id, line, fromQueue);
    } else {
      var e := NewEntry(id, line);
      ProcessKeepsLined(w, s, id, e);
      SessionKeepsLined(s, id, x.(lineQueue := x.lineQueue + [line]));
      if !e.Flushable() {
        SessionKeepsLined(s, id, x.(curCommand := Some(e)));
      }
    }
  }

  lemma LineKeepsLined(w: World, s: State, id: nat, line: Line)
    requires AllLined(s) && id in s.sessions && CoreIDsBelow(s) && Held(EnsureNewline(line))
    requires s.sessions[id].curCommand.Some? ==> Proper(EnsureNewline(line))
    ensures AllLined(LineFromClient(w, s, id, line))
  {
    hide AllLined, HandleLine, Held, Proper, EnsureNewline, Lined;
    var nl := EnsureNewline(line);
    SessionOf(s, id);
    SessionKeepsLined(s, id, LogReceived(s, id, nl).sessions[id]);
    HandleKeepsLined(w, LogReceived(s, id, nl), id, nl, false);
  }

  /** What a request asks for is one line, completed with a newline. */
  lemma RequestedIsHeld(line: Line, command: string)
    requires ParseRequest(line) == Plain(command) || exists name :: ParseRequest(line) == ToCore(name, command)
    ensures Held(EnsureNewline(command))
  {
    RequestGivesOneLine(line);
    assert NoNewline(command) && command != "" && EnsureNewline(command)[..|command|] == command by {
      hide SplitString;
      assert command[|command|-1] in command;
    }
  }

  /** A request hands over at most one line; it ends in a newline, holds no other, and opens no data set. */
  lemma OneRequestOneLine(w: World, s: State, id: nat, line: Line) returns (lines: seq<Line>)
    requires id in s.sessions
    ensures |lines| <= 1 && forall l :: l in lines ==> Proper(l) && !Opens(l)
    ensures var t := LineFromHttpClient(w, s, id, line);
      t.sessions[id].received == s.sessions[id].received + lines
  {
    hide HandleLine, ParseRequest, Opens, Blank, EnsureNewline, Proper;
    lines := [];
    if line == "\n" {
      var request := (s.sessions[id].request + [line])[0];
      RequestGivesOneLine(request);
      match ParseRequest(request) {
        case ToCore(name, command) =>
          if FindNamed(s, name).Some? && !Opens(command) {
            lines := [EnsureNewline(command)];
            CompletedCommand(command);
          }
        case Plain(command) =>
          if !Opens(command) {
            lines := [EnsureNewline(command)];
            CompletedCommand(command);
          }
        case _ =>
      }
      HttpRunReceives(w, s, id, line, lines);
    }
  }

  lemma CompletedCommand(command: string)
    requires command != "" && NoNewline(command) && !Opens(command)
    ensures Proper(EnsureNewline(command)) && !Opens(EnsureNewline(command))
  {
    EnsureNewlineOpens(command);
    assert command[|command|-1] in command;
    assert EnsureNewline(command)[..|command|] == command;
  }

  lemma HttpRunReceives(w: World, s: State, id: nat, line: Line, lines: seq<Line>)
    requires id in s.sessions && line == "\n"
    requires lines ==
      match ParseRequest((s.sessions[id].request + [line])[0])
      case ToCore(name, command) =>
        if FindNamed(s, name).Some? && !Opens(command) then [EnsureNewline(command)] else []
      case Plain(command) => if !Opens(command) then [EnsureNewline(command)] else []
      case _ => []
    ensures LineFromHttpClient(w, s, id, line).sessions[id].received == s.sessions[id].received + lines
  {
    hide LineFromClient, ParseRequest, Opens, EnsureNewline, Refuse;
    var x := s.sessions[id];
    var s1 := SetSession(s, id, x.(request := [], requests := x.requests + 1));
    match ParseRequest((x.request + [line])[0]) {
      case ToCore(name, command) =>
        SameNames(s, s1, name);
        if FindNamed(s, name).Some? {
          LineReceived(w, SetSession(s1, id, s1.sessions[id].(coreID := FindNamed(s1, name).value)), id, command);
        }
      case Plain(command) => LineReceived(w, s1, id, command);
      case _ =>
    }
    RefusalReceivesNothing(w, s1, id);
  }

  lemma LineReceived(w: World, s: State, id: nat, line: Line)
    requires id in s.sessions
    ensures LineFromClient(w, s, id, line).sessions[id].received == s.sessions[id].received + [EnsureNewline(line)]
  {
    hide HandleLine, EnsureNewline;
    HandlingKeepsLog(w, LogReceived(s, id, EnsureNewline(line)), id, EnsureNewline(line), false);
  }

  lemma RefusalReceivesNothing(w: World, s: State, id: nat)
    requires id in s.sessions
    ensures Refuse(w, s, id).sessions[id].received == s.sessions[id].received
  {
  }

  lemma SameNames(s: State, t: State, name: string)
    requires t.cores == s.cores
    ensures FindNamed(t, name).Some? == FindNamed(s, name).Some?
  {
    if !NoneNamed(s, name) {
      var c :| c in s.cores && NamedRunning(s, c, name);
      assert NamedRunning(t, c, name);
    }
    if !NoneNamed(t, name) {
      var c :| c in t.cores && NamedRunning(t, c, name);
      assert NamedRunning(s, c, name);
    }
  }

  lemma HttpKeepsLined(w: World, s: State, id: nat, line: Line)
    requires AllLined(s) && id in s.sessions && CoreIDsBelow(s) && s.sessions[id].curCommand.None?
    ensures AllLined(LineFromHttpClient(w, s, id, line))
  {
    hide Refuse;
    hide AllLined, LineFromClient, ParseRequest, Held, EnsureNewline, FindNamed, Opens, Lined;
    var x := s.sessions[id];
    var request := x.request + [line];
    var y := if line == "\n" then x.(request := [], requests := x.requests + 1) else x.(request := request);
    SessionOf(s, id);
    SessionKeepsLined(s, id, y);
    if line == "\n" {
      var s1, target := SetSession(s, id, y), ParseRequest(request[0]);
      assert AllLined(Refuse(w, s1, id)) by { RefuseKeepsLined(w, s1, id); }
      match target {
        case ToCore(name, command) =>
          var c := FindNamed(s1, name);
          RequestedIsHeld(request[0], command);
          if c.Some? {
            SessionKeepsLined(s1, id, y.(coreID := c.value));
            LineKeepsLined(w, SetSession(s1, id, y.(coreID := c.value)), id, command);
          }
        case Plain(command) =>
          RequestedIsHeld(request[0], command);
          LineKeepsLined(w, s1, id, command);
        case _ =>
      }
    }
  }

  lemma RefuseKeepsLined(w: World, s: State, id: nat)
    requires AllLined(s) && id in s.sessions
    ensures AllLined(Refuse(w, s, id))
  {
    hide AllLined, Lined, Held, CountStatus, Blank;
    SessionOf(s, id);
    var t := Refuse(w, s, id);
    assert t.sessions == s.sessions[id := t.sessions[id]];
    SessionKeepsLined(s, id, t.sessions[id]);
    TickKeepsLined(SetSession(s, id, t.sessions[id]));
  }

  lemma TickKeepsLined(s: State)
    requires AllLined(s)
    ensures AllLined(s.(tick := s.tick + 1))
  {
    hide CoresLined, SessionLined;
  }

  lemma {:induction false} DrainKeepsLined(w: World, s: State, id: nat)
    requires AllLined(s) && id in s.sessions && CoreIDsBelow(s)
    ensures AllLined(Drain(w, s, id))
    decreases |s.sessions[id].lineQueue|
  {
    hide AllLined, HandleLine, Held, Lined, CoreIDsBelow, Later;
    if Draining(s, id) {
      var line := s.sessions[id].lineQueue[0];
      SessionOf(s, id);
      assert Held(line) && EnsureNewline(line) == line by { HeldIsComplete(line); }
      HandleKeepsLined(w, s, id, line, true);
      HandleOnward(w, s, id, line, true);
      var t, u := HandleLine(w, s, id, line, true), DrainOne(w, s, id);
      SessionOf(t, id);
      SessionKeepsLined(t, id, u.sessions[id]);
      DrainOneShrinks(w, s, id);
      assert CoreIDsBelow(u) by { SameIDsBelow(t, u); }
      DrainKeepsLined(w, u, id);
    }
  }

  lemma HeldIsComplete(line: Line)
    ensures Held(line) ==> EnsureNewline(line) == line
  {
  }

  lemma SameIDsBelow(s: State, t: State)
    requires CoreIDsBelow(s) && t.cores == s.cores && t.coreIDCounter == s.coreIDCounter
    ensures CoreIDsBelow(t)
  {
  }

  // ---------------------------------------------------------------- events

  lemma CoreKeepsLined(s: State, c: nat, k: Core)
    requires AllLined(s) && c in s.cores && k.accepted == s.cores[c].accepted
    ensures AllLined(SetCore(s, c, k))
  {
    hide SessionLined, CoresLined;
    SameAccepted(s.cores, c, k);
  }

  lemma HeardKeepsLined(s: State, c: nat, line: Line)
    requires AllLined(s) && c in s.cores
    ensures AllLined(LineFromCore(s, c, line)) && (CoreIDsBelow(s) ==> CoreIDsBelow(LineFromCore(s, c, line)))
  {
    hide AllLined, CountStatus, Blank, Lined, Held;
    var k := s.cores[c];
    CoreKeepsLined(s, c, CoreHears(k, line));
    var s1 := SetCore(s, c, CoreHears(k, line));
    if IsClient(s, k.lastClientID) && k.Busy() {
      var id := k.lastClientID;
      SessionOf(s1, id);
      SessionKeepsLined(s1, id, LineFromCore(s, c, line).sessions[id]);
    }
  }

  lemma CoreLineKeepsLined(w: World, s: State, c: nat, line: Line)
    requires AllLined(s) && c in s.cores && CoreIDsBelow(s)
    ensures AllLined(CoreLine(w, s, c, line))
  {
    hide AllLined, LineFromCore, Drain, IsWaiting, CoreIDsBelow;
    HeardKeepsLined(s, c, line);
    var id := s.cores[c].lastClientID;
    if IsClient(s, id) && IsWaiting(s, id) {
      LineFromCoreKeepsSessions(s, c, line);
      DrainKeepsLined(w, LineFromCore(s, c, line), id);
    }
  }

  lemma CoreByteKeepsLined(w: World, s: State, c: nat, b: char)
    requires AllLined(s) && c in s.cores && CoreIDsBelow(s)
    ensures AllLined(ReadCoreByte(w, s, c, b))
  {
    hide AllLined, CoreLine;
    var k := s.cores[c];
    CoreKeepsLined(s, c, k.(linebuf := k.linebuf + [b]));
    CoreKeepsLined(s, c, k.(linebuf := ""));
    if b == '\n' {
      CoreLineKeepsLined(w, SetCore(s, c, k.(linebuf := "")), c, k.linebuf + [b]);
    }
  }

  lemma ClientByteKeepsLined(w: World, s: State, id: nat, b: char)
    requires AllLined(s) && id in s.sessions && CoreIDsBelow(s)
    requires s.sessions[id].kind.Http? ==> s.sessions[id].curCommand.None?
    ensures AllLined(ReadClientByte(w, s, id, b))
  {
    hide AllLined, LineFromClient, LineFromHttpClient, Lined;
    var x := s.sessions[id];
    var line := x.linebuf + [b];
    SessionOf(s, id);
    if b == '\n' && id !in s.marked {
      SessionKeepsLined(s, id, x.(linebuf := ""));
      var s1 := SetSession(s, id, x.(linebuf := ""));
      assert Proper(line) by { assert line[..|line|-1] == x.linebuf; }
      if x.kind.Http? {
        HttpKeepsLined(w, s1, id, line);
      } else {
        LineKeepsLined(w, s1, id, line);
      }
    } else if b != '\r' {
      SessionKeepsLined(s, id, x.(linebuf := line));
    }
  }

  lemma FlushKeepsLined(s: State)
    requires AllLined(s)
    ensures AllLined(FlushAll(s))
  {
    hide SessionLined, FlushCore;
    forall c | c in s.cores ensures CoreLined(FlushAll(s).cores[c]) {
      assert CoreLined(s.cores[c]);
      FlushAccepts(s.cores[c]);
    }
  }

  lemma SweepKeepsLined(s: State, drained: set<nat>)
    requires AllLined(s)
    ensures AllLined(Sweep(s, drained))
  {
    hide CoresLined, ConversationOver, Lined, Held;
    forall id | id in s.sessions ensures SessionLined(Sweep(s, drained).sessions[id], id !in s.marked) {
      SessionOf(s, id);
    }
  }

  lemma StepKeepsLined(w: World, s: State, e: Event)
    requires Inv(w, s, 0) && AllLined(s)
    ensures AllLined(Step(w, s, e))
  {
    hide Inv, ReadClientByte, ReadCoreByte, FlushAll, Sweep, RemoveAll, CoresLined, Lined, Held;
    InvBelow(w, s);
    match e {
      case ClientByte(id, b) =>
        if id in s.sessions {
          NoHttpDataset(w, s, id);
          ClientByteKeepsLined(w, s, id, b);
        }
      case CoreByte(c, b) => if IsPresent(s, c) { CoreByteKeepsLined(w, s, c, b); }
      case Flush => FlushKeepsLined(s);
      case Reap => ReapLeavesCores(w, s);
      case CoreExit(c) => if IsPresent(s, c) { CoreKeepsLined(s, c, StopCore(s.cores[c], Gone)); }
      case SweepHttp(drained) => SweepKeepsLined(s, drained);
      case _ =>
    }
  }

  lemma NoHttpDataset(w: World, s: State, id: nat)
    requires Inv(w, s, 0) && id in s.sessions
    ensures s.sessions[id].kind.Http? ==> s.sessions[id].curCommand.None?
  {
    hide CoresOk, Mid, NoneStranded, LevelOk;
    assert SessionOk(w, s.cores, id, s.sessions[id], id !in s.marked, true);
  }

  lemma {:induction false} AlwaysLined(w: World, events: seq<Event>)
    ensures AllLined(Run(w, events))
  {
    hide Step, Inv;
    if events != [] {
      var n := |events| - 1;
      AlwaysLined(w, events[..n]);
      AlwaysInv(w, events[..n]);
      StepKeepsLined(w, Run(w, events[..n]), events[n]);
    }
  }

  // ---------------------------------------------------------------- the stream

  lemma {:induction false} FlatLined(blocks: seq<Block>)
    requires forall i :: 0 <= i < |blocks| ==> Lined(blocks[i])
    ensures Lined(Flat(blocks))
  {
    if blocks != [] {
      FlatLined(blocks[..|blocks|-1]);
    }
  }

  /** Cutting the bytes sent to a core into lines, and the lines into protocol blocks, recovers exactly the
      commands written to it: every command whole, nothing in between and nothing left over. */
  lemma CoreBytesFraming(w: World, events: seq<Event>, c: nat)
    requires c in Run(w, events).cores
    ensures var k := Run(w, events).cores[c];
      && Cut(Flat(k.stream), EndsLine) == (k.stream, "")
      && Cut(k.stream, Whole) == (CommandBlocks(k.written), [])
  {
    hide Run, Cut, Whole, Open, Lined, Blank;
    var k := Run(w, events).cores[c];
    CoreInputFraming(w, events, c);
    AlwaysLined(w, events);
    ReachedCore(w, events, c);
    assert CoreLined(k);
    forall i | 0 <= i < |k.written| ensures Lined(CommandBlocks(k.written)[i]) {
      assert k.accepted[i].entry == k.written[i] by { CoreFineFifo(w, Run(w, events), c); }
    }
    StreamIsFlat(k.written);
    FlatLined(CommandBlocks(k.written));
    assert forall l :: l in k.stream ==> Proper(l) by { LinedLines(k.stream); }
    LinesRoundTrip(k.stream, "");
    assert Flat(k.stream) + "" == Flat(k.stream);
  }

  lemma LinedLines(b: Block)
    requires Lined(b)
    ensures forall l :: l in b ==> Proper(l)
  {
  }
}
