/** Two claims about HTTP clients that hold only with a condition, and what happens without it: that a response
    is one response, and that HTTP clients run at read level. */
module HttpRuns {
  import opened Framing
  import opened Auth
  import opened HttpRequest
  import opened HttpResponse
  import opened Model
  import opened Machine
  import opened Invariants
  import opened Evolution
  import opened Commands
  import opened HttpSessions
  import opened ClientLines
  import opened Steps
  import opened Reachable
  import opened Theorems
  import opened History
  import opened Typing
  import opened Inputs
  import opened StoppedCores
  import opened Pipelining
  import opened ServerCommands

  // ---------------------------------------------------------------- the first request of a session

  /** The next newline of this client ends its first request, which asks a core for a command. */
  predicate FirstRequest(s: State, id: nat, name: string, command: string) {
    IsClient(s, id) &&
    var x := s.sessions[id];
    && x.kind.Http? && x.requests == 0 && x.linebuf == "" && x.request != []
    && ParseRequest(x.request[0]) == ToCore(name, command) && !Opens(command)
  }

  /** The session connected to that core, with the command received. */
  function Connected(s: State, id: nat, c: nat, line: Line): (t: State)
    requires id in s.sessions
    ensures id in t.sessions
  {
    var x := s.sessions[id];
    LogReceived(SetSession(s, id, x.(linebuf := "", request := [], requests := 1, coreID := c)), id, line)
  }

  lemma UntouchedSession(w: World, s: State, id: nat)
    requires Inv(w, s, 0) && id in s.sessions && s.sessions[id].kind.Http? && s.sessions[id].requests == 0
    ensures var x := s.sessions[id];
      && x.issued == [] && x.lineQueue == [] && x.curCommand.None? && x.level == Read && QueueOk(x)
      && (id !in s.marked ==> x.out == [])
  {
    hide CoresOk, Refs, Back, Turn, Routes, NoneStranded, QueueOk;
    assert SessionOk(w, s.cores, id, s.sessions[id], id !in s.marked, true);
  }

  lemma ConnectedIsFree(w: World, s: State, id: nat, c: nat, line: Line)
    requires Inv(w, s, 0) && id in s.sessions && s.sessions[id].kind.Http? && s.sessions[id].requests == 0
    requires !Opens(line)
    ensures !IsWaiting(Connected(s, id, c, line), id)
  {
    hide Inv, IsWaiting, Opens, QueueOk, HandleLine;
    var x := s.sessions[id];
    UntouchedSession(w, s, id);
    PickUp(w, s, id);
    var y := x.(linebuf := "", request := [], requests := 1);
    QueueDoesNotMatter(w, s, id, y);
    var s1 := SetSession(s, id, y);
    assert Free(s1.cores, y) by { HttpIsFree(s1.cores, y); }
    ReconnectKeeps(w, s1, id, y.(coreID := c));
    var s2 := SetSession(s1, id, y.(coreID := c));
    QueueDoesNotMatter(w, s2, id, y.(coreID := c, received := y.received + [line]));
    assert SetSession(s2, id, y.(coreID := c, received := y.received + [line])) == Connected(s, id, c, line);
    assert QueueOk(x) ==> QueueOk(Connected(s, id, c, line).sessions[id]) by {
      if QueueOk(x) { SameQueueOk(x, Connected(s, id, c, line).sessions[id]); }
    }
    FirstHttpLine(w, Connected(s, id, c, line), id, line);
  }

  /** A line that finds its session free is a command at once. */
  lemma FreshLineRuns(w: World, s: State, id: nat, line: Line)
    requires id in s.sessions && s.sessions[id].curCommand.None? && s.sessions[id].lineQueue == [] && !Opens(line)
    requires !IsWaiting(LogReceived(s, id, EnsureNewline(line)), id)
    ensures var nl := EnsureNewline(line);
      LineFromClient(w, s, id, line)
      == Dispatch(w, w.answers(s.tick), Begin(LogReceived(s, id, nl), id, [nl]), id, NewEntry(id, nl))
  {
    hide Dispatch, Opens, EnsureNewline, IsWaiting;
    EnsureNewlineOpens(line);
    assert NewEntry(id, EnsureNewline(line)).Block() == [EnsureNewline(line)];
  }

  lemma BlankLineRuns(w: World, s: State, id: nat)
    requires IsClient(s, id) && s.sessions[id].kind.Http? && s.sessions[id].linebuf == ""
    requires s.sessions[id].request != []
    ensures var x := s.sessions[id];
      ReadClientByte(w, s, id, '\n')
      == HttpRun(w, SetSession(s, id, x.(linebuf := "", request := [], requests := x.requests + 1)), id,
                 ParseRequest(x.request[0]))
  {
    hide HttpRun, ParseRequest;
    var x := s.sessions[id];
    var y := x.(linebuf := "", request := [], requests := x.requests + 1);
    assert "" + ['\n'] == "\n" && (x.request + ["\n"])[0] == x.request[0];
    assert s.sessions[id := x][id := y] == s.sessions[id := y];
  }

  /** A request for a running core's command is a line for that core. */
  lemma RequestIsLine(w: World, s: State, id: nat, name: string, command: string)
    requires id in s.sessions && FindNamed(s, name).Some? && !Opens(command)
    ensures HttpRun(w, s, id, ToCore(name, command))
      == LineFromClient(w, SetSession(s, id, s.sessions[id].(coreID := FindNamed(s, name).value)), id, command)
  {
    hide LineFromClient, FindNamed, Opens;
  }

  /** The newline runs the command at that core's session. */
  lemma FirstRequestRuns(w: World, s: State, id: nat, name: string, command: string)
    requires Inv(w, s, 0) && FirstRequest(s, id, name, command) && FindNamed(s, name).Some?
    ensures var nl := EnsureNewline(command);
      var b := Begin(Connected(s, id, FindNamed(s, name).value, nl), id, [nl]);
      ReadClientByte(w, s, id, '\n') == Dispatch(w, w.answers(s.tick), b, id, NewEntry(id, nl))
  {
    hide Inv, IsWaiting, ParseRequest, Dispatch, Opens, EnsureNewline, FindNamed, QueueOk, LineFromClient, HttpRun,
      Begin, ReadClientByte, NewEntry;
    var nl, x, c := EnsureNewline(command), s.sessions[id], FindNamed(s, name).value;
    EnsureNewlineOpens(command);
    UntouchedSession(w, s, id);
    ConnectedIsFree(w, s, id, c, nl);
    BlankLineRuns(w, s, id);
    var s1 := SetSession(s, id, x.(linebuf := "", request := [], requests := 1));
    SameCoresSameName(s, s1, name);
    var s2 := SetSession(s1, id, s1.sessions[id].(coreID := c));
    RequestIsLine(w, s1, id, name, command);
    assert LogReceived(s2, id, nl) == Connected(s, id, c, nl);
    FreshLineRuns(w, s2, id, command);
  }

  // ---------------------------------------------------------------- help

  /** What an HTTP client is sent that asks a core for help. */
  function HelpAnswer(w: World, a: Answer): seq<Out> {
    HelpListing(a) +
    if !HelpIsKnown(w) then [NotFound(a.refusal)]
    else if w.table["help"].Read? then []
    else [Status(a.refusal, 0)]
  }

  lemma HelpDispatched(w: World, a: Answer, b: State, id: nat, line: Line)
    requires Answered(b, id, []) && b.sessions[id].out == [] && b.sessions[id].level.Read?
    requires IsRunning(b, b.sessions[id].coreID) && b.sessions[id].coreID > 0
    requires Says(line, ["help"]) && !Opens(line)
    ensures var y := Dispatch(w, a, b, id, NewEntry(id, line)).sessions[id];
      && y.out == HelpAnswer(w, a) && |y.issued| == 1
      && (y.issued[0].fwd.Some? <==> HelpIsKnown(w) && w.table["help"].Read?)
  {
    hide SplitString, ForwardToCore, EmitAll, JoinWords, HelpListing, CoreCommand, CountStatus, Blank, ExecuteVoid;
    var t := EmitAll(b, id, HelpListing(a));
    EmitAllAnswers(b, id, HelpListing(a));
    EmitAllSays(b, id, HelpListing(a));
    assert Dispatch(w, a, b, id, NewEntry(id, line))
        == ForwardToCore(w, a, t, id, NewEntry(id, JoinWords(["help"])));
    HelpNeeds(w);
    ForwardedHelp(w, a, t, id);
    assert HelpListing(a) + [] == HelpListing(a);
  }

  lemma ForwardedHelp(w: World, a: Answer, t: State, id: nat)
    requires Answered(t, id, HelpListing(a)) && t.sessions[id].out == HelpListing(a) && t.sessions[id].level.Read?
    requires IsRunning(t, t.sessions[id].coreID)
    requires CoreCommand(w, JoinWords(["help"])) == if HelpIsKnown(w) then Some(w.table["help"]) else None
    ensures var y := ForwardToCore(w, a, t, id, NewEntry(id, JoinWords(["help"]))).sessions[id];
      && y.out == HelpAnswer(w, a) && |y.issued| == 1
      && (y.issued[0].fwd.Some? <==> HelpIsKnown(w) && w.table["help"].Read?)
  {
    hide FlushCore, CoreCommand, JoinWords, HelpListing;
    assert HelpListing(a) + [] == HelpListing(a);
  }

  lemma {:induction false} HelpHeaders(w: World, a: Answer)
    ensures CountHeaders(HelpAnswer(w, a)) == 1 <==> HelpIsKnown(w)
    ensures Finished(HelpAnswer(w, a)) <==> !HelpIsKnown(w)
  {
    hide HelpListing, OneResponse;
    var out := HelpListing(a);
    ListingIsOneResponse(a);
    OneHeaderFirst(out);
    HelpListingHeads(a);
    UnfinishedHelp(out);
    OneMoreHeader(out, NotFound(a.refusal));
    OneMoreHeader(out, Status(a.refusal, 0));
    assert (out + [NotFound(a.refusal)])[..|out|] == out && (out + [Status(a.refusal, 0)])[..|out|] == out;
    assert out + [] == out;
  }

  predicate HelpRequested(s: State, id: nat, name: string, command: string) {
    FirstRequest(s, id, name, command) && FindNamed(s, name).Some? && Says(EnsureNewline(command), ["help"])
  }

  /** An HTTP client asks a running core for help, in any reachable state: what it is sent so far has a single
      header exactly if the core command table has help. Without help there, the conversation ends with two
      headers; with it, it is not over yet, and goes on at the core exactly if help needs no more than read
      level. */
  lemma HelpRequestIff(w: World, events: seq<Event>, id: nat, name: string, command: string)
    requires HelpRequested(Run(w, events), id, name, command)
    ensures id in Run(w, events + [ClientByte(id, '\n')]).sessions
    ensures var y := Run(w, events + [ClientByte(id, '\n')]).sessions[id];
      && y.requests == 1 && |y.issued| == 1
      && y.out == HelpAnswer(w, w.answers(Run(w, events).tick))
      && (CountHeaders(y.out) == 1 <==> HelpIsKnown(w))
      && (Finished(y.out) <==> !HelpIsKnown(w))
      && (y.issued[0].fwd.Some? <==> HelpIsKnown(w) && w.table["help"].Read?)
  {
    hide Run, Inv, Dispatch, FindNamed, HelpAnswer, Says, HelpIsKnown, ReadClientByte, EnsureNewline, QueueOk;
    var s := Run(w, events);
    AlwaysInv(w, events);
    RunLast(w, events, ClientByte(id, '\n'));
    FirstRequestRuns(w, s, id, name, command);
    UntouchedSession(w, s, id);
    var nl, c := EnsureNewline(command), FindNamed(s, name).value;
    EnsureNewlineOpens(command);
    NamedIsPositive(w, events, name);
    var b := Begin(Connected(s, id, c, nl), id, [nl]);
    HelpDispatched(w, w.answers(s.tick), b, id, nl);
    HelpHeaders(w, w.answers(s.tick));
  }

  lemma NamedIsPositive(w: World, events: seq<Event>, name: string)
    requires FindNamed(Run(w, events), name).Some?
    ensures var s := Run(w, events); IsRunning(s, FindNamed(s, name).value) && FindNamed(s, name).value > 0
  {
    hide Run;
    NamesAreUnique(w, events, FindNamed(Run(w, events), name).value, name);
  }

  // ---------------------------------------------------------------- a conversation that never ends

  /** As long as no further request is completed, the session is sent nothing and handles nothing. */
  ghost predicate Silent(x: Session, y: Session) {
    y.kind == x.kind && y.requests >= x.requests
    && (y.requests == x.requests ==> y.out == x.out && y.issued == x.issued && y.lineQueue == x.lineQueue)
  }

  /** No core answers a session that has nothing at a core. */
  lemma NobodyAnswers(w: World, s: State, id: nat, c: nat)
    requires Inv(w, s, 0) && id in s.sessions && c in s.cores
    requires forall k :: 0 <= k < |s.sessions[id].issued| ==> s.sessions[id].issued[k].fwd.None?
    ensures s.cores[c].lastClientID != id
  {
    hide End, NoneStranded, Routes, Delivered, Turn, Stream, Flat, AnsweredBut, EntryOk, Gate;
    var k := s.cores[c];
    assert CoreFine(w, c, k, s.coreIDCounter, s.sessionIDCounter);
    assert SessionOk(w, s.cores, id, s.sessions[id], id !in s.marked, true);
    IDBelow(w, s, id);
    if k.lastClientID == id {
      LastWritten(k);
      assert false;
    }
  }

  lemma SilentByte(w: World, s: State, id: nat, b: char)
    requires id in s.sessions && s.sessions[id].kind.Http?
    ensures id in ReadClientByte(w, s, id, b).sessions
    ensures Silent(s.sessions[id], ReadClientByte(w, s, id, b).sessions[id])
  {
    hide HttpRun, ParseRequest;
    var x := s.sessions[id];
    var line, request := x.linebuf + [b], x.request + [x.linebuf + [b]];
    if b == '\n' && id !in s.marked && line == "\n" {
      var t := SetSession(SetSession(s, id, x.(linebuf := "")), id,
                          x.(linebuf := "", request := [], requests := x.requests + 1));
      RequestKeepsInput(w, t, id, ParseRequest(request[0]));
    }
  }

  /** Requests are only counted up. */
  lemma RequestsGrow(w: World, s: State, e: Event, id: nat)
    requires Inv(w, s, 0) && id in s.sessions && s.sessions[id].kind.Http?
    ensures var t := Step(w, s, e);
      && t.sessionIDCounter >= s.sessionIDCounter
      && (id in t.sessions ==> t.sessions[id].kind.Http? && t.sessions[id].requests >= s.sessions[id].requests)
  {
    hide Inv, ReadClientByte, ReadCoreByte, Later, RemoveAll, ConversationOver;
    InvBelow(w, s);
    IDBelow(w, s, id);
    match e {
      case ClientByte(j, b) =>
        if j in s.sessions {
          ClientByteOnward(w, s, j, b);
        }
        SilentByte(w, s, id, b);
      case CoreByte(c, b) =>
        if IsPresent(s, c) {
          CoreByteOnward(w, s, c, b);
          if s.cores[c].lastClientID == id {
            ReplyKeepsInput(w, s, c, b);
          }
        }
      case Reap => ReapLeavesCores(w, s);
      case _ =>
    }
  }

  lemma SilentStep(w: World, s: State, e: Event, id: nat)
    requires Inv(w, s, 0) && id in s.sessions && s.sessions[id].kind.Http?
    requires forall k :: 0 <= k < |s.sessions[id].issued| ==> s.sessions[id].issued[k].fwd.None?
    ensures var t := Step(w, s, e); id in t.sessions ==> Silent(s.sessions[id], t.sessions[id])
  {
    hide Inv, ReadClientByte, ReadCoreByte, Later, RemoveAll, ConversationOver;
    InvBelow(w, s);
    IDBelow(w, s, id);
    match e {
      case ClientByte(j, b) =>
        if j == id {
          SilentByte(w, s, id, b);
        } else if j in s.sessions {
          ClientByteOnward(w, s, j, b);
        }
      case CoreByte(c, b) =>
        if IsPresent(s, c) {
          CoreByteOnward(w, s, c, b);
          NobodyAnswers(w, s, id, c);
        }
      case Reap => ReapLeavesCores(w, s);
      case _ =>
    }
  }

  lemma {:induction false} SilentForever(w: World, events: seq<Event>, more: seq<Event>, id: nat)
    requires var s := Run(w, events); id in s.sessions && s.sessions[id].kind.Http?
    requires var x := Run(w, events).sessions[id]; forall k :: 0 <= k < |x.issued| ==> x.issued[k].fwd.None?
    ensures var s, t := Run(w, events), Run(w, events + more);
      id <= t.sessionIDCounter && (id in t.sessions ==> Silent(s.sessions[id], t.sessions[id]))
  {
    hide Step, Run, Inv;
    var s := Run(w, events);
    AlwaysInv(w, events);
    if more == [] {
      assert events + more == events;
      IDBelow(w, s, id);
    } else {
      var n := |more| - 1;
      var t := Run(w, events + more[..n]);
      SilentForever(w, events, more[..n], id);
      assert events + more == events + more[..n] + [more[n]];
      RunLast(w, events + more[..n], more[n]);
      AlwaysInv(w, events + more[..n]);
      if id !in t.sessions {
        GoneForGood(w, t, more[n], id);
      } else {
        RequestsGrow(w, t, more[n], id);
        if t.sessions[id].requests == s.sessions[id].requests {
          SilentStep(w, t, more[n], id);
        }
      }
    }
  }

  /** An HTTP client asks a core for help that needs more than read level: whatever happens, unless the client
      sends another request, it is sent nothing more, and the conversation rule never ends the connection. */
  lemma RefusedHelpNeverEnds(w: World, events: seq<Event>, id: nat, name: string, command: string, more: seq<Event>,
                             drained: set<nat>)
    requires HelpRequested(Run(w, events), id, name, command)
    requires HelpIsKnown(w) && !w.table["help"].Read?
    ensures var t := Run(w, events + [ClientByte(id, '\n')] + more);
      id in t.sessions ==>
        t.sessions[id].requests > 1 ||
        (t.sessions[id].out == HelpAnswer(w, w.answers(Run(w, events).tick)) && !ConversationOver(t, id, drained))
  {
    hide Run, HelpRequested, HelpAnswer, Finished, CountHeaders, HelpIsKnown;
    HelpRequestIff(w, events, id, name, command);
    StillHttp(w, events, id, name, command);
    SilentForever(w, events + [ClientByte(id, '\n')], more, id);
  }

  lemma StillHttp(w: World, events: seq<Event>, id: nat, name: string, command: string)
    requires HelpRequested(Run(w, events), id, name, command)
    ensures var t := Run(w, events + [ClientByte(id, '\n')]); id in t.sessions && t.sessions[id].kind.Http?
  {
    hide Run, ReadClientByte, Says, ParseRequest, FindNamed, Opens;
    RunLast(w, events, ClientByte(id, '\n'));
    SilentByte(w, Run(w, events), id, '\n');
  }

  // ---------------------------------------------------------------- what a request hands over

  /** The next newline of this client ends a request that asks for this. */
  predicate RequestEnds(s: State, id: nat, target: Target) {
    IsClient(s, id) &&
    var x := s.sessions[id];
    x.kind.Http? && x.linebuf == "" && x.request != [] && ParseRequest(x.request[0]) == target
  }

  /** The request names no running core, announces a data set, or is no request at all. */
  predicate Refusable(s: State, target: Target) {
    match target
    case ToCore(name, command) => NoneNamed(s, name) || ColonEnded(SplitString(command, BLANKS))
    case Plain(command) => ColonEnded(SplitString(command, BLANKS))
    case _ => true
  }

  lemma RefusalAnswers(w: World, s: State, id: nat)
    requires id in s.sessions
    ensures var x, t := s.sessions[id], Refuse(w, s, id); var y := t.sessions[id];
      && t.cores == s.cores && y.received == x.received && y.lineQueue == x.lineQueue && y.curCommand == x.curCommand
      && y.level == x.level && y.coreID == x.coreID && y.requests == x.requests
      && y.out == x.out + [Status(w.answers(s.tick).status, 0)]
  {
    hide CountStatus, Blank;
  }

  /** Such a request is answered with one status line: no line is handed over, no core takes anything. */
  lemma RefusedRequestRunsNothing(w: World, events: seq<Event>, id: nat, target: Target)
    requires RequestEnds(Run(w, events), id, target) && Refusable(Run(w, events), target)
    ensures id in Run(w, events + [ClientByte(id, '\n')]).sessions
    ensures var s, t := Run(w, events), Run(w, events + [ClientByte(id, '\n')]);
      var x, y := s.sessions[id], t.sessions[id];
      && t.cores == s.cores && y.received == x.received && y.lineQueue == x.lineQueue && y.curCommand == x.curCommand
      && y.level == x.level && y.coreID == x.coreID && y.requests == x.requests + 1
      && y.out == x.out + [Status(w.answers(s.tick).status, 0)]
  {
    hide Run, Refuse, ReadClientByte, ParseRequest, SplitString, Opens, FindNamed, LineFromClient, NoneNamed,
      ColonEnded;
    var s := Run(w, events);
    var x := s.sessions[id];
    var s1 := SetSession(s, id, x.(linebuf := "", request := [], requests := x.requests + 1));
    RunLast(w, events, ClientByte(id, '\n'));
    BlankLineRuns(w, s, id);
    RefusalAnswers(w, s1, id);
    match target {
      case ToCore(name, command) =>
        OpensByLastWord(command);
        SameCoresSameName(s, s1, name);
      case Plain(command) => OpensByLastWord(command);
      case _ =>
    }
  }

  /** Any other request hands over its command as one line, to the session connected to the core named. */
  lemma OtherRequestsHandOver(w: World, events: seq<Event>, id: nat, target: Target)
    requires RequestEnds(Run(w, events), id, target) && !Refusable(Run(w, events), target)
    ensures id in Run(w, events + [ClientByte(id, '\n')]).sessions
    ensures var s, t := Run(w, events), Run(w, events + [ClientByte(id, '\n')]);
      var x := s.sessions[id];
      var c := if target.ToCore? then FindNamed(s, target.name).value else x.coreID;
      && (target.ToCore? ==> NamedRunning(s, c, target.name))
      && t == LineFromClient(w, SetSession(s, id, x.(linebuf := "", request := [], requests := x.requests + 1,
                                                     coreID := c)), id, target.command)
      && t.sessions[id].received == x.received + [EnsureNewline(target.command)]
  {
    hide Run, Refuse, ReadClientByte, ParseRequest, SplitString, Opens, FindNamed, LineFromClient, NoneNamed,
      ColonEnded, EnsureNewline;
    var s := Run(w, events);
    var x := s.sessions[id];
    var y := x.(linebuf := "", request := [], requests := x.requests + 1);
    var s1 := SetSession(s, id, y);
    RunLast(w, events, ClientByte(id, '\n'));
    BlankLineRuns(w, s, id);
    OpensByLastWord(target.command);
    if target.ToCore? {
      SameCoresSameName(s, s1, target.name);
      RequestIsLine(w, s1, id, target.name, target.command);
      var z := y.(coreID := FindNamed(s, target.name).value);
      assert SetSession(s1, id, z) == SetSession(s, id, z);
      LineKeepsInput(w, SetSession(s, id, z), id, target.command);
    } else {
      assert y == y.(coreID := x.coreID);
      LineKeepsInput(w, s1, id, target.command);
    }
  }

  /** Every running core can be reached over HTTP: a request that spells its name and a command, in any legal
      way behind a literal slash, asks for that command at that core. */
  lemma EveryCoreIsAddressable(w: World, events: seq<Event>, c: nat, verb: string, version: string, command: string,
                               how: seq<Spelling>, i: nat)
    requires IsRunning(Run(w, events), c) && Word(verb) && Word(version)
    requires Upper(version) in ["HTTP/1.0", "HTTP/1.1"] && i < |command| && command[i] != '/'
    requires LegalSpelling("/" + (Run(w, events).cores[c].name + "/" + command), how) && how[0].Literal?
    ensures var s := Run(w, events); var name := s.cores[c].name;
      && ParseRequest(RequestLine(verb, Spell("/" + (name + "/" + command), how), version)) == ToCore(name, command)
      && FindNamed(s, name) == Some(c)
  {
    hide Run, Word, Upper, LegalSpelling, RequestLine, Spell, ParseRequest, ValidGraphName, FindNamed;
    NamesAreValid(w, events, c);
    NamesAreUnique(w, events, c, Run(w, events).cores[c].name);
    AddressRoundTrip(verb, version, Run(w, events).cores[c].name, command, how, i);
  }

  /** In particular a request with a bad escape. */
  lemma BadEscapeRunsNothing(w: World, events: seq<Event>, id: nat, verb: string, version: string, text: string,
                             how: seq<Spelling>, rest: string)
    requires Word(verb) && Word(version) && Upper(version) in ["HTTP/1.0", "HTTP/1.1"]
    requires LegalSpelling(text, how) && BadEscape(rest) && forall c :: c in rest ==> c !in BLANKS
    requires IsClient(Run(w, events), id)
    requires var x := Run(w, events).sessions[id];
      && x.kind.Http? && x.linebuf == "" && x.request != []
      && x.request[0] == RequestLine(verb, Spell(text, how) + "%" + rest, version)
    ensures id in Run(w, events + [ClientByte(id, '\n')]).sessions
    ensures var s, t := Run(w, events), Run(w, events + [ClientByte(id, '\n')]);
      && t.cores == s.cores && t.sessions[id].received == s.sessions[id].received
      && t.sessions[id].out == s.sessions[id].out + [Status(w.answers(s.tick).status, 0)]
  {
    hide Run, Word, Upper, LegalSpelling, BadEscape, RequestLine, Spell, ParseRequest;
    BadEscapeRefused(verb, version, text, how, rest);
    RefusedRequestRunsNothing(w, events, id, BadHex);
  }

  // ---------------------------------------------------------------- two requests at once

  /** An HTTP session between two requests, not yet connected to a core. */
  predicate HttpIdle(s: State, id: nat, n: nat) {
    IsClient(s, id) && id > 0 && s.marked == {} && s.cores == map[1 := FreshCore("g")] &&
    var x := s.sessions[id];
    && x.kind.Http? && x.curCommand.None? && x.lineQueue == [] && x.linebuf == "" && x.request == []
    && x.requests == n && x.coreID == 0
  }

  function Requesting(s: State, id: nat): State
    requires id in s.sessions
  {
    SetSession(s, id, s.sessions[id].(requests := s.sessions[id].requests + 1))
  }

  /** A request line and a blank line, as bytes. */
  function RequestBytes(id: nat, text: string): seq<Event> {
    ClientBytes(id, text + "\n") + ClientBytes(id, "" + "\n")
  }

  lemma SendRequest(w: World, events: seq<Event>, id: nat, text: string, n: nat)
    requires HttpIdle(Run(w, events), id, n) && Plainly(text) && text != ""
    ensures Run(w, events + RequestBytes(id, text))
      == HttpRun(w, Requesting(Run(w, events), id), id, ParseRequest(text + "\n"))
  {
    hide Run, HttpRun, ParseRequest;
    var s := Run(w, events);
    var x := s.sessions[id];
    TypeAnyLine(w, events, id, text);
    assert events + RequestBytes(id, text) == events + ClientBytes(id, text + "\n") + ClientBytes(id, "" + "\n");
    TypeAnyLine(w, events + ClientBytes(id, text + "\n"), id, "");
    var t := SetSession(s, id, x.(request := [] + [text + "\n"]));
    assert ([text + "\n"] + ["" + "\n"])[0] == text + "\n" && "" + "\n" == "\n";
    assert t.sessions[id := x.(requests := n + 1)] == s.sessions[id := x.(requests := n + 1)];
  }

  const CLEAR := "clear"
  const LOGIN_URI := "/" + AUTHORIZE
  const CLEAR_URI := "/" + ("g" + "/" + CLEAR)

  /** A request for this address. */
  function Getting(address: string): string {
    RequestText("GET", Spell(address, Escape(address)), "HTTP/1.0")
  }

  lemma GettingIsPlain(address: string)
    requires forall c :: c in address ==> Printable(c)
    ensures Plainly(Getting(address)) && Getting(address) != ""
    ensures RequestLine("GET", Spell(address, Escape(address)), "HTTP/1.0") == Getting(address) + "\n"
  {
    hide Spell, Escape, LegalSpelling;
    EscapeIsLegal(address);
    SpellIsPrintable(address, Escape(address));
    RequestLineIs("GET", Spell(address, Escape(address)), "HTTP/1.0");
  }

  lemma GetWords()
    ensures Word("GET") && Word("HTTP/1.0")
  {
  }

  lemma LoginRequest()
    ensures Plainly(Getting(LOGIN_URI)) && Getting(LOGIN_URI) != ""
    ensures ParseRequest(Getting(LOGIN_URI) + "\n") == Plain(AUTHORIZE)
  {
    hide Spell, ParseRequest, LegalSpelling, RequestLine, RequestText, AUTHORIZE;
    AuthorizeText();
    GettingIsPlain(LOGIN_URI);
    EscapeIsLegal(LOGIN_URI);
    GetWords();
    UpperVersion();
    PlainRoundTrip("GET", "HTTP/1.0", AUTHORIZE, Escape(LOGIN_URI), 0);
  }

  lemma AuthorizeText()
    ensures '/' !in AUTHORIZE && AUTHORIZE != "" && AUTHORIZE[0] !in BLANKS
    ensures forall c :: c in AUTHORIZE ==> Printable(c)
  {
  }

  lemma ClearRequest()
    ensures Plainly(Getting(CLEAR_URI)) && Getting(CLEAR_URI) != ""
    ensures ParseRequest(Getting(CLEAR_URI) + "\n") == ToCore("g", CLEAR)
  {
    hide Spell, ParseRequest, LegalSpelling, RequestLine, RequestText;
    GettingIsPlain(CLEAR_URI);
    EscapeIsLegal(CLEAR_URI);
    GetWords();
    UpperVersion();
    AddressRoundTrip("GET", "HTTP/1.0", "g", CLEAR, Escape(CLEAR_URI), 0);
  }

  lemma HttpLoginRuns(w: World, s: State, id: nat)
    requires HttpIdle(s, id, 1)
    requires AuthorizeCommand(w, w.answers(s.tick), ["authorize", "password", "u:p"]) == Some(Admin)
    ensures var t := HttpRun(w, s, id, Plain(AUTHORIZE)); HttpIdle(t, id, 1) && t.sessions[id].level.Admin?
  {
    hide SplitString, AuthorizeCommand, CountStatus, Blank, LineFromClient, Opens, AUTHORIZE, Says, Plainly;
    var nl := AUTHORIZE + "\n";
    ExampleWords();
    Colons();
    assert !Opens(AUTHORIZE) && EnsureNewline(AUTHORIZE) == nl by { AuthorizeOpensNothing(); }
    FreshLineRuns(w, s, id, AUTHORIZE);
    LoginDispatched(w, w.answers(s.tick), Begin(LogReceived(s, id, nl), id, [nl]), id, nl);
  }

  lemma AuthorizeOpensNothing()
    ensures !Opens(AUTHORIZE) && EnsureNewline(AUTHORIZE) == AUTHORIZE + "\n"
  {
    hide SplitString;
    ExampleWords();
    Colons();
    OpensByLastWord(AUTHORIZE + "\n");
    EnsureNewlineOpens(AUTHORIZE);
  }

  lemma LoginDispatched(w: World, a: Answer, b: State, id: nat, nl: Line)
    requires HttpIdle(b, id, 1) && b.sessions[id].issued != []
    requires Says(nl, ["authorize", "password", "u:p"])
    requires AuthorizeCommand(w, a, ["authorize", "password", "u:p"]) == Some(Admin)
    ensures var t := Dispatch(w, a, b, id, NewEntry(id, nl)); HttpIdle(t, id, 1) && t.sessions[id].level.Admin?
  {
    hide SplitString, AuthorizeCommand, CountStatus, Blank, Opens;
  }

  /** The core takes the command, at admin level. */
  lemma HttpClearRuns(w: World, s: State, id: nat)
    requires HttpIdle(s, id, 2) && s.sessions[id].level.Admin? && CoreCommand(w, CLEAR + "\n") == Some(Admin)
    ensures var t := HttpRun(w, s, id, ToCore("g", CLEAR));
      && id in t.sessions && t.sessions[id].kind.Http? && t.sessions[id].requests == 2
      && 1 in t.cores && |t.cores[1].accepted| == 1 && t.cores[1].accepted[0].entry == NewEntry(id, CLEAR + "\n")
  {
    hide SplitString, LineFromClient, Opens, CoreCommand, Dispatch, FindNamed, EnsureNewline;
    ClearWords();
    assert NamedRunning(s, 1, "g");
    assert FindNamed(s, "g") == Some(1);
    var s1 := SetSession(s, id, s.sessions[id].(coreID := 1));
    FreshLineRuns(w, s1, id, CLEAR);
    ClearDispatched(w, w.answers(s.tick), Begin(LogReceived(s1, id, CLEAR + "\n"), id, [CLEAR + "\n"]), id);
  }

  lemma ClearWords()
    ensures Says(CLEAR + "\n", [CLEAR]) && !Opens(CLEAR) && EnsureNewline(CLEAR) == CLEAR + "\n"
  {
    OneWord(CLEAR);
    assert !Opens(CLEAR);
  }

  lemma ClearDispatched(w: World, a: Answer, b: State, id: nat)
    requires id in b.sessions && b.sessions[id].issued != [] && b.sessions[id].coreID == 1
    requires b.sessions[id].level.Admin? && b.cores == map[1 := FreshCore("g")]
    requires b.sessions[id].kind.Http? && b.sessions[id].requests == 2
    requires CoreCommand(w, CLEAR + "\n") == Some(Admin) && Says(CLEAR + "\n", [CLEAR])
    ensures var t := Dispatch(w, a, b, id, NewEntry(id, CLEAR + "\n"));
      && id in t.sessions && t.sessions[id].kind.Http? && t.sessions[id].requests == 2
      && 1 in t.cores && |t.cores[1].accepted| == 1 && t.cores[1].accepted[0].entry == NewEntry(id, CLEAR + "\n")
  {
    hide SplitString, CoreCommand, Opens;
  }

  lemma ClearIsCoreCommand(codes: string -> Code)
    ensures CoreCommand(ExampleWorld(codes), CLEAR + "\n") == Some(Admin)
  {
    SplitWordFirst(CLEAR, "\n", CORE_DELIMS);
  }

  /** An HTTP client with this ID arrives and sends two requests in one stretch of input. */
  function LoggingIn(id: nat): seq<Event> {
    Connecting() + [Accept(Http)] + RequestBytes(id, Getting(LOGIN_URI))
  }

  function TwoRequests(id: nat): seq<Event> {
    LoggingIn(id) + RequestBytes(id, Getting(CLEAR_URI))
  }

  lemma LoggedIn(codes: string -> Code, id: nat)
    requires id == Run(ExampleWorld(codes), Connecting()).sessionIDCounter + 1
    ensures var s := Run(ExampleWorld(codes), LoggingIn(id)); HttpIdle(s, id, 1) && s.sessions[id].level.Admin?
  {
    hide Run, HttpRun, ParseRequest, Getting, AuthorizeCommand, Connecting, Plainly, RequestBytes, Opens, ExampleWorld,
      AUTHORIZE, LOGIN_URI;
    var w := ExampleWorld(codes);
    ConnectingConnects(codes);
    RunLast(w, Connecting(), Accept(Http));
    var before := Connecting() + [Accept(Http)];
    LoginRequest();
    SendRequest(w, before, id, Getting(LOGIN_URI), 0);
    var s1 := Requesting(Run(w, before), id);
    ExampleLogin(codes, s1.tick);
    HttpLoginRuns(w, s1, id);
  }

  /** One request is needed for the claim that HTTP clients run at read level. Of these two, the first logs in,
      and the second has a core accept a command that needs admin level. */
  lemma HttpClientRunsAtAdminLevel(codes: string -> Code, id: nat)
    requires id == Run(ExampleWorld(codes), Connecting()).sessionIDCounter + 1
    ensures var w := ExampleWorld(codes); var s := Run(w, TwoRequests(id));
      && id in s.sessions && s.sessions[id].kind.Http? && s.sessions[id].requests == 2
      && 1 in s.cores && |s.cores[1].accepted| == 1 && s.cores[1].accepted[0].entry.clientID == id
      && CoreCommand(w, s.cores[1].accepted[0].entry.command) == Some(Admin)
  {
    hide Run, HttpRun, ParseRequest, Getting, CoreCommand, Plainly, RequestBytes, Opens, ExampleWorld, LoggingIn,
      CLEAR_URI;
    var w := ExampleWorld(codes);
    LoggedIn(codes, id);
    ClearRequest();
    SendRequest(w, LoggingIn(id), id, Getting(CLEAR_URI), 1);
    ClearIsCoreCommand(codes);
    HttpClearRuns(w, Requesting(Run(w, LoggingIn(id)), id), id);
  }
}
