/** What time does not undo: histories only grow, cores do not come back, and a session whose held lines are
    stranded stays that way. */
module History {
  import opened Framing
  import opened Auth
  import opened HttpRequest
  import opened HttpResponse
  import opened Model
  import opened Machine
  import opened Invariants
  import opened ClientLines
  import opened Steps
  import opened Reachable
  import opened Theorems

  // ---------------------------------------------------------------- cores

  /** The same core at a later time. */
  ghost predicate CoreLater(k: Core, k': Core) {
    && k'.name == k.name && k.accepted <= k'.accepted && k.written <= k'.written && k.Done() <= k'.Done()
    && (k'.life.Running? ==> k.life.Running?) && (k.life.Gone? ==> k'.life.Gone?)
  }

  ghost predicate Later(cores: Cores, cores': Cores) {
    forall c :: c in cores ==> c in cores' && CoreLater(cores[c], cores'[c])
  }

  lemma LaterChain(a: Cores, b: Cores, c: Cores)
    requires Later(a, b) && Later(b, c)
    ensures Later(a, c)
  {
    forall d | d in a ensures d in c && CoreLater(a[d], c[d]) {
      assert CoreLater(a[d], b[d]) && CoreLater(b[d], c[d]);
    }
  }

  lemma FlushLater(k: Core)
    ensures CoreLater(k, FlushCore(k)) && FlushCore(k).life == k.life
  {
  }

  lemma StopLater(k: Core, life: Life)
    requires life != Running && (k.life.Gone? ==> life.Gone?)
    ensures CoreLater(k, StopCore(k, life))
  {
  }

  lemma HearsLater(k: Core, line: Line)
    ensures CoreLater(k, CoreHears(k, line)) && CoreHears(k, line).life == k.life
  {
  }

  lemma OneLater(cores: Cores, c: nat, k: Core)
    requires c in cores ==> CoreLater(cores[c], k)
    ensures Later(cores, cores[c := k])
  {
  }

  // ---------------------------------------------------------------- steps

  /** Nobody but session id is touched, and that keeps its kind; cores only move on and are not removed, and no
      core ID is handed out twice. */
  ghost predicate Onward(s: State, t: State, id: nat) {
    && Later(s.cores, t.cores) && NoneRemoved(s.cores, t.cores)
    && t.sessions.Keys == s.sessions.Keys && t.sessionIDCounter == s.sessionIDCounter
    && (forall j :: j in s.sessions && j != id ==> t.sessions[j] == s.sessions[j])
    && (id in s.sessions ==> t.sessions[id].kind == s.sessions[id].kind)
    && (CoreIDsBelow(s) ==> CoreIDsBelow(t))
  }

  ghost predicate NoneRemoved(cores: Cores, cores': Cores) {
    forall c :: c in cores && c in cores' && cores'[c].life.Gone? ==> cores[c].life.Gone?
  }

  ghost predicate CoreIDsBelow(s: State) {
    forall c :: c in s.cores ==> c <= s.coreIDCounter
  }

  lemma OnwardChain(s: State, t: State, u: State, id: nat)
    requires Onward(s, t, id) && Onward(t, u, id)
    ensures Onward(s, u, id)
  {
    hide CoreLater, CoreIDsBelow;
    LaterChain(s.cores, t.cores, u.cores);
  }

  lemma SameCoresOnward(s: State, t: State, id: nat)
    requires t.cores == s.cores && t.coreIDCounter >= s.coreIDCounter
    requires t.sessions.Keys == s.sessions.Keys && t.sessionIDCounter == s.sessionIDCounter
    requires forall j :: j in s.sessions && j != id ==> t.sessions[j] == s.sessions[j]
    requires id in s.sessions ==> t.sessions[id].kind == s.sessions[id].kind
    ensures Onward(s, t, id)
  {
  }

  lemma CoreOnward(s: State, c: nat, k: Core, id: nat)
    requires c in s.cores && CoreLater(s.cores[c], k) && (k.life.Gone? ==> s.cores[c].life.Gone?)
    ensures Onward(s, SetCore(s, c, k), id)
  {
    OneLater(s.cores, c, k);
  }

  lemma {:induction false} EmitAllOnward(s: State, id: nat, outs: seq<Out>)
    requires id in s.sessions && s.sessions[id].issued != []
    ensures Onward(s, EmitAll(s, id, outs), id)
  {
    hide Onward;
    SameCoresOnward(s, s, id);
    if outs != [] {
      var t := EmitAll(s, id, outs[..|outs|-1]);
      EmitAllOnward(s, id, outs[..|outs|-1]);
      SameCoresOnward(t, Emit(t, id, outs[|outs|-1]), id);
      OnwardChain(s, t, EmitAll(s, id, outs), id);
    }
  }

  lemma ForwardOnward(w: World, a: Answer, s: State, id: nat, e: Entry)
    requires id in s.sessions && s.sessions[id].issued != []
    ensures Onward(s, ForwardToCore(w, a, s, id, e), id)
  {
    hide CoreLater, CoreCommand, FlushCore;
    var c := s.sessions[id].coreID;
    if IsRunning(s, c) && CoreCommand(w, e.command).Some?
       && Rank(s.sessions[id].level) >= Rank(CoreCommand(w, e.command).value) {
      var t := Enqueue(s, id, c, e);
      assert CoreLater(s.cores[c], t.cores[c]) by { QueueLater(s.cores[c], t.cores[c]); }
      FlushLater(t.cores[c]);
      assert Onward(s, t, id) by { OneLater(s.cores, c, t.cores[c]); }
      CoreOnward(t, c, FlushCore(t.cores[c]), id);
      OnwardChain(s, t, SetCore(t, c, FlushCore(t.cores[c])), id);
    } else {
      SameCoresOnward(s, ForwardToCore(w, a, s, id, e), id);
    }
  }

  lemma QueueLater(k: Core, k': Core)
    requires k' == k.(commandQ := k'.commandQ, accepted := k'.accepted) && k.accepted <= k'.accepted
    ensures CoreLater(k, k')
  {
  }

  lemma HelpOnward(w: World, a: Answer, s: State, id: nat, words: seq<string>)
    requires id in s.sessions && s.sessions[id].issued != [] && words != []
    ensures Onward(s, Help(w, a, s, id, words), id)
  {
    hide Onward, ForwardToCore, EmitAll, JoinWords;
    var e := NewEntry(id, JoinWords(words));
    SameCoresOnward(s, Emit(s, id, Status(a.status, 0)), id);
    if |words| == 1 {
      var t := EmitAll(s, id, HelpListing(a));
      EmitAllOnward(s, id, HelpListing(a));
      ForwardOnward(w, a, t, id, e);
      SameCoresOnward(t, Emit(t, id, Data("\n", 0)), id);
      OnwardChain(s, t, Help(w, a, s, id, words), id);
    } else if |words| == 2 {
      EmitAllOnward(s, id, Listing(a.status + words[1] + ":\n", a.data));
      ForwardOnward(w, a, s, id, e);
    }
  }

  lemma ShutdownOnward(w: World, a: Answer, s: State, id: nat, words: seq<string>)
    requires id in s.sessions && s.sessions[id].issued != []
    ensures Onward(s, Shutdown(w, a, s, id, words), id)
  {
    hide Onward, CoreLater, FlushCore, CoreCommand;
    SameCoresOnward(s, s, id);
    var c := s.sessions[id].coreID;
    if |words| == 1 && IsRunning(s, c) {
      var t := ForwardToCore(w, a, s, id, NewEntry(id, SHUTDOWN_LINE));
      ForwardOnward(w, a, s, id, NewEntry(id, SHUTDOWN_LINE));
      assert !t.cores[c].life.Gone? by { ForwardKeepsLife(w, a, s, id, c); }
      StopLater(t.cores[c], Stopped);
      CoreOnward(t, c, StopCore(t.cores[c], Stopped), id);
      OnwardChain(s, t, SetCore(t, c, StopCore(t.cores[c], Stopped)), id);
    }
  }

  lemma ForwardKeepsLife(w: World, a: Answer, s: State, id: nat, c: nat)
    requires id in s.sessions && s.sessions[id].issued != [] && c in s.cores
    ensures ForwardToCore(w, a, s, id, NewEntry(id, SHUTDOWN_LINE)).cores[c].life == s.cores[c].life
  {
    hide CoreCommand;
  }

  lemma CreateOnward(a: Answer, s: State, id: nat, words: seq<string>)
    requires id in s.sessions && s.sessions[id].issued != [] && CoreIDsBelow(s)
    ensures Onward(s, CreateGraph(a, s, id, words), id)
  {
    hide FindNamed, ValidGraphName;
  }

  lemma DropOnward(a: Answer, s: State, id: nat, words: seq<string>)
    requires id in s.sessions && s.sessions[id].issued != []
    ensures Onward(s, DropGraph(a, s, id, words), id)
  {
    SameCoresOnward(s, s, id);
    if |words| == 2 && FindNamed(s, words[1]).Some? {
      var c := FindNamed(s, words[1]).value;
      StopLater(s.cores[c], Stopped);
      CoreOnward(s, c, StopCore(s.cores[c], Stopped), id);
    }
  }

  lemma SessionOnly(w: World, a: Answer, s: State, id: nat, words: seq<string>)
    requires id in s.sessions && s.sessions[id].issued != []
    ensures Onward(s, UseGraph(s, id, words), id) && Onward(s, SetLevel(s, id, AuthorizeCommand(w, a, words)), id)
  {
    hide FindNamed, AuthorizeCommand, WarnsOnReconnect, Onward;
    SameCoresOnward(s, UseGraph(s, id, words), id);
    SameCoresOnward(s, SetLevel(s, id, AuthorizeCommand(w, a, words)), id);
  }

  lemma VoidOnward(w: World, a: Answer, s: State, id: nat, words: seq<string>)
    requires id in s.sessions && s.sessions[id].issued != [] && words != [] && CoreIDsBelow(s)
    ensures Onward(s, ExecuteVoid(w, a, s, id, words), id)
  {
    hide Onward, Shutdown, CreateGraph, DropGraph, UseGraph, SetLevel, CoreIDsBelow;
    CreateOnward(a, s, id, words);
    DropOnward(a, s, id, words);
    ShutdownOnward(w, a, s, id, words);
    SessionOnly(w, a, s, id, words);
    SameCoresOnward(s, s, id);
  }

  lemma ExecuteOnward(w: World, a: Answer, s: State, id: nat, words: seq<string>)
    requires id in s.sessions && s.sessions[id].issued != [] && CoreIDsBelow(s)
    requires words != [] && words[0] in SERVER_COMMANDS
    ensures Onward(s, Execute(w, a, s, id, words), id)
  {
    hide Onward, Help, ExecuteVoid, EmitAll, Emit, Quit, CoreIDsBelow;
    EmitOnward(s, id, Status(a.refusal, 0));
    EmitOnward(s, id, Status(a.status, 0));
    if words[0] in VOID_COMMANDS {
      var t := ExecuteVoid(w, a, s, id, words);
      VoidOnward(w, a, s, id, words);
      EmitOnward(t, id, Status(a.status, 0));
      OnwardChain(s, t, Emit(t, id, Status(a.status, 0)), id);
    } else {
      HelpOnward(w, a, s, id, words);
      QuitOnward(a, s, id, words);
      EmitAllOnward(s, id, Listing(a.status, a.data));
    }
  }

  lemma EmitOnward(s: State, id: nat, o: Out)
    requires id in s.sessions && s.sessions[id].issued != []
    ensures Onward(s, Emit(s, id, o), id)
  {
    SameCoresOnward(s, Emit(s, id, o), id);
  }

  lemma QuitOnward(a: Answer, s: State, id: nat, words: seq<string>)
    requires id in s.sessions && s.sessions[id].issued != []
    ensures Onward(s, Quit(a, s, id, words), id)
  {
    SameCoresOnward(s, Quit(a, s, id, words), id);
  }

  lemma ProcessOnward(w: World, s: State, id: nat, e: Entry)
    requires id in s.sessions && CoreIDsBelow(s)
    ensures Onward(s, ProcessCommand(w, s, id, e), id)
  {
    hide Onward, Execute, ForwardToCore, SplitString;
    var a, b := w.answers(s.tick), Begin(s, id, e.Block());
    SameCoresOnward(s, b, id);
    SameCoresOnward(b, b, id);
    SameCoresOnward(b, Emit(b, id, Status(a.refusal, 0)), id);
    SameCoresOnward(b, Emit(b, id, NotFound(a.refusal)), id);
    ForwardOnward(w, a, b, id, e);
    var words := SplitString(e.command, BLANKS);
    if words != [] && words[0] in SERVER_COMMANDS {
      ExecuteOnward(w, a, b, id, words);
    }
    OnwardChain(s, b, ProcessCommand(w, s, id, e), id);
  }

  lemma HandleOnward(w: World, s: State, id: nat, line: Line, fromQueue: bool)
    requires id in s.sessions && CoreIDsBelow(s)
    ensures Onward(s, HandleLine(w, s, id, line, fromQueue), id)
  {
    hide Onward, ProcessCommand, Opens, Blank, IsWaiting;
    var x := s.sessions[id];
    var t := HandleLine(w, s, id, line, fromQueue);
    if x.curCommand.Some? && x.curCommand.value.acceptsData && !x.curCommand.value.dataFinished {
      var e := x.curCommand.value.Append(line);
      var s1 := SetCurrent(s, id, Some(e));
      SameCoresOnward(s, s1, id);
      if e.Flushable() {
        ProcessOnward(w, s1, id, e);
        SameCoresOnward(ProcessCommand(w, s1, id, e), t, id);
        OnwardChain(s, s1, ProcessCommand(w, s1, id, e), id);
        OnwardChain(s, ProcessCommand(w, s1, id, e), t, id);
      }
    } else {
      ProcessOnward(w, s, id, NewEntry(id, line));
      SameCoresOnward(s, PushLine(s, id, line), id);
      SameCoresOnward(s, SetCurrent(s, id, Some(NewEntry(id, line))), id);
    }
  }

  lemma LineOnward(w: World, s: State, id: nat, line: Line)
    requires id in s.sessions && CoreIDsBelow(s)
    ensures Onward(s, LineFromClient(w, s, id, line), id)
  {
    hide Onward, HandleLine, EnsureNewline;
    var nl := EnsureNewline(line);
    SameCoresOnward(s, LogReceived(s, id, nl), id);
    HandleOnward(w, LogReceived(s, id, nl), id, nl, false);
    OnwardChain(s, LogReceived(s, id, nl), LineFromClient(w, s, id, line), id);
  }

  lemma HttpRunOnward(w: World, s: State, id: nat, target: Target)
    requires id in s.sessions && CoreIDsBelow(s)
    ensures Onward(s, HttpRun(w, s, id, target), id)
  {
    hide Onward, LineFromClient, Opens, Refuse;
    assert Onward(s, Refuse(w, s, id), id) by { RefuseOnward(w, s, id); }
    match target {
      case ToCore(name, command) =>
        var c := FindNamed(s, name);
        if c.Some? {
          var t := SetSession(s, id, s.sessions[id].(coreID := c.value));
          SameCoresOnward(s, t, id);
          LineOnward(w, t, id, command);
          OnwardChain(s, t, LineFromClient(w, t, id, command), id);
        }
      case Plain(command) => LineOnward(w, s, id, command);
      case _ =>
    }
  }

  lemma RefuseOnward(w: World, s: State, id: nat)
    requires id in s.sessions
    ensures Onward(s, Refuse(w, s, id), id)
  {
    SameCoresOnward(s, Refuse(w, s, id), id);
  }

  lemma HttpOnward(w: World, s: State, id: nat, line: Line)
    requires id in s.sessions && CoreIDsBelow(s)
    ensures Onward(s, LineFromHttpClient(w, s, id, line), id)
  {
    hide Onward, HttpRun, ParseRequest;
    var x := s.sessions[id];
    var request := x.request + [line];
    var y := if line != "\n" then x.(request := request) else x.(request := [], requests := x.requests + 1);
    SameCoresOnward(s, SetSession(s, id, y), id);
    if line == "\n" {
      HttpRunOnward(w, SetSession(s, id, y), id, ParseRequest(request[0]));
      OnwardChain(s, SetSession(s, id, y), LineFromHttpClient(w, s, id, line), id);
    }
  }

  lemma {:induction false} DrainOnward(w: World, s: State, id: nat)
    requires id in s.sessions && CoreIDsBelow(s)
    ensures Onward(s, Drain(w, s, id), id)
    decreases |s.sessions[id].lineQueue|
  {
    hide HandleLine, EnsureNewline, IsWaiting, Later;
    SameCoresOnward(s, s, id);
    if Draining(s, id) {
      var line := EnsureNewline(s.sessions[id].lineQueue[0]);
      HandleOnward(w, s, id, line, true);
      var t := DrainOne(w, s, id);
      SameCoresOnward(HandleLine(w, s, id, line, true), t, id);
      OnwardChain(s, HandleLine(w, s, id, line, true), t, id);
      DrainOneShrinks(w, s, id);
      DrainOnward(w, t, id);
      OnwardChain(s, t, Drain(w, t, id), id);
    }
  }

  /** A line from a core concerns its client only; unless that was waiting, no held line runs. */
  lemma CoreLineOnward(w: World, s: State, c: nat, line: Line)
    requires c in s.cores && CoreIDsBelow(s)
    ensures Onward(s, CoreLine(w, s, c, line), s.cores[c].lastClientID)
  {
    hide Drain, CoreHears, IsWaiting, CoreLater;
    var id, t := s.cores[c].lastClientID, LineFromCore(s, c, line);
    HearsLater(s.cores[c], line);
    OneLater(s.cores, c, CoreHears(s.cores[c], line));
    assert Onward(s, t, id);
    if IsClient(s, id) && IsWaiting(s, id) {
      DrainOnward(w, t, id);
      OnwardChain(s, t, Drain(w, t, id), id);
    }
  }

  // ---------------------------------------------------------------- runs

  lemma InvBelow(w: World, s: State)
    requires Inv(w, s, 0)
    ensures CoreIDsBelow(s) && 0 !in s.sessions
  {
    hide CoreOk, SessionOk;
    forall c | c in s.cores ensures c <= s.coreIDCounter {
      assert CoreFine(w, c, s.cores[c], s.coreIDCounter, s.sessionIDCounter);
    }
  }

  lemma LinebufOnward(s: State, id: nat, buf: string)
    requires id in s.sessions
    ensures Onward(s, SetSession(s, id, s.sessions[id].(linebuf := buf)), id)
  {
    SameCoresOnward(s, SetSession(s, id, s.sessions[id].(linebuf := buf)), id);
  }

  lemma ClientByteOnward(w: World, s: State, id: nat, b: char)
    requires id in s.sessions && CoreIDsBelow(s)
    ensures Onward(s, ReadClientByte(w, s, id, b), id)
  {
    hide Onward, LineFromClient, LineFromHttpClient;
    SameCoresOnward(s, s, id);
    LinebufOnward(s, id, s.sessions[id].linebuf + [b]);
    LinebufOnward(s, id, "");
    var s1 := SetSession(s, id, s.sessions[id].(linebuf := ""));
    assert CoreIDsBelow(s1);
    LineOnward(w, s1, id, s.sessions[id].linebuf + [b]);
    HttpOnward(w, s1, id, s.sessions[id].linebuf + [b]);
    OnwardChain(s, s1, ClientLine(w, s1, id, s.sessions[id].linebuf + [b]), id);
  }

  lemma CoreByteOnward(w: World, s: State, c: nat, b: char)
    requires c in s.cores && CoreIDsBelow(s)
    ensures Onward(s, ReadCoreByte(w, s, c, b), s.cores[c].lastClientID)
  {
    hide Onward, CoreLine;
    var k, id := s.cores[c], s.cores[c].lastClientID;
    SameCoresOnward(s, s, id);
    CoreOnward(s, c, k.(linebuf := k.linebuf + [b]), id);
    CoreOnward(s, c, k.(linebuf := ""), id);
    var s1 := SetCore(s, c, k.(linebuf := ""));
    assert CoreIDsBelow(s1);
    CoreLineOnward(w, s1, c, k.linebuf + [b]);
    OnwardChain(s, s1, CoreLine(w, s1, c, k.linebuf + [b]), id);
  }

  /** Cores keep their identity and their histories: whatever happens, what was accepted, written and answered
      stays so, a name never changes, and a core that stopped running or was removed never comes back. */
  lemma StepLater(w: World, s: State, e: Event)
    requires Inv(w, s, 0)
    ensures Later(s.cores, Step(w, s, e).cores)
  {
    hide Inv, ReadClientByte, ReadCoreByte, CoreLater, RemoveAll;
    InvBelow(w, s);
    assert Later(s.cores, s.cores) by { SameLater(s.cores); }
    match e {
      case ClientByte(id, b) => if id in s.sessions { ClientByteOnward(w, s, id, b); }
      case CoreByte(c, b) => if IsPresent(s, c) { CoreByteOnward(w, s, c, b); }
      case Flush =>
        forall c | c in s.cores ensures CoreLater(s.cores[c], FlushAll(s).cores[c]) {
          FlushLater(s.cores[c]);
        }
      case Reap => assert RemoveAll(s, s.marked).cores == s.cores by { ReapLeavesCores(w, s); }
      case CoreExit(c) =>
        if IsPresent(s, c) {
          StopLater(s.cores[c], Gone);
          OneLater(s.cores, c, StopCore(s.cores[c], Gone));
        }
      case _ =>
    }
  }

  lemma ReapLeavesCores(w: World, s: State)
    requires Inv(w, s, 0)
    ensures RemoveAll(s, s.marked) == s.(sessions := s.sessions - s.marked)
  {
    hide CoresOk, SessionsOk, RemoveAll;
    RemovalsAreClean(w, s, s.marked);
  }

  lemma SameLater(cores: Cores)
    ensures Later(cores, cores)
  {
  }

  lemma {:induction false} CoresMoveOn(w: World, events: seq<Event>, more: seq<Event>)
    ensures Later(Run(w, events).cores, Run(w, events + more).cores)
  {
    hide Later, Step, Run, Inv;
    if more == [] {
      assert events + more == events;
      SameLater(Run(w, events).cores);
    } else {
      var n := |more| - 1;
      CoresMoveOn(w, events, more[..n]);
      assert events + more == events + more[..n] + [more[n]];
      RunLast(w, events + more[..n], more[n]);
      AlwaysInv(w, events + more[..n]);
      StepLater(w, Run(w, events + more[..n]), more[n]);
      LaterChain(Run(w, events).cores, Run(w, events + more[..n]).cores, Run(w, events + more).cores);
    }
  }

  // ---------------------------------------------------------------- stranded sessions

  /** Lines are held, and no reply is awaited that would run them. */
  predicate Stranded(s: State, id: nat) {
    id in s.sessions && s.sessions[id].kind.Tcp? && s.sessions[id].curCommand.None?
    && s.sessions[id].lineQueue != [] && !IsWaiting(s, id)
  }

  /** Held lines stay held, new ones join them, and no command is handled. */
  ghost predicate Stuck(x: Session, y: Session) {
    y == x.(lineQueue := y.lineQueue, linebuf := y.linebuf, received := y.received, out := y.out, closing := y.closing)
    && x.lineQueue <= y.lineQueue
  }

  lemma SettledForGood(cores: Cores, cores': Cores, id: nat, x: Session)
    requires Later(cores, cores') && Refs(cores, id, x) && AllSettled(cores, x)
    ensures AllSettled(cores', x)
  {
    forall k | 0 <= k < |x.issued| ensures Settled(cores', x.issued[k]) {
      if x.issued[k].fwd.Some? {
        var r := x.issued[k].fwd.value;
        assert RefOk(cores, id, k, x.issued[k], r);
        assert CoreLater(cores[r.core], cores'[r.core]);
      }
    }
  }

  lemma StrandedIsSettled(w: World, s: State, id: nat)
    requires Inv(w, s, 0) && Stranded(s, id)
    ensures AllSettled(s.cores, s.sessions[id]) && Refs(s.cores, id, s.sessions[id])
  {
    hide CoreOk, Routes, End, NoneStranded, IsWaiting;
    PickUp(w, s, id);
    NotWaitingIsFree(w, s, id);
  }

  /** If a step leaves a stranded session's log alone, the session stays stranded. */
  lemma StaysStranded(w: World, s: State, t: State, id: nat)
    requires Inv(w, s, 0) && Inv(w, t, 0) && Stranded(s, id) && id in t.sessions
    requires Later(s.cores, t.cores) && Stuck(s.sessions[id], t.sessions[id])
    ensures Stranded(t, id)
  {
    hide CoreOk, Routes, End, NoneStranded, Later;
    var x, y := s.sessions[id], t.sessions[id];
    StrandedIsSettled(w, s, id);
    SettledForGood(s.cores, t.cores, id, x);
    assert AllSettled(t.cores, y);
    if IsWaiting(t, id) {
      assert CoreFine(w, y.coreID, t.cores[y.coreID], t.coreIDCounter, t.sessionIDCounter);
      var k := ShownIsUnsettled(t.cores, id, y, y.coreID);
      assert false;
    }
  }

  lemma StuckLine(w: World, s: State, id: nat, line: Line)
    requires Stranded(s, id)
    ensures Stuck(s.sessions[id], LineFromClient(w, s, id, line).sessions[id])
  {
    hide IsWaiting, EnsureNewline, ProcessCommand, NewEntry;
  }

  lemma StuckByte(w: World, s: State, id: nat, b: char)
    requires Stranded(s, id)
    ensures id in ReadClientByte(w, s, id, b).sessions
    ensures Stuck(s.sessions[id], ReadClientByte(w, s, id, b).sessions[id])
  {
    hide LineFromClient;
    var x := s.sessions[id];
    var t := SetSession(s, id, x.(linebuf := ""));
    assert Stranded(t, id);
    StuckLine(w, t, id, x.linebuf + [b]);
  }

  lemma StuckCoreByte(w: World, s: State, c: nat, b: char, id: nat)
    requires c in s.cores && s.cores[c].lastClientID == id && Stranded(s, id)
    ensures id in ReadCoreByte(w, s, c, b).sessions
    ensures Stuck(s.sessions[id], ReadCoreByte(w, s, c, b).sessions[id])
  {
    hide CoreHears, Drain, CountStatus, Blank;
  }

  lemma StrandedStep(w: World, s: State, e: Event, id: nat)
    requires Inv(w, s, 0) && Stranded(s, id)
    ensures var t := Step(w, s, e);
      && t.sessionIDCounter >= s.sessionIDCounter
      && (id in t.sessions ==> Stranded(t, id) && Stuck(s.sessions[id], t.sessions[id]))
  {
    hide Inv, ReadClientByte, ReadCoreByte, IsWaiting, Later, RemoveAll, ConversationOver;
    var t := Step(w, s, e);
    StepKeeps(w, s, e);
    StepLater(w, s, e);
    InvBelow(w, s);
    IDBelow(w, s, id);
    match e {
      case ClientByte(j, b) =>
        if j == id {
          StuckByte(w, s, id, b);
        }
        if j in s.sessions {
          ClientByteOnward(w, s, j, b);
        }
      case CoreByte(c, b) =>
        if IsPresent(s, c) {
          CoreByteOnward(w, s, c, b);
          if s.cores[c].lastClientID == id {
            StuckCoreByte(w, s, c, b, id);
          }
        }
      case Reap => ReapLeavesCores(w, s);
      case _ =>
    }
    if id in t.sessions {
      StaysStranded(w, s, t, id);
    }
  }

  lemma IDBelow(w: World, s: State, id: nat)
    requires Inv(w, s, 0) && id in s.sessions
    ensures 0 < id <= s.sessionIDCounter
  {
    hide CoresOk, SessionOk;
  }

  lemma GoneForGood(w: World, s: State, e: Event, id: nat)
    requires Inv(w, s, 0) && id !in s.sessions && id <= s.sessionIDCounter
    ensures id !in Step(w, s, e).sessions && id <= Step(w, s, e).sessionIDCounter
  {
    hide Inv, ReadClientByte, ReadCoreByte, RemoveAll, ConversationOver;
    InvBelow(w, s);
    match e {
      case ClientByte(j, b) => if j in s.sessions { ClientByteOnward(w, s, j, b); }
      case CoreByte(c, b) => if IsPresent(s, c) { CoreByteOnward(w, s, c, b); }
      case Reap => ReapLeavesCores(w, s);
      case _ =>
    }
  }

  /** A stranded session never handles a line again: no event of any further run, be it a line from the
      client, output of a core or a turn of the loop, takes one off its queue. */
  lemma {:induction false} StrandedForever(w: World, events: seq<Event>, more: seq<Event>, id: nat)
    requires Stranded(Run(w, events), id)
    ensures var s, t := Run(w, events), Run(w, events + more);
      && id <= t.sessionIDCounter
      && (id in t.sessions ==> Stranded(t, id) && Stuck(s.sessions[id], t.sessions[id]))
  {
    hide Step, Run, Inv, Stranded;
    var s := Run(w, events);
    AlwaysInv(w, events);
    assert id in s.sessions by { assert Stranded(s, id); StrandedIsThere(s, id); }
    if more == [] {
      assert events + more == events;
      IDBelow(w, s, id);
    } else {
      var n := |more| - 1;
      var t := Run(w, events + more[..n]);
      StrandedForever(w, events, more[..n], id);
      assert events + more == events + more[..n] + [more[n]];
      RunLast(w, events + more[..n], more[n]);
      AlwaysInv(w, events + more[..n]);
      if id in t.sessions {
        StrandedStep(w, t, more[n], id);
      } else {
        GoneForGood(w, t, more[n], id);
      }
    }
  }

  lemma StrandedIsThere(s: State, id: nat)
    requires Stranded(s, id)
    ensures id in s.sessions
  {
  }
}
