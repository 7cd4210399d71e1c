/** A TCP session never switches cores while its old core still has data for it. */
module Reconnects {
  import opened Framing
  import opened Auth
  import opened HttpResponse
  import opened Model
  import opened Machine
  import opened Invariants
  import opened Steps
  import opened Reachable
  import opened Theorems
  import opened History

  /** Still the same kind of session, and not one complaint more. */
  predicate NoNewWarning(x: Session, y: Session) {
    y.kind == x.kind && y.warned == x.warned
  }

  // ---------------------------------------------------------------- commands

  lemma OutputDoesNotWarn(a: Answer, s: State, id: nat, words: seq<string>, o: Out)
    requires id in s.sessions && s.sessions[id].issued != []
    ensures NoNewWarning(s.sessions[id], Emit(s, id, o).sessions[id])
    ensures NoNewWarning(s.sessions[id], Quit(a, s, id, words).sessions[id])
  {
  }

  lemma {:induction false} ListingDoesNotWarn(s: State, id: nat, outs: seq<Out>)
    requires id in s.sessions && s.sessions[id].issued != []
    ensures NoNewWarning(s.sessions[id], EmitAll(s, id, outs).sessions[id])
  {
    if outs != [] {
      ListingDoesNotWarn(s, id, outs[..|outs|-1]);
    }
  }

  lemma ForwardDoesNotWarn(w: World, a: Answer, s: State, id: nat, e: Entry)
    requires id in s.sessions && s.sessions[id].issued != []
    ensures NoNewWarning(s.sessions[id], ForwardToCore(w, a, s, id, e).sessions[id])
  {
    hide CoreCommand, FlushCore;
  }

  lemma HelpAllDoesNotWarn(w: World, a: Answer, s: State, id: nat, words: seq<string>)
    requires id in s.sessions && s.sessions[id].issued != []
    ensures NoNewWarning(s.sessions[id], HelpAll(w, a, s, id, words).sessions[id])
  {
    hide ForwardToCore, EmitAll, HelpListing, JoinWords, Emit;
    var t := EmitAll(s, id, HelpListing(a));
    ListingDoesNotWarn(s, id, HelpListing(a));
    ForwardDoesNotWarn(w, a, t, id, NewEntry(id, JoinWords(words)));
    OutputDoesNotWarn(a, t, id, words, Data("\n", 0));
  }

  lemma HelpDoesNotWarn(w: World, a: Answer, s: State, id: nat, words: seq<string>)
    requires id in s.sessions && s.sessions[id].issued != [] && words != []
    ensures NoNewWarning(s.sessions[id], Help(w, a, s, id, words).sessions[id])
  {
    hide ForwardToCore, EmitAll, Listing, JoinWords, Emit, HelpAll, SERVER_COMMANDS;
    ForwardDoesNotWarn(w, a, s, id, NewEntry(id, JoinWords(words)));
    OutputDoesNotWarn(a, s, id, words, Status(a.status, 0));
    HelpAllDoesNotWarn(w, a, s, id, words);
    if |words| > 1 {
      ListingDoesNotWarn(s, id, Listing(a.status + words[1] + ":\n", a.data));
    }
  }

  lemma ManagingDoesNotWarn(a: Answer, s: State, id: nat, words: seq<string>)
    requires id in s.sessions && s.sessions[id].issued != []
    ensures NoNewWarning(s.sessions[id], CreateGraph(a, s, id, words).sessions[id])
    ensures NoNewWarning(s.sessions[id], DropGraph(a, s, id, words).sessions[id])
  {
    hide FindNamed;
  }

  lemma VoidWarnsOnlyThen(w: World, a: Answer, s: State, id: nat, words: seq<string>)
    requires id in s.sessions && s.sessions[id].issued != [] && words != [] && !WarnsOnReconnect(s, id)
    ensures NoNewWarning(s.sessions[id], ExecuteVoid(w, a, s, id, words).sessions[id])
  {
    hide FindNamed, AuthorizeCommand, ForwardToCore, CreateGraph, DropGraph, StopCore;
    ManagingDoesNotWarn(a, s, id, words);
    ForwardDoesNotWarn(w, a, s, id, NewEntry(id, SHUTDOWN_LINE));
  }

  lemma ExecuteWarnsOnlyThen(w: World, a: Answer, s: State, id: nat, words: seq<string>)
    requires id in s.sessions && s.sessions[id].issued != [] && !WarnsOnReconnect(s, id)
    requires words != [] && words[0] in SERVER_COMMANDS
    ensures NoNewWarning(s.sessions[id], Execute(w, a, s, id, words).sessions[id])
  {
    hide Emit, Quit, ExecuteVoid, EmitAll, Listing, Help, SERVER_COMMANDS, ADMIN_COMMANDS, VOID_COMMANDS;
    if Rank(ServerLevel(words[0])) > Rank(s.sessions[id].level) {
      OutputDoesNotWarn(a, s, id, words, Status(a.refusal, 0));
    } else if words[0] in VOID_COMMANDS {
      VoidWarnsOnlyThen(w, a, s, id, words);
      OutputDoesNotWarn(a, ExecuteVoid(w, a, s, id, words), id, words, Status(a.status, 0));
    } else if words[0] == "help" {
      HelpDoesNotWarn(w, a, s, id, words);
    } else {
      OutputDoesNotWarn(a, s, id, words, Status(a.status, 0));
      ListingDoesNotWarn(s, id, Listing(a.status, a.data));
    }
  }

  lemma DispatchWarnsOnlyThen(w: World, a: Answer, s: State, id: nat, e: Entry)
    requires id in s.sessions && s.sessions[id].issued != [] && !WarnsOnReconnect(s, id)
    ensures NoNewWarning(s.sessions[id], Dispatch(w, a, s, id, e).sessions[id])
  {
    hide Execute, ForwardToCore, SplitString, Emit, SERVER_COMMANDS, Redirects, WarnsOnReconnect;
    var words := SplitString(e.command, BLANKS);
    if words != [] {
      if words[0] in SERVER_COMMANDS {
        OutputDoesNotWarn(a, s, id, words, Status(a.refusal, 0));
        ExecuteWarnsOnlyThen(w, a, s, id, words);
      } else {
        ForwardDoesNotWarn(w, a, s, id, e);
        OutputDoesNotWarn(a, s, id, words, NotFound(a.refusal));
      }
    }
  }

  lemma ProcessWarnsOnlyThen(w: World, s: State, id: nat, e: Entry)
    requires id in s.sessions && !WarnsOnReconnect(s, id)
    ensures NoNewWarning(s.sessions[id], ProcessCommand(w, s, id, e).sessions[id])
  {
    hide Dispatch;
    DispatchWarnsOnlyThen(w, w.answers(s.tick), Begin(s, id, e.Block()), id, e);
  }

  // ---------------------------------------------------------------- lines

  /** Whenever a line of the session may run a command, its core has nothing for it. */
  predicate Quiet(s: State, id: nat) {
    id in s.sessions && (s.sessions[id].curCommand.Some? || !IsWaiting(s, id) ==> !WarnsOnReconnect(s, id))
  }

  lemma HandleDoesNotWarn(w: World, s: State, id: nat, line: Line, fromQueue: bool)
    requires Quiet(s, id) && (fromQueue ==> !IsWaiting(s, id))
    ensures NoNewWarning(s.sessions[id], HandleLine(w, s, id, line, fromQueue).sessions[id])
  {
    hide ProcessCommand, Opens, Blank;
    var x := s.sessions[id];
    if x.curCommand.Some? {
      var e := x.curCommand.value;
      if e.acceptsData && !e.dataFinished {
        ProcessWarnsOnlyThen(w, SetCurrent(s, id, Some(e.Append(line))), id, e.Append(line));
      }
    } else if !IsWaiting(s, id) {
      ProcessWarnsOnlyThen(w, s, id, NewEntry(id, line));
    }
  }

  lemma QuietAtRest(w: World, s: State, id: nat, actor: nat)
    requires Inv(w, s, actor) && actor in {0, id} && id in s.sessions && s.sessions[id].kind.Tcp?
    requires End(w, s.cores, id, s.sessions[id])
    ensures Quiet(s, id)
  {
    hide Inv, End;
    if s.sessions[id].curCommand.Some? || !IsWaiting(s, id) {
      NothingPendingWhenFree(w, s, id, actor, s.sessions[id].coreID);
    }
  }

  lemma LineDoesNotWarn(w: World, s: State, id: nat, line: Line)
    requires Inv(w, s, 0) && id in s.sessions && s.sessions[id].kind.Tcp?
    ensures NoNewWarning(s.sessions[id], LineFromClient(w, s, id, line).sessions[id])
  {
    hide Inv, End, HandleLine, EnsureNewline;
    PickUp(w, s, id);
    QuietAtRest(w, s, id, 0);
    var t := LogReceived(s, id, EnsureNewline(line));
    assert Quiet(t, id);
    HandleDoesNotWarn(w, t, id, EnsureNewline(line), false);
  }

  lemma DrainOneDoesNotWarn(w: World, s: State, id: nat)
    requires Draining(s, id) && Quiet(s, id)
    ensures NoNewWarning(s.sessions[id], DrainOne(w, s, id).sessions[id])
  {
    hide HandleLine, IsWaiting, EnsureNewline, Quiet;
    HandleDoesNotWarn(w, s, id, EnsureNewline(s.sessions[id].lineQueue[0]), true);
  }

  lemma {:induction false} DrainDoesNotWarn(w: World, s: State, id: nat)
    requires Inv(w, s, id) && id in s.sessions && End(w, s.cores, id, s.sessions[id]) && s.sessions[id].kind.Tcp?
    ensures var t := Drain(w, s, id); id in t.sessions && NoNewWarning(s.sessions[id], t.sessions[id])
    decreases |s.sessions[id].lineQueue|
  {
    hide Inv, End, DrainOne, IsWaiting, Quiet;
    if Draining(s, id) {
      QuietAtRest(w, s, id, id);
      DrainOneDoesNotWarn(w, s, id);
      DrainOneKeeps(w, s, id);
      DrainOneShrinks(w, s, id);
      DrainDoesNotWarn(w, DrainOne(w, s, id), id);
    }
  }

  lemma CoreLineDoesNotWarn(w: World, s: State, c: nat, line: Line)
    requires Inv(w, s, 0) && c in s.cores
    requires var id := s.cores[c].lastClientID; id in s.sessions && s.sessions[id].kind.Tcp?
    ensures s.cores[c].lastClientID in CoreLine(w, s, c, line).sessions
    ensures var id := s.cores[c].lastClientID;
      NoNewWarning(s.sessions[id], CoreLine(w, s, c, line).sessions[id])
  {
    hide Inv, End, NoneStranded, IsWaiting, Drain, CoreHears;
    var id, t := s.cores[c].lastClientID, LineFromCore(s, c, line);
    HearsKeeps(w, s, c, line);
    if IsClient(s, id) && IsWaiting(s, id) {
      DrainDoesNotWarn(w, t, id);
    }
  }

  // ---------------------------------------------------------------- runs

  ghost predicate NoneWarned(s: State) {
    forall id :: id in s.sessions && s.sessions[id].kind.Tcp? ==> !s.sessions[id].warned
  }

  lemma ClientByteDoesNotWarn(w: World, s: State, id: nat, b: char)
    requires Inv(w, s, 0) && id in s.sessions && s.sessions[id].kind.Tcp?
    ensures NoNewWarning(s.sessions[id], ReadClientByte(w, s, id, b).sessions[id])
  {
    hide Inv, LineFromClient;
    var x := s.sessions[id];
    BuffersKeep(w, s, id, x.(linebuf := ""));
    LineDoesNotWarn(w, SetSession(s, id, x.(linebuf := "")), id, x.linebuf + [b]);
  }

  lemma CoreByteDoesNotWarn(w: World, s: State, c: nat, b: char)
    requires Inv(w, s, 0) && c in s.cores
    requires var id := s.cores[c].lastClientID; id in s.sessions && s.sessions[id].kind.Tcp?
    ensures s.cores[c].lastClientID in ReadCoreByte(w, s, c, b).sessions
    ensures var id := s.cores[c].lastClientID;
      NoNewWarning(s.sessions[id], ReadCoreByte(w, s, c, b).sessions[id])
  {
    hide Inv, CoreLine;
    var k := s.cores[c];
    CoreLinebufKeeps(w, s, c, "");
    CoreLineDoesNotWarn(w, SetCore(s, c, k.(linebuf := "")), c, k.linebuf + [b]);
  }

  lemma StepDoesNotWarn(w: World, s: State, e: Event)
    requires Inv(w, s, 0) && NoneWarned(s)
    ensures NoneWarned(Step(w, s, e))
  {
    hide Inv, ReadClientByte, ReadCoreByte, RemoveAll, ConversationOver, Later;
    InvBelow(w, s);
    match e {
      case ClientByte(id, b) =>
        if id in s.sessions {
          ClientByteOnward(w, s, id, b);
          if s.sessions[id].kind.Tcp? {
            ClientByteDoesNotWarn(w, s, id, b);
          }
        }
      case CoreByte(c, b) =>
        if IsPresent(s, c) {
          var id := s.cores[c].lastClientID;
          CoreByteOnward(w, s, c, b);
          if id in s.sessions && s.sessions[id].kind.Tcp? {
            CoreByteDoesNotWarn(w, s, c, b);
          }
        }
      case Reap => ReapLeavesCores(w, s);
      case _ =>
    }
  }

  /** No TCP session ever switched cores, in any run and also not by a held use-graph that the drain loop ran,
      while its old core still had data for it. */
  lemma NeverWarnsOnReconnect(w: World, events: seq<Event>, id: nat)
    ensures var s := Run(w, events); id in s.sessions && s.sessions[id].kind.Tcp? ==> !s.sessions[id].warned
  {
    hide Run, Inv;
    NeverWarned(w, events);
  }

  lemma {:induction false} NeverWarned(w: World, events: seq<Event>)
    ensures NoneWarned(Run(w, events))
  {
    hide Step, Inv;
    if events != [] {
      var n := |events| - 1;
      NeverWarned(w, events[..n]);
      AlwaysInv(w, events[..n]);
      StepDoesNotWarn(w, Run(w, events[..n]), events[n]);
    }
  }
}
