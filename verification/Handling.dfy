/** A whole command, from the line that completes it to its last answer, keeps the invariants. */
module Handling {
  import opened Framing
  import opened Auth
  import opened HttpRequest
  import opened HttpResponse
  import opened Model
  import opened Invariants
  import opened Commands

  /** A command rebuilt from the words of a command line takes no data set, as the line did not. */
  lemma RebuiltEntryOk(id: nat, command: Line)
    requires id > 0 && !Opens(command) && SplitString(command, BLANKS) != []
    ensures EntryOk(NewEntry(id, JoinWords(SplitString(command, BLANKS))))
  {
    var words := SplitString(command, BLANKS);
    RebuiltLineKeepsOpens(command);
    forall k | 0 <= k < |words|
      ensures words[k] != "" && forall i :: 0 <= i < |words[k]| ==> words[k][i] !in BLANKS
    {
      SplitGivesWords(command, BLANKS, k);
    }
    JoinKeepsOpens(words);
    BlankIffAllBlank(JoinWords(words));
  }

  lemma ShutdownEntryOk(id: nat)
    requires id > 0
    ensures EntryOk(NewEntry(id, SHUTDOWN_LINE))
  {
    assert SHUTDOWN_LINE[..8] == "shutdown";
    assert !Opens("shutdown");
    BlankIffAllBlank(SHUTDOWN_LINE);
    assert SHUTDOWN_LINE[0] !in BLANKS;
  }

  /** This block is the session's current command, begun at the level the session has. */
  predicate JustBegun(x: Session, block: Block) {
    x.issued != [] && LastBlock(x) == block && x.issued[|x.issued|-1].level == x.level
  }

  lemma ForwardKeeps(w: World, a: Answer, s: State, id: nat, e: Entry)
    requires Inv(w, s, id) && id in s.sessions && Ready(s.cores, s.sessions[id])
    requires EntryOk(e) && e.clientID == id && ForwardsLast(s.sessions[id], e)
    ensures var t := ForwardToCore(w, a, s, id, e); Inv(w, t, id) && MayAnswer(t.cores, t.sessions[id])
  {
    hide Inv, EntryOk, CoreCommand, Forwards;
    var x := s.sessions[id];
    if IsRunning(s, x.coreID) {
      var need := CoreCommand(w, e.command);
      if need.None? {
        EmitKeeps(w, s, id, NotFound(a.refusal));
      } else if Rank(x.level) >= Rank(need.value) {
        EnqueueKeeps(w, s, id, e);
        FlushKeeps(w, Enqueue(s, id, x.coreID, e), id, x.coreID);
      } else {
        EmitKeeps(w, s, id, Status(a.refusal, 0));
      }
    } else {
      EmitKeeps(w, s, id, Status(a.refusal, 0));
      var t := Emit(s, id, Status(a.refusal, 0));
      ReconnectKeeps(w, t, id, t.sessions[id].(coreID := 0));
    }
  }

  lemma ListingFromServer(status: Line, data: seq<Line>)
    ensures forall i :: 0 <= i < |Listing(status, data)| ==> FromServer(Listing(status, data)[i])
  {
  }

  lemma HelpKeeps(w: World, a: Answer, s: State, id: nat, command: Line)
    requires Inv(w, s, id) && id in s.sessions && id > 0 && Ready(s.cores, s.sessions[id])
    requires !Opens(command) && JustBegun(s.sessions[id], [command])
    requires SplitString(command, BLANKS) != [] && SplitString(command, BLANKS)[0] == "help"
    ensures var t := Help(w, a, s, id, SplitString(command, BLANKS)); Inv(w, t, id)
  {
    hide Inv, EntryOk, SplitString, JoinWords, Opens;
    var words := SplitString(command, BLANKS);
    var e := NewEntry(id, JoinWords(words));
    RebuiltEntryOk(id, command);
    var connected := IsRunning(s, s.sessions[id].coreID);
    if |words| > 2 {
      EmitKeeps(w, s, id, Status(a.status, 0));
    } else if |words| == 1 {
      var t := EmitAll(s, id, HelpListing(a));
      ListingFromServer(a.status + ":\n", seq(|a.data|, i requires 0 <= i < |a.data| => "# " + a.data[i] + "\n"));
      EmitAllKeeps(w, s, id, HelpListing(a));
      if connected {
        ForwardKeeps(w, a, t, id, e);
      } else {
        EmitKeeps(w, t, id, Data("\n", 0));
      }
    } else if words[1] in SERVER_COMMANDS && words[1] != "help" {
      ListingFromServer(a.status + words[1] + ":\n", a.data);
      EmitAllKeeps(w, s, id, Listing(a.status + words[1] + ":\n", a.data));
    } else if connected {
      ForwardKeeps(w, a, s, id, e);
    } else {
      EmitKeeps(w, s, id, Status(a.status, 0));
    }
  }

  lemma ShutdownKeeps(w: World, a: Answer, s: State, id: nat, command: Line)
    requires Inv(w, s, id) && id in s.sessions && id > 0 && Ready(s.cores, s.sessions[id])
    requires JustBegun(s.sessions[id], [command])
    requires SplitString(command, BLANKS) != [] && SplitString(command, BLANKS)[0] == "shutdown"
    ensures var t := Shutdown(w, a, s, id, SplitString(command, BLANKS));
      Inv(w, t, id) && MayAnswer(t.cores, t.sessions[id])
  {
    hide Inv, EntryOk, SplitString;
    var words := SplitString(command, BLANKS);
    var c := s.sessions[id].coreID;
    if |words| == 1 && IsRunning(s, c) {
      ShutdownEntryOk(id);
      ForwardKeeps(w, a, s, id, NewEntry(id, SHUTDOWN_LINE));
      StopKeeps(w, ForwardToCore(w, a, s, id, NewEntry(id, SHUTDOWN_LINE)), id, c, Stopped);
    }
  }

  lemma ExecuteVoidKeeps(w: World, a: Answer, s: State, id: nat, command: Line)
    requires Inv(w, s, id) && id in s.sessions && id > 0 && Ready(s.cores, s.sessions[id])
    requires JustBegun(s.sessions[id], [command]) && SplitString(command, BLANKS) != []
    ensures var t := ExecuteVoid(w, a, s, id, SplitString(command, BLANKS));
      Inv(w, t, id) && MayAnswer(t.cores, t.sessions[id])
  {
    hide Inv, SplitString, AuthorizeCommand;
    var words := SplitString(command, BLANKS);
    if words[0] == "create-graph" {
      if |words| == 2 && ValidGraphName(words[1]) && FindNamed(s, words[1]).None? {
        NewIDIsFresh(w, s, id);
        CounterKeeps(w, s, id);
        var t := s.(coreIDCounter := s.coreIDCounter + 1);
        assert NoneNamed(t, words[1]) by {
          assert forall c :: NamedRunning(t, c, words[1]) <==> NamedRunning(s, c, words[1]);
        }
        AddCoreKeeps(w, t, id, t.coreIDCounter, words[1]);
      }
    } else if words[0] == "use-graph" {
      if |words| == 2 && FindNamed(s, words[1]).Some? {
        ReconnectKeeps(w, s, id, Reconnect(s, id, FindNamed(s, words[1]).value).sessions[id]);
      }
    } else if words[0] == "drop-graph" {
      if |words| == 2 && FindNamed(s, words[1]).Some? && a.killed {
        StopKeeps(w, s, id, FindNamed(s, words[1]).value, Stopped);
      }
    } else if words[0] == "authorize" {
      var level := AuthorizeCommand(w, a, words);
      if level.Some? {
        ReconnectKeeps(w, s, id, s.sessions[id].(level := level.value));
      }
    } else if words[0] == "shutdown" {
      ShutdownKeeps(w, a, s, id, command);
    }
  }

  lemma ExecuteKeeps(w: World, a: Answer, s: State, id: nat, command: Line)
    requires Inv(w, s, id) && id in s.sessions && id > 0 && Ready(s.cores, s.sessions[id])
    requires !Opens(command) && JustBegun(s.sessions[id], [command])
    requires SplitString(command, BLANKS) != [] && SplitString(command, BLANKS)[0] in SERVER_COMMANDS
    ensures Inv(w, Execute(w, a, s, id, SplitString(command, BLANKS)), id)
  {
    hide Inv, Opens, SplitString, ExecuteVoid;
    var words := SplitString(command, BLANKS);
    if Rank(ServerLevel(words[0])) > Rank(s.sessions[id].level) {
      EmitKeeps(w, s, id, Status(a.refusal, 0));
    } else if words[0] in VOID_COMMANDS {
      ExecuteVoidKeeps(w, a, s, id, command);
      EmitKeeps(w, ExecuteVoid(w, a, s, id, words), id, Status(a.status, 0));
    } else if words[0] == "help" {
      HelpKeeps(w, a, s, id, command);
    } else if words[0] == "quit" {
      if |words| == 1 {
        EmitKeeps(w, s, id, Status(a.status, 0));
        var t := Emit(s, id, Status(a.status, 0));
        ReconnectKeeps(w, t, id, t.sessions[id].(closing := true));
      }
    } else if |words| != 1 {
      EmitKeeps(w, s, id, Status(a.status, 0));
    } else {
      ListingFromServer(a.status, a.data);
      EmitAllKeeps(w, s, id, Listing(a.status, a.data));
    }
  }

  /** A command as it is handed to processCommand. */
  ghost predicate CommandOk(e: Entry, id: nat) {
    e.Flushable() && Whole(e.Block()) && e.clientID == id && id > 0
  }

  lemma DispatchKeeps(w: World, a: Answer, s: State, id: nat, e: Entry)
    requires Inv(w, s, id) && id in s.sessions && Ready(s.cores, s.sessions[id]) && CommandOk(e, id)
    requires JustBegun(s.sessions[id], e.Block())
    ensures Inv(w, Dispatch(w, a, s, id, e), id)
  {
    hide Inv, Opens, SplitString, Execute;
    var words := SplitString(e.command, BLANKS);
    if words != [] {
      if words[0] in SERVER_COMMANDS {
        if e.dataset != [] || Redirects(e.command) {
          EmitKeeps(w, s, id, Status(a.refusal, 0));
        } else {
          ExecuteKeeps(w, a, s, id, e.command);
        }
      } else if s.sessions[id].coreID != 0 {
        ForwardKeeps(w, a, s, id, e);
      } else {
        EmitKeeps(w, s, id, NotFound(a.refusal));
      }
    }
  }

  lemma ProcessKeeps(w: World, s: State, id: nat, e: Entry)
    requires Inv(w, s, id) && id in s.sessions && Free(s.cores, s.sessions[id]) && CommandOk(e, id)
    ensures Inv(w, ProcessCommand(w, s, id, e), id)
  {
    hide Inv, Dispatch;
    BeginKeeps(w, s, id, e.Block());
    DispatchKeeps(w, w.answers(s.tick), Begin(s, id, e.Block()), id, e);
  }
}
