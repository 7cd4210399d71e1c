/** A run in which the second proviso fails and a session's output does not stay in one piece: the core that a
    client shut down no longer makes the client wait, but still sends its reply. */
module LateReplies {
  import opened Framing
  import opened Auth
  import opened HttpRequest
  import opened HttpResponse
  import opened Model
  import opened Machine
  import opened Invariants
  import opened Evolution
  import opened Handling
  import opened Reachable
  import opened Theorems
  import opened Typing
  import opened StoppedCores
  import opened Pipelining

  const STOP := "shutdown"
  const LIST := "list-graphs"

  ghost predicate NoneForwarded(x: Session) {
    forall k :: 0 <= k < |x.issued| ==> x.issued[k].fwd.None?
  }

  lemma NothingForwarded(w: World, events: seq<Event>, id: nat, c: nat)
    requires var s := Run(w, events); id in s.sessions && s.cores == map[c := FreshCore("g")]
    ensures NoneForwarded(Run(w, events).sessions[id])
  {
    hide Run, CoreOk, End, NoneStranded, Routes;
    var s := Run(w, events);
    ReachedSession(w, events, id);
    forall k | 0 <= k < |s.sessions[id].issued| ensures s.sessions[id].issued[k].fwd.None? {
      assert s.sessions[id].issued[k].fwd.Some? ==>
        RefOk(s.cores, id, k, s.sessions[id].issued[k], s.sessions[id].issued[k].fwd.value);
    }
  }

  lemma OwnsOneMore(cores: Cores, issued: seq<Issue>, iss: Issue)
    ensures Owns(cores, issued + [iss]) == Owns(cores, issued) + Own(cores, iss)
  {
    hide Own;
    assert (issued + [iss])[..|issued|] == issued;
  }

  /** What a TCP session was sent so far, and its commands. */
  predicate Sent(x: Session, y: Session, iss: Issue) {
    y.out == x.out + iss.served && y.issued == x.issued + [iss]
  }

  /** The core was told to shut down: it does not count as running, and still owes the reply. */
  predicate ShuttingDown(s: State, id: nat, c: nat) {
    s.cores.Keys == {c} && s.marked == {} &&
    var k := s.cores[c];
    && k.life.Stopped? && k.expectingReply && k.lastClientID == id && k.linebuf == "" && |k.written| == 1
    && |k.accepted| == 1 && k.replies == [[]]
  }

  /** The bare command goes to the core, which answers nobody else. */
  lemma ShutdownForwards(w: World, a: Answer, s: State, id: nat, c: nat)
    requires IsClient(s, id) && id > 0 && c > 0 && CoreCommand(w, SHUTDOWN_LINE) == Some(Admin)
    requires s.cores == map[c := FreshCore("g")] && s.sessions[id].coreID == c && s.sessions[id].level.Admin?
    requires s.sessions[id].issued != []
    ensures var t := ForwardToCore(w, a, s, id, NewEntry(id, SHUTDOWN_LINE));
      var x, y, n := s.sessions[id], t.sessions[id], |s.sessions[id].issued| - 1;
      && t.cores.Keys == {c} && t.marked == s.marked
      && var k := t.cores[c];
      && k.life.Running? && k.expectingReply && k.lastClientID == id && k.linebuf == "" && |k.written| == 1
      && |k.accepted| == 1 && k.replies == [[]] && k.accepted[0].ord == n
      && y == x.(issued := x.issued[n := x.issued[n].(fwd := Some(Ref(c, 0)))])
  {
    hide CoreCommand, Opens, CountStatus, Blank;
    ShutdownEntryOk(id);
  }

  lemma ShutdownExecutes(w: World, a: Answer, s: State, id: nat, c: nat)
    requires id in s.sessions && s.sessions[id].issued != [] && s.sessions[id].level.Admin?
    requires s.sessions[id].coreID == c && IsRunning(s, c)
    ensures var t := ForwardToCore(w, a, s, id, NewEntry(id, SHUTDOWN_LINE));
      Execute(w, a, s, id, [STOP]) == Emit(SetCore(t, c, StopCore(t.cores[c], Stopped)), id, Status(a.status, 0))
  {
    hide ForwardToCore, Emit, StopCore, SHUTDOWN_LINE;
  }

  lemma ShutdownRuns(w: World, s: State, id: nat, line: Line, c: nat)
    requires AtPrompt(s, id) && Says(line, [STOP]) && id > 0 && CoreCommand(w, SHUTDOWN_LINE) == Some(Admin)
    requires s.cores == map[c := FreshCore("g")] && s.marked == {} && c > 0
    requires s.sessions[id].coreID == c && s.sessions[id].level.Admin?
    ensures var t := LineFromClient(w, s, id, line);
      && AtPrompt(t, id) && ShuttingDown(t, id, c) && t.cores[c].accepted[0].ord == |s.sessions[id].issued|
      && Sent(s.sessions[id], t.sessions[id],
              Issue([line], s.tick, Admin, [Status(w.answers(s.tick).status, 0)], Some(Ref(c, 0))))
  {
    hide LineFromClient, CountStatus, Blank, CoreCommand, ForwardToCore, ColonEnded, Says, SHUTDOWN_LINE, Execute,
      SERVER_COMMANDS;
    StopIsServerCommand();
    ServerCommandRuns(w, s, id, line, [STOP]);
    var a, b := w.answers(s.tick), Begin(LogReceived(s, id, line), id, [line]);
    ShutdownExecutes(w, a, b, id, c);
    ShutdownForwards(w, a, b, id, c);
    assert [] + [Status(a.status, 0)] == [Status(a.status, 0)];
  }

  lemma StopIsServerCommand()
    ensures !ColonEnded([STOP]) && STOP in SERVER_COMMANDS
  {
  }

  lemma ListIsServerCommand()
    ensures !ColonEnded([LIST]) && LIST in SERVER_COMMANDS
  {
  }

  lemma EmitOne(s: State, id: nat, status: Line)
    requires id in s.sessions && s.sessions[id].issued != []
    ensures EmitAll(s, id, Listing(status, [])) == Emit(s, id, Status(status, 0))
  {
    hide Emit;
    assert Listing(status, []) == [Status(status, 0)];
    assert Listing(status, [])[..0] == [];
  }

  lemma ListRuns(w: World, s: State, id: nat, line: Line, c: nat)
    requires AtPrompt(s, id) && Says(line, [LIST]) && ShuttingDown(s, id, c) && w.answers(s.tick).data == []
    ensures var t, o := LineFromClient(w, s, id, line), Status(w.answers(s.tick).status, 0);
      && AtPrompt(t, id) && t.cores == s.cores && t.marked == {}
      && Sent(s.sessions[id], t.sessions[id], Issue([line], s.tick, s.sessions[id].level, [o], None))
  {
    hide SplitString, LineFromClient, CountStatus, Blank, EmitAll, Listing, ColonEnded, Says;
    ListIsServerCommand();
    ServerCommandRuns(w, s, id, line, [LIST]);
    var a, b := w.answers(s.tick), Begin(LogReceived(s, id, line), id, [line]);
    EmitOne(b, id, a.status);
    assert Execute(w, a, b, id, [LIST]) == Emit(b, id, Status(a.status, 0));
    assert [] + [Status(a.status, 0)] == [Status(a.status, 0)];
  }

  /** The client shuts its core down and asks for the list of graphs without waiting for an answer. */
  function Asking(): seq<Event> {
    Connecting() + ClientBytes(1, STOP + "\n") + ClientBytes(1, LIST + "\n")
  }

  lemma StopIsCoreCommand(codes: string -> Code)
    ensures CoreCommand(ExampleWorld(codes), SHUTDOWN_LINE) == Some(Admin)
  {
    SplitWordFirst("shutdown", "\n", CORE_DELIMS);
    assert SHUTDOWN_LINE == "shutdown" + "\n";
  }

  lemma LateWords()
    ensures Says(STOP + "\n", [STOP]) && Plainly(STOP) && Says(LIST + "\n", [LIST]) && Plainly(LIST)
  {
    hide Says;
    OneWord(STOP);
    OneWord(LIST);
  }

  lemma AskingIsInOnePiece(codes: string -> Code)
    ensures var s := Run(ExampleWorld(codes), Asking());
      && AtPrompt(s, 1) && ShuttingDown(s, 1, 1)
      && var x := s.sessions[1]; var n := |x.issued| - 1;
      && x.out == Owns(s.cores, x.issued) && n > 0 && s.cores[1].accepted[0].ord == n - 1
      && x.issued[n].block == [LIST + "\n"] && x.issued[n].served == [Status("done\n", 0)] && x.issued[n].fwd.None?
  {
    hide Run, LineFromClient, Connecting, Says, CoreCommand, Own, Owns, SplitString;
    var w := ExampleWorld(codes);
    LateWords();
    StopIsCoreCommand(codes);
    ConnectingConnects(codes);
    var e := Connecting();
    var s0 := Run(w, e);
    var x0 := s0.sessions[1];
    RunningIsUndisturbed(w, e, 1);
    SequentialSession(w, e, 1);
    NothingForwarded(w, e, 1, 1);
    TypeLine(w, e, 1, STOP);
    ShutdownRuns(w, s0, 1, STOP + "\n", 1);
    e := e + ClientBytes(1, STOP + "\n");
    var s1 := Run(w, e);
    var x1 := s1.sessions[1];
    TypeLine(w, e, 1, LIST);
    ListRuns(w, s1, 1, LIST + "\n", 1);
    var x2 := Run(w, Asking()).sessions[1];
    OwnsOneMore(s1.cores, x0.issued, x1.issued[|x0.issued|]);
    OwnsOneMore(s1.cores, x1.issued, x2.issued[|x1.issued|]);
    OwnsUnforwarded(s0.cores, s1.cores, x0.issued);
    assert Own(s1.cores, x1.issued[|x0.issued|]) == [Status("done\n", 0)] by {
      OwnOfNew(s1.cores, x1.issued[|x0.issued|]);
    }
    assert Own(s1.cores, x2.issued[|x1.issued|]) == [Status("done\n", 0)] by {
      OwnOfNew(s1.cores, x2.issued[|x1.issued|]);
    }
  }

  lemma OwnOfNew(cores: Cores, iss: Issue)
    requires iss.fwd.Some? && iss.fwd.value.core in cores ==>
      cores[iss.fwd.value.core].ReplyAt(iss.fwd.value.index) == []
    ensures Own(cores, iss) == iss.served
  {
    assert iss.served + [] == iss.served;
  }

  lemma OwnsUnforwarded(cores: Cores, cores': Cores, issued: seq<Issue>)
    requires forall k :: 0 <= k < |issued| ==> issued[k].fwd.None?
    ensures Owns(cores', issued) == Owns(cores, issued)
  {
    OwnsFrame(cores, cores', issued);
  }

  lemma LineKeepsMarks(s: State, c: nat, line: Line)
    requires c in s.cores
    ensures LineFromCore(s, c, line).marked == s.marked
  {
  }

  /** The core's reply to the shutdown arrives behind the answer to the second command: the output of the live
      session is no longer that of its commands, one after the other. */
  lemma LateReplyOvertaken(codes: string -> Code)
    ensures IsClient(Run(ExampleWorld(codes), Asking() + CoreBytes(1, "ok" + "\n")), 1)
    ensures var w := ExampleWorld(codes);
      var before, s := Run(w, Asking()), Run(w, Asking() + CoreBytes(1, "ok" + "\n"));
      && 1 in before.sessions && before.sessions[1].out == Owns(before.cores, before.sessions[1].issued)
      && var x := s.sessions[1];
      && x.issued == before.sessions[1].issued && x.out == before.sessions[1].out + [Status("ok\n", 1)]
      && x.out != Owns(s.cores, x.issued)
      && x.issued != [] && x.issued[|x.issued|-1].block == [LIST + "\n"]
      && Own(s.cores, x.issued[|x.issued|-1]) == [Status("done\n", 0)]
  {
    hide Run, Inv, LineFromCore, Own, Owns;
    var w := ExampleWorld(codes);
    AskingIsInOnePiece(codes);
    var s := Run(w, Asking());
    var x := s.sessions[1];
    var n := |x.issued| - 1;
    assert "ok" + "\n" == "ok\n";
    PrintLine(w, Asking(), 1, "ok");
    AlwaysInv(w, Asking());
    LateReplyIff(w, s, 1, "ok\n");
    assert !IsWaiting(s, 1);
    var t := LineFromCore(s, 1, "ok\n");
    LineKeepsMarks(s, 1, "ok\n");
    OwnOfNew(s.cores, x.issued[n]);
    OwnOfNew(t.cores, x.issued[n]);
    assert x.issued[n..] == [x.issued[n]];
    OwnsOfOne(s.cores, x.issued[n..]);
    assert Status("done\n", 0) in OwnsAfter(s.cores, x.issued, n - 1);
  }
}
