/** Where the promises of the multiplexer end. Two provisos stand in them: whenever the drain loop opens a data
    set nothing is queued behind it, and a session's core keeps running while the session has something
    pending there. This module says exactly when things go wrong without the first, and StoppedCores without
    the second; runs in which they do are in Pipelining and LateReplies. */
module Provisos {
  import opened Framing
  import opened Auth
  import opened HttpResponse
  import opened Model
  import opened Machine
  import opened Invariants
  import opened ClientLines
  import opened Steps
  import opened Reachable
  import opened Theorems
  import opened History

  // ---------------------------------------------------------------- the first proviso

  /** One drain iteration leaves lines behind a data set exactly if the front line opens one and is not the
      last. */
  lemma DrainOneJumpsIff(w: World, s: State, id: nat)
    requires Draining(s, id) && !s.sessions[id].jumped
    ensures var q := s.sessions[id].lineQueue;
      DrainOne(w, s, id).sessions[id].jumped <==> Opens(q[0]) && |q| > 1
  {
    hide Opens, EnsureNewline, ProcessCommand, IsWaiting;
    var q := s.sessions[id].lineQueue;
    EnsureNewlineOpens(q[0]);
    assert s.sessions[id].curCommand.None? by { DrainingIsIdle(s, id); }
    HandlingKeepsLog(w, s, id, EnsureNewline(q[0]), true);
  }

  /** The state after k iterations of the drain loop, or after its last. */
  function DrainTo(w: World, s: State, id: nat, k: nat): State
    decreases k
  {
    if k == 0 || !Draining(s, id) then s else DrainTo(w, DrainOne(w, s, id), id, k - 1)
  }

  /** The k-th held line, with others behind it, opens a data set when the drain loop comes to it. */
  predicate LeavesBehind(w: World, s: State, id: nat, k: nat) {
    id in s.sessions && k + 1 < |s.sessions[id].lineQueue| && Opens(s.sessions[id].lineQueue[k])
    && Draining(DrainTo(w, s, id, k), id)
  }

  /** The drain loop leaves lines behind exactly if it comes to a held line that opens a data set and is not
      the last. */
  lemma {:induction false} JumpedIff(w: World, s: State, id: nat)
    requires id in s.sessions && !s.sessions[id].jumped
    ensures id in Drain(w, s, id).sessions
    ensures Drain(w, s, id).sessions[id].jumped <==> exists k :: LeavesBehind(w, s, id, k)
    decreases |s.sessions[id].lineQueue|
  {
    hide DrainOne, IsWaiting, Opens;
    var q := s.sessions[id].lineQueue;
    if Draining(s, id) {
      var t := DrainOne(w, s, id);
      DrainOneJumpsIff(w, s, id);
      DrainOneShrinks(w, s, id);
      if t.sessions[id].jumped {
        JumpedStops(w, s, id);
        assert LeavesBehind(w, s, id, 0);
      } else {
        JumpedIff(w, t, id);
        forall k: nat ensures LeavesBehind(w, s, id, k + 1) <==> LeavesBehind(w, t, id, k) {
          if k + 1 < |q[1..]| {
            assert q[1..][k] == q[k + 1];
          }
        }
        assert !LeavesBehind(w, s, id, 0);
        if k: nat :| LeavesBehind(w, s, id, k) {
          assert LeavesBehind(w, t, id, k - 1);
        }
      }
    }
  }

  lemma JumpedStops(w: World, s: State, id: nat)
    requires Draining(s, id) && !s.sessions[id].jumped && DrainOne(w, s, id).sessions[id].jumped
    ensures Drain(w, s, id) == DrainOne(w, s, id)
  {
    hide HandleLine, EnsureNewline;
    HandlingKeepsLog(w, s, id, EnsureNewline(s.sessions[id].lineQueue[0]), true);
  }

  /** A client is safe if no line that it sends ahead, other than the last, opens a data set. */
  lemma NothingLeftBehind(w: World, s: State, id: nat)
    requires id in s.sessions && !s.sessions[id].jumped
    requires forall k :: 0 <= k < |s.sessions[id].lineQueue| - 1 ==> !Opens(s.sessions[id].lineQueue[k])
    ensures id in Drain(w, s, id).sessions && !Drain(w, s, id).sessions[id].jumped
  {
    hide Opens, Drain;
    JumpedIff(w, s, id);
  }

  lemma {:induction false} CommutesIffEqual<T>(l: T, q: seq<T>)
    ensures [l] + q == q + [l] <==> forall m :: m in q ==> m == l
  {
    if q != [] {
      CommutesIffEqual(l, q[1..]);
      assert q == [q[0]] + q[1..];
      assert q[0] in q && ([l] + q)[0] == l && (q + [l])[0] == q[0];
      if q[0] == l {
        assert [l] + q == [l] + ([l] + q[1..]) && q + [l] == [l] + (q[1..] + [l]);
        CancelHead([l], [l] + q[1..], q[1..] + [l]);
        assert forall m :: m in q <==> m == l || m in q[1..];
      }
    }
  }

  lemma CancelHead<T>(a: seq<T>, b: seq<T>, c: seq<T>)
    ensures a + b == a + c <==> b == c
  {
    if a + b == a + c {
      assert (a + b)[|a|..] == b && (a + c)[|a|..] == c;
    }
  }

  /** While a data set is open, nothing but its client takes a line off the queue: no core output, no other
      client and no turn of the loop does. */
  lemma OpenDatasetNeedsClient(w: World, s: State, e: Event, id: nat)
    requires Inv(w, s, 0) && id in s.sessions && s.sessions[id].curCommand.Some?
    requires !(e.ClientByte? && e.id == id)
    ensures var t := Step(w, s, e);
      id in t.sessions ==> Stuck(s.sessions[id], t.sessions[id]) && t.sessions[id].lineQueue == s.sessions[id].lineQueue
  {
    hide Inv, ReadClientByte, ReadCoreByte, Later, RemoveAll, ConversationOver;
    InvBelow(w, s);
    IDBelow(w, s, id);
    match e {
      case ClientByte(j, b) => if j in s.sessions { ClientByteOnward(w, s, j, b); }
      case CoreByte(c, b) =>
        if IsPresent(s, c) {
          CoreByteOnward(w, s, c, b);
          if s.cores[c].lastClientID == id {
            OpenCoreByte(w, s, c, b, id);
          }
        }
      case Reap => ReapLeavesCores(w, s);
      case _ =>
    }
  }

  lemma OpenCoreByte(w: World, s: State, c: nat, b: char, id: nat)
    requires c in s.cores && s.cores[c].lastClientID == id && id in s.sessions && s.sessions[id].curCommand.Some?
    ensures var t := ReadCoreByte(w, s, c, b);
      id in t.sessions && Stuck(s.sessions[id], t.sessions[id])
      && t.sessions[id].lineQueue == s.sessions[id].lineQueue
  {
    hide DrainOne, IsClient;
    hide CoreHears, CountStatus, Blank;
  }

  /** A line that arrives while a data set is open joins it ahead of all held lines: order of arrival survives
      that exactly when every held line reads the same as the new one, in particular when none is held. */
  lemma OvertakenIff(w: World, s: State, id: nat, line: Line)
    requires Inv(w, s, 0) && id in s.sessions && s.sessions[id].kind.Tcp?
    requires s.sessions[id].curCommand.Some? && s.sessions[id].received == HandledLines(s.sessions[id])
    ensures var x, y := s.sessions[id], LineFromClient(w, s, id, line).sessions[id];
      y.received == HandledLines(y) <==> forall m :: m in x.lineQueue ==> m == EnsureNewline(line)
  {
    hide Inv, HandleLine, HandledLines, Head, WholeBlocks, LevelAfter, EnsureNewline, LinesOk, Opens, Blank;
    var x, nl := s.sessions[id], EnsureNewline(line);
    var q := x.lineQueue;
    PickUp(w, s, id);
    var s1 := LogReceived(s, id, nl);
    QueueDoesNotMatter(w, s, id, s1.sessions[id]);
    assert LinesOk(x) && WholeBlocks(x.issued) by { EndHasLines(w, s.cores, id, x); LinesAreWhole(x); }
    ContinueDataset(w, s1, id, nl, false);
    var y := LineFromClient(w, s, id, line).sessions[id];
    HeadIs(x);
    HeadIs(y);
    assert Head(s1.sessions[id]) == Head(x) by { HeadIgnoresLog(x, s1.sessions[id]); }
    assert y.received == Head(x) + (q + [nl]) by { assert Head(x) + q + [nl] == Head(x) + (q + [nl]); }
    assert HandledLines(y) == Head(x) + ([nl] + q) by { assert Head(x) + [nl] + q == Head(x) + ([nl] + q); }
    CancelHead(Head(x), q + [nl], [nl] + q);
    CommutesIffEqual(nl, q);
  }

  lemma LinesAreWhole(x: Session)
    requires LinesOk(x) && x.kind.Tcp?
    ensures WholeBlocks(x.issued)
  {
  }

  // ---------------------------------------------------------------- held lines behind a data set

  /** The session's core takes this command. */
  predicate TakenByCore(w: World, s: State, id: nat, command: Line)
    requires id in s.sessions
  {
    var x, words := s.sessions[id], SplitString(command, BLANKS);
    words != [] && words[0] !in SERVER_COMMANDS && x.coreID != 0 && IsRunning(s, x.coreID) &&
    var need := CoreCommand(w, command);
    need.Some? && Rank(x.level) >= Rank(need.value)
  }

  lemma QueuedShows(k: Core, e: Entry, a: Accepted)
    ensures FlushCore(k.(commandQ := k.commandQ + [e], accepted := k.accepted + [a])).HasData(e.clientID)
  {
    var k1 := k.(commandQ := k.commandQ + [e], accepted := k.accepted + [a]);
    var f := FlushCore(k1);
    assert k1.commandQ[|k.commandQ|].clientID == e.clientID;
    if f != k1 && k.commandQ != [] {
      assert f.commandQ[|k.commandQ| - 1].clientID == e.clientID;
    }
  }

  lemma OutputAwaitsNothing(s: State, id: nat, o: Out)
    requires id in s.sessions && s.sessions[id].issued != []
    ensures WarnsOnReconnect(Emit(s, id, o), id) == WarnsOnReconnect(s, id)
  {
  }

  lemma ForwardedIsAwaited(w: World, a: Answer, s: State, id: nat, e: Entry)
    requires id in s.sessions && s.sessions[id].issued != [] && e.clientID == id && s.sessions[id].coreID != 0
    requires SplitString(e.command, BLANKS) != [] && SplitString(e.command, BLANKS)[0] !in SERVER_COMMANDS
    requires !WarnsOnReconnect(s, id) && 0 !in s.cores
    ensures WarnsOnReconnect(ForwardToCore(w, a, s, id, e), id) == TakenByCore(w, s, id, e.command)
  {
    hide SplitString, CoreCommand, FlushCore, SERVER_COMMANDS, Emit;
    var x := s.sessions[id];
    var c := x.coreID;
    OutputAwaitsNothing(s, id, NotFound(a.refusal));
    OutputAwaitsNothing(s, id, Status(a.refusal, 0));
    if TakenByCore(w, s, id, e.command) {
      QueuedShows(s.cores[c], e, Accepted(e, |x.issued| - 1, x.level));
      FlushKeepsNames(Enqueue(s, id, c, e).cores[c]);
    } else if !IsRunning(s, c) {
      EmitLeavesCores(s, id, Status(a.refusal, 0));
    }
  }

  lemma EmitLeavesCores(s: State, id: nat, o: Out)
    requires id in s.sessions && s.sessions[id].issued != []
    ensures Emit(s, id, o).cores == s.cores
  {
  }

  /** A command that its core takes is awaited there; one that it does not take leaves nothing to wait for. */
  lemma TakenIsAwaited(w: World, s: State, id: nat, e: Entry)
    requires id in s.sessions && e.clientID == id && e.dataset != [] && !WarnsOnReconnect(s, id) && 0 !in s.cores
    ensures var t := ProcessCommand(w, s, id, e);
      && WarnsOnReconnect(t, id) == TakenByCore(w, s, id, e.command)
      && t.sessions[id].kind == s.sessions[id].kind && t.sessions[id].lineQueue == s.sessions[id].lineQueue
  {
    hide SplitString, CoreCommand, ForwardToCore, SERVER_COMMANDS, Emit, WarnsOnReconnect;
    var a, b := w.answers(s.tick), Begin(s, id, e.Block());
    var words := SplitString(e.command, BLANKS);
    SameConnection(w, s, b, id, e.command);
    OutputAwaitsNothing(b, id, NotFound(a.refusal));
    OutputAwaitsNothing(b, id, Status(a.refusal, 0));
    if words != [] && words[0] !in SERVER_COMMANDS && s.sessions[id].coreID != 0 {
      ForwardedIsAwaited(w, a, b, id, e);
    }
  }

  /** When a fresh line ends a data set with lines held behind it, the held lines are stranded exactly if the
      session's core does not take the command: it is a server command, which takes no data set, or the
      session is not connected to a running core, or the core does not know it, or the level is too low. */
  lemma EndedDatasetStrandsIff(w: World, s: State, id: nat, line: Line)
    requires Inv(w, s, 0) && id in s.sessions && s.sessions[id].kind.Tcp?
    requires s.sessions[id].curCommand.Some? && s.sessions[id].lineQueue != [] && Blank(EnsureNewline(line))
    ensures Stranded(LineFromClient(w, s, id, line), id)
      <==> !TakenByCore(w, s, id, s.sessions[id].curCommand.value.command)
  {
    hide Inv, End, ProcessCommand, Opens, EnsureNewline, TakenByCore, WarnsOnReconnect;
    var x, nl := s.sessions[id], EnsureNewline(line);
    var e := x.curCommand.value;
    PickUp(w, s, id);
    assert e.acceptsData && !e.dataFinished && e.clientID == id by { CurrentIsOpen(w, s.cores, id, x); }
    assert 0 !in s.cores by { NoCoreZero(w, s); }
    assert !WarnsOnReconnect(s, id) by {
      NothingPendingWhenFree(w, s, id, 0, x.coreID);
      NoDataNoWarning(s, id);
    }
    var s1 := SetCurrent(LogReceived(s, id, nl), id, Some(e.Append(nl)));
    SameConnection(w, s, s1, id, e.command);
    TakenIsAwaited(w, s1, id, e.Append(nl));
    var t := ProcessCommand(w, s1, id, e.Append(nl));
    assert LineFromClient(w, s, id, line) == SetCurrent(t, id, None);
    AwaitedIsWarned(t, id);
  }

  lemma CurrentIsOpen(w: World, cores: Cores, id: nat, x: Session)
    requires End(w, cores, id, x) && x.curCommand.Some?
    ensures x.curCommand.value.acceptsData && !x.curCommand.value.dataFinished && x.curCommand.value.clientID == id
  {
  }

  lemma NoCoreZero(w: World, s: State)
    requires Inv(w, s, 0)
    ensures 0 !in s.cores
  {
    hide SessionsOk, CoreOk;
    forall c | c in s.cores ensures c > 0 {
      assert CoreFine(w, c, s.cores[c], s.coreIDCounter, s.sessionIDCounter);
    }
  }

  lemma NoDataNoWarning(s: State, id: nat)
    requires id in s.sessions
    requires IsRunning(s, s.sessions[id].coreID) ==> !s.cores[s.sessions[id].coreID].HasData(id)
    ensures !WarnsOnReconnect(s, id)
  {
  }

  lemma SameConnection(w: World, s: State, t: State, id: nat, command: Line)
    requires id in s.sessions && id in t.sessions && t.cores == s.cores
    requires t.sessions[id].coreID == s.sessions[id].coreID && t.sessions[id].level == s.sessions[id].level
    ensures WarnsOnReconnect(t, id) == WarnsOnReconnect(s, id)
    ensures TakenByCore(w, t, id, command) == TakenByCore(w, s, id, command)
  {
  }

  lemma AwaitedIsWarned(s: State, id: nat)
    requires id in s.sessions
    ensures IsWaiting(SetCurrent(s, id, None), id) == WarnsOnReconnect(s, id)
  {
  }

  /** From then on no command of that session is ever handled again, whatever happens. */
  lemma EndedDatasetStrandsForever(w: World, events: seq<Event>, id: nat, more: seq<Event>)
    requires IsClient(Run(w, events), id)
    requires var s := Run(w, events); var x := s.sessions[id];
      && x.kind.Tcp? && x.curCommand.Some? && x.lineQueue != [] && Blank(x.linebuf + "\n")
      && !TakenByCore(w, s, id, x.curCommand.value.command)
    ensures var s, t := Run(w, events + [ClientByte(id, '\n')]), Run(w, events + [ClientByte(id, '\n')] + more);
      Stranded(s, id) && (id in t.sessions ==> Stranded(t, id) && Stuck(s.sessions[id], t.sessions[id]))
  {
    hide Run, Inv, LineFromClient, Blank, Stranded, TakenByCore;
    var s := Run(w, events);
    var x := s.sessions[id];
    AlwaysInv(w, events);
    BuffersKeep(w, s, id, x.(linebuf := ""));
    var s1 := SetSession(s, id, x.(linebuf := ""));
    assert EnsureNewline(x.linebuf + "\n") == x.linebuf + "\n";
    SameConnection(w, s, s1, id, x.curCommand.value.command);
    EndedDatasetStrandsIff(w, s1, id, x.linebuf + "\n");
    RunLast(w, events, ClientByte(id, '\n'));
    StrandedForever(w, events + [ClientByte(id, '\n')], more, id);
  }

  // ---------------------------------------------------------------- both provisos

  /** With both provisos no live session is ever stranded. */
  lemma StrandedBreaksAProviso(w: World, events: seq<Event>, id: nat)
    requires var s := Run(w, events); IsClient(s, id) && Stranded(s, id)
    ensures var s := Run(w, events); s.sessions[id].jumped || !Undisturbed(s.cores, s.sessions[id])
  {
    hide Run, Undisturbed;
    var s := Run(w, events);
    if !s.sessions[id].jumped && Undisturbed(s.cores, s.sessions[id]) {
      NoStrandedLines(w, events, id);
      assert false;
    }
  }
}
