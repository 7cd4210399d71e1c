/** Every event of the select loop keeps the invariant, so every reachable state has it. */
module Steps {
  import opened Framing
  import opened Auth
  import opened HttpRequest
  import opened HttpResponse
  import opened Model
  import opened Machine
  import opened Invariants
  import opened Evolution
  import opened Commands
  import opened ClientLines
  import opened HttpSessions

  // ---------------------------------------------------------------- a line from a TCP client

  lemma HandleFresh(w: World, s: State, id: nat, line: Line)
    requires Inv(w, s, id) && id in s.sessions && Rest(w, s.cores, id, s.sessions[id])
    requires s.sessions[id].kind.Http? ==> !Opens(line)
    ensures var x, t := s.sessions[id], HandleLine(w, s, id, line, false);
      var y := t.sessions[id];
      && Inv(w, t, id) && Rest(w, t.cores, id, y) && SameLog(x, y)
      && (Took(x, y, line) || Pushed(x, y, line))
      && (x.curCommand.None? && (x.lineQueue != [] || IsWaiting(s, id)) ==> Pushed(x, y, line) && t.cores == s.cores)
      && (x.curCommand.None? && x.lineQueue == [] && !IsWaiting(s, id) ==>
            Took(x, y, line) && (y.curCommand.None? ==> |y.issued| == |x.issued| + 1))
      && (x.curCommand.Some? ==> Took(x, y, line))
  {
    hide Inv, WholeBlocks, LevelAfter, Opens, Blank, ProcessCommand, EnsureNewline;
    var x := s.sessions[id];
    if x.curCommand.Some? {
      ContinueDataset(w, s, id, line, false);
    } else if x.lineQueue != [] || IsWaiting(s, id) {
      QueueDoesNotMatter(w, s, id, x.(lineQueue := x.lineQueue + [line]));
    } else {
      StartCommand(w, s, id, line);
    }
  }

  lemma MultisetOfAppend(received: seq<Line>, head: seq<Line>, queue: seq<Line>, line: Line)
    requires multiset(received) == multiset(head + queue)
    ensures multiset(received + [line]) == multiset(head + [line] + queue)
    ensures multiset(received + [line]) == multiset(head + (queue + [line]))
    ensures received == head + queue ==> received + [line] == head + (queue + [line])
  {
    assert multiset(head + queue) == multiset(head) + multiset(queue);
    assert multiset(head + [line] + queue) == multiset(head + [line]) + multiset(queue);
    assert head + queue + [line] == head + (queue + [line]);
  }

  lemma TookLinesOk(x: Session, x1: Session, y: Session, line: Line)
    requires LinesOk(x) && x1 == x.(received := x.received + [line]) && SameLog(x1, y) && Took(x1, y, line)
    requires y.kind.Tcp? ==> WholeBlocks(y.issued)
    requires x.curCommand.None? ==> x.lineQueue == []
    ensures LinesOk(y)
  {
    hide WholeBlocks, IssuedLines, CurrentLines, HandledLines, Head;
    HeadIs(x);
    HeadIs(y);
    assert Head(x1) == Head(x) by { HeadIgnoresLog(x, x1); }
    if x.kind.Tcp? {
      MultisetOfAppend(x.received, Head(x), x.lineQueue, line);
      if !x.jumped {
        assert x.lineQueue == [];
        assert Head(x) + [line] + [] == Head(x) + [] + [line];
      }
    }
  }

  lemma HeadIgnoresLog(x: Session, y: Session)
    requires y == x.(received := y.received)
    ensures Head(y) == Head(x)
  {
  }

  lemma PushedLinesOk(x: Session, x1: Session, y: Session, line: Line)
    requires LinesOk(x) && x1 == x.(received := x.received + [line]) && Pushed(x1, y, line)
    requires x.curCommand.None?
    ensures LinesOk(y)
  {
    hide WholeBlocks, IssuedLines;
    if x.kind.Tcp? {
      MultisetOfAppend(x.received, IssuedLines(x.issued) + CurrentLines(x), x.lineQueue, line);
    }
  }

  lemma FreshLinesOk(x: Session, x1: Session, y: Session, line: Line)
    requires LinesOk(x) && x1 == x.(received := x.received + [line]) && SameLog(x1, y)
    requires y.kind.Tcp? ==> WholeBlocks(y.issued)
    requires Took(x1, y, line) || Pushed(x1, y, line)
    requires x.curCommand.None? && x.lineQueue != [] ==> Pushed(x1, y, line)
    requires x.curCommand.Some? ==> Took(x1, y, line)
    ensures LinesOk(y)
  {
    hide WholeBlocks, LinesOk, Took, SameLog;
    if x.curCommand.None? && Pushed(x1, y, line) {
      PushedLinesOk(x, x1, y, line);
    } else {
      TookLinesOk(x, x1, y, line);
    }
  }

  lemma EnsureNewlineTwice(line: Line)
    ensures EnsureNewline(EnsureNewline(line)) == EnsureNewline(line)
  {
  }

  lemma PushedQueueOk(x: Session, y: Session, line: Line)
    requires QueueOk(x) && (y.lineQueue == x.lineQueue || y.lineQueue == x.lineQueue + [line])
    requires EnsureNewline(line) == line
    ensures QueueOk(y)
  {
    hide EnsureNewline;
  }

  // ---------------------------------------------------------------- at rest

  lemma PickUp(w: World, s: State, id: nat)
    requires Inv(w, s, 0) && id in s.sessions
    ensures Inv(w, s, id) && End(w, s.cores, id, s.sessions[id])
    ensures NoneStranded(s.cores, s.sessions[id], id !in s.marked)
  {
    hide Mid, End, NoneStranded, CoresOk;
  }

  lemma PutDown(w: World, s: State, id: nat)
    requires Inv(w, s, id)
    requires id in s.sessions ==> End(w, s.cores, id, s.sessions[id])
    requires id in s.sessions ==> NoneStranded(s.cores, s.sessions[id], id !in s.marked)
    ensures Inv(w, s, 0)
  {
    hide Mid, End, NoneStranded, CoresOk;
  }

  /** A session whose queue is empty, or that waits for its core, is not stranded. */
  lemma WaitingIsNotStranded(w: World, s: State, id: nat)
    requires Inv(w, s, id) && id in s.sessions && LinesOk(s.sessions[id])
    requires s.sessions[id].lineQueue == [] || IsWaiting(s, id)
    ensures NoneStranded(s.cores, s.sessions[id], id !in s.marked)
  {
    hide CoreOk, End;
    var x := s.sessions[id];
    if x.kind.Tcp? && !x.jumped && x.lineQueue != [] {
      assert CoreFine(w, x.coreID, s.cores[x.coreID], s.coreIDCounter, s.sessionIDCounter);
      var k := ShownIsUnsettled(s.cores, id, x, x.coreID);
    }
  }

  /** A session that does not wait and is not stranded has nothing queued, unless a proviso fails. */
  lemma IdleHasNoQueue(w: World, s: State, id: nat)
    requires Inv(w, s, id) && id in s.sessions && !IsWaiting(s, id)
    requires NoneStranded(s.cores, s.sessions[id], id !in s.marked)
    ensures var x := s.sessions[id];
      x.kind.Tcp? && id !in s.marked && !x.jumped && Undisturbed(s.cores, x) ==> x.lineQueue == []
  {
    hide CoreOk, End;
    var x := s.sessions[id];
    if x.kind.Tcp? && id !in s.marked && !x.jumped && Undisturbed(s.cores, x) && x.lineQueue != [] {
      var c := x.issued[|x.issued|-1].fwd.value.core;
      assert CoreFine(w, c, s.cores[c], s.coreIDCounter, s.sessionIDCounter);
      UnsettledShows(s.cores, id, x, |x.issued| - 1);
      assert false;
    }
  }

  // ---------------------------------------------------------------- LineFromClient

  lemma TcpLineKeeps(w: World, s: State, id: nat, line: Line)
    requires Inv(w, s, 0) && id in s.sessions && s.sessions[id].kind.Tcp?
    ensures Inv(w, LineFromClient(w, s, id, line), 0)
  {
    hide Inv, WholeBlocks, LevelAfter, Opens, Blank, HandleLine, QueueOk, EnsureNewline, IsWaiting;
    var nl := EnsureNewline(line);
    EnsureNewlineTwice(line);
    PickUp(w, s, id);
    var x := s.sessions[id];
    var s1 := LogReceived(s, id, nl);
    QueueDoesNotMatter(w, s, id, s1.sessions[id]);
    assert IsWaiting(s1, id) == IsWaiting(s, id) by { LogDoesNotMatter(s, id, nl); }
    HandleFresh(w, s1, id, nl);
    var t := HandleLine(w, s1, id, nl, false);
    var y := t.sessions[id];
    FreshLinesOk(x, s1.sessions[id], y, nl);
    PushedQueueOk(x, y, nl);
    TcpLineNotStranded(w, s, id, s1, t, nl);
    PutDown(w, t, id);
  }

  lemma LogDoesNotMatter(s: State, id: nat, line: Line)
    requires id in s.sessions
    ensures IsWaiting(LogReceived(s, id, line), id) == IsWaiting(s, id)
  {
  }

  lemma TcpLineNotStranded(w: World, s: State, id: nat, s1: State, t: State, nl: Line)
    requires Inv(w, s, id) && Inv(w, t, id) && id in s.sessions && id in t.sessions && s.sessions[id].kind.Tcp?
    requires LinesOk(s.sessions[id]) && LinesOk(t.sessions[id])
    requires s1 == LogReceived(s, id, nl) && t.marked == s.marked && SameLog(s1.sessions[id], t.sessions[id])
    requires NoneStranded(s.cores, s.sessions[id], id !in s.marked)
    requires var x, x1, y := s.sessions[id], s1.sessions[id], t.sessions[id];
      && (Took(x1, y, nl) || Pushed(x1, y, nl))
      && (x.curCommand.None? && (x.lineQueue != [] || IsWaiting(s, id)) ==> Pushed(x1, y, nl) && t.cores == s.cores)
      && (x.curCommand.Some? || (x.lineQueue == [] && !IsWaiting(s, id)) ==> Took(x1, y, nl))
    ensures NoneStranded(t.cores, t.sessions[id], id !in t.marked)
  {
    hide Inv;
    var x, y := s.sessions[id], t.sessions[id];
    if x.curCommand.None? && x.lineQueue != [] {
      assert y.issued == x.issued && t.cores == s.cores;
      assert Undisturbed(t.cores, y) ==> Undisturbed(s.cores, x);
    } else if x.curCommand.None? && IsWaiting(s, id) {
      WaitingIsNotStranded(w, t, id);
    } else {
      assert y.lineQueue == x.lineQueue;
    }
  }

  // ---------------------------------------------------------------- HTTP

  lemma EnsureNewlineOpens(line: Line)
    ensures Opens(EnsureNewline(line)) == Opens(line)
  {
    OpensAfter(line, "\n");
  }

  /** An HTTP session between two requests; fresh: its first request is being handled. */
  ghost predicate HttpReady(w: World, x: Session) {
    && x.kind.Http? && x.curCommand.None? && QueueOk(x) && LevelOk(w, x)
    && (forall l :: l in x.lineQueue ==> !Opens(l))
    && x.requests > 0 && (x.requests <= 1 ==> x.issued == [] && x.lineQueue == [])
  }

  lemma FirstHttpLine(w: World, s: State, id: nat, nl: Line)
    requires Inv(w, s, id) && id in s.sessions && HttpReady(w, s.sessions[id]) && !Opens(nl)
    requires s.sessions[id].requests <= 1
    ensures !IsWaiting(s, id)
    ensures HelpIsKnown(w) ==> GoodAnswer(HandleLine(w, s, id, nl, false), id)
  {
    hide CoreOk, ProcessCommand, Opens, EnsureNewline;
    var x := s.sessions[id];
    IDsArePositive(w, s, id);
    if IsWaiting(s, id) {
      assert CoreFine(w, x.coreID, s.cores[x.coreID], s.coreIDCounter, s.sessionIDCounter);
      var k := ShownIsUnsettled(s.cores, id, x, x.coreID);
      assert false;
    }
    if HelpIsKnown(w) {
      assert x.level == Read;
      FirstCommandAnswers(w, s, id, NewEntry(id, nl));
    }
  }

  lemma HttpLineKeeps(w: World, s: State, id: nat, line: Line)
    requires Inv(w, s, id) && id in s.sessions && HttpReady(w, s.sessions[id]) && !Opens(line)
    ensures Inv(w, LineFromClient(w, s, id, line), 0)
  {
    hide Inv, LevelAfter, Opens, HandleLine, EnsureNewline, HttpServed, IsWaiting, QueueOk;
    var nl := EnsureNewline(line);
    EnsureNewlineTwice(line);
    EnsureNewlineOpens(line);
    var s1 := LogReceived(s, id, nl);
    QueueDoesNotMatter(w, s, id, s1.sessions[id]);
    assert QueueOk(s1.sessions[id]) by { SameQueueOk(s.sessions[id], s1.sessions[id]); }
    HandleFresh(w, s1, id, nl);
    var x, t := s1.sessions[id], HandleLine(w, s1, id, nl, false);
    var y := t.sessions[id];
    PushedQueueOk(x, y, nl);
    if x.requests <= 1 {
      FirstHttpLine(w, s1, id, nl);
    }
    assert HttpOk(w, y);
    PutDown(w, t, id);
  }

  lemma SameQueueOk(x: Session, y: Session)
    requires QueueOk(x) && y.lineQueue == x.lineQueue
    ensures QueueOk(y)
  {
  }

  lemma RefusedSession(w: World, cores: Cores, id: nat, x: Session, y: Session, iss: Issue)
    requires HttpReady(w, x) && y == x.(issued := x.issued + [iss], out := y.out, closing := y.closing)
    requires iss.level == x.level && iss.block == [] && iss.fwd.None? && |iss.served| == 1 && iss.served[0].Status?
    ensures End(w, cores, id, y) && NoneStranded(cores, y, true) && NoneStranded(cores, y, false)
  {
    hide QueueOk, Opens, Settled, Undisturbed;
    LevelOkOne(w, x, y, iss);
    SameQueueOk(x, y);
  }

  lemma RefuseKeeps(w: World, s: State, id: nat)
    requires Inv(w, s, id) && id in s.sessions && HttpReady(w, s.sessions[id])
    ensures Inv(w, Refuse(w, s, id), 0)
  {
    hide Inv, HttpReady, End, NoneStranded, Ready, Free, CountStatus, Blank;
    var x := s.sessions[id];
    assert x.kind.Http? by { HttpReadyIsHttp(w, x); }
    assert Free(s.cores, x) by { HttpIsFree(s.cores, x); }
    var b := Begin(s, id, []);
    var o := Status(w.answers(s.tick).status, 0);
    BeginKeeps(w, s, id, []);
    JustBegunMayAnswer(b.cores, b.sessions[id]);
    EmitKeeps(w, b, id, o);
    var t := Emit(b, id, o);
    var iss := Issue([], s.tick, x.level, [o], None);
    assert [] + [o] == [o];
    assert t.sessions[id].issued == x.issued + [iss];
    RefusedSession(w, t.cores, id, x, t.sessions[id], iss);
    PutDown(w, t, id);
  }

  lemma HttpReadyIsHttp(w: World, x: Session)
    requires HttpReady(w, x)
    ensures x.kind.Http?
  {
    hide LevelAfter, QueueOk, Opens;
  }

  lemma HttpIsFree(cores: Cores, x: Session)
    requires x.kind.Http?
    ensures Free(cores, x)
  {
  }

  lemma JustBegunMayAnswer(cores: Cores, x: Session)
    requires Ready(cores, x)
    ensures MayAnswer(cores, x)
  {
  }

  lemma HttpRunKeeps(w: World, s: State, id: nat, target: Target)
    requires Inv(w, s, id) && id in s.sessions && HttpReady(w, s.sessions[id])
    ensures Inv(w, HttpRun(w, s, id, target), 0)
  {
    hide Inv, LevelAfter, Opens, LineFromClient, Refuse, QueueOk;
    RefuseKeeps(w, s, id);
    match target {
      case ToCore(name, command) =>
        var c := FindNamed(s, name);
        if c.Some? && !Opens(command) {
          var x := s.sessions[id];
          ReconnectKeeps(w, s, id, x.(coreID := c.value));
          SameQueueOk(x, x.(coreID := c.value));
          HttpLineKeeps(w, SetSession(s, id, x.(coreID := c.value)), id, command);
        }
      case Plain(command) =>
        if !Opens(command) {
          HttpLineKeeps(w, s, id, command);
        }
      case _ =>
    }
  }

  lemma HttpLineFromKeeps(w: World, s: State, id: nat, line: Line)
    requires Inv(w, s, 0) && id in s.sessions && s.sessions[id].kind.Http?
    ensures Inv(w, LineFromHttpClient(w, s, id, line), 0)
  {
    hide Inv, LevelAfter, HttpRun, ParseRequest, Opens, EnsureNewline, HttpServed;
    PickUp(w, s, id);
    var x := s.sessions[id];
    var request := x.request + [line];
    if line != "\n" {
      QueueDoesNotMatter(w, s, id, x.(request := request));
      PutDown(w, SetSession(s, id, x.(request := request)), id);
    } else {
      var y := x.(request := [], requests := x.requests + 1);
      QueueDoesNotMatter(w, s, id, y);
      assert x.requests == 0 ==> x.issued == [];
      HttpRunKeeps(w, SetSession(s, id, y), id, ParseRequest(request[0]));
    }
  }

  // ---------------------------------------------------------------- the drain loop

  /** After the front line was taken, popping it restores the account of lines. */
  lemma PoppedLinesOk(x: Session, y: Session, z: Session)
    requires LinesOk(x) && x.lineQueue != [] && x.curCommand.None? && SameLog(x, y) && Took(x, y, x.lineQueue[0])
    requires y.kind.Tcp? ==> WholeBlocks(y.issued)
    requires var rest := x.lineQueue[1..];
      z == y.(lineQueue := rest, jumped := y.jumped || (y.curCommand.Some? && rest != []))
    ensures LinesOk(z)
  {
    hide WholeBlocks, Head;
    assert Head(x) == IssuedLines(x.issued) + CurrentLines(x) && Head(z) == IssuedLines(z.issued) + CurrentLines(z)
      && Head(z) == Head(y) by { HeadIs(x); HeadIs(y); HeadIs(z); }
    assert x.lineQueue == [x.lineQueue[0]] + x.lineQueue[1..];
    assert Head(x) + [x.lineQueue[0]] + x.lineQueue[1..] == Head(x) + x.lineQueue;
  }

  lemma HeadIs(x: Session)
    ensures Head(x) == IssuedLines(x.issued) + CurrentLines(x)
    ensures HandledLines(x) == Head(x) + x.lineQueue
  {
  }

  lemma PoppedQueueOk(x: Session, z: Session)
    requires x.lineQueue != [] && z.lineQueue == x.lineQueue[1..] && QueueOk(x)
    ensures QueueOk(z) && EnsureNewline(x.lineQueue[0]) == x.lineQueue[0]
    ensures (forall l :: l in x.lineQueue ==> !Opens(l)) ==> (forall l :: l in z.lineQueue ==> !Opens(l))
  {
    hide EnsureNewline, Opens;
    assert x.lineQueue == [x.lineQueue[0]] + z.lineQueue;
  }

  lemma DrainOneKeeps(w: World, s: State, id: nat)
    requires Inv(w, s, id) && Draining(s, id) && End(w, s.cores, id, s.sessions[id])
    ensures var t := DrainOne(w, s, id);
      Inv(w, t, id) && id in t.sessions && End(w, t.cores, id, t.sessions[id])
  {
    hide Inv, LevelAfter, Opens, HandleLine, EnsureNewline, HttpServed, IsWaiting, WholeBlocks, HandledLines, Head;
    var x := s.sessions[id];
    var line := x.lineQueue[0];
    DrainingIsIdle(s, id);
    StartCommand(w, s, id, line);
    var t := HandleLine(w, s, id, line, true);
    var y := t.sessions[id];
    var rest := x.lineQueue[1..];
    var z := y.(lineQueue := rest, jumped := y.jumped || (y.curCommand.Some? && rest != []));
    PoppedQueueOk(x, z);
    PoppedLinesOk(x, y, z);
    QueueDoesNotMatter(w, t, id, z);
  }

  lemma DrainingIsIdle(s: State, id: nat)
    requires Draining(s, id)
    ensures s.sessions[id].curCommand.None?
  {
  }

  /** The drain loop keeps the invariant and leaves the queue empty or the session waiting again. */
  lemma {:induction false} DrainKeeps(w: World, s: State, id: nat)
    requires Inv(w, s, id) && id in s.sessions && End(w, s.cores, id, s.sessions[id])
    ensures var t := Drain(w, s, id);
      Inv(w, t, id) && id in t.sessions && End(w, t.cores, id, t.sessions[id]) && !Draining(t, id)
    decreases |s.sessions[id].lineQueue|
  {
    hide Inv, End, DrainOne, IsWaiting;
    if Draining(s, id) {
      DrainOneKeeps(w, s, id);
      DrainOneShrinks(w, s, id);
      DrainKeeps(w, DrainOne(w, s, id), id);
    }
  }

  // ---------------------------------------------------------------- lines from cores

  /** The command that a busy core is answering, in its session's log. */
  lemma InFlight(cores: Cores, id: nat, x: Session, c: nat) returns (ord: nat)
    requires Back(cores, id, x) && c in cores && CoreOk(cores[c])
    requires cores[c].Busy() && cores[c].lastClientID == id
    ensures cores[c].written != [] && cores[c].written[|cores[c].written|-1].clientID == id
    ensures BackRef(x, c, |cores[c].written| - 1, ord)
    ensures |cores[c].written| - 1 < |cores[c].accepted| && cores[c].accepted[|cores[c].written| - 1].ord == ord
  {
    var k := cores[c];
    LastWritten(k);
    ord := k.accepted[|k.written|-1].ord;
  }

  /** For a session that is undisturbed, the command being answered is its last. */
  lemma InFlightIsLast(cores: Cores, id: nat, x: Session, c: nat, ord: nat)
    requires Turn(cores, x) && c in cores && CoreOk(cores[c]) && cores[c].Busy() && cores[c].written != []
    requires BackRef(x, c, |cores[c].written| - 1, ord)
    requires |x.issued| <= 1 || (x.kind.Tcp? && Undisturbed(cores, x))
    ensures ord == |x.issued| - 1
  {
    hide ReplyState, Fifo;
    if |x.issued| > 1 {
      assert Kept(cores, x.issued[ord].fwd.value);
    }
  }

  function HeardAs(k: Core, c: nat, line: Line): Out {
    if k.expectingReply then Status(line, c) else Data(line, c)
  }

  lemma ReplyOutsGrow(k: Core, c: nat, line: Line)
    requires CoreOk(k) && k.Busy()
    ensures var r := k.replies[|k.replies|-1];
      ReplyOuts(r + [line], c) == ReplyOuts(r, c) + [HeardAs(k, c, line)]
  {
    hide Fifo;
  }

  lemma HeardRouted(k: Core, c: nat, line: Line, id: nat)
    requires CoreOk(k) && k.Busy() && k.lastClientID == id
    ensures Routed(CoreHears(k, line), c, id) == Routed(k, c, id) + [HeardAs(k, c, line)]
  {
    hide Whole, Open, Opens, Blank, Stream, Flat;
    hide Fifo;
    var n := |k.written| - 1;
    RoutedFrame(k, CoreHears(k, line), c, id, n);
    ReplyOutsGrow(k, c, line);
  }

  /** Only the last written command's reply grows. */
  lemma HeardOwn(cores: Cores, iss: Issue, c: nat, line: Line)
    requires c in cores && CoreOk(cores[c]) && cores[c].Busy()
    ensures var cores' := cores[c := CoreHears(cores[c], line)];
      if iss.fwd == Some(Ref(c, |cores[c].written| - 1)) then
        Own(cores', iss) == Own(cores, iss) + [HeardAs(cores[c], c, line)]
      else Own(cores', iss) == Own(cores, iss)
  {
    hide CoreOk;
    var k := cores[c];
    assert k.written != [] && |k.replies| == |k.written| by { BusyHasWritten(k); }
    ReplyOutsGrow(k, c, line);
  }

  /** The owner of a reply hears a line of it: its last command's own output grows by that line. */
  lemma HeardOwns(cores: Cores, id: nat, x: Session, c: nat, line: Line)
    requires Refs(cores, id, x) && c in cores && CoreOk(cores[c]) && cores[c].Busy()
    requires x.issued != [] && x.issued[|x.issued|-1].fwd == Some(Ref(c, |cores[c].written| - 1))
    ensures var cores' := cores[c := CoreHears(cores[c], line)];
      Owns(cores', x.issued) == Owns(cores, x.issued) + [HeardAs(cores[c], c, line)]
  {
    hide CoreOk, CoreHears, Own, Forwards;
    var n := |x.issued| - 1;
    var cores' := cores[c := CoreHears(cores[c], line)];
    forall j | 0 <= j < n ensures Own(cores', x.issued[j]) == Own(cores, x.issued[j]) {
      assert x.issued[j].fwd.Some? ==> RefOk(cores, id, j, x.issued[j], x.issued[j].fwd.value);
      assert RefOk(cores, id, n, x.issued[n], x.issued[n].fwd.value);
      HeardOwn(cores, x.issued[j], c, line);
    }
    OwnsFrame(cores, cores', x.issued[..n]);
    HeardOwn(cores, x.issued[n], c, line);
    var o := HeardAs(cores[c], c, line);
    assert Owns(cores, x.issued[..n]) + (Own(cores, x.issued[n]) + [o]) == Owns(cores, x.issued) + [o];
  }

  lemma HeardTurn(cores: Cores, x: Session, c: nat, line: Line)
    requires c in cores && CoreOk(cores[c])
    ensures var cores' := cores[c := CoreHears(cores[c], line)];
      && (Turn(cores, x) ==> Turn(cores', x)) && (AllSettled(cores, x) ==> AllSettled(cores', x))
      && (Undisturbed(cores', x) <==> Undisturbed(cores, x))
  {
    hide CoreOk, CoreHears;
    var cores' := cores[c := CoreHears(cores[c], line)];
    HearsCoreOk(cores[c], line);
    assert CoreHears(cores[c], line).doneAtStop == cores[c].doneAtStop by { HearsKeepsRest(cores[c], line); }
    forall k | 0 <= k < |x.issued|
      ensures Settled(cores, x.issued[k]) ==> Settled(cores', x.issued[k])
      ensures x.issued[k].fwd.Some? ==>
        (Kept(cores', x.issued[k].fwd.value) <==> Kept(cores, x.issued[k].fwd.value))
    {
    }
  }

  /** The client of a busy core keeps its invariant when the core speaks; if it is live it got the line. */
  lemma HeardMid(cores: Cores, id: nat, x: Session, y: Session, c: nat, line: Line, live: bool)
    requires Mid(cores, id, x, live) && c in cores && CoreOk(cores[c])
    requires cores[c].Busy() && cores[c].lastClientID == id && id > 0
    requires y == x.(out := y.out, closing := y.closing)
    requires y.out == if live then x.out + [HeardAs(cores[c], c, line)] else x.out
    ensures Mid(cores[c := CoreHears(cores[c], line)], id, y, live)
  {
    hide CoreOk, CoreHears, Turn, Undisturbed, Owns, Routes, Refs, Back;
    HeardRefs(cores, id, x, y, c, line);
    HeardTurn(cores, x, c, line);
    HeardTurn(cores, y, c, line);
    assert Turn(cores, y) && (Undisturbed(cores, y) <==> Undisturbed(cores, x)) by { SameFwd(cores, id, x, y); }
    var ord := InFlight(cores, id, x, c);
    if live && (|x.issued| <= 1 || (x.kind.Tcp? && Undisturbed(cores, x))) {
      InFlightIsLast(cores, id, x, c, ord);
      HeardOwns(cores, id, x, c, line);
    }
    HeardRoutes(cores, id, x, y, c, line, live);
  }

  lemma HeardRefs(cores: Cores, id: nat, x: Session, y: Session, c: nat, line: Line)
    requires Refs(cores, id, x) && Back(cores, id, x) && c in cores && y.issued == x.issued
    ensures Refs(cores[c := CoreHears(cores[c], line)], id, y)
    ensures Back(cores[c := CoreHears(cores[c], line)], id, y)
  {
    hide CoreHears;
    HearsKeepsRest(cores[c], line);
    var cores' := cores[c := CoreHears(cores[c], line)];
    forall d, i | d in cores' && 0 <= i < |cores'[d].accepted| && cores'[d].accepted[i].entry.clientID == id
      ensures BackRef(y, d, i, cores'[d].accepted[i].ord)
    {
      assert BackRef(x, d, i, cores[d].accepted[i].ord);
    }
  }

  lemma HeardRoutes(cores: Cores, id: nat, x: Session, y: Session, c: nat, line: Line, live: bool)
    requires Routes(cores, id, x, live) && c in cores && CoreOk(cores[c])
    requires cores[c].Busy() && cores[c].lastClientID == id
    requires y.out == if live then x.out + [HeardAs(cores[c], c, line)] else x.out
    ensures Routes(cores[c := CoreHears(cores[c], line)], id, y, live)
  {
    hide CoreOk, CoreHears;
    HeardRouted(cores[c], c, line, id);
    assert live ==> y.out[..|x.out|] == x.out;
  }

  lemma HearsKeepsCores(w: World, s: State, c: nat, line: Line)
    requires Inv(w, s, 0) && c in s.cores
    ensures var t := LineFromCore(s, c, line);
      CoresOk(w, t.cores, t.coreIDCounter, t.sessionIDCounter) && UniqueNames(t.cores)
  {
    hide CoreOk, CoreHears, SessionsOk;
    var t := LineFromCore(s, c, line);
    assert CoreFine(w, c, s.cores[c], s.coreIDCounter, s.sessionIDCounter);
    HearsCoreOk(s.cores[c], line);
    HearsKeepsRest(s.cores[c], line);
    forall d | d in t.cores ensures CoreFine(w, d, t.cores[d], t.coreIDCounter, t.sessionIDCounter) {
      assert CoreFine(w, d, s.cores[d], s.coreIDCounter, s.sessionIDCounter);
    }
    NamesStayUnique(s.cores, t.cores);
  }

  /** The client of a core's last command, when the core speaks. */
  lemma HearsKeepsClient(w: World, s: State, c: nat, line: Line)
    requires Inv(w, s, 0) && c in s.cores && s.cores[c].lastClientID in s.sessions
    ensures var t, id := LineFromCore(s, c, line), s.cores[c].lastClientID;
      && Mid(t.cores, id, t.sessions[id], id !in t.marked) && End(w, t.cores, id, t.sessions[id])
      && (!(IsClient(s, id) && IsWaiting(s, id)) ==> NoneStranded(t.cores, t.sessions[id], id !in t.marked))
  {
    hide CoreOk, CoreHears, Mid, End, NoneStranded, IsWaiting, Written, CoreEvolves, Gate;
    var k, t := s.cores[c], LineFromCore(s, c, line);
    var id := k.lastClientID;
    assert CoreFine(w, c, k, s.coreIDCounter, s.sessionIDCounter);
    HearsKeepsCores(w, s, c, line);
    PickUp(w, s, id);
    var x, y, live := s.sessions[id], t.sessions[id], id !in s.marked;
    if k.Busy() {
      WrittenIs(x, HeardAs(k, c, line));
      HeardMid(s.cores, id, x, y, c, line, live);
      HeardEnd(w, s.cores, id, x, y, c, line, live);
      if !(live && IsWaiting(s, id)) {
        HeardNotStranded(w, s, id, y, c, line);
      }
    } else {
      HearsEvolves(k, line, id);
      OneEvolves(s.cores, c, t.cores[c], id);
      SessionEvolves(w, s.cores, t.cores, id, x, live, true);
    }
  }

  lemma HearsKeeps(w: World, s: State, c: nat, line: Line)
    requires Inv(w, s, 0) && c in s.cores
    ensures var t, id := LineFromCore(s, c, line), s.cores[c].lastClientID;
      && Inv(w, t, id) && (id in t.sessions ==> End(w, t.cores, id, t.sessions[id]))
      && (id in t.sessions && !(IsClient(s, id) && IsWaiting(s, id)) ==>
            NoneStranded(t.cores, t.sessions[id], id !in t.marked))
  {
    hide CoreOk, CoreHears, Mid, End, NoneStranded, IsWaiting, Written, CoreEvolves, Gate, UniqueNames;
    var k, t := s.cores[c], LineFromCore(s, c, line);
    var id := k.lastClientID;
    assert CoreFine(w, c, k, s.coreIDCounter, s.sessionIDCounter);
    HearsKeepsCores(w, s, c, line);
    forall j | j in s.sessions && j != id ensures Evolves(s.cores, t.cores, j) {
      HearsEvolves(k, line, j);
      OneEvolves(s.cores, c, t.cores[c], j);
    }
    if id in s.sessions {
      HearsKeepsClient(w, s, c, line);
    }
    Bystanders(w, s, t, id);
  }

  lemma WrittenIs(x: Session, o: Out)
    ensures Written(x, o) == x.(out := x.out + [o], closing := Written(x, o).closing)
  {
  }

  lemma HeardEnd(w: World, cores: Cores, id: nat, x: Session, y: Session, c: nat, line: Line, live: bool)
    requires End(w, cores, id, x) && c in cores && CoreOk(cores[c])
    requires y == x.(out := y.out, closing := y.closing)
    ensures End(w, cores[c := CoreHears(cores[c], line)], id, y)
  {
    hide CoreOk, CoreHears, QueueOk, Settled, LevelAfter, HttpServed;
    HeardTurn(cores, x, c, line);
    SameQueueOk(x, y);
  }

  lemma HeardNotStranded(w: World, s: State, id: nat, y: Session, c: nat, line: Line)
    requires Inv(w, s, id) && id in s.sessions && c in s.cores && CoreOk(s.cores[c])
    requires NoneStranded(s.cores, s.sessions[id], id !in s.marked)
    requires !(IsClient(s, id) && IsWaiting(s, id))
    requires y == s.sessions[id].(out := y.out, closing := y.closing)
    ensures NoneStranded(s.cores[c := CoreHears(s.cores[c], line)], y, id !in s.marked)
  {
    hide CoreOk, CoreHears, Inv, IsWaiting;
    if id !in s.marked {
      IdleHasNoQueue(w, s, id);
      HeardTurn(s.cores, s.sessions[id], c, line);
    }
  }

  lemma CoreLineKeeps(w: World, s: State, c: nat, line: Line)
    requires Inv(w, s, 0) && c in s.cores
    ensures Inv(w, CoreLine(w, s, c, line), 0)
  {
    hide Inv, End, NoneStranded, IsWaiting, Drain, LineFromCore;
    var id := s.cores[c].lastClientID;
    var t := LineFromCore(s, c, line);
    HearsKeeps(w, s, c, line);
    if IsClient(s, id) && IsWaiting(s, id) {
      LineFromCoreKeepsSessions(s, c, line);
      DrainKeeps(w, t, id);
      var u := Drain(w, t, id);
      assert LinesOk(u.sessions[id]) by { EndHasLines(w, u.cores, id, u.sessions[id]); }
      WaitingIsNotStranded(w, u, id);
      PutDown(w, u, id);
    } else {
      PutDown(w, t, id);
    }
  }

  lemma LineFromCoreKeepsSessions(s: State, c: nat, line: Line)
    requires c in s.cores
    ensures LineFromCore(s, c, line).sessions.Keys == s.sessions.Keys
  {
  }

  lemma EndHasLines(w: World, cores: Cores, id: nat, x: Session)
    requires End(w, cores, id, x)
    ensures LinesOk(x)
  {
  }
}
