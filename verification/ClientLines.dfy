/** What handling a line from a client does to its session: held lines, open data sets, and levels. */
module ClientLines {
  import opened Framing
  import opened HttpResponse
  import opened Model
  import opened Invariants
  import opened Commands
  import opened Handling

  // ---------------------------------------------------------------- waiting

  /** An unsettled command shows at its core. */
  lemma UnsettledShows(cores: Cores, id: nat, x: Session, k: nat)
    requires Refs(cores, id, x) && k < |x.issued| && !Settled(cores, x.issued[k])
    requires CoreOk(cores[x.issued[k].fwd.value.core])
    ensures var c := x.issued[k].fwd.value.core; cores[c].life.Running? && cores[c].HasData(id)
  {
    var r := x.issued[k].fwd.value;
    var core := cores[r.core];
    assert RefOk(cores, id, k, x.issued[k], r);
    if r.index >= |core.written| {
      assert core.accepted[|core.written| + (r.index - |core.written|)].entry
          == core.commandQ[r.index - |core.written|];
    }
  }

  /** And what shows at a core is an unsettled command. */
  lemma ShownIsUnsettled(cores: Cores, id: nat, x: Session, c: nat) returns (k: nat)
    requires Back(cores, id, x) && c in cores && CoreOk(cores[c])
    requires id > 0 && cores[c].life.Running? && cores[c].HasData(id)
    ensures k < |x.issued| && !Settled(cores, x.issued[k]) && x.issued[k].fwd.Some? && x.issued[k].fwd.value.core == c
  {
    hide EntryOk, AnsweredBut, Stream, Flat, Whole, Open;
    var core := cores[c];
    var i: nat;
    if InQueue(core.commandQ, id) {
      var q :| 0 <= q < |core.commandQ| && core.commandQ[q].clientID == id;
      i := |core.written| + q;
      assert core.accepted[|core.written| + q].entry == core.commandQ[q];
    } else {
      i := |core.written| - 1;
      assert core.accepted[i].entry == core.written[i];
    }
    k := core.accepted[i].ord;
    assert BackRef(x, c, i, k);
  }

  lemma NotWaitingIsFree(w: World, s: State, id: nat)
    requires Inv(w, s, id) && id in s.sessions && !IsWaiting(s, id)
    ensures Free(s.cores, s.sessions[id])
  {
    hide CoreOk, End;
    var x := s.sessions[id];
    if x.kind.Tcp? {
      forall k | 0 <= k < |x.issued| ensures Settled(s.cores, x.issued[k]) {
        if !Settled(s.cores, x.issued[k]) {
          var c := x.issued[k].fwd.value.core;
          assert CoreFine(w, c, s.cores[c], s.coreIDCounter, s.sessionIDCounter);
          UnsettledShows(s.cores, id, x, k);
          assert false;
        }
      }
    }
  }

  // ---------------------------------------------------------------- levels

  /** A command changes its session's level only by earning one. */
  lemma ProcessLevel(w: World, s: State, id: nat, e: Entry)
    requires id in s.sessions && CommandOk(e, id)
    ensures var t := ProcessCommand(w, s, id, e);
      var earned := Earned(w, t.sessions[id].issued[|s.sessions[id].issued|]);
      t.sessions[id].level == if earned.Some? then earned.value else s.sessions[id].level
  {
    hide SplitString, AuthorizeCommand, Opens, Whole, Help, Quit, ForwardToCore, Shutdown;
    var a := w.answers(s.tick);
    var b := Begin(s, id, e.Block());
    var words := SplitString(e.command, BLANKS);
    if words != [] && words[0] == "authorize" && e.dataset == [] && !Redirects(e.command) {
      assert Execute(w, a, b, id, words)
          == Emit(SetLevel(b, id, AuthorizeCommand(w, a, words)), id, Status(a.status, 0));
    }
  }

  lemma LevelAfterOne(w: World, issued: seq<Issue>, iss: Issue)
    ensures LevelAfter(w, issued + [iss])
         == if Earned(w, iss).Some? then Earned(w, iss).value else LevelAfter(w, issued)
  {
    hide Earned;
    assert (issued + [iss])[..|issued|] == issued;
  }

  /** One more command, begun at the session's level and earning what it earns. */
  lemma LevelOkOne(w: World, x: Session, y: Session, iss: Issue)
    requires LevelOk(w, x) && iss.level == x.level && y.issued == x.issued + [iss]
    requires y.level == if Earned(w, iss).Some? then Earned(w, iss).value else x.level
    ensures LevelOk(w, y)
  {
    hide Earned, LevelAfter;
    LevelAfterOne(w, x.issued, iss);
    forall k | 0 <= k < |y.issued| ensures y.issued[k].level == LevelAfter(w, y.issued[..k]) {
      assert y.issued[..k] == x.issued[..k];
      assert x.issued[..|x.issued|] == x.issued;
    }
  }

  // ---------------------------------------------------------------- one line

  function Head(x: Session): seq<Line> {
    IssuedLines(x.issued) + CurrentLines(x)
  }

  /** The line became part of a command, or was put on the queue. */
  ghost predicate Took(x: Session, y: Session, line: Line) {
    Head(y) == Head(x) + [line] && y.lineQueue == x.lineQueue
  }

  ghost predicate Pushed(x: Session, y: Session, line: Line) {
    y == x.(lineQueue := x.lineQueue + [line])
  }

  /** The part of a session's invariant that does not compare it with what it received. */
  ghost predicate Rest(w: World, cores: Cores, id: nat, x: Session) {
    && CurrentOk(cores, id, x) && LevelOk(w, x)
    && (x.kind.Tcp? ==> WholeBlocks(x.issued)) && (x.kind.Http? ==> x.curCommand.None?)
  }

  ghost predicate SameLog(x: Session, y: Session) {
    y.kind == x.kind && y.received == x.received && y.requests == x.requests && y.jumped == x.jumped
    && y.request == x.request && y.linebuf == x.linebuf
  }

  lemma ProcessKeepsLog(w: World, s: State, id: nat, e: Entry)
    requires id in s.sessions
    ensures SameLog(s.sessions[id], ProcessCommand(w, s, id, e).sessions[id])
  {
    hide ProcessCommand;
  }

  /** Handling a line is not receiving one. */
  lemma HandlingKeepsLog(w: World, s: State, id: nat, line: Line, fromQueue: bool)
    requires id in s.sessions
    ensures SameLog(s.sessions[id], HandleLine(w, s, id, line, fromQueue).sessions[id])
  {
    hide ProcessCommand, IsWaiting, Opens, Blank;
    var x := s.sessions[id];
    ProcessKeepsLog(w, s, id, NewEntry(id, line));
    if x.curCommand.Some? {
      var e := x.curCommand.value.Append(line);
      ProcessKeepsLog(w, SetCurrent(s, id, Some(e)), id, e);
    }
  }

  lemma ProcessRest(w: World, s: State, id: nat, e: Entry)
    requires Inv(w, s, id) && id in s.sessions && Free(s.cores, s.sessions[id]) && CommandOk(e, id)
    requires LevelOk(w, s.sessions[id])
    requires s.sessions[id].kind.Tcp? ==> WholeBlocks(s.sessions[id].issued)
    ensures var x, t := s.sessions[id], ProcessCommand(w, s, id, e);
      var y := t.sessions[id].(curCommand := None);
      && Inv(w, SetSession(t, id, y), id) && Rest(w, t.cores, id, y) && SameLog(x, y)
      && IssuedLines(y.issued) == IssuedLines(x.issued) + e.Block() && y.lineQueue == x.lineQueue
      && |y.issued| == |x.issued| + 1
  {
    hide LevelAfter, ProcessCommand;
    hide Inv, Earned, Whole;
    var x, t := s.sessions[id], ProcessCommand(w, s, id, e);
    ProcessKeeps(w, s, id, e);
    ProcessLevel(w, s, id, e);
    var y := t.sessions[id];
    var n := |x.issued|;
    assert y.issued == x.issued + [y.issued[n]];
    LevelOkOne(w, x, y.(curCommand := None), y.issued[n]);
    CurrentDoesNotMatter(w, t, id, None);
  }

  lemma CurrentDoesNotMatter(w: World, s: State, id: nat, cur: Option<Entry>)
    requires Inv(w, s, id) && id in s.sessions
    ensures Inv(w, SetCurrent(s, id, cur), id)
  {
    hide Settled, Owns, OnlyFrom, Routed, End, NoneStranded;
    hide CoresOk;
    BackGrows(s.cores, id, s.sessions[id], s.sessions[id].(curCommand := cur));
    ActorChanges(w, s, id, s.sessions[id].(curCommand := cur));
  }

  lemma QueueDoesNotMatter(w: World, s: State, id: nat, y: Session)
    requires Inv(w, s, id) && id in s.sessions
    requires y == s.sessions[id].(lineQueue := y.lineQueue, received := y.received, jumped := y.jumped,
                                  request := y.request, requests := y.requests, linebuf := y.linebuf)
    ensures Inv(w, SetSession(s, id, y), id)
  {
    hide Settled, Owns, OnlyFrom, Routed, End, NoneStranded;
    hide CoresOk;
    BackGrows(s.cores, id, s.sessions[id], y);
    ActorChanges(w, s, id, y);
  }

  /** A line continues the open data set. */
  lemma ContinueDataset(w: World, s: State, id: nat, line: Line, fromQueue: bool)
    requires Inv(w, s, id) && id in s.sessions && Rest(w, s.cores, id, s.sessions[id])
    requires s.sessions[id].curCommand.Some?
    ensures var x, t := s.sessions[id], HandleLine(w, s, id, line, fromQueue);
      var y := t.sessions[id];
      Inv(w, t, id) && Rest(w, t.cores, id, y) && SameLog(x, y) && Took(x, y, line)
  {
    hide Whole, IssuedLines, ProcessCommand;
    hide Inv, WholeBlocks, LevelAfter, Opens, Blank;
    var x := s.sessions[id];
    var e := x.curCommand.value;
    var e' := e.Append(line);
    assert e'.Block() == e.Block() + [line];
    ExtendBlock(e.Block(), line);
    CurrentDoesNotMatter(w, s, id, Some(e'));
    var s' := SetCurrent(s, id, Some(e'));
    if e'.Flushable() {
      IDsArePositive(w, s, id);
      ProcessRest(w, s', id, e');
    }
  }

  lemma IDsArePositive(w: World, s: State, id: nat)
    requires Inv(w, s, id) && id in s.sessions
    ensures 0 < id <= s.sessionIDCounter
  {
  }

  /** A line is a command, or opens a data set. */
  lemma StartCommand(w: World, s: State, id: nat, line: Line)
    requires Inv(w, s, id) && id in s.sessions && Rest(w, s.cores, id, s.sessions[id])
    requires s.sessions[id].curCommand.None? && !IsWaiting(s, id)
    requires s.sessions[id].kind.Http? ==> !Opens(line)
    ensures var x, t := s.sessions[id], HandleLine(w, s, id, line, true);
      var y := t.sessions[id];
      && Inv(w, t, id) && Rest(w, t.cores, id, y) && SameLog(x, y) && Took(x, y, line)
      && (y.curCommand.None? ==> |y.issued| == |x.issued| + 1)
  {
    hide Inv, WholeBlocks, LevelAfter, Opens, Blank, IsWaiting, ProcessCommand;
    var x := s.sessions[id];
    var e := NewEntry(id, line);
    assert e.Block() == [line];
    ExtendBlock([], line);
    assert [] + [line] == [line];
    NotWaitingIsFree(w, s, id);
    IDsArePositive(w, s, id);
    if e.Flushable() {
      ProcessRest(w, s, id, e);
      var t := ProcessCommand(w, s, id, e);
      assert t.sessions[id].(curCommand := None) == t.sessions[id];
      assert SetSession(t, id, t.sessions[id]).sessions == t.sessions;
    } else {
      CurrentDoesNotMatter(w, s, id, Some(e));
    }
  }
}
