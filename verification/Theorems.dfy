/** What the multiplexer promises, for every run: in any order of events, with input chopped in any way. */
module Theorems {
  import opened Framing
  import opened Auth
  import opened HttpResponse
  import opened Model
  import opened Machine
  import opened Invariants
  import opened ClientLines
  import opened Steps
  import opened Reachable

  lemma ReachedCore(w: World, events: seq<Event>, c: nat)
    requires c in Run(w, events).cores
    ensures var s := Run(w, events); CoreFine(w, c, s.cores[c], s.coreIDCounter, s.sessionIDCounter)
  {
    hide CoreFine, SessionsOk, Run;
    AlwaysInv(w, events);
  }

  lemma ReachedSession(w: World, events: seq<Event>, id: nat)
    requires id in Run(w, events).sessions
    ensures var s := Run(w, events);
      0 < id <= s.sessionIDCounter && SessionOk(w, s.cores, id, s.sessions[id], id !in s.marked, true)
  {
    hide CoresOk, SessionOk, Run;
    AlwaysInv(w, events);
  }

  // ---------------------------------------------------------------- one session by itself

  /** A command of the session is done: if a core had to answer it, the whole reply has arrived. */
  ghost predicate Complete(cores: Cores, iss: Issue) {
    iss.fwd.Some? ==> iss.fwd.value.core in cores && Whole(cores[iss.fwd.value.core].ReplyAt(iss.fwd.value.index))
  }

  lemma DoneIsWhole(k: Core, i: nat)
    requires CoreOk(k)
    ensures i < k.Done() ==> i < |k.replies| && Whole(k.replies[i])
    ensures k.Done() <= i < |k.replies| ==> i == |k.replies| - 1 && (k.replies[i] == [] || Open(k.replies[i]))
  {
    hide Fifo;
  }

  lemma SettledIsComplete(cores: Cores, id: nat, x: Session, k: nat)
    requires Refs(cores, id, x) && Undisturbed(cores, x) && k < |x.issued| && Settled(cores, x.issued[k])
    requires forall c :: c in cores ==> CoreOk(cores[c])
    ensures Complete(cores, x.issued[k])
  {
    hide CoreOk, Whole;
    if x.issued[k].fwd.Some? {
      var r := x.issued[k].fwd.value;
      assert Kept(cores, r);
      StoppedWhenDone(cores[r.core]);
      DoneIsWhole(cores[r.core], r.index);
    }
  }

  lemma StoppedWhenDone(k: Core)
    requires CoreOk(k)
    ensures !k.life.Running? ==> k.doneAtStop <= k.Done()
  {
  }

  /** A live TCP session whose cores kept running has been sent its commands' own outputs, each in one piece
      and in the order of the commands; every output but the last is complete, and the last one is as well
      unless the session is waiting for it. What other sessions do on the same cores does not show. */
  lemma SequentialSession(w: World, events: seq<Event>, id: nat)
    requires var s := Run(w, events);
      IsClient(s, id) && s.sessions[id].kind.Tcp? && Undisturbed(s.cores, s.sessions[id])
    ensures var s := Run(w, events); var x := s.sessions[id];
      && x.out == Owns(s.cores, x.issued)
      && (forall k :: 0 <= k < |x.issued| - 1 ==> Complete(s.cores, x.issued[k]))
      && (!IsWaiting(s, id) && x.issued != [] ==> Complete(s.cores, x.issued[|x.issued|-1]))
      && (forall k :: 0 <= k < |x.issued| && x.issued[k].fwd.Some? ==>
            RefOk(s.cores, id, k, x.issued[k], x.issued[k].fwd.value))
  {
    hide Run, CoreOk, Complete, End, Owns, Own;
    var s := Run(w, events);
    var x := s.sessions[id];
    ReachedSession(w, events, id);
    AlwaysInv(w, events);
    forall c | c in s.cores ensures CoreOk(s.cores[c]) {
      ReachedCore(w, events, c);
    }
    if !IsWaiting(s, id) {
      PickUp(w, s, id);
      NotWaitingIsFree(w, s, id);
    }
    forall k | 0 <= k < |x.issued| && (k < |x.issued| - 1 || !IsWaiting(s, id))
      ensures Complete(s.cores, x.issued[k])
    {
      SettledIsComplete(s.cores, id, x, k);
    }
  }

  function Blocks(issued: seq<Issue>): seq<Block> {
    seq(|issued|, k requires 0 <= k < |issued| => issued[k].block)
  }

  lemma {:induction false} IssuedLinesAreFlat(issued: seq<Issue>)
    ensures IssuedLines(issued) == Flat(Blocks(issued))
  {
    if issued != [] {
      var n := |issued| - 1;
      IssuedLinesAreFlat(issued[..n]);
      assert Blocks(issued)[..n] == Blocks(issued[..n]);
    }
  }

  /** The commands that a TCP session has handled are the protocol's reading of the lines it received, in
      order of arrival, unless the drain loop left lines behind a data set that it opened. */
  lemma InArrivalOrder(w: World, events: seq<Event>, id: nat)
    requires var s := Run(w, events); id in s.sessions && s.sessions[id].kind.Tcp? && !s.sessions[id].jumped
    ensures var x := Run(w, events).sessions[id];
      |x.lineQueue| <= |x.received| &&
      var n := |x.received| - |x.lineQueue|;
      x.received[n..] == x.lineQueue && Cut(x.received[..n], Whole) == (Blocks(x.issued), CurrentLines(x))
  {
    hide Run, Mid, Whole, Open, LevelOk, HttpOk;
    var x := Run(w, events).sessions[id];
    ReachedSession(w, events, id);
    IssuedLinesAreFlat(x.issued);
    var n := |x.received| - |x.lineQueue|;
    assert x.received[..n] == Flat(Blocks(x.issued)) + CurrentLines(x);
    ProtocolRoundTrip(Blocks(x.issued), CurrentLines(x));
  }

  /** With or without that proviso, no line is lost or duplicated, and an open command is always an
      unfinished data set. */
  lemma LinesConserved(w: World, events: seq<Event>, id: nat)
    requires var s := Run(w, events); id in s.sessions && s.sessions[id].kind.Tcp?
    ensures var x := Run(w, events).sessions[id];
      && multiset(x.received)
         == multiset(Flat(Blocks(x.issued))) + multiset(CurrentLines(x)) + multiset(x.lineQueue)
      && (x.curCommand.Some? ==>
            x.curCommand.value.acceptsData && !x.curCommand.value.dataFinished && Open(CurrentLines(x)))
  {
    hide Run, Mid, Whole, Open, LevelOk, HttpOk;
    var x := Run(w, events).sessions[id];
    ReachedSession(w, events, id);
    IssuedLinesAreFlat(x.issued);
  }

  // ---------------------------------------------------------------- waiting and held lines

  /** At most one command of a TCP session is outstanding over all running cores: the session's last one, at
      the core it is connected to. */
  lemma AtMostOneOutstanding(w: World, events: seq<Event>, id: nat, c: nat, i: nat)
    requires var s := Run(w, events); id in s.sessions && s.sessions[id].kind.Tcp? && Outstanding(s, id, c, i)
    ensures var x := Run(w, events).sessions[id];
      c == x.coreID && x.issued != [] && x.issued[|x.issued|-1].fwd == Some(Ref(c, i))
  {
    hide Run, End, NoneStranded, CoreOk, Routes;
    var s := Run(w, events);
    var x := s.sessions[id];
    ReachedSession(w, events, id);
    assert BackRef(x, c, i, s.cores[c].accepted[i].ord);
  }

  ghost predicate Outstanding(s: State, id: nat, c: nat, i: nat) {
    IsRunning(s, c) && s.cores[c].Done() <= i < |s.cores[c].accepted|
    && s.cores[c].accepted[i].entry.clientID == id
  }

  /** No core has data for a session that may run a command: it continues a data set, or does not wait. This
      also holds at every iteration of the drain loop, where the session acts. */
  lemma NothingPendingWhenFree(w: World, s: State, id: nat, actor: nat, c: nat)
    requires Inv(w, s, actor) && actor in {0, id} && id in s.sessions && s.sessions[id].kind.Tcp?
    requires End(w, s.cores, id, s.sessions[id])
    requires s.sessions[id].curCommand.Some? || !IsWaiting(s, id)
    ensures IsRunning(s, c) ==> !s.cores[c].HasData(id)
  {
    hide CoreOk, Routes;
    var x := s.sessions[id];
    assert Inv(w, s, id) by { if actor == 0 { PickUp(w, s, id); } }
    if x.curCommand.None? {
      NotWaitingIsFree(w, s, id);
    }
    if IsRunning(s, c) && s.cores[c].HasData(id) {
      assert CoreFine(w, c, s.cores[c], s.coreIDCounter, s.sessionIDCounter);
      var k := ShownIsUnsettled(s.cores, id, x, c);
      assert false;
    }
  }

  /** Held lines of a live TCP session wait for a core's reply and for nothing else, under the provisos. */
  lemma NoStrandedLines(w: World, events: seq<Event>, id: nat)
    requires var s := Run(w, events); IsClient(s, id) && s.sessions[id].kind.Tcp?
    requires var s := Run(w, events); !s.sessions[id].jumped && Undisturbed(s.cores, s.sessions[id])
    requires Run(w, events).sessions[id].lineQueue != []
    ensures var s := Run(w, events); var x := s.sessions[id];
      x.curCommand.None? && IsRunning(s, x.coreID) && s.cores[x.coreID].HasData(id)
  {
    hide Run, CoreOk, End, Routes;
    var s := Run(w, events);
    var x := s.sessions[id];
    ReachedSession(w, events, id);
    ReachedCore(w, events, x.coreID);
    UnsettledShows(s.cores, id, x, |x.issued| - 1);
  }

  /** The drain loop, from any state: what is left is an end piece of the queue, and it is empty or the
      session waits again. */
  lemma {:induction false} DrainEnds(w: World, s: State, id: nat)
    requires id in s.sessions
    ensures var t := Drain(w, s, id);
      && !Draining(t, id) && id in t.sessions
      && exists k :: 0 <= k <= |s.sessions[id].lineQueue| && t.sessions[id].lineQueue == s.sessions[id].lineQueue[k..]
    decreases |s.sessions[id].lineQueue|
  {
    hide DrainOne, IsWaiting;
    var q := s.sessions[id].lineQueue;
    if Draining(s, id) {
      DrainOneShrinks(w, s, id);
      var t := DrainOne(w, s, id);
      DrainEnds(w, t, id);
      var k :| 0 <= k <= |q| - 1 && Drain(w, t, id).sessions[id].lineQueue == q[1..][k..];
      assert q[1..][k..] == q[k+1..];
    } else {
      assert q[0..] == q;
    }
  }

  /** The core line that ends a session's wait drains its queue until it is empty or the session waits. */
  lemma LineFromCoreDrains(w: World, s: State, c: nat, line: Line)
    requires c in s.cores
    requires IsClient(s, s.cores[c].lastClientID) && IsWaiting(s, s.cores[c].lastClientID)
    ensures !Draining(CoreLine(w, s, c, line), s.cores[c].lastClientID)
  {
    hide Drain, IsWaiting, LineFromCore;
    LineFromCoreKeepsSessions(s, c, line);
    DrainEnds(w, LineFromCore(s, c, line), s.cores[c].lastClientID);
  }

  // ---------------------------------------------------------------- routing

  /** Whatever a core sent reached the client of the command that it answers, complete and in order, and
      nobody else; a client marked for removal got a first part of that. */
  lemma ReplyRouting(w: World, events: seq<Event>, c: nat, id: nat)
    requires var s := Run(w, events); id in s.sessions && c in s.cores
    ensures var s := Run(w, events);
      && OnlyFrom(s.sessions[id].out, c) <= Routed(s.cores[c], c, id)
      && (IsClient(s, id) ==> OnlyFrom(s.sessions[id].out, c) == Routed(s.cores[c], c, id))
  {
    hide Run, End, NoneStranded, Routed, OnlyFrom;
    ReachedSession(w, events, id);
  }

  /** If a core only speaks when it is asked, its output read by the protocol is one reply for each command
      written to it, in the order of writing; the last one may be unfinished or not begun. */
  lemma RepliesMatchCommands(w: World, events: seq<Event>, c: nat)
    requires var s := Run(w, events); c in s.cores && !s.cores[c].chatty
    ensures var k := Run(w, events).cores[c]; var n := k.Done();
      && n <= |k.replies| == |k.written| <= n + 1
      && Cut(k.emitted, Whole) == (k.replies[..n], k.ReplyAt(n))
  {
    hide Run, Whole, Fifo, Open;
    var k := Run(w, events).cores[c];
    var n := k.Done();
    ReachedCore(w, events, c);
    forall i | 0 <= i < n ensures Whole(k.replies[i]) {
      DoneIsWhole(k, i);
    }
    DoneIsWhole(k, n);
    if n < |k.replies| {
      assert k.replies == k.replies[..n] + [k.replies[n]];
      FlatAppend(k.replies[..n], k.replies[n]);
    } else {
      assert k.replies == k.replies[..n];
      assert Flat(k.replies) + [] == Flat(k.replies);
    }
    ProtocolRoundTrip(k.replies[..n], k.ReplyAt(n));
  }

  // ---------------------------------------------------------------- what a core is sent

  function CommandBlocks(entries: seq<Entry>): seq<Block> {
    seq(|entries|, i requires 0 <= i < |entries| => entries[i].Block())
  }

  lemma {:induction false} StreamIsFlat(written: seq<Entry>)
    ensures Stream(written) == Flat(CommandBlocks(written))
  {
    if written != [] {
      var n := |written| - 1;
      StreamIsFlat(written[..n]);
      assert CommandBlocks(written)[..n] == CommandBlocks(written[..n]);
    }
  }

  /** Reading the stream sent to a core by the protocol recovers exactly the commands written to it, none of
      them cut off; each has a command line that is not blank and belongs to a session. */
  lemma CoreInputFraming(w: World, events: seq<Event>, c: nat)
    requires c in Run(w, events).cores
    ensures var k := Run(w, events).cores[c];
      && Cut(k.stream, Whole) == (CommandBlocks(k.written), [])
      && forall e :: e in k.written ==> !Blank(e.command) && 0 < e.clientID <= Run(w, events).sessionIDCounter
  {
    hide Run, Whole, Open, ReplyState, Blank;
    var k := Run(w, events).cores[c];
    ReachedCore(w, events, c);
    forall i | 0 <= i < |k.written| ensures EntryOk(k.written[i]) {
      assert k.accepted[i].entry == k.written[i];
    }
    StreamIsFlat(k.written);
    assert Flat(CommandBlocks(k.written)) + [] == Flat(CommandBlocks(k.written));
    ProtocolRoundTrip(CommandBlocks(k.written), []);
    forall e | e in k.written ensures !Blank(e.command) && 0 < e.clientID <= Run(w, events).sessionIDCounter {
      var i :| 0 <= i < |k.written| && k.written[i] == e;
      assert k.accepted[i].entry == e;
    }
  }

  /** Every queued command is complete, so removing a session, even in the middle of a data set, never adds a
      line to a queue: the session goes and nothing else changes. */
  lemma CompleteEntries(w: World, events: seq<Event>, id: nat)
    ensures var s := Run(w, events);
      && (forall c, i :: c in s.cores && 0 <= i < |s.cores[c].commandQ| ==> s.cores[c].commandQ[i].Flushable())
      && RemoveSession(s, id) == s.(sessions := s.sessions - {id})
  {
    hide Run, CoreFine, SessionsOk, RemoveSession;
    var s := Run(w, events);
    AlwaysInv(w, events);
    forall c, i | c in s.cores && 0 <= i < |s.cores[c].commandQ| ensures s.cores[c].commandQ[i].Flushable() {
      ReachedCore(w, events, c);
      assert Fifo(s.cores[c].accepted, s.cores[c].written, s.cores[c].commandQ) by { CoreFineFifo(w, s, c); }
      QueueIsFlushable(s.cores[c]);
    }
    RemovalIsClean(w, s, id);
  }

  lemma CoreFineFifo(w: World, s: State, c: nat)
    requires c in s.cores && CoreFine(w, c, s.cores[c], s.coreIDCounter, s.sessionIDCounter)
    ensures Fifo(s.cores[c].accepted, s.cores[c].written, s.cores[c].commandQ)
  {
  }

  /** Commands leave a queue in the order in which they were accepted, none is lost, and none is written
      before all replies to its predecessors are complete. */
  lemma FifoConserved(w: World, events: seq<Event>, c: nat)
    requires c in Run(w, events).cores
    ensures var k := Run(w, events).cores[c];
      && Entries(k.accepted) == k.written + k.commandQ
      && |k.written| <= k.Done() + 1
  {
    hide Run, EntryOk;
    var k := Run(w, events).cores[c];
    ReachedCore(w, events, c);
    forall i | 0 <= i < |k.accepted| ensures Entries(k.accepted)[i] == (k.written + k.commandQ)[i] {
      if i >= |k.written| {
        assert k.accepted[|k.written| + (i - |k.written|)].entry == k.commandQ[i - |k.written|];
      }
    }
  }

  function Entries(accepted: seq<Accepted>): seq<Entry> {
    seq(|accepted|, i requires 0 <= i < |accepted| => accepted[i].entry)
  }

  /** After the loop's flush, an idle core has nothing queued, and the command with k predecessors is written
      exactly when k replies are complete, whatever other clients enqueue behind it: of all commands accepted
      so far, as many are written as replies are complete, and one more if there is one. */
  lemma BoundedWait(w: World, events: seq<Event>, c: nat)
    requires IsPresent(Run(w, events + [Flush]), c)
    ensures var k := Run(w, events + [Flush]).cores[c];
      && (!k.Busy() ==> k.commandQ == [])
      && |k.written| == if |k.accepted| <= k.Done() then |k.accepted| else k.Done() + 1
  {
    hide Run, EntryOk, Gate;
    var all := events + [Flush];
    assert all[..|all|-1] == events && all[|all|-1] == Flush;
    assert Run(w, all) == FlushAll(Run(w, events)) by { RunLast(w, events, Flush); }
    ReachedCore(w, events, c);
    FlushCoreOk(Run(w, events).cores[c]);
    ReachedCore(w, all, c);
  }

  /** All replies asked for have come. */
  ghost predicate AllQuiet(s: State) {
    forall c :: IsPresent(s, c) ==> !s.cores[c].Busy()
  }

  /** When the loop has flushed its queues and no core owes a reply, nothing of a session is held back: all that
      a live TCP session sent is handled, except an unfinished data set at its end, and completely answered, in
      order of arrival. */
  lemma QuiescentMeansHandled(w: World, events: seq<Event>, id: nat)
    requires var s := Run(w, events + [Flush]); AllQuiet(s) && IsClient(s, id) && s.sessions[id].kind.Tcp?
    requires var s := Run(w, events + [Flush]); !s.sessions[id].jumped && Undisturbed(s.cores, s.sessions[id])
    ensures var s := Run(w, events + [Flush]); var x := s.sessions[id];
      && x.lineQueue == [] && Cut(x.received, Whole) == (Blocks(x.issued), CurrentLines(x))
      && x.out == Owns(s.cores, x.issued) && (forall k :: 0 <= k < |x.issued| ==> Complete(s.cores, x.issued[k]))
  {
    hide Run, CoreOk, Complete, Owns, Cut, Routes;
    var all := events + [Flush];
    var s := Run(w, all);
    var x := s.sessions[id];
    SequentialSession(w, all, id);
    InArrivalOrder(w, all, id);
    if IsRunning(s, x.coreID) {
      QuietCoreIsFree(w, events, id, x.coreID);
    }
    if x.lineQueue != [] {
      NoStrandedLines(w, all, id);
      assert false;
    }
    assert x.received[..|x.received|] == x.received;
    forall k | 0 <= k < |x.issued| ensures Complete(s.cores, x.issued[k]) {
      if x.curCommand.Some? {
        OpenMeansSettled(w, all, id, k);
      }
    }
  }

  lemma QuietCoreIsFree(w: World, events: seq<Event>, id: nat, c: nat)
    requires AllQuiet(Run(w, events + [Flush])) && IsRunning(Run(w, events + [Flush]), c)
    ensures !Run(w, events + [Flush]).cores[c].HasData(id)
  {
    hide Run;
    BoundedWait(w, events, c);
  }

  /** While a data set is open, all earlier commands are completely answered. */
  lemma OpenMeansSettled(w: World, events: seq<Event>, id: nat, k: nat)
    requires var s := Run(w, events); id in s.sessions && s.sessions[id].curCommand.Some?
    requires var s := Run(w, events); Undisturbed(s.cores, s.sessions[id]) && k < |s.sessions[id].issued|
    ensures var s := Run(w, events); Complete(s.cores, s.sessions[id].issued[k])
  {
    hide Run, CoreOk, Complete, LinesOk, LevelOk, HttpOk, Routes, NoneStranded;
    var s := Run(w, events);
    ReachedSession(w, events, id);
    forall c | c in s.cores ensures CoreOk(s.cores[c]) {
      ReachedCore(w, events, c);
    }
    SettledIsComplete(s.cores, id, s.sessions[id], k);
  }

  lemma RunLast(w: World, events: seq<Event>, e: Event)
    ensures Run(w, events + [e]) == Step(w, Run(w, events), e)
  {
    assert (events + [e])[..|events|] == events;
  }

  // ---------------------------------------------------------------- access

  /** What the gate asks for, read off the command line: its first word, up to a blank, a colon or an angle
      bracket, is in the table at a level that the session has; with an angle bracket it takes admin level. */
  ghost predicate Permitted(table: map<string, Level>, line: Line, level: Level) {
    && (exists word :: FirstWord(line, word, {' ', '\t', '\n', ':', '<', '>'}) && word in table
          && Rank(table[word]) <= Rank(level))
    && ('<' in line || '>' in line ==> level.Admin?)
  }

  lemma AllowedIsPermitted(w: World, a: Accepted)
    ensures Allowed(w, a) <==> Permitted(w.table, a.entry.command, a.level)
  {
    hide SplitString, FirstWord;
    var line := a.entry.command;
    var words := SplitString(line, CORE_DELIMS);
    forall word ensures FirstWord(line, word, CORE_DELIMS) <==> words != [] && words[0] == word {
      SplitFirstWord(line, CORE_DELIMS, word);
    }
    assert CORE_DELIMS == {' ', '\t', '\n', ':', '<', '>'};
  }

  ghost predicate Known(table: map<string, Level>, line: Line) {
    exists word :: FirstWord(line, word, {' ', '\t', '\n', ':', '<', '>'}) && word in table
  }

  lemma NeedIsKnown(w: World, line: Line)
    ensures Known(w.table, line) <==> CoreCommand(w, line).Some?
  {
    hide SplitString, FirstWord;
    var words := SplitString(line, CORE_DELIMS);
    forall word ensures FirstWord(line, word, CORE_DELIMS) <==> words != [] && words[0] == word {
      SplitFirstWord(line, CORE_DELIMS, word);
    }
    assert CORE_DELIMS == {' ', '\t', '\n', ':', '<', '>'};
  }

  /** A running core takes a command exactly if it is permitted: it joins the end of what the core accepted, and
      nothing is answered yet. Otherwise no core changes, and the client is told that there is no such command,
      or that it may not run it. */
  lemma TakenIffPermitted(w: World, a: Answer, s: State, id: nat, e: Entry)
    requires id in s.sessions && s.sessions[id].issued != [] && IsRunning(s, s.sessions[id].coreID)
    ensures var x, t := s.sessions[id], ForwardToCore(w, a, s, id, e);
      var k, out := s.cores[x.coreID], t.sessions[id].out;
      if Permitted(w.table, e.command, x.level) then
        out == x.out && t.cores == s.cores[x.coreID := t.cores[x.coreID]]
        && t.cores[x.coreID].accepted == k.accepted + [Accepted(e, |x.issued| - 1, x.level)]
      else
        t.cores == s.cores
        && out == x.out + [if Known(w.table, e.command) then Status(a.refusal, 0) else NotFound(a.refusal)]
  {
    hide Permitted, Known, CoreCommand, CountStatus, Blank;
    var x := s.sessions[id];
    NeedIsKnown(w, e.command);
    AllowedIsPermitted(w, Accepted(e, |x.issued| - 1, x.level));
    assert s.cores[x.coreID := s.cores[x.coreID]] == s.cores;
  }

  /** Every command a core ever took was permitted at the level its session had; that level is what the
      session's commands up to then had earned it. */
  lemma AccessGate(w: World, events: seq<Event>, c: nat, i: nat)
    requires var s := Run(w, events); c in s.cores && i < |s.cores[c].accepted|
    ensures var s := Run(w, events); var a := s.cores[c].accepted[i];
      && Allowed(w, a) && Permitted(w.table, a.entry.command, a.level)
      && (a.entry.clientID in s.sessions ==>
            var x := s.sessions[a.entry.clientID];
            && a.ord < |x.issued| && a.level == LevelAfter(w, x.issued[..a.ord])
            && Forwards(x.issued[a.ord].block, a.entry))
  {
    hide Run, CoreOk, Allowed, Permitted, CurrentOk, LinesOk, HttpOk, Routes, Delivered, Turn, NoneStranded, LevelAfter,
      Forwards;
    var s := Run(w, events);
    var a := s.cores[c].accepted[i];
    ReachedCore(w, events, c);
    AllowedIsPermitted(w, a);
    var id := a.entry.clientID;
    if id in s.sessions {
      ReachedSession(w, events, id);
      assert BackRef(s.sessions[id], c, i, a.ord);
      assert RefOk(s.cores, id, a.ord, s.sessions[id].issued[a.ord], Ref(c, i));
    }
  }

  /** A session's level is the one its last successful authorize earned, and read before the first. */
  lemma LevelIsEarned(w: World, events: seq<Event>, id: nat)
    requires id in Run(w, events).sessions
    ensures var x := Run(w, events).sessions[id]; x.level == LevelAfter(w, x.issued)
  {
    hide Run, CurrentOk, LinesOk, HttpOk, Mid, NoneStranded, LevelAfter;
    ReachedSession(w, events, id);
  }

  /** What earning means, read off: a command earns a level only as `authorize password USER:PASSWORD`, for a
      cached user with that password, and it earns the level cached for that user. */
  lemma EarnedByPassword(w: World, iss: Issue)
    requires Earned(w, iss).Some?
    ensures |iss.block| == 1 && !Redirects(iss.block[0])
    ensures var words := SplitString(iss.block[0], BLANKS);
      |words| == 3 && words[0] == "authorize" && words[1] == "password" &&
      var cred, users := SplitFields(words[2], ':'), w.answers(iss.tick).users;
      |cred| == 2 && cred[0] in users && w.crypt(cred[1], users[cred[0]].hash) == users[cred[0]].hash
      && Earned(w, iss) == Some(users[cred[0]].level)
  {
  }

  /** Where a level comes from: the start, or the last command that earned one. */
  ghost predicate LastEarned(w: World, issued: seq<Issue>, k: nat, level: Level) {
    k < |issued| && Earned(w, issued[k]) == Some(level) && forall j :: k < j < |issued| ==> Earned(w, issued[j]).None?
  }

  lemma {:induction false} LevelComesFrom(w: World, issued: seq<Issue>)
    ensures LevelAfter(w, issued) == Read || exists k :: LastEarned(w, issued, k, LevelAfter(w, issued))
  {
    hide Earned;
    if issued != [] {
      var n := |issued| - 1;
      if Earned(w, issued[n]).Some? {
        assert LastEarned(w, issued, n, LevelAfter(w, issued));
      } else {
        LevelComesFrom(w, issued[..n]);
        if k: nat :| LastEarned(w, issued[..n], k, LevelAfter(w, issued[..n])) {
          assert LastEarned(w, issued, k, LevelAfter(w, issued));
        }
      }
    }
  }

  /** A command that needs more than read level reached a core only after an earlier command of its session had
      earned a level high enough, the last one before it that earned any. This holds of TCP and HTTP clients. */
  lemma HighLevelWasEarned(w: World, events: seq<Event>, c: nat, i: nat)
    requires var s := Run(w, events); c in s.cores && i < |s.cores[c].accepted|
    requires var s := Run(w, events); s.cores[c].accepted[i].entry.clientID in s.sessions
    ensures var s := Run(w, events); var a := s.cores[c].accepted[i];
      var x, need := s.sessions[a.entry.clientID], CoreCommand(w, a.entry.command);
      && a.ord < |x.issued| && need.Some?
      && (!need.value.Read? ==> exists k :: LastEarned(w, x.issued[..a.ord], k, a.level))
      && (!Permitted(w.table, a.entry.command, Read) ==> exists k :: LastEarned(w, x.issued[..a.ord], k, a.level))
      && Permitted(w.table, a.entry.command, a.level)
      && Rank(a.level) >= Rank(need.value)
  {
    hide Run, CoreCommand, LevelAfter, Forwards, LastEarned, Permitted;
    AccessGate(w, events, c, i);
    var s := Run(w, events);
    var a := s.cores[c].accepted[i];
    LevelComesFrom(w, s.sessions[a.entry.clientID].issued[..a.ord]);
  }

  /** The command reads `authorize password CRED`, with CRED the name of a cached user and its password. */
  predicate Proves(w: World, iss: Issue, cred: string, user: string, password: string) {
    && |iss.block| == 1 && '<' !in iss.block[0] && '>' !in iss.block[0]
    && SplitString(iss.block[0], BLANKS) == ["authorize", "password", cred]
    && SplitFields(cred, ':') == [user, password] && user != "" && password != ""
    && var users := w.answers(iss.tick).users;
       user in users && w.crypt(password, users[user].hash) == users[user].hash
  }

  /** Exactly such a command earns a level, and it is the one cached for the user. */
  lemma EarnedIff(w: World, iss: Issue, level: Level)
    ensures Earned(w, iss) == Some(level) <==>
      exists cred, user, password :: Proves(w, iss, cred, user, password)
        && w.answers(iss.tick).users[user].level == level
  {
    hide SplitString, SplitFields;
    if Earned(w, iss).Some? {
      var words := SplitString(iss.block[0], BLANKS);
      var cred := SplitFields(words[2], ':');
      assert words == ["authorize", "password", words[2]] && cred == [cred[0], cred[1]];
      assert Proves(w, iss, words[2], cred[0], cred[1]);
    }
    if cred, user, password :| Proves(w, iss, cred, user, password) {
      var words := SplitString(iss.block[0], BLANKS);
      assert words[0] == "authorize" && words[1] == "password" && words[2] == cred;
      assert SplitFields(cred, ':')[0] == user && SplitFields(cred, ':')[1] == password;
      assert Earned(w, iss) == Some(w.answers(iss.tick).users[user].level);
    }
  }

  /** No core appears, disappears or stops running. */
  ghost predicate SameLives(cores: Cores, cores': Cores) {
    cores'.Keys == cores.Keys && forall c :: c in cores ==> cores'[c].life == cores[c].life
  }

  lemma ForwardKeepsLives(w: World, a: Answer, s: State, id: nat, e: Entry)
    requires id in s.sessions && s.sessions[id].issued != []
    ensures SameLives(s.cores, ForwardToCore(w, a, s, id, e).cores)
  {
    hide CoreCommand;
  }

  lemma {:induction false} EmitAllKeepsCores(s: State, id: nat, outs: seq<Out>)
    requires id in s.sessions && s.sessions[id].issued != []
    ensures EmitAll(s, id, outs).cores == s.cores
  {
    if outs != [] {
      EmitAllKeepsCores(s, id, outs[..|outs|-1]);
    }
  }

  lemma HelpKeepsLives(w: World, a: Answer, s: State, id: nat, words: seq<string>)
    requires id in s.sessions && s.sessions[id].issued != [] && words != []
    ensures SameLives(s.cores, Help(w, a, s, id, words).cores)
  {
    hide ForwardToCore, EmitAll, Listing, JoinWords;
    var e := NewEntry(id, JoinWords(words));
    ForwardKeepsLives(w, a, s, id, e);
    if |words| == 1 {
      EmitAllKeepsCores(s, id, HelpListing(a));
      ForwardKeepsLives(w, a, EmitAll(s, id, HelpListing(a)), id, e);
    } else {
      EmitAllKeepsCores(s, id, Listing(a.status + words[1] + ":\n", a.data));
    }
  }

  lemma OutputKeepsCores(a: Answer, s: State, id: nat, words: seq<string>, o: Out)
    requires id in s.sessions && s.sessions[id].issued != []
    ensures Emit(s, id, o).cores == s.cores && Quit(a, s, id, words).cores == s.cores
  {
  }

  lemma HarmlessKeepsCores(w: World, a: Answer, s: State, id: nat, words: seq<string>)
    requires id in s.sessions && s.sessions[id].issued != [] && words != [] && words[0] !in ADMIN_COMMANDS
    ensures ExecuteVoid(w, a, s, id, words).cores == s.cores
  {
    hide FindNamed, AuthorizeCommand, CreateGraph, DropGraph, Shutdown;
  }

  lemma ExecuteKeepsLives(w: World, a: Answer, s: State, id: nat, words: seq<string>)
    requires id in s.sessions && s.sessions[id].issued != [] && !s.sessions[id].level.Admin?
    requires words != [] && words[0] in SERVER_COMMANDS
    ensures SameLives(s.cores, Execute(w, a, s, id, words).cores)
  {
    hide Emit, Quit, ExecuteVoid, EmitAll, Listing, Help, SameLives, SERVER_COMMANDS, ADMIN_COMMANDS, VOID_COMMANDS;
    SameLivesSame(s.cores);
    if Rank(ServerLevel(words[0])) > Rank(s.sessions[id].level) {
      OutputKeepsCores(a, s, id, words, Status(a.refusal, 0));
    } else if words[0] in VOID_COMMANDS {
      HarmlessKeepsCores(w, a, s, id, words);
      OutputKeepsCores(a, ExecuteVoid(w, a, s, id, words), id, words, Status(a.status, 0));
    } else if words[0] == "help" {
      HelpKeepsLives(w, a, s, id, words);
    } else {
      OutputKeepsCores(a, s, id, words, Status(a.status, 0));
      EmitAllKeepsCores(s, id, Listing(a.status, a.data));
    }
  }

  /** A command of a session below admin level neither starts nor stops a core, whatever the command is. */
  lemma OnlyAdminsManageCores(w: World, s: State, id: nat, e: Entry)
    requires id in s.sessions && !s.sessions[id].level.Admin?
    ensures SameLives(s.cores, ProcessCommand(w, s, id, e).cores)
  {
    hide ForwardToCore, Execute, SplitString, SameLives;
    var a, b := w.answers(s.tick), Begin(s, id, e.Block());
    var words := SplitString(e.command, BLANKS);
    SameLivesSame(b.cores);
    ForwardKeepsLives(w, a, b, id, e);
    if words != [] && words[0] in SERVER_COMMANDS {
      ExecuteKeepsLives(w, a, b, id, words);
    }
  }

  lemma SameLivesSame(cores: Cores)
    ensures SameLives(cores, cores)
  {
  }

  // ---------------------------------------------------------------- names and IDs

  /** The running core of a name is the only one, so it does not matter in which order cores are searched. */
  lemma NamesAreUnique(w: World, events: seq<Event>, c: nat, name: string)
    requires NamedRunning(Run(w, events), c, name)
    ensures FindNamed(Run(w, events), name) == Some(c)
    ensures 0 < c <= Run(w, events).coreIDCounter
  {
    hide Run, CoreOk, SessionsOk;
    var s := Run(w, events);
    AlwaysInv(w, events);
    assert CoreFine(w, c, s.cores[c], s.coreIDCounter, s.sessionIDCounter);
    assert SameRunningName(s.cores, c, FindNamed(s, name).value);
  }

  // ---------------------------------------------------------------- HTTP

  /** An HTTP session never has an open data set, nor a held line that would open one. */
  lemma HttpOpensNothing(w: World, events: seq<Event>, id: nat)
    requires var s := Run(w, events); id in s.sessions && s.sessions[id].kind.Http?
    ensures var x := Run(w, events).sessions[id];
      x.curCommand.None? && forall l :: l in x.lineQueue ==> !Opens(l)
  {
    hide Run, Mid, NoneStranded, LevelOk;
    ReachedSession(w, events, id);
  }

  /** An HTTP client that sends one request can never run a core command that needs more than read level, nor
      redirect input or output. */
  lemma HttpRunsAtReadLevel(w: World, events: seq<Event>, c: nat, i: nat)
    requires var s := Run(w, events); c in s.cores && i < |s.cores[c].accepted|
    requires var s := Run(w, events); var id := s.cores[c].accepted[i].entry.clientID;
      id in s.sessions && s.sessions[id].kind.Http? && s.sessions[id].requests <= 1
    ensures var command := Run(w, events).cores[c].accepted[i].entry.command;
      && CoreCommand(w, command) == Some(Read)
      && '<' !in command && '>' !in command && Permitted(w.table, command, Read)
  {
    hide Run, FirstWord, CoreCommand, Mid, NoneStranded, LevelOk, CurrentOk, LinesOk, Forwards;
    var s := Run(w, events);
    var a := s.cores[c].accepted[i];
    var x := s.sessions[a.entry.clientID];
    ReachedSession(w, events, a.entry.clientID);
    AccessGate(w, events, c, i);
    assert x.issued[..0] == [];
  }

  lemma {:induction false} UnfinishedHelp(outs: seq<Out>)
    requires HelpHead(outs)
    ensures !Finished(outs) && CountStatus(outs) >= 1
  {
    var before := outs[..|outs|-1];
    if before != [] {
      UnfinishedHelp(before);
    }
  }

  /** As long as a reply is open, the conversation does not end with it. */
  lemma {:induction false} UnfinishedReply(head: seq<Out>, reply: Block, c: nat)
    requires head == [] || (!Finished(head) && CountStatus(head) >= 1)
    requires reply == [] || Open(reply)
    ensures !Finished(head + ReplyOuts(reply, c))
    ensures reply != [] ==> CountStatus(head + ReplyOuts(reply, c)) >= 1
  {
    var outs := head + ReplyOuts(reply, c);
    if reply == [] {
      assert outs == head;
    } else {
      var n := |reply| - 1;
      UnfinishedReply(head, reply[..n], c);
      assert outs[..|outs|-1] == head + ReplyOuts(reply[..n], c);
    }
  }

  /** When the loop ends the conversation of an HTTP session that sent one request, the response is whole:
      what the server answered, then, if a core had to answer, its complete reply. It is one response: one
      header, and that first. Nothing more will come. */
  lemma HttpResponseComplete(w: World, events: seq<Event>, id: nat, drained: set<nat>)
    requires HelpIsKnown(w)
    requires var s := Run(w, events);
      IsClient(s, id) && ConversationOver(s, id, drained) && s.sessions[id].requests <= 1
    ensures var s := Run(w, events); var x := s.sessions[id];
      && |x.issued| == 1 && x.lineQueue == [] && x.curCommand.None?
      && x.out == Own(s.cores, x.issued[0]) && Complete(s.cores, x.issued[0])
      && CountHeaders(x.out) == 1 && "HTTP/1.0 " <= Bytes(w.codes, Http, x.out)
      && OneResponse(x.out) && x.out != [] && !x.out[0].Data?
  {
    hide Run, CoreOk, HelpIsKnown, HttpServed, Finished, Own, ReplyOuts, Complete, OneResponse, CountHeaders, Bytes,
      Mid, CurrentOk, LinesOk, QueueOk, LevelOk, NoneStranded;
    var s := Run(w, events);
    var x := s.sessions[id];
    ReachedSession(w, events, id);
    assert x.out == Owns(s.cores, x.issued) && Refs(s.cores, id, x) by { MidDelivers(s.cores, id, x); }
    assert Finished(x.out);
    assert x.issued != [] by { assert !Finished([]) by { NothingIsUnfinished(); } }
    assert x.out == Own(s.cores, x.issued[0]) by { OwnsOfOne(s.cores, x.issued); }
    if x.issued[0].fwd.Some? {
      ReachedCore(w, events, x.issued[0].fwd.value.core);
    }
    OwnIsOneResponse(s.cores, id, x);
    OneHeaderFirst(x.out);
    HeaderLeads(w.codes, x.out);
  }

  lemma ForwardedOut(w: World, a: Answer, s: State, id: nat, e: Entry)
    requires id in s.sessions && s.sessions[id].issued != [] && IsRunning(s, s.sessions[id].coreID)
    ensures var out, after := s.sessions[id].out, ForwardToCore(w, a, s, id, e).sessions[id].out;
      if CoreCommand(w, e.command).None? then after == out + [NotFound(a.refusal)]
      else after == out || after == out + [Status(a.refusal, 0)]
  {
    hide CoreCommand, FlushCore;
  }

  lemma OneMoreHeader(outs: seq<Out>, o: Out)
    ensures CountHeaders(outs + [o]) == CountHeaders(outs) + if Heads(outs, o) then 1 else 0
  {
    assert (outs + [o])[..|outs|] == outs;
  }

  /** That assumption about `help` is needed. A listing of server commands has been sent, with its header, when
      the core's own help is asked for: the response keeps a single header exactly if the core has a help
      command. If it has none, the report of that comes with a second header. */
  lemma HelpHeaderIff(w: World, a: Answer, s: State, id: nat)
    requires id in s.sessions && s.sessions[id].issued != [] && s.sessions[id].out == HelpListing(a)
    requires IsRunning(s, s.sessions[id].coreID)
    ensures var t := ForwardToCore(w, a, s, id, NewEntry(id, JoinWords(["help"])));
      CountHeaders(t.sessions[id].out) == 1 <==> CoreCommand(w, JoinWords(["help"])).Some?
  {
    hide CoreCommand, JoinWords, HelpListing, ForwardToCore, OneResponse;
    var out := s.sessions[id].out;
    ListingIsOneResponse(a);
    OneHeaderFirst(out);
    ForwardedOut(w, a, s, id, NewEntry(id, JoinWords(["help"])));
    OneMoreHeader(out, NotFound(a.refusal));
    OneMoreHeader(out, Status(a.refusal, 0));
  }

  lemma ListingIsOneResponse(a: Answer)
    ensures OneResponse(HelpListing(a)) && HelpListing(a) != [] && HelpListing(a)[0].Status?
  {
  }

  lemma NothingIsUnfinished()
    ensures !Finished([])
  {
  }

  lemma MidDelivers(cores: Cores, id: nat, x: Session)
    requires Mid(cores, id, x, true) && |x.issued| <= 1
    ensures x.out == Owns(cores, x.issued) && Refs(cores, id, x)
  {
  }

  lemma OwnsOfOne(cores: Cores, issued: seq<Issue>)
    requires |issued| == 1
    ensures Owns(cores, issued) == Own(cores, issued[0])
  {
    assert issued[..0] == [];
    assert [] + Own(cores, issued[0]) == Own(cores, issued[0]);
  }

  /** A finished answer to the only request of an HTTP session is one response, with the core's whole reply. */
  lemma OwnIsOneResponse(cores: Cores, id: nat, x: Session)
    requires |x.issued| == 1 && Refs(cores, id, x) && HttpServed(x.issued[0]) && Finished(Own(cores, x.issued[0]))
    requires var iss := x.issued[0]; iss.fwd.Some? ==> iss.fwd.value.core in cores && CoreOk(cores[iss.fwd.value.core])
    ensures var outs := Own(cores, x.issued[0]); OneResponse(outs) && outs != [] && !outs[0].Data?
    ensures Complete(cores, x.issued[0])
  {
    hide CoreOk;
    var iss := x.issued[0];
    if iss.fwd.Some? {
      var r := iss.fwd.value;
      var reply := cores[r.core].ReplyAt(r.index);
      if iss.served != [] {
        UnfinishedHelp(iss.served);
      }
      DoneIsWhole(cores[r.core], r.index);
      if !Whole(reply) {
        UnfinishedReply(iss.served, reply, r.core);
        assert false;
      }
      assert ReplyOuts(reply, r.core)[0] == Status(reply[0], r.core);
    }
  }

  /** The first output call of one response puts the header in front of everything. */
  lemma {:induction false} HeaderLeads(codes: string -> Code, outs: seq<Out>)
    requires outs != [] && !outs[0].Data?
    ensures "HTTP/1.0 " <= Bytes(codes, Http, outs)
  {
    var before := outs[..|outs|-1];
    if before == [] {
      assert Bytes(codes, Http, outs) == HttpChunk(codes, true, outs[0]);
    } else {
      HeaderLeads(codes, before);
    }
  }
}
