/** Sessions whose core stops running while they have something pending there: exactly when their held lines are
    stranded, and exactly when a late reply breaks up their output. */
module StoppedCores {
  import opened Framing
  import opened HttpResponse
  import opened Model
  import opened Machine
  import opened Invariants
  import opened Evolution
  import opened Steps
  import opened Reachable
  import opened Theorems
  import opened History
  import opened Typing
  import opened Provisos

  // ---------------------------------------------------------------- stranded sessions

  /** However its core stops running, a session is stranded exactly if it has held lines and no open data
      set. */
  lemma StoppedCoreStrandsIff(s: State, id: nat, life: Life)
    requires id in s.sessions && s.sessions[id].kind.Tcp? && s.sessions[id].coreID in s.cores && life != Running
    ensures var x := s.sessions[id];
      Stranded(SetCore(s, x.coreID, StopCore(s.cores[x.coreID], life)), id)
      <==> x.curCommand.None? && x.lineQueue != []
  {
  }

  /** A session that was left alone is stranded when its core has stopped running. */
  lemma LeftAloneStrandsIff(s: State, t: State, id: nat)
    requires id in s.sessions && id in t.sessions && t.sessions[id] == s.sessions[id] && s.sessions[id].kind.Tcp?
    requires !IsRunning(t, s.sessions[id].coreID)
    ensures Stranded(t, id) <==> s.sessions[id].curCommand.None? && s.sessions[id].lineQueue != []
  {
  }

  /** The event is input of this session, or output of a core for it. */
  predicate ActsFor(s: State, e: Event, id: nat) {
    (e.ClientByte? && e.id == id) || (e.CoreByte? && IsPresent(s, e.core) && s.cores[e.core].lastClientID == id)
  }

  lemma OthersLeaveAlone(w: World, s: State, e: Event, id: nat)
    requires Inv(w, s, 0) && id in s.sessions && s.sessions[id].kind.Tcp? && !ActsFor(s, e, id)
    ensures var t := Step(w, s, e); id in t.sessions ==> t.sessions[id] == s.sessions[id]
  {
    hide Inv, ReadClientByte, ReadCoreByte, Later, RemoveAll;
    InvBelow(w, s);
    IDBelow(w, s, id);
    match e {
      case ClientByte(j, b) => if j in s.sessions { ClientByteOnward(w, s, j, b); }
      case CoreByte(c, b) => if IsPresent(s, c) { CoreByteOnward(w, s, c, b); }
      case Reap => ReapLeavesCores(w, s);
      case _ =>
    }
  }

  /** No core starts or stops by a command with a data set. */
  lemma DatasetKeepsLives(w: World, s: State, id: nat, e: Entry)
    requires id in s.sessions && e.dataset != []
    ensures SameLives(s.cores, ProcessCommand(w, s, id, e).cores)
  {
    hide ForwardToCore, Execute, SplitString, SameLives, SERVER_COMMANDS, CountStatus, Blank;
    SameLivesSame(s.cores);
    ForwardKeepsLives(w, w.answers(s.tick), Begin(s, id, e.Block()), id, e);
  }

  lemma LineStopNeverStrands(w: World, s: State, id: nat, line: Line)
    requires id in s.sessions && IsRunning(s, s.sessions[id].coreID)
    requires !IsRunning(LineFromClient(w, s, id, line), s.sessions[id].coreID)
    ensures !Stranded(LineFromClient(w, s, id, line), id)
  {
    hide ProcessCommand, Opens, Blank, EnsureNewline;
    var x := s.sessions[id];
    var s1 := LogReceived(s, id, EnsureNewline(line));
    if x.curCommand.Some? && x.curCommand.value.acceptsData && !x.curCommand.value.dataFinished {
      var e := x.curCommand.value.Append(EnsureNewline(line));
      DatasetKeepsLives(w, SetCurrent(s1, id, Some(e)), id, e);
      assert false;
    }
  }

  lemma ReplyStopNeverStrands(w: World, s: State, c: nat, line: Line)
    requires c in s.cores && s.cores[c].lastClientID in s.sessions
    requires var d := s.sessions[s.cores[c].lastClientID].coreID;
      IsRunning(s, d) && !IsRunning(CoreLine(w, s, c, line), d)
    ensures !Stranded(CoreLine(w, s, c, line), s.cores[c].lastClientID)
  {
    hide Drain, IsWaiting, CountStatus, Blank;
    var id := s.cores[c].lastClientID;
    if IsClient(s, id) && IsWaiting(s, id) {
      LineFromCoreDrains(w, s, c, line);
    }
  }

  /** A session whose own command stops its core is not stranded: the command was the last line, or the drain
      loop goes on with the others. */
  lemma OwnStopNeverStrands(w: World, s: State, e: Event, id: nat)
    requires id in s.sessions && s.sessions[id].kind.Tcp? && ActsFor(s, e, id)
    requires IsRunning(s, s.sessions[id].coreID) && !IsRunning(Step(w, s, e), s.sessions[id].coreID)
    ensures !Stranded(Step(w, s, e), id)
  {
    hide LineFromClient, CoreLine, Stranded;
    var x := s.sessions[id];
    if e.ClientByte? {
      assert e.c == '\n' && id !in s.marked;
      LineStopNeverStrands(w, SetSession(s, id, x.(linebuf := "")), id, x.linebuf + [e.c]);
    } else {
      var k := s.cores[e.core];
      assert e.c == '\n';
      ReplyStopNeverStrands(w, SetCore(s, e.core, k.(linebuf := "")), e.core, k.linebuf + [e.c]);
    }
  }

  /** However a session's core stops running in a run, be it by a command that another session typed, sent over
      HTTP or had held until the drain loop ran it, or because the core exits: the session is stranded exactly
      if that was not its own doing, it has held lines, and no open data set; and then for good. */
  lemma StoppedStrandsIff(w: World, events: seq<Event>, e: Event, id: nat, more: seq<Event>)
    requires var s, t := Run(w, events), Run(w, events + [e]);
      && id in s.sessions && s.sessions[id].kind.Tcp? && id in t.sessions
      && IsRunning(s, s.sessions[id].coreID) && !IsRunning(t, s.sessions[id].coreID)
    ensures var s, t, u := Run(w, events), Run(w, events + [e]), Run(w, events + [e] + more);
      var x := s.sessions[id];
      && (Stranded(t, id) <==> !ActsFor(s, e, id) && x.curCommand.None? && x.lineQueue != [])
      && (Stranded(t, id) && id in u.sessions ==> Stranded(u, id) && Stuck(t.sessions[id], u.sessions[id]))
  {
    hide Run, Inv, Step, ActsFor, Stuck, Stranded;
    var s := Run(w, events);
    AlwaysInv(w, events);
    RunLast(w, events, e);
    if ActsFor(s, e, id) {
      OwnStopNeverStrands(w, s, e, id);
    } else {
      OthersLeaveAlone(w, s, e, id);
      LeftAloneStrandsIff(s, Step(w, s, e), id);
    }
    if Stranded(Step(w, s, e), id) {
      StrandedForever(w, events + [e], more, id);
    }
  }

  /** Another session drops the core of this name. */
  predicate Drops(w: World, s: State, j: nat, line: Line, c: nat) {
    AtPrompt(s, j) && s.sessions[j].level.Admin? && IsRunning(s, c)
    && Says(line, ["drop-graph", s.cores[c].name]) && !Opens(line) && w.answers(s.tick).killed
  }

  /** Another session shuts down the core that it is connected to. */
  predicate ShutsDown(s: State, j: nat, line: Line, c: nat) {
    AtPrompt(s, j) && s.sessions[j].level.Admin? && IsRunning(s, c) && s.sessions[j].coreID == c
    && Says(line, ["shutdown"])
  }

  lemma DropStops(w: World, events: seq<Event>, j: nat, line: Line, c: nat)
    requires Drops(w, Run(w, events), j, line, c)
    ensures !IsRunning(LineFromClient(w, Run(w, events), j, line), c)
  {
    hide Run, LineFromClient, SplitString, CountStatus, Blank;
    var s := Run(w, events);
    var words := ["drop-graph", s.cores[c].name];
    NamesAreUnique(w, events, c, s.cores[c].name);
    OpensByLastWord(line);
    ServerCommandRuns(w, s, j, line, words);
    var b := Begin(LogReceived(s, j, line), j, [line]);
    SameCoresSameName(s, b, s.cores[c].name);
  }

  lemma SameCoresSameName(s: State, t: State, name: string)
    requires t.cores == s.cores
    ensures FindNamed(t, name) == FindNamed(s, name)
  {
    forall c: nat ensures NamedRunning(t, c, name) == NamedRunning(s, c, name) {
    }
  }

  lemma ShutdownStops(w: World, s: State, j: nat, line: Line, c: nat)
    requires ShutsDown(s, j, line, c)
    ensures !IsRunning(LineFromClient(w, s, j, line), c)
  {
    hide LineFromClient, SplitString, CountStatus, Blank, ForwardToCore;
    ServerCommandRuns(w, s, j, line, ["shutdown"]);
  }

  /** In particular when another TCP session types a drop-graph or shutdown command at its prompt. */
  lemma StoppedByOtherStrands(w: World, events: seq<Event>, j: nat, text: string, id: nat, more: seq<Event>)
    requires Plainly(text) && j != id
    requires var s := Run(w, events); id in s.sessions && s.sessions[id].kind.Tcp?
    requires var s := Run(w, events); var c := s.sessions[id].coreID;
      Drops(w, s, j, text + "\n", c) || ShutsDown(s, j, text + "\n", c)
    ensures var x := Run(w, events).sessions[id]; var done := events + ClientBytes(j, text + "\n");
      && (Stranded(Run(w, done), id) <==> x.curCommand.None? && x.lineQueue != [])
      && (Stranded(Run(w, done), id) ==>
            var s, t := Run(w, done), Run(w, done + more);
            id in t.sessions ==> Stranded(t, id) && Stuck(s.sessions[id], t.sessions[id]))
  {
    hide Run, LineFromClient, Says, Stranded, Stuck, Inv;
    var s := Run(w, events);
    var t := LineFromClient(w, s, j, text + "\n");
    AlwaysInv(w, events);
    InvBelow(w, s);
    TypeLine(w, events, j, text);
    LineOnward(w, s, j, text + "\n");
    if Drops(w, s, j, text + "\n", s.sessions[id].coreID) {
      DropStops(w, events, j, text + "\n", s.sessions[id].coreID);
    } else {
      ShutdownStops(w, s, j, text + "\n", s.sessions[id].coreID);
    }
    LeftAloneStrandsIff(s, t, id);
    if Stranded(t, id) {
      StrandedForever(w, events + ClientBytes(j, text + "\n"), more, id);
    }
  }

  /** When a core exits, a session connected to it is stranded exactly if it has held lines and no open data
      set; from then on none of them is ever handled. */
  lemma CoreLossStrands(w: World, events: seq<Event>, id: nat)
    requires var s := Run(w, events);
      id in s.sessions && s.sessions[id].kind.Tcp? && IsPresent(s, s.sessions[id].coreID)
    ensures var x := Run(w, events).sessions[id]; var t := Run(w, events + [CoreExit(x.coreID)]);
      (Stranded(t, id) <==> x.curCommand.None? && x.lineQueue != []) && x.coreID in t.cores && !IsPresent(t, x.coreID)
  {
    hide Run;
    var x := Run(w, events).sessions[id];
    RunLast(w, events, CoreExit(x.coreID));
  }

  // ---------------------------------------------------------------- late replies

  lemma {:induction false} OwnsSplit(cores: Cores, issued: seq<Issue>, k: nat)
    requires k <= |issued|
    ensures Owns(cores, issued) == Owns(cores, issued[..k]) + Owns(cores, issued[k..])
    decreases |issued| - k
  {
    hide Own;
    var n := |issued| - 1;
    if k == |issued| {
      assert issued[..k] == issued;
    } else {
      OwnsSplit(cores, issued[..n], k);
      assert issued[..n][..k] == issued[..k] && issued[..n][k..] == issued[k..][..n - k];
      assert issued[k..][n - k] == issued[n];
    }
  }

  /** A core hears a line: of the outputs of its client's commands only that of the command answered grows. */
  lemma HeardElsewhere(cores: Cores, id: nat, x: Session, c: nat, line: Line, ord: nat, from: nat, to: nat)
    requires Refs(cores, id, x) && c in cores && CoreOk(cores[c]) && cores[c].Busy() && cores[c].written != []
    requires BackRef(x, c, |cores[c].written| - 1, ord)
    requires from <= to <= |x.issued| && !(from <= ord < to)
    ensures Owns(cores[c := CoreHears(cores[c], line)], x.issued[from..to]) == Owns(cores, x.issued[from..to])
  {
    hide CoreOk, CoreHears, Own, Forwards, Owns;
    var cores' := cores[c := CoreHears(cores[c], line)];
    assert RefOk(cores, id, ord, x.issued[ord], x.issued[ord].fwd.value);
    forall j | 0 <= j < to - from ensures Own(cores', x.issued[from..to][j]) == Own(cores, x.issued[from..to][j]) {
      var iss := x.issued[from + j];
      assert iss.fwd.Some? ==> RefOk(cores, id, from + j, iss, iss.fwd.value);
      HeardOwn(cores, iss, c, line);
    }
    OwnsFrame(cores, cores', x.issued[from..to]);
  }

  /** The outputs of the commands after the n-th. */
  function OwnsAfter(cores: Cores, issued: seq<Issue>, n: nat): seq<Out> {
    if n < |issued| then Owns(cores, issued[n+1..]) else []
  }

  /** The command that a core is answering, as its client counts its commands. */
  function Answering(s: State, c: nat): nat
    requires c in s.cores && s.cores[c].written != [] && |s.cores[c].written| <= |s.cores[c].accepted|
  {
    s.cores[c].accepted[|s.cores[c].written| - 1].ord
  }

  /** A session's output is in one piece, and a core sends a line of a reply to it. The output stays in one piece
      exactly if all output of the session's later commands reads the same as that line; in particular if there
      is none. */
  lemma LateReplyIff(w: World, s: State, c: nat, line: Line)
    requires Inv(w, s, 0) && c in s.cores && s.cores[c].Busy() && IsClient(s, s.cores[c].lastClientID)
    requires var x := s.sessions[s.cores[c].lastClientID]; x.out == Owns(s.cores, x.issued)
    ensures var k := s.cores[c]; var id := k.lastClientID;
      && 0 < |k.written| <= |k.accepted|
      && var x, t, n := s.sessions[id], LineFromCore(s, c, line), Answering(s, c);
      && id in t.sessions && t.sessions[id].issued == x.issued
      && n < |x.issued| && x.issued[n].fwd == Some(Ref(c, |k.written| - 1))
      && t.sessions[id].out == x.out + [HeardAs(k, c, line)]
      && (t.sessions[id].out == Owns(t.cores, x.issued)
          <==> forall o :: o in OwnsAfter(s.cores, x.issued, n) ==> o == HeardAs(k, c, line))
  {
    hide CoreOk, CoreHears, Own, Owns, End, NoneStranded, Turn, Delivered, Routes, CountStatus, Blank;
    var k, id := s.cores[c], s.cores[c].lastClientID;
    var x, t, o := s.sessions[id], LineFromCore(s, c, line), HeardAs(k, c, line);
    assert CoreFine(w, c, k, s.coreIDCounter, s.sessionIDCounter);
    var n := InFlight(s.cores, id, x, c);
    WholeAndParts(s.cores, x.issued, n);
    WholeAndParts(t.cores, x.issued, n);
    HeardElsewhere(s.cores, id, x, c, line, n, 0, n);
    HeardElsewhere(s.cores, id, x, c, line, n, n + 1, |x.issued|);
    HeardOwn(s.cores, x.issued[n], c, line);
    var front, late := Owns(s.cores, x.issued[..n]) + Own(s.cores, x.issued[n]), OwnsAfter(s.cores, x.issued, n);
    assert x.issued[0..n] == x.issued[..n] && x.issued[n+1..|x.issued|] == x.issued[n+1..];
    assert Owns(t.cores, x.issued) == front + ([o] + late);
    assert t.sessions[id].out == front + (late + [o]);
    CancelHead(front, [o] + late, late + [o]);
    CommutesIffEqual(o, late);
  }

  lemma WholeAndParts(cores: Cores, issued: seq<Issue>, n: nat)
    requires n < |issued|
    ensures Owns(cores, issued) == Owns(cores, issued[..n]) + Own(cores, issued[n]) + Owns(cores, issued[n+1..])
  {
    hide Own;
    OwnsSplit(cores, issued, n + 1);
    assert issued[..n+1][..n] == issued[..n];
  }
}
