/** The server (src/servapp.h, src/main.cpp): its maps of cores and sessions, updated in place by the
    operations of the select loop. St is the state of the state machine that the objects stand for; log is the
    run so far. Every operation takes St to what the state machine says, whatever objects it changes, and
    every event of the loop leaves the server in a state of a run. */
module Server {
  import opened Framing
  import opened Auth
  import opened HttpRequest
  import opened HttpResponse
  import opened Model
  import opened Machine
  import opened Objects
  import opened Invariants
  import opened Reachable
  import opened History
  import opened Logs
  import opened Responses
  import opened Theorems

  class Graphserv {
    const world: World
    var coreInstances: map<nat, CoreInstance>
    var sessionContexts: map<nat, SessionContext>
    var clientsToRemove: set<nat>
    var coreIDCounter: nat
    var sessionIDCounter: nat
    /** How often the outside world was asked. */
    var tick: nat

    ghost var cores: map<nat, Core>
    ghost var sessions: map<nat, Session>
    ghost var coreRepr: set<object>
    ghost var sessionRepr: set<object>
    ghost var log: seq<Event>

    // -------------------------------------------------------------- representation

    ghost function St(): State
      reads this
    {
      State(cores, sessions, clientsToRemove, coreIDCounter, sessionIDCounter, tick)
    }

    ghost predicate Cores()
      reads this`coreInstances, this`cores, this`coreRepr, coreRepr
    {
      && (forall c :: c in coreInstances ==>
            var ci := coreInstances[c];
            && ci in coreRepr && ci.writer in coreRepr && ci.instanceID == c && ci.writer.owner == -1 - c
            && c in cores && ci.Rep(cores[c]))
      && (forall c :: c in cores && !cores[c].life.Gone? ==> c in coreInstances)
    }

    ghost predicate Sessions()
      reads this`sessionContexts, this`sessions, this`sessionRepr, sessionRepr
    {
      && sessionContexts.Keys == sessions.Keys
      && (forall id :: id in sessionContexts ==>
            var sc := sessionContexts[id];
            && sc in sessionRepr && sc.writer in sessionRepr && sc.clientID == id && sc.writer.owner == id
            && sc.codes == world.codes
            && (sc.curCommand != null ==> sc.curCommand in sessionRepr && sc.curCommand.clientID == id)
            && sc.Rep(sessions[id]))
    }

    /** The objects stand for St. */
    ghost predicate Valid()
      reads this, coreRepr, sessionRepr
    {
      Cores() && Sessions() && this !in coreRepr && this !in sessionRepr && coreRepr !! sessionRepr
    }

    /** Between two events: the state is where the run so far leads. */
    ghost predicate AtRest()
      reads this, coreRepr, sessionRepr
    {
      Valid() && St() == Run(world, log)
    }

    constructor (world: World)
      ensures AtRest() && fresh(coreRepr) && fresh(sessionRepr) && log == [] && this.world == world
    {
      this.world := world;
      coreInstances, sessionContexts, clientsToRemove := map[], map[], {};
      coreIDCounter, sessionIDCounter, tick := 0, 0, 0;
      cores, sessions, log := map[], map[], [];
      coreRepr, sessionRepr := {}, {};
    }

    // -------------------------------------------------------------- framing

    /** Objects are only added, and no event is over yet. */
    twostate predicate Grown()
      reads this
    {
      fresh(coreRepr - old(coreRepr)) && fresh(sessionRepr - old(sessionRepr)) && log == old(log)
    }

    ghost predicate HasCore(c: nat)
      reads this, coreRepr
    {
      c in coreInstances && c in cores &&
      var ci := coreInstances[c];
      && ci in coreRepr && ci.writer in coreRepr && ci.instanceID == c && ci.writer.owner == -1 - c
      && ci.Rep(cores[c])
    }

    ghost predicate HasSession(id: nat)
      reads this, sessionRepr
    {
      id in sessionContexts && id in sessions &&
      var sc := sessionContexts[id];
      && sc in sessionRepr && sc.writer in sessionRepr && sc.clientID == id && sc.writer.owner == id
      && sc.codes == world.codes
      && (sc.curCommand != null ==> sc.curCommand in sessionRepr && sc.curCommand.clientID == id)
      && sc.Rep(sessions[id])
    }

    lemma CoreAt(c: nat)
      requires Cores()
      ensures c in coreInstances <==> c in cores && !cores[c].life.Gone?
      ensures c in coreInstances ==> HasCore(c)
      ensures c in coreInstances ==> (coreInstances[c].processRunning <==> cores[c].life.Running?)
      ensures c in coreInstances ==> coreInstances[c].name == cores[c].name
    {
    }

    lemma SessionAt(id: nat)
      requires Sessions()
      ensures id in sessionContexts <==> id in sessions
      ensures id in sessions ==> HasSession(id)
    {
      hide SessionContext.Rep;
    }

    /** Cores other than c are as they were; if c stands for its new value, all do. */
    twostate lemma CoreChanged(c: nat)
      requires old(Cores()) && old(HasCore(c)) && HasCore(c)
      requires coreInstances == old(coreInstances) && old(coreRepr) <= coreRepr
      requires cores == old(cores)[c := cores[c]]
      requires forall o | o in old(coreRepr) && o != coreInstances[c] && o != coreInstances[c].writer :: unchanged(o)
      ensures Cores()
    {
      hide CoreInstance.Rep;
      forall d | d in coreInstances && d != c
        ensures d in cores && coreInstances[d].Rep(cores[d])
      {
        var ci := coreInstances[d];
        assert unchanged(ci) && unchanged(ci.writer);
      }
      forall d | d in cores && !cores[d].life.Gone? ensures d in coreInstances {
      }
    }

    /** Sessions other than id are as they were; if id stands for its new value, all do. */
    twostate lemma SessionChanged(id: nat)
      requires old(Sessions()) && old(HasSession(id)) && HasSession(id)
      requires sessionContexts == old(sessionContexts) && old(sessionRepr) <= sessionRepr
      requires sessions == old(sessions)[id := sessions[id]]
      requires forall o | o in old(sessionRepr) && o != sessionContexts[id] && o != sessionContexts[id].writer
        && o != old(sessionContexts[id].curCommand) :: unchanged(o)
      ensures Sessions()
    {
      hide SessionContext.Rep;
      forall j | j in sessionContexts && j != id
        ensures var sc := sessionContexts[j];
          && sc.curCommand == old(sc.curCommand) && sc.Rep(sessions[j])
      {
        var sc := sessionContexts[j];
        assert unchanged(sc) && unchanged(sc.writer);
        assert sc.curCommand != null ==> unchanged(sc.curCommand);
      }
    }

    /** What the fields of a session object say. */
    lemma View(id: nat)
      requires Valid() && id in sessions
      ensures id in sessionContexts
      ensures var sc, x := sessionContexts[id], sessions[id];
        && sc.accessLevel == x.level && sc.coreID == x.coreID && sc.lineQueue == x.lineQueue
        && sc.request == x.request && sc.connectionType == x.kind && sc.linebuf == x.linebuf
        && (sc.curCommand == null <==> x.curCommand.None?)
        && (sc.curCommand != null ==> sc.curCommand.Value() == x.curCommand.value && sc.curCommand in sessionRepr)
    {
      SessionAt(id);
    }

    // -------------------------------------------------------------- lookups

    /** The running core of that name; the map is walked in the order of the IDs. */
    method FindNamedInstance(name: string) returns (found: Option<nat>)
      requires Valid()
      ensures found == FindNamed(St(), name)
    {
      hide CoreInstance.Rep, Cores, Sessions;
      var todo := coreInstances.Keys;
      forall c ensures NamedRunning(St(), c, name) ==> c in todo {
        CoreAt(c);
      }
      while todo != {}
        invariant todo <= coreInstances.Keys
        invariant forall c :: NamedRunning(St(), c, name) ==> c in todo
        decreases |todo|
      {
        var c := Least(todo);
        CoreAt(c);
        if coreInstances[c].name == name && coreInstances[c].processRunning {
          assert NamedRunning(St(), c, name);
          return Some(c);
        }
        todo := todo - {c};
      }
      return None;
    }

    method FindInstance(c: nat) returns (ci: CoreInstance?)
      requires Valid()
      ensures ci != null <==> IsRunning(St(), c)
      ensures ci != null ==> HasCore(c) && ci == coreInstances[c]
    {
      hide CoreInstance.Rep, SessionContext.Rep, Cores, Sessions;
      CoreAt(c);
      if c in coreInstances && coreInstances[c].processRunning {
        return coreInstances[c];
      }
      return null;
    }

    method FindClient(id: nat) returns (sc: SessionContext?)
      requires Valid()
      ensures sc != null <==> IsClient(St(), id)
      ensures sc != null ==> HasSession(id) && sc == sessionContexts[id]
    {
      hide CoreInstance.Rep, SessionContext.Rep, Cores, Sessions;
      SessionAt(id);
      if id in clientsToRemove || id !in sessionContexts {
        return null;
      }
      return sessionContexts[id];
    }

    method IsWaitingForCoreReply(id: nat) returns (waiting: bool)
      requires Valid() && id in sessions
      ensures waiting == IsWaiting(St(), id)
    {
      hide CoreInstance.Rep, SessionContext.Rep, Cores, Sessions;
      View(id);
      var sc := sessionContexts[id];
      if sc.curCommand != null {
        return true;
      }
      var instance := FindInstance(sc.coreID);
      if instance == null {
        return false;
      }
      waiting := instance.HasDataForClient(id, cores[sc.coreID]);
    }

    // -------------------------------------------------------------- small updates

    /** One output call to a client. */
    method SendOut(id: nat, o: Out)
      requires Valid() && id in sessions && sessions[id].issued != []
      modifies this`sessions, sessionRepr
      ensures Valid() && St() == Emit(old(St()), id, o)
    {
      hide CoreInstance.Rep, SessionContext.Rep, Cores, Sessions, Written, CountStatus;
      SessionAt(id);
      var sc := sessionContexts[id];
      ghost var x := sessions[id];
      sc.Put(o, x);
      sessions := Emit(St(), id, o).sessions;
      sc.RepIgnoresHistory(Written(x, o), sessions[id]);
      SessionChanged(id);
    }

    method SendListing(id: nat, status: Line, data: seq<Line>)
      requires Valid() && id in sessions && sessions[id].issued != []
      modifies this`sessions, sessionRepr
      ensures Valid() && St() == EmitAll(old(St()), id, Listing(status, data))
    {
      hide Cores, Sessions, Emit, EmitAll, Listing;
      ghost var outs := Listing(status, data);
      ListingParts(status, data);
      EmitAllOne(St(), id, [], Status(status, 0));
      SendOut(id, Status(status, 0));
      for i := 0 to |data|
        invariant Valid() && St() == EmitAll(old(St()), id, outs[..i+1])
      {
        EmitAllOne(old(St()), id, outs[..i+1], Data(data[i], 0));
        SendOut(id, Data(data[i], 0));
      }
      assert outs[..|data|+1] == outs;
    }

    lemma EmitAllOne(s: State, id: nat, outs: seq<Out>, o: Out)
      requires id in s.sessions && s.sessions[id].issued != []
      ensures EmitAll(s, id, outs + [o]) == Emit(EmitAll(s, id, outs), id, o)
      ensures EmitAll(s, id, []) == s
    {
      assert (outs + [o])[..|outs|] == outs;
    }

    lemma ListingParts(status: Line, data: seq<Line>)
      ensures |Listing(status, data)| == |data| + 1
      ensures Listing(status, data)[..1] == [] + [Status(status, 0)]
      ensures forall i :: 0 <= i < |data| ==>
        Listing(status, data)[..i+2] == Listing(status, data)[..i+1] + [Data(data[i], 0)]
    {
    }

    /** A command is taken up; a is what the outside world answers while it is handled. */
    method BeginCommand(id: nat, ghost block: Block) returns (a: Answer)
      requires Valid() && id in sessions
      modifies this`sessions, this`tick
      ensures Valid() && St() == Begin(old(St()), id, block) && a == world.answers(old(tick))
    {
      hide CoreInstance.Rep, SessionContext.Rep, Cores, Sessions;
      SessionAt(id);
      a := world.answers(tick);
      ghost var x := sessions[id];
      sessions := Begin(St(), id, block).sessions;
      tick := tick + 1;
      sessionContexts[id].RepIgnoresHistory(x, sessions[id]);
      SessionChanged(id);
    }

    method SetCoreID(id: nat, c: nat)
      requires Valid() && id in sessions
      modifies this`sessions, sessionRepr
      ensures Valid() && St() == SetSession(old(St()), id, old(sessions[id]).(coreID := c))
    {
      hide CoreInstance.Rep, Cores, Sessions;
      SessionAt(id);
      sessionContexts[id].coreID := c;
      sessions := sessions[id := sessions[id].(coreID := c)];
      SessionChanged(id);
    }

    /** Connects a session to a core. warned: its old core still has data for it. */
    method ReconnectSession(id: nat, c: nat) returns (warned: bool)
      requires Valid() && id in sessions && sessions[id].issued != []
      modifies this`sessions, sessionRepr
      ensures Valid() && St() == Reconnect(old(St()), id, c)
      ensures warned <==> WarnsOnReconnect(old(St()), id)
    {
      hide CoreInstance.Rep, SessionContext.Rep, Cores, Sessions;
      View(id);
      var oldID := sessionContexts[id].coreID;
      warned := false;
      var oldCore := FindInstance(oldID);
      if oldCore != null {
        warned := oldCore.HasDataForClient(id, cores[oldID]);
      }
      SetCoreID(id, c);
      if warned {
        NoteWarning(id);
      }
      assert sessions == old(sessions)[id := sessions[id]];
    }

    /** The complaint goes to the log. */
    ghost method NoteWarning(id: nat)
      requires Valid() && id in sessions
      modifies this`sessions
      ensures Valid() && St() == SetSession(old(St()), id, old(sessions[id]).(warned := true))
    {
      hide CoreInstance.Rep, SessionContext.Rep, Cores, Sessions;
      SessionAt(id);
      ghost var x := sessions[id];
      sessions := sessions[id := x.(warned := true)];
      sessionContexts[id].RepIgnoresHistory(x, sessions[id]);
      SessionChanged(id);
    }

    method SetAccessLevel(id: nat, level: Level)
      requires Valid() && id in sessions
      modifies this`sessions, sessionRepr
      ensures Valid() && St() == SetSession(old(St()), id, old(sessions[id]).(level := level))
    {
      hide CoreInstance.Rep, Cores, Sessions;
      SessionAt(id);
      sessionContexts[id].accessLevel := level;
      sessions := sessions[id := sessions[id].(level := level)];
      SessionChanged(id);
    }

    method ShutdownClient(id: nat)
      requires Valid() && id in sessions && id in sessionContexts
      modifies this`sessions, sessionContexts[id]
      ensures Valid() && St() == SetSession(old(St()), id, old(sessions[id]).(closing := true))
    {
      hide CoreInstance.Rep, Cores, Sessions;
      SessionAt(id);
      sessionContexts[id].shutDown := true;
      sessions := sessions[id := sessions[id].(closing := true)];
      SessionChanged(id);
    }

    /** A core of that name, with the next ID, whose process was started. */
    method AddCoreInstance(name: string)
      requires Valid()
      modifies this`cores, this`coreInstances, this`coreRepr
      ensures Valid() && Grown() && St() == SetCore(old(St()), coreIDCounter, FreshCore(name))
    {
      hide CoreInstance.Rep, SessionContext.Rep, Cores, Sessions;
      var inst := new CoreInstance(coreIDCounter, name);
      coreInstances := coreInstances[coreIDCounter := inst];
      coreRepr := coreRepr + {inst, inst.writer};
      cores := cores[coreIDCounter := FreshCore(name)];
      CoreAdded(coreIDCounter);
    }

    twostate lemma CoreAdded(c: nat)
      requires old(Cores()) && old(coreRepr) <= coreRepr && HasCore(c)
      requires coreInstances == old(coreInstances)[c := coreInstances[c]] && cores == old(cores)[c := cores[c]]
      requires forall o | o in old(coreRepr) :: unchanged(o)
      ensures Cores()
    {
      hide CoreInstance.Rep;
      forall d | d in coreInstances && d != c
        ensures d in cores && coreInstances[d].Rep(cores[d])
      {
        var ci := coreInstances[d];
        assert unchanged(ci) && unchanged(ci.writer);
      }
      forall d | d in cores && !cores[d].life.Gone? ensures d in coreInstances {
      }
    }

    /** The core's process was told to end, or is about to: it no longer counts as running. */
    method StopInstance(c: nat)
      requires Valid() && IsRunning(St(), c)
      modifies this`cores, coreRepr
      ensures Valid() && St() == SetCore(old(St()), c, StopCore(old(cores[c]), Stopped))
    {
      hide SessionContext.Rep, Cores, Sessions, Flat;
      CoreAt(c);
      coreInstances[c].processRunning := false;
      cores := cores[c := StopCore(cores[c], Stopped)];
      CoreChanged(c);
    }

    // -------------------------------------------------------------- commands

    /** Queues a command for the core. */
    method QueueCommand(id: nat, c: nat, e: Entry)
      requires Valid() && id in sessions && sessions[id].issued != [] && IsRunning(St(), c)
      modifies this`cores, this`sessions, coreRepr
      ensures Valid() && St() == Enqueue(old(St()), id, c, e)
    {
      hide CoreInstance.Rep, SessionContext.Rep, Cores, Sessions;
      CoreAt(c);
      SessionAt(id);
      ghost var s, t := St(), Enqueue(St(), id, c, e);
      var ci := coreInstances[c];
      ci.QueueCommand(e, t.cores[c].accepted[|s.cores[c].accepted|], s.cores[c]);
      cores, sessions := t.cores, t.sessions;
      sessionContexts[id].RepIgnoresHistory(s.sessions[id], t.sessions[id]);
      SessionChanged(id);
      CoreChanged(c);
    }

    /** Writes out commands of a core's queue. */
    method FlushOne(c: nat)
      requires Valid() && IsPresent(St(), c)
      modifies this`cores, coreRepr
      ensures Valid() && St() == SetCore(old(St()), c, FlushCore(old(cores[c])))
    {
      hide SessionContext.Rep, CoreInstance.Rep, Cores, Sessions, FlushCore;
      CoreAt(c);
      coreInstances[c].FlushCommandQ(cores[c]);
      FlushKeepsNames(cores[c]);
      cores := cores[c := FlushCore(cores[c])];
      CoreChanged(c);
    }

    method QueueAndFlush(id: nat, c: nat, e: Entry)
      requires Valid() && id in sessions && sessions[id].issued != [] && IsRunning(St(), c)
      modifies this`cores, this`sessions, coreRepr
      ensures Valid()
      ensures var t := Enqueue(old(St()), id, c, e); St() == SetCore(t, c, FlushCore(t.cores[c]))
    {
      hide Cores, Sessions, FlushCore;
      QueueCommand(id, c, e);
      FlushOne(c);
    }

    /** Sends a complete command to the session's core, if it may be run there. */
    method ForwardToCoreOf(id: nat, e: Entry, a: Answer)
      requires Valid() && id in sessions && sessions[id].issued != []
      modifies this`cores, this`sessions, coreRepr, sessionRepr
      ensures Valid() && St() == ForwardToCore(world, a, old(St()), id, e)
    {
      hide Cores, Sessions, Emit, Enqueue, FlushCore, SplitString;
      View(id);
      var sc := sessionContexts[id];
      var c := sc.coreID;
      var words := SplitString(e.command, CORE_DELIMS);
      var ci := FindInstance(c);
      if ci != null {
        if words != [] && words[0] in world.table {
          var al := world.table[words[0]];
          if Redirects(e.command) {
            al := Admin;
          }
          if Rank(sc.accessLevel) >= Rank(al) {
            QueueAndFlush(id, c, e);
          } else {
            SendOut(id, Status(a.refusal, 0));
          }
        } else {
          SendOut(id, NotFound(a.refusal));
        }
      } else {
        SendOut(id, Status(a.refusal, 0));
        SetCoreID(id, 0);
      }
    }

    method CreateGraph(id: nat, words: seq<string>, a: Answer)
      requires Valid() && id in sessions && sessions[id].issued != []
      modifies this`cores, this`sessions, this`coreInstances, this`coreRepr, this`coreIDCounter, coreRepr, sessionRepr
      ensures Valid() && Grown() && St() == Model.CreateGraph(a, old(St()), id, words)
    {
      hide Cores, Sessions, FindNamed;
      if |words| != 2 {
        return;
      }
      var valid := IsValidGraphName(words[1]);
      if !valid {
        return;
      }
      var existing := FindNamedInstance(words[1]);
      if existing.Some? {
        return;
      }
      coreIDCounter := coreIDCounter + 1;
      if a.started {
        AddCoreInstance(words[1]);
      }
    }

    method UseGraph(id: nat, words: seq<string>)
      requires Valid() && id in sessions && sessions[id].issued != []
      modifies this`sessions, sessionRepr
      ensures Valid() && St() == Model.UseGraph(old(St()), id, words)
    {
      hide Cores, Sessions, FindNamed;
      if |words| == 2 {
        var core := FindNamedInstance(words[1]);
        if core.Some? {
          var _ := ReconnectSession(id, core.value);
        }
      }
    }

    method DropGraph(id: nat, words: seq<string>, a: Answer)
      requires Valid() && id in sessions && sessions[id].issued != []
      modifies this`cores, coreRepr
      ensures Valid() && St() == Model.DropGraph(a, old(St()), id, words)
    {
      hide Cores, Sessions;
      if |words| == 2 {
        var core := FindNamedInstance(words[1]);
        if core.Some? && a.killed {
          StopInstance(core.value);
        }
      }
    }

    method AuthorizeSession(id: nat, words: seq<string>, a: Answer)
      requires Valid() && id in sessions && sessions[id].issued != []
      modifies this`sessions, sessionRepr
      ensures Valid() && St() == SetLevel(old(St()), id, AuthorizeCommand(world, a, words))
    {
      hide Cores, Sessions;
      if |words| != 3 || words[1] != "password" {
        return;
      }
      var newAccessLevel := Authorize(a.users, words[2], world.crypt);
      if newAccessLevel.Some? {
        SetAccessLevel(id, newAccessLevel.value);
      }
    }

    /** Builds a command line from its words again. */
    method Rebuild(words: seq<string>) returns (line: Line)
      ensures line == JoinWords(words)
    {
      line := "";
      assert words[0..] == words;
      for i := 0 to |words|
        invariant line + JoinWords(words[i..]) == JoinWords(words)
      {
        assert words[i..][1..] == words[i+1..];
        line := line + words[i];
        line := line + " ";
      }
      line := line + "\n";
    }

    method HelpCommand(id: nat, words: seq<string>, a: Answer)
      requires Valid() && id in sessions && sessions[id].issued != [] && words != []
      modifies this`cores, this`sessions, coreRepr, sessionRepr
      ensures Valid() && St() == Help(world, a, old(St()), id, words)
    {
      hide Cores, Sessions, ForwardToCore, Emit, EmitAll, Listing, JoinWords;
      View(id);
      var ci := FindInstance(sessionContexts[id].coreID);
      if |words| > 2 {
        SendOut(id, Status(a.status, 0));
      } else if |words| == 1 {
        SendListing(id, a.status + ":\n", seq(|a.data|, i requires 0 <= i < |a.data| => "# " + a.data[i] + "\n"));
        if ci != null {
          var line := Rebuild(words);
          ForwardToCoreOf(id, NewEntry(id, line), a);
        } else {
          SendOut(id, Data("\n", 0));
        }
      } else if words[1] in SERVER_COMMANDS && words[1] != "help" {
        SendListing(id, a.status + words[1] + ":\n", a.data);
      } else if ci != null {
        var line := Rebuild(words);
        ForwardToCoreOf(id, NewEntry(id, line), a);
      } else {
        SendOut(id, Status(a.status, 0));
      }
    }

    /** The command is sent to the core, which no longer counts as running; its reply is still awaited. */
    method ShutdownCommand(id: nat, words: seq<string>, a: Answer)
      requires Valid() && id in sessions && sessions[id].issued != []
      modifies this`cores, this`sessions, coreRepr, sessionRepr
      ensures Valid() && St() == Shutdown(world, a, old(St()), id, words)
    {
      hide Cores, Sessions, Emit, Enqueue, FlushCore, CoreCommand;
      View(id);
      var c := sessionContexts[id].coreID;
      var ci := FindInstance(c);
      if |words| == 1 && ci != null {
        ForwardToCoreOf(id, NewEntry(id, SHUTDOWN_LINE), a);
        assert IsRunning(St(), c) by { StillRunning(old(St()), id, c, NewEntry(id, SHUTDOWN_LINE), a); }
        StopInstance(c);
      }
    }

    lemma StillRunning(s: State, id: nat, c: nat, e: Entry, a: Answer)
      requires id in s.sessions && s.sessions[id].issued != [] && IsRunning(s, c)
      ensures IsRunning(ForwardToCore(world, a, s, id, e), c)
    {
      hide CoreCommand;
    }

    method QuitCommand(id: nat, words: seq<string>, a: Answer)
      requires Valid() && id in sessions && sessions[id].issued != []
      modifies this`sessions, sessionRepr
      ensures Valid() && St() == Quit(a, old(St()), id, words)
    {
      hide Cores, Sessions, Emit;
      if |words| == 1 {
        SendOut(id, Status(a.status, 0));
        SessionAt(id);
        ShutdownClient(id);
      }
    }

    method ExecuteVoidCommand(id: nat, words: seq<string>, a: Answer)
      requires Valid() && id in sessions && sessions[id].issued != [] && words != []
      modifies this`cores, this`sessions, this`coreInstances, this`coreRepr, this`coreIDCounter, coreRepr, sessionRepr
      ensures Valid() && Grown() && St() == ExecuteVoid(world, a, old(St()), id, words)
    {
      hide Cores, Sessions, Model.CreateGraph, Model.UseGraph, Model.DropGraph, SetLevel, AuthorizeCommand, Shutdown;
      if words[0] == "create-graph" {
        CreateGraph(id, words, a);
      } else if words[0] == "use-graph" {
        UseGraph(id, words);
      } else if words[0] == "drop-graph" {
        DropGraph(id, words, a);
      } else if words[0] == "authorize" {
        AuthorizeSession(id, words, a);
      } else if words[0] == "shutdown" {
        ShutdownCommand(id, words, a);
      }
    }

    /** Runs a server command, if the session's level allows it. */
    method ExecuteCommand(id: nat, words: seq<string>, a: Answer)
      requires Valid() && id in sessions && sessions[id].issued != []
      requires words != [] && words[0] in SERVER_COMMANDS
      modifies this`cores, this`sessions, this`coreInstances, this`coreRepr, this`coreIDCounter, coreRepr, sessionRepr
      ensures Valid() && Grown() && St() == Execute(world, a, old(St()), id, words)
    {
      hide Cores, Sessions, Emit, EmitAll, Listing, ExecuteVoid, Help, Quit;
      View(id);
      if Rank(ServerLevel(words[0])) > Rank(sessionContexts[id].accessLevel) {
        SendOut(id, Status(a.refusal, 0));
      } else if words[0] in VOID_COMMANDS {
        ExecuteVoidCommand(id, words, a);
        SendOut(id, Status(a.status, 0));
      } else if words[0] == "help" {
        HelpCommand(id, words, a);
      } else if words[0] == "quit" {
        QuitCommand(id, words, a);
      } else if |words| != 1 {
        SendOut(id, Status(a.status, 0));
      } else {
        SendListing(id, a.status, a.data);
      }
    }

    /** A fully transferred command: for the server, for the session's core, or for nobody. */
    method ProcessCommand(id: nat, ce: CommandQEntry)
      requires Valid() && id in sessions
      modifies this`cores, this`sessions, this`coreInstances, this`coreRepr, this`coreIDCounter, this`tick,
               coreRepr, sessionRepr
      ensures Valid() && Grown() && St() == Model.ProcessCommand(world, old(St()), id, old(ce.Value()))
    {
      hide Cores, Sessions, Emit, Execute, ForwardToCore, SplitString, SERVER_COMMANDS, Touches, Handles;
      var e := ce.Value();
      var a := BeginCommand(id, e.Block());
      var words := SplitString(e.command, BLANKS);
      if words == [] {
        return;
      }
      View(id);
      if words[0] in SERVER_COMMANDS {
        if e.dataset != [] || Redirects(e.command) {
          SendOut(id, Status(a.refusal, 0));
        } else {
          ExecuteCommand(id, words, a);
        }
      } else if sessionContexts[id].coreID != 0 {
        ForwardToCoreOf(id, e, a);
      } else {
        SendOut(id, NotFound(a.refusal));
      }
    }

    // -------------------------------------------------------------- lines from clients

    method PushLine(id: nat, line: Line)
      requires Valid() && id in sessions
      modifies this`sessions, sessionRepr
      ensures Valid() && St() == Model.PushLine(old(St()), id, line)
    {
      hide CoreInstance.Rep, Cores, Sessions;
      SessionAt(id);
      var sc := sessionContexts[id];
      sc.lineQueue := sc.lineQueue + [line];
      sessions := Model.PushLine(St(), id, line).sessions;
      SessionChanged(id);
    }

    /** Takes the front line off the queue, after it was handled. */
    method PopLine(id: nat)
      requires Valid() && id in sessions && sessions[id].lineQueue != []
      modifies this`sessions, sessionRepr
      ensures Valid()
      ensures var x := old(sessions[id]);
        St() == SetSession(old(St()), id, x.(lineQueue := x.lineQueue[1..],
                                             jumped := x.jumped || (x.curCommand.Some? && x.lineQueue[1..] != [])))
    {
      hide CoreInstance.Rep, Cores, Sessions;
      SessionAt(id);
      var sc := sessionContexts[id];
      ghost var x := sessions[id];
      sc.lineQueue := sc.lineQueue[1..];
      sessions := sessions[id := x.(lineQueue := x.lineQueue[1..],
                                    jumped := x.jumped || (x.curCommand.Some? && x.lineQueue[1..] != []))];
      SessionChanged(id);
    }

    /** An unfinished command becomes the session's current one. */
    method OpenCommand(id: nat, ce: CommandQEntry)
      requires Valid() && id in sessions && ce !in coreRepr && ce.clientID == id
      modifies this`sessions, this`sessionRepr, sessionRepr
      ensures Valid() && sessionRepr == old(sessionRepr) + {ce}
      ensures St() == SetCurrent(old(St()), id, Some(ce.Value()))
    {
      hide CoreInstance.Rep, Cores, Sessions;
      SessionAt(id);
      sessionContexts[id].curCommand := ce;
      sessionRepr := sessionRepr + {ce};
      sessions := SetCurrent(St(), id, Some(ce.Value())).sessions;
      SessionChanged(id);
    }

    method CloseCommand(id: nat)
      requires Valid() && id in sessions
      modifies this`sessions, sessionRepr
      ensures Valid() && St() == SetCurrent(old(St()), id, None)
    {
      hide CoreInstance.Rep, Cores, Sessions;
      SessionAt(id);
      sessionContexts[id].curCommand := null;
      sessions := SetCurrent(St(), id, None).sessions;
      SessionChanged(id);
    }

    method AppendToCurrent(id: nat, line: Line)
      requires Valid() && id in sessions && sessions[id].curCommand.Some?
      modifies this`sessions, sessionRepr
      ensures Valid() && sessionContexts[id].curCommand == old(sessionContexts[id].curCommand)
      ensures St() == SetCurrent(old(St()), id, Some(old(sessions[id]).curCommand.value.Append(line)))
    {
      hide CoreInstance.Rep, Cores, Sessions, Blank;
      SessionAt(id);
      sessionContexts[id].curCommand.AppendToDataset(line);
      sessions := SetCurrent(St(), id, Some(sessions[id].curCommand.value.Append(line))).sessions;
      SessionChanged(id);
    }

    ghost method Receive(id: nat, line: Line)
      requires Valid() && id in sessions
      modifies this`sessions
      ensures Valid() && St() == LogReceived(old(St()), id, line)
    {
      hide CoreInstance.Rep, SessionContext.Rep, Cores, Sessions;
      SessionAt(id);
      ghost var x := sessions[id];
      sessions := LogReceived(St(), id, line).sessions;
      sessionContexts[id].RepIgnoresHistory(x, sessions[id]);
      SessionChanged(id);
    }

    /** A line of an open data set; the line that ends it completes the command. */
    method ContinueCommand(id: nat, line: Line, ghost fromServerQueue: bool)
      requires Valid() && id in sessions && sessions[id].curCommand.Some?
      modifies this`cores, this`sessions, this`coreInstances, this`coreRepr, this`coreIDCounter, this`tick,
               coreRepr, sessionRepr
      ensures Valid() && Grown() && St() == HandleLine(world, old(St()), id, line, fromServerQueue)
    {
      hide Cores, Sessions, Model.ProcessCommand, Blank;
      View(id);
      var cur := sessionContexts[id].curCommand;
      if cur.acceptsData && !cur.dataFinished {
        AppendToCurrent(id, line);
        View(id);
        if cur.Flushable() {
          ProcessCommand(id, cur);
          CloseCommand(id);
        }
      } else {
        PushLine(id, line);
      }
    }

    /** A line that is a command or opens a data set. */
    method NewCommand(id: nat, line: Line)
      requires Valid() && id in sessions && sessions[id].curCommand.None?
      modifies this`cores, this`sessions, this`coreInstances, this`coreRepr, this`coreIDCounter, this`tick,
               this`sessionRepr, coreRepr, sessionRepr
      ensures Valid() && Grown() && St() == HandleLine(world, old(St()), id, line, true)
    {
      hide Cores, Sessions, Model.ProcessCommand, Opens;
      var ce := new CommandQEntry(id, line);
      if ce.Flushable() {
        ProcessCommand(id, ce);
      } else {
        OpenCommand(id, ce);
      }
    }

    /** A line from a client, or one that was held back. */
    method LineFromClient(text: string, id: nat, fromServerQueue: bool)
      requires Valid() && id in sessions
      modifies this`cores, this`sessions, this`coreInstances, this`coreRepr, this`coreIDCounter, this`tick,
               this`sessionRepr, coreRepr, sessionRepr
      ensures Valid() && Grown()
      ensures var line := EnsureNewline(text);
        St() == HandleLine(world, if fromServerQueue then old(St()) else LogReceived(old(St()), id, line), id, line,
                           fromServerQueue)
    {
      hide Cores, Sessions, Model.ProcessCommand, Opens, IsWaiting;
      var line := text;
      if line != "" && line[|line|-1] != '\n' {
        line := line + "\n";
      }
      if !fromServerQueue {
        Receive(id, line);
      }
      View(id);
      if sessionContexts[id].curCommand != null {
        ContinueCommand(id, line, fromServerQueue);
        return;
      }
      var waiting := IsWaitingForCoreReply(id);
      if !fromServerQueue && (sessionContexts[id].lineQueue != [] || waiting) {
        PushLine(id, line);
      } else {
        NewCommand(id, line);
      }
    }

    /** The front line of the queue is handled, then taken off. */
    method DrainNext(id: nat)
      requires Valid() && Draining(St(), id)
      modifies this`cores, this`sessions, this`coreInstances, this`coreRepr, this`coreIDCounter, this`tick,
               this`sessionRepr, coreRepr, sessionRepr
      ensures Valid() && Grown() && St() == DrainOne(world, old(St()), id)
    {
      hide Cores, Sessions, HandleLine, IsWaiting, EnsureNewline;
      View(id);
      FrontStays(St(), id);
      LineFromClient(sessionContexts[id].lineQueue[0], id, true);
      PopLine(id);
    }

    /** The drain loop: held lines run until the queue is empty or the session waits again. */
    method DrainQueue(id: nat)
      requires Valid() && id in sessions
      modifies this`cores, this`sessions, this`coreInstances, this`coreRepr, this`coreIDCounter, this`tick,
               this`sessionRepr, coreRepr, sessionRepr
      ensures Valid() && Grown() && St() == Drain(world, old(St()), id)
    {
      hide Cores, Sessions, DrainOne, IsWaiting;
      while true
        invariant Valid() && Grown() && id in sessions
        invariant Drain(world, St(), id) == Drain(world, old(St()), id)
        decreases |sessions[id].lineQueue|
      {
        View(id);
        if sessionContexts[id].lineQueue == [] {
          return;
        }
        var waiting := IsWaitingForCoreReply(id);
        if waiting {
          return;
        }
        DrainOneShrinks(world, St(), id);
        DrainNext(id);
      }
    }

    lemma FrontStays(s: State, id: nat)
      requires Draining(s, id)
      ensures var line := EnsureNewline(s.sessions[id].lineQueue[0]);
        HandleLine(world, s, id, line, true).sessions[id].lineQueue == s.sessions[id].lineQueue
    {
      hide EnsureNewline;
    }

    // -------------------------------------------------------------- lines from HTTP clients

    method RefuseRequest(id: nat)
      requires Valid() && id in sessions
      modifies this`sessions, this`tick, sessionRepr
      ensures Valid() && St() == Refuse(world, old(St()), id)
    {
      hide Cores, Sessions, Emit;
      var a := BeginCommand(id, []);
      SendOut(id, Status(a.status, 0));
    }

    method CollectRequest(id: nat, line: Line)
      requires Valid() && id in sessions
      modifies this`sessions, sessionRepr
      ensures var x := old(sessions[id]);
        Valid() && St() == SetSession(old(St()), id, x.(request := x.request + [line]))
    {
      hide CoreInstance.Rep, Cores, Sessions;
      SessionAt(id);
      var sc := sessionContexts[id];
      sc.request := sc.request + [line];
      sessions := sessions[id := sessions[id].(request := sc.request)];
      SessionChanged(id);
    }

    /** The request is complete: only its first line matters. */
    method TakeRequest(id: nat) returns (requestString: string)
      requires Valid() && id in sessions && sessions[id].request != []
      modifies this`sessions, sessionRepr
      ensures Valid() && requestString == old(sessions[id]).request[0]
      ensures var x := old(sessions[id]);
        St() == SetSession(old(St()), id, x.(request := [], requests := x.requests + 1))
    {
      hide CoreInstance.Rep, Cores, Sessions;
      SessionAt(id);
      var sc := sessionContexts[id];
      requestString := sc.request[0];
      sc.request := [];
      sessions := sessions[id := sessions[id].(request := [], requests := sessions[id].requests + 1)];
      SessionChanged(id);
    }

    /** Decodes a request string and tells what it asks for. */
    static method ReadRequest(requestString: string) returns (target: Target)
      ensures target == ParseRequest(requestString)
    {
      var words := SplitString(requestString, BLANKS);
      if |words| != 3 {
        return BadRequest;
      }
      var version := Upper(words[2]);
      if version != "HTTP/1.0" && version != "HTTP/1.1" {
        return BadVersion;
      }
      var transformed := DecodeURI(words[1]);
      if transformed == None {
        return BadHex;
      }
      var uri := transformed.value;
      var uriwords := SplitString(uri, {'/'});
      if |uriwords| >= 2 {
        SplitHead(uri, {'/'});
        return ToCore(uriwords[0], uri[|uriwords[0]| + 1..]);
      }
      if SplitString(uri, BLANKS) != [] {
        return Plain(uri);
      }
      return Empty;
    }

    /** A line of a request from an HTTP client; the blank line ends it. */
    method LineFromHTTPClient(line: Line, id: nat)
      requires Valid() && id in sessions
      modifies this`cores, this`sessions, this`coreInstances, this`coreRepr, this`coreIDCounter, this`tick,
               this`sessionRepr, coreRepr, sessionRepr
      ensures Valid() && Grown() && St() == LineFromHttpClient(world, old(St()), id, line)
    {
      hide Cores, Sessions, Refuse, Model.LineFromClient, Opens, ParseRequest;
      ghost var s := St();
      CollectRequest(id, line);
      if line == "\n" {
        var requestString := TakeRequest(id);
        assert sessions == s.sessions[id := sessions[id]];
        var target := ReadRequest(requestString);
        RunRequest(id, target);
      }
    }

    method RunRequest(id: nat, target: Target)
      requires Valid() && id in sessions
      modifies this`cores, this`sessions, this`coreInstances, this`coreRepr, this`coreIDCounter, this`tick,
               this`sessionRepr, coreRepr, sessionRepr
      ensures Valid() && Grown() && St() == HttpRun(world, old(St()), id, target)
    {
      hide Cores, Sessions, Refuse, HandleLine, Opens, EnsureNewline;
      match target {
        case ToCore(coreName, command) =>
          var ci := FindNamedInstance(coreName);
          if ci == None || Opens(command) {
            RefuseRequest(id);
          } else {
            SetCoreID(id, ci.value);
            LineFromClient(command, id, false);
          }
        case Plain(command) =>
          if Opens(command) {
            RefuseRequest(id);
          } else {
            LineFromClient(command, id, false);
          }
        case _ => RefuseRequest(id);
      }
    }

    // -------------------------------------------------------------- lines from cores

    /** The line goes to the client of the core's last command, unless that is gone or marked for removal. */
    method RouteLine(c: nat, line: Line)
      requires Valid() && IsPresent(St(), c)
      modifies this`cores, this`sessions, coreRepr, sessionRepr
      ensures Valid() && St() == Model.LineFromCore(old(St()), c, line)
    {
      hide CoreInstance.Rep, SessionContext.Rep, Cores, Sessions, CoreHears, Written;
      CoreAt(c);
      var ci := coreInstances[c];
      ghost var s, t := St(), Model.LineFromCore(St(), c, line);
      ghost var id := ci.lastClientID;
      assert id == s.cores[c].lastClientID by { CoreView(c); }
      var sc := FindClient(ci.lastClientID);
      ghost var x := if sc == null then FreshSession(Tcp) else sessions[id];
      ci.LineFromCore(line, sc, s.cores[c], x);
      cores := t.cores;
      if sc != null {
        sessions := t.sessions;
        SessionChanged(id);
      }
      CoreChanged(c);
    }

    lemma CoreView(c: nat)
      requires HasCore(c)
      ensures coreInstances[c].lastClientID == cores[c].lastClientID && coreInstances[c].linebuf == cores[c].linebuf
      ensures coreInstances[c].commandQ == cores[c].commandQ
    {
    }

    /** A complete line from a core; if it ended its client's wait, held lines run now. */
    method LineFromCore(c: nat, line: Line)
      requires Valid() && IsPresent(St(), c)
      modifies this`cores, this`sessions, this`coreInstances, this`coreRepr, this`coreIDCounter, this`tick,
               this`sessionRepr, coreRepr, sessionRepr
      ensures Valid() && Grown() && St() == CoreLine(world, old(St()), c, line)
    {
      hide Cores, Sessions, Drain, Model.LineFromCore, IsWaiting;
      CoreAt(c);
      CoreView(c);
      var id := coreInstances[c].lastClientID;
      var sc := FindClient(id);
      var clientWasWaiting := false;
      if sc != null {
        clientWasWaiting := IsWaitingForCoreReply(id);
      }
      RouteLine(c, line);
      if clientWasWaiting {
        assert id in sessions by { RoutedSessions(old(St()), c, line); }
        DrainQueue(id);
      }
    }

    lemma RoutedSessions(s: State, c: nat, line: Line)
      requires c in s.cores
      ensures Model.LineFromCore(s, c, line).sessions.Keys == s.sessions.Keys
    {
    }

    // -------------------------------------------------------------- bytes

    method SetLinebuf(id: nat, text: string)
      requires Valid() && id in sessions
      modifies this`sessions, sessionRepr
      ensures Valid() && St() == SetSession(old(St()), id, old(sessions[id]).(linebuf := text))
    {
      hide CoreInstance.Rep, Cores, Sessions;
      SessionAt(id);
      sessionContexts[id].linebuf := text;
      sessions := sessions[id := sessions[id].(linebuf := text)];
      SessionChanged(id);
    }

    method SetCoreLinebuf(c: nat, text: string)
      requires Valid() && IsPresent(St(), c)
      modifies this`cores, coreRepr
      ensures Valid() && St() == SetCore(old(St()), c, old(cores[c]).(linebuf := text))
    {
      hide SessionContext.Rep, Cores, Sessions, Flat;
      CoreAt(c);
      coreInstances[c].linebuf := text;
      cores := cores[c := cores[c].(linebuf := text)];
      CoreChanged(c);
    }

    /** One byte from a client's socket. stop: the client is marked for removal, the rest is not looked at. The
        line buffer is emptied before its line is handled; nothing looks at it in between. */
    method ByteFromClient(id: nat, c: char) returns (stop: bool)
      requires Valid() && id in sessions
      modifies this`cores, this`sessions, this`coreInstances, this`coreRepr, this`coreIDCounter, this`tick,
               this`sessionRepr, coreRepr, sessionRepr
      ensures Valid() && Grown() && St() == ReadClientByte(world, old(St()), id, c)
      ensures stop ==> id in clientsToRemove
    {
      hide Cores, Sessions, HandleLine, LineFromHttpClient, EnsureNewline;
      stop := false;
      if c == '\r' {
        return;
      }
      View(id);
      var line := sessionContexts[id].linebuf + [c];
      if c != '\n' {
        SetLinebuf(id, line);
      } else if id in clientsToRemove {
        SetLinebuf(id, line);
        stop := true;
      } else {
        SetLinebuf(id, "");
        if sessionContexts[id].connectionType.Http? {
          LineFromHTTPClient(line, id);
        } else {
          LineFromClient(line, id, false);
        }
      }
    }

    method ByteFromCore(c: nat, b: char)
      requires Valid() && IsPresent(St(), c)
      modifies this`cores, this`sessions, this`coreInstances, this`coreRepr, this`coreIDCounter, this`tick,
               this`sessionRepr, coreRepr, sessionRepr
      ensures Valid() && Grown() && St() == ReadCoreByte(world, old(St()), c, b)
    {
      hide Cores, Sessions, CoreLine;
      if b == '\r' {
        return;
      }
      CoreAt(c);
      CoreView(c);
      var line := coreInstances[c].linebuf + [b];
      if b != '\n' {
        SetCoreLinebuf(c, line);
      } else {
        SetCoreLinebuf(c, "");
        LineFromCore(c, line);
      }
    }

    // -------------------------------------------------------------- events of the loop

    /** An event is over. */
    ghost method Log(s: State, e: Event)
      requires Valid() && s == Run(world, log) && St() == Step(world, s, e)
      modifies this`log
      ensures AtRest() && log == old(log) + [e]
    {
      hide Cores, Sessions, Step, Run;
      RunLast(world, log, e);
      log := log + [e];
    }

    /** Clients whose sockets failed are marked for removal. */
    ghost predicate BrokenMarked()
      reads this, sessionRepr
    {
      forall id :: id in sessionContexts ==>
        sessionContexts[id].writer in sessionRepr && (sessionContexts[id].writer.broken ==> id in clientsToRemove)
    }

    /** The client is gone, or its socket is broken: it will be removed at the next turn. */
    method ForceClientDisconnect(id: nat)
      requires AtRest() && id in sessions
      modifies this`clientsToRemove, this`log
      ensures AtRest() && clientsToRemove == old(clientsToRemove) + {id} && Fed(old(log), log, OfClient(id), "")
    {
      hide Cores, Sessions, Run, Fed;
      ghost var s := St();
      FedOne(log, Mark(id), OfClient(id));
      clientsToRemove := clientsToRemove + {id};
      Log(s, Mark(id));
    }

    /** Every write that failed calls back and has its client marked. This happens before anything looks for
        the mark. */
    method MarkBroken()
      requires AtRest()
      modifies this`clientsToRemove, this`log
      ensures AtRest() && BrokenMarked() && old(clientsToRemove) <= clientsToRemove
      ensures Fed(old(log), log, OfClient(0), "")
    {
      hide Cores, Sessions, Run, Fed;
      var todo := sessionContexts.Keys;
      FedNothing(log, OfClient(0));
      while todo != {}
        invariant AtRest() && todo <= sessionContexts.Keys && old(clientsToRemove) <= clientsToRemove
        invariant Fed(old(log), log, OfClient(0), "")
        invariant forall id :: id in sessionContexts && id !in todo ==>
          sessionContexts[id].writer in sessionRepr && (sessionContexts[id].writer.broken ==> id in clientsToRemove)
        decreases |todo|
      {
        var id := Least(todo);
        SessionAt(id);
        if sessionContexts[id].writer.broken && id !in clientsToRemove {
          ghost var before := log;
          ForceClientDisconnect(id);
          FedAny(before, log, OfClient(id), OfClient(0));
          FedThenNothing(old(log), before, log, OfClient(0), "");
        }
        todo := todo - {id};
      }
    }

    /** One byte was received. */
    method TakeByte(id: nat, b: char) returns (stop: bool)
      requires AtRest() && id in sessions
      modifies this, coreRepr, sessionRepr
      ensures AtRest() && fresh(coreRepr - old(coreRepr)) && fresh(sessionRepr - old(sessionRepr))
      ensures Fed(old(log), log, OfClient(id), [b]) && BrokenMarked() && old(clientsToRemove) <= clientsToRemove
      ensures stop ==> id in clientsToRemove
      ensures sessions.Keys == old(sessions.Keys) && sessionContexts.Keys == old(sessionContexts.Keys)
    {
      hide Cores, Sessions, ReadClientByte, Run, Fed;
      ghost var s, before := St(), log;
      FedOne(log, ClientByte(id, b), OfClient(id));
      KeysKept(s, id, b);
      SameKeys();
      stop := ByteFromClient(id, b);
      SameKeys();
      Log(s, ClientByte(id, b));
      ghost var between := log;
      MarkBroken();
      FedAny(between, log, OfClient(0), OfClient(id));
      FedThenNothing(before, between, log, OfClient(id), [b]);
    }

    /** Bytes were received: taken is how many of them were looked at, all unless the client is to go. */
    method ReadFromClient(id: nat, buf: string) returns (taken: nat)
      requires AtRest() && id in sessions
      modifies this, coreRepr, sessionRepr
      ensures AtRest() && fresh(coreRepr - old(coreRepr)) && fresh(sessionRepr - old(sessionRepr))
      ensures taken <= |buf| && Fed(old(log), log, OfClient(id), buf[..taken])
      ensures taken < |buf| ==> id in clientsToRemove
      ensures taken > 0 ==> BrokenMarked()
      ensures old(clientsToRemove) <= clientsToRemove && sessionContexts.Keys == old(sessionContexts.Keys)
    {
      hide Cores, Sessions, Run, Fed, BrokenMarked;
      taken := 0;
      FedNothing(log, OfClient(id));
      while taken < |buf|
        invariant AtRest() && fresh(coreRepr - old(coreRepr)) && fresh(sessionRepr - old(sessionRepr))
        invariant taken <= |buf| && Fed(old(log), log, OfClient(id), buf[..taken]) && (taken > 0 ==> BrokenMarked())
        invariant id in sessions && sessionContexts.Keys == old(sessionContexts.Keys)
        invariant old(clientsToRemove) <= clientsToRemove
      {
        ghost var before := log;
        assert buf[..taken+1] == buf[..taken] + [buf[taken]];
        var stop := TakeByte(id, buf[taken]);
        FedChain(old(log), before, log, OfClient(id), buf[..taken], [buf[taken]]);
        taken := taken + 1;
        if stop {
          return;
        }
      }
    }

    lemma SameKeys()
      requires Valid()
      ensures sessionContexts.Keys == sessions.Keys
    {
    }

    lemma KeysKept(s: State, id: nat, c: char)
      requires id in s.sessions
      ensures ReadClientByte(world, s, id, c).sessions.Keys == s.sessions.Keys
    {
      hide Model.LineFromClient, LineFromHttpClient;
    }

    method TakeCoreByte(c: nat, b: char)
      requires AtRest() && IsPresent(St(), c)
      modifies this, coreRepr, sessionRepr
      ensures AtRest() && fresh(coreRepr - old(coreRepr)) && fresh(sessionRepr - old(sessionRepr))
      ensures Fed(old(log), log, OfCore(c), [b]) && BrokenMarked() && old(clientsToRemove) <= clientsToRemove
      ensures sessionContexts.Keys == old(sessionContexts.Keys)
    {
      hide Cores, Sessions, ReadCoreByte, Run, Fed;
      ghost var s, before := St(), log;
      FedOne(log, CoreByte(c, b), OfCore(c));
      CoreKeysKept(s, c, b);
      SameKeys();
      ByteFromCore(c, b);
      SameKeys();
      Log(s, CoreByte(c, b));
      ghost var between := log;
      MarkBroken();
      FedAny(between, log, OfClient(0), OfCore(c));
      FedThenNothing(before, between, log, OfCore(c), [b]);
    }

    lemma CoreKeysKept(s: State, c: nat, b: char)
      requires s == Run(world, log) && c in s.cores
      ensures ReadCoreByte(world, s, c, b).sessions.Keys == s.sessions.Keys
    {
      hide Run, ReadCoreByte, Inv;
      AlwaysInv(world, log);
      InvBelow(world, s);
      CoreByteOnward(world, s, c, b);
    }

    /** Bytes were read from a core's pipe. */
    method ReadFromCore(c: nat, buf: string)
      requires AtRest() && IsPresent(St(), c)
      modifies this, coreRepr, sessionRepr
      ensures AtRest() && fresh(coreRepr - old(coreRepr)) && fresh(sessionRepr - old(sessionRepr))
      ensures Fed(old(log), log, OfCore(c), buf) && (buf != "" ==> BrokenMarked())
      ensures old(clientsToRemove) <= clientsToRemove && sessionContexts.Keys == old(sessionContexts.Keys)
    {
      hide Cores, Sessions, Run, Fed, BrokenMarked, IsPresent;
      FedNothing(log, OfCore(c));
      for i := 0 to |buf|
        invariant AtRest() && fresh(coreRepr - old(coreRepr)) && fresh(sessionRepr - old(sessionRepr))
        invariant Fed(old(log), log, OfCore(c), buf[..i]) && (i > 0 ==> BrokenMarked())
        invariant old(clientsToRemove) <= clientsToRemove && sessionContexts.Keys == old(sessionContexts.Keys)
      {
        ghost var before := log;
        assert buf[..i+1] == buf[..i] + [buf[i]];
        StillPresent(old(log), OfCore(c), buf[..i], c);
        TakeCoreByte(c, buf[i]);
        FedChain(old(log), before, log, OfCore(c), buf[..i], [buf[i]]);
      }
      assert buf[..|buf|] == buf;
    }

    /** Reading removes no core. */
    lemma StillPresent(before: seq<Event>, d: Source, text: string, c: nat)
      requires AtRest() && Fed(before, log, d, text) && IsPresent(Run(world, before), c)
      ensures IsPresent(St(), c)
    {
      hide Cores, Sessions, Run, IsPresent;
      PresentUntilExit(world, before, log, c);
    }

    /** The flush of s still has to look at the cores in todo. */
    ghost predicate FlushedUpTo(s: State, todo: set<nat>)
      reads this
    {
      St() == s.(cores := cores) && cores.Keys == s.cores.Keys &&
      forall c :: c in s.cores ==> cores[c] == if c in todo then s.cores[c] else FlushAll(s).cores[c]
    }

    method FlushNext(c: nat, ghost s: State, ghost todo: set<nat>)
      requires Valid() && c in coreInstances && c in todo && FlushedUpTo(s, todo)
      modifies this`cores, coreRepr
      ensures Valid() && FlushedUpTo(s, todo - {c})
    {
      hide Cores, Sessions, FlushCore;
      CoreAt(c);
      FlushOne(c);
    }

    /** Every turn of the loop offers each core its next command. */
    method FlushQueues()
      requires AtRest()
      modifies this`cores, this`log, coreRepr
      ensures AtRest() && log == old(log) + [Flush]
    {
      hide Cores, Sessions, Run, FlushAll, FlushedUpTo;
      ghost var s := St();
      var todo := coreInstances.Keys;
      FlushStarts();
      while todo != {}
        invariant Valid() && log == old(log) && todo <= coreInstances.Keys && FlushedUpTo(s, todo)
        decreases |todo|
      {
        var c := Least(todo);
        FlushNext(c, s, todo);
        todo := todo - {c};
      }
      FlushEnds(s);
      Log(s, Flush);
    }

    lemma FlushStarts()
      requires Valid()
      ensures FlushedUpTo(St(), coreInstances.Keys)
    {
      hide CoreInstance.Rep, Sessions, FlushCore;
    }

    lemma FlushEnds(s: State)
      requires FlushedUpTo(s, {})
      ensures St() == FlushAll(s)
    {
      hide FlushCore;
    }

    /** Removes a session at once. */
    method RemoveOne(id: nat)
      requires Valid()
      modifies this`cores, this`sessions, this`sessionContexts, coreRepr
      ensures Valid() && St() == RemoveSession(old(St()), id)
    {
      hide SessionContext.Rep, CoreInstance.Rep, Cores, Sessions, EndDataset;
      SessionAt(id);
      if id !in sessionContexts {
        return;
      }
      View(id);
      var c := sessionContexts[id].coreID;
      var ci := FindInstance(c);
      if c != 0 && ci != null {
        ci.EndDatasetOf(id, cores[c]);
        cores := cores[c := EndDataset(cores[c], id)];
        CoreChanged(c);
      }
      sessionContexts := sessionContexts - {id};
      sessions := sessions - {id};
      SessionRemoved(id);
    }

    twostate lemma SessionRemoved(id: nat)
      requires old(Sessions()) && old(sessionRepr) == sessionRepr
      requires sessionContexts == old(sessionContexts) - {id} && sessions == old(sessions) - {id}
      requires forall o | o in sessionRepr :: unchanged(o)
      ensures Sessions()
    {
      hide SessionContext.Rep;
      forall j | j in sessionContexts
        ensures var sc := sessionContexts[j];
          && sc.curCommand == old(sc.curCommand) && sc.Rep(sessions[j])
      {
        var sc := sessionContexts[j];
        assert unchanged(sc) && unchanged(sc.writer);
        assert sc.curCommand != null ==> unchanged(sc.curCommand);
      }
    }

    /** Deferred removal of clients. */
    method RemoveClients()
      requires AtRest()
      modifies this`cores, this`sessions, this`sessionContexts, this`clientsToRemove, this`log, coreRepr
      ensures AtRest() && log == old(log) + [Reap]
    {
      hide Cores, Sessions, RemoveSession, Run;
      ghost var s := St();
      var todo := clientsToRemove;
      while todo != {}
        invariant Valid() && log == old(log) && clientsToRemove == old(clientsToRemove)
        invariant RemoveAll(St(), todo) == RemoveAll(s, s.marked)
        decreases |todo|
      {
        var id := Least(todo);
        RemoveOne(id);
        todo := todo - {id};
      }
      clientsToRemove := {};
      Log(s, Reap);
    }

    method CreateSession(kind: Kind) returns (id: nat)
      requires Valid()
      modifies this`sessions, this`sessionContexts, this`sessionIDCounter, this`sessionRepr
      ensures Valid() && Grown() && id == old(sessionIDCounter) + 1 && id in sessionContexts
      ensures St() == old(St()).(sessions := old(sessions)[id := FreshSession(kind)], sessionIDCounter := id)
    {
      hide SessionContext.Rep, CoreInstance.Rep, Cores, Sessions;
      id := sessionIDCounter + 1;
      sessionIDCounter := id;
      var newSession := new SessionContext(id, kind, world.codes);
      sessionContexts := sessionContexts[id := newSession];
      sessionRepr := sessionRepr + {newSession, newSession.writer};
      sessions := sessions[id := FreshSession(kind)];
      SessionAdded(id);
    }

    method AcceptConnection(kind: Kind) returns (id: nat)
      requires AtRest()
      modifies this`sessions, this`sessionContexts, this`sessionIDCounter, this`sessionRepr, this`log
      ensures AtRest() && fresh(sessionRepr - old(sessionRepr)) && log == old(log) + [Accept(kind)]
      ensures id == old(sessionIDCounter) + 1 && id in sessionContexts
    {
      hide Cores, Sessions, Run;
      ghost var s := St();
      id := CreateSession(kind);
      Log(s, Accept(kind));
    }

    twostate lemma SessionAdded(id: nat)
      requires old(Sessions()) && old(sessionRepr) <= sessionRepr && HasSession(id)
      requires sessionContexts == old(sessionContexts)[id := sessionContexts[id]]
      requires sessions == old(sessions)[id := sessions[id]]
      requires forall o | o in old(sessionRepr) :: unchanged(o)
      ensures Sessions()
    {
      hide SessionContext.Rep;
      forall j | j in sessionContexts && j != id
        ensures var sc := sessionContexts[j];
          && sc.curCommand == old(sc.curCommand) && sc.Rep(sessions[j])
      {
        var sc := sessionContexts[j];
        assert unchanged(sc) && unchanged(sc.writer);
        assert sc.curCommand != null ==> unchanged(sc.curCommand);
      }
    }

    /** Buffered output goes on to the socket; if that fails, the client is marked for removal. */
    method FlushClient(id: nat)
      requires AtRest() && id in sessions
      modifies this`clientsToRemove, this`log, sessionRepr
      ensures AtRest() && BrokenMarked() && old(clientsToRemove) <= clientsToRemove
      ensures Fed(old(log), log, OfClient(id), "")
    {
      hide SessionContext.RepInput, CoreInstance.Rep, Cores, Sessions, Run, Bytes, CountStatus, Finished, Fed;
      SessionAt(id);
      var _ := sessionContexts[id].writer.Flush();
      SessionChanged(id);
      MarkBroken();
      FedAny(old(log), log, OfClient(0), OfClient(id));
    }

    /** Buffered commands go on to the core's pipe. */
    method FlushCoreOutput(c: nat)
      requires AtRest() && IsPresent(St(), c)
      modifies coreRepr
      ensures AtRest()
    {
      hide SessionContext.Rep, Cores, Sessions, Run, Flat;
      CoreAt(c);
      var _ := coreInstances[c].writer.Flush();
      CoreChanged(c);
    }

    method TakeOffList(c: nat)
      requires Valid() && IsPresent(St(), c)
      modifies this`cores, this`coreInstances
      ensures Valid() && St() == SetCore(old(St()), c, StopCore(old(cores[c]), Gone))
    {
      hide SessionContext.Rep, CoreInstance.Rep, Sessions;
      coreInstances := coreInstances - {c};
      cores := cores[c := StopCore(cores[c], Gone)];
    }

    /** A core has exited: it is taken off the list. */
    method RemoveCoreInstance(c: nat)
      requires AtRest() && IsPresent(St(), c)
      modifies this`cores, this`coreInstances, this`log
      ensures AtRest() && log == old(log) + [CoreExit(c)]
      ensures forall d :: d != c && IsPresent(old(St()), d) ==> IsPresent(St(), d)
    {
      hide Cores, Sessions, Run;
      ghost var s := St();
      TakeOffList(c);
      Log(s, CoreExit(c));
    }

    /** HTTP clients are disconnected once there is no more output for them. */
    method EndIfOver(id: nat, ghost drained: set<nat>)
      requires Valid() && id in sessions && id in sessionContexts
      requires id in drained <==> sessionContexts[id].writer.buffer == []
      modifies this`sessions, sessionContexts[id]
      ensures Valid()
      ensures var x := old(sessions[id]);
        St() == SetSession(old(St()), id, if ConversationOver(old(St()), id, drained) then x.(closing := true) else x)
    {
      hide CoreInstance.Rep, SessionContext.RepInput, Cores, Sessions, Bytes, Finished, CountStatus;
      SessionAt(id);
      View(id);
      var sc := sessionContexts[id];
      assert sessions[id := sessions[id]] == sessions;
      if sc.connectionType.Http? && sc.conversationFinished && sc.writer.buffer == [] {
        var ci := FindInstance(sc.coreID);
        var has := false;
        if ci != null {
          has := ci.HasDataForClient(id, cores[sc.coreID]);
        }
        if !has && !sc.shutDown {
          ShutdownClient(id);
        }
      }
    }

    ghost predicate Drained(drained: set<nat>)
      reads this`sessionContexts, this`sessionRepr, sessionRepr
    {
      forall id :: id in sessionContexts ==>
        sessionContexts[id].writer in sessionRepr && (id in drained <==> sessionContexts[id].writer.buffer == [])
    }

    /** The sweep of s still has to look at the sessions in todo. */
    ghost predicate SweptUpTo(s: State, drained: set<nat>, todo: set<nat>)
      reads this
    {
      St() == s.(sessions := sessions) && sessions.Keys == s.sessions.Keys &&
      forall id :: id in s.sessions ==>
        sessions[id] == if id in todo then s.sessions[id] else Sweep(s, drained).sessions[id]
    }

    method SweepOne(id: nat, ghost s: State, ghost drained: set<nat>, ghost todo: set<nat>)
      requires Valid() && id in sessionContexts && id in todo && Drained(drained) && SweptUpTo(s, drained, todo)
      modifies this`sessions, sessionRepr
      ensures Valid() && Drained(drained) && SweptUpTo(s, drained, todo - {id})
    {
      hide Cores, Sessions, ConversationOver;
      SessionAt(id);
      OverBySession(s, St(), id, drained);
      EndIfOver(id, drained);
    }

    /** Goes through the HTTP sessions; drained are the clients without buffered output. */
    method SweepClients() returns (ghost drained: set<nat>)
      requires AtRest()
      modifies this`sessions, this`log, sessionRepr
      ensures AtRest() && log == old(log) + [SweepHttp(drained)]
      ensures drained == old(DrainedNow())
    {
      hide Cores, Sessions, Run, Sweep, Drained, DrainedNow, SweptUpTo, Step;
      ghost var s := St();
      var todo := sessionContexts.Keys;
      drained := DrainedNow();
      SweepStarts(drained);
      while todo != {}
        invariant Valid() && Drained(drained) && SweptUpTo(s, drained, todo)
        invariant log == old(log) && todo <= sessionContexts.Keys
        decreases |todo|
      {
        var id := Least(todo);
        SweepOne(id, s, drained, todo);
        todo := todo - {id};
      }
      SweptIsSwept(s, drained);
      assert Step(world, s, SweepHttp(drained)) == Sweep(s, drained) by { SweepIsAStep(s, drained); }
      Log(s, SweepHttp(drained));
    }

    /** The clients without buffered output. */
    ghost function DrainedNow(): set<nat>
      requires Valid()
      reads this, coreRepr, sessionRepr
    {
      set id | id in sessionContexts && sessionContexts[id].writer.buffer == []
    }

    lemma SweepStarts(drained: set<nat>)
      requires Valid() && drained == DrainedNow()
      ensures Drained(drained) && SweptUpTo(St(), drained, sessionContexts.Keys)
    {
      hide SessionContext.Rep, CoreInstance.Rep, Cores, Sweep, ConversationOver;
    }

    lemma SweepIsAStep(s: State, drained: set<nat>)
      ensures Step(world, s, SweepHttp(drained)) == Sweep(s, drained)
    {
      hide Sweep;
    }

    lemma SweptIsSwept(s: State, drained: set<nat>)
      requires SweptUpTo(s, drained, {})
      ensures St() == Sweep(s, drained)
    {
      hide ConversationOver;
    }

    lemma OverBySession(s: State, t: State, id: nat, drained: set<nat>)
      requires t.cores == s.cores && id in s.sessions && id in t.sessions && t.sessions[id] == s.sessions[id]
      ensures ConversationOver(t, id, drained) == ConversationOver(s, id, drained)
    {
    }

    // -------------------------------------------------------------- the loop

    /** What select found for one client: input, and room for output. text is what was read. */
    method ServeClient(id: nat, input: map<nat, Input>, writable: bool) returns (ghost text: string)
      requires AtRest() && id in sessionContexts
      modifies this, coreRepr, sessionRepr
      ensures AtRest() && fresh(coreRepr - old(coreRepr)) && fresh(sessionRepr - old(sessionRepr))
      ensures Fed(old(log), log, OfClient(id), text) && text <= Offered(input, id)
      ensures id !in clientsToRemove ==> text == Offered(input, id)
      ensures old(clientsToRemove) <= clientsToRemove && sessionContexts.Keys == old(sessionContexts.Keys)
    {
      hide Cores, Sessions, Run, Fed;
      SameKeys();
      text := "";
      FedNothing(log, OfClient(id));
      if id in input {
        match input[id] {
          case Closed => ForceClientDisconnect(id);
          case Received(buf) =>
            var taken := ReadFromClient(id, buf);
            text := buf[..taken];
        }
      }
      SameKeys();
      if writable {
        ghost var before := log;
        FlushClient(id);
        FedThenNothing(old(log), before, log, OfClient(id), text);
      }
    }

    /** The beginning of a turn. */
    method RemoveAndFlush()
      requires AtRest()
      modifies this, coreRepr, sessionRepr
      ensures AtRest() && fresh(coreRepr - old(coreRepr)) && fresh(sessionRepr - old(sessionRepr))
      ensures log == old(log) + [Reap, Flush] && Unfed(old(log), log) && coreInstances.Keys == old(coreInstances.Keys)
    {
      hide Cores, Sessions, Run, Unfed;
      ghost var start := log;
      RemoveClients();
      FlushQueues();
      UnfedOne(start, Reap);
      UnfedOne(start + [Reap], Flush);
      UnfedChain(start, start + [Reap], log);
    }

    /** One turn of the select loop, with what select reported: connections, input of clients and cores, and
        which of them can take output. It begins with the removal of clients and the flush of the queues and
        ends with the sweep. What it reads from each client is what that sent, or a beginning of it if the
        client is to be removed; what it reads from each core is what that sent. */
    method Turn(connections: seq<Kind>, clientInput: map<nat, Input>, clientsWritable: set<nat>,
                coreInput: map<nat, Input>, coresWritable: set<nat>)
      requires AtRest()
      modifies this, coreRepr, sessionRepr
      ensures AtRest() && fresh(coreRepr - old(coreRepr)) && fresh(sessionRepr - old(sessionRepr))
      ensures old(log) + [Reap, Flush] <= log && log[|log|-1].SweepHttp?
      ensures TurnRead(old(log), log, clientInput, sessionContexts.Keys, clientsToRemove, coreInput,
                       old(coreInstances.Keys))
    {
      hide Cores, Sessions, Run, Unfed, ClientsFed, CoresFed, TurnRead;
      ghost var start, listed := log, coreInstances.Keys;
      RemoveAndFlush();
      ghost var begun := log;
      Connect(connections);
      UnfedChain(start, begun, log);
      ghost var connected := log;
      ServeClients(clientInput, clientsWritable);
      ghost var served, marked, cores' := log, clientsToRemove, coreInstances.Keys;
      ghost var read := ServeCores(coreInput, coresWritable);
      ghost var exited := log;
      ghost var drained := SweepClients();
      UnfedOne(exited, SweepHttp(drained));
      UnfedChain(read, exited, log);
      TurnReads(start, connected, served, read, log, clientInput, sessionContexts.Keys, marked, clientsToRemove,
                coreInput, cores', listed);
    }

    method Connect(connections: seq<Kind>)
      requires AtRest()
      modifies this, coreRepr, sessionRepr
      ensures AtRest() && fresh(coreRepr - old(coreRepr)) && fresh(sessionRepr - old(sessionRepr))
      ensures Unfed(old(log), log) && old(log) <= log && coreInstances == old(coreInstances)
    {
      hide Cores, Sessions, Run, Text;
      for i := 0 to |connections|
        invariant AtRest() && fresh(coreRepr - old(coreRepr)) && fresh(sessionRepr - old(sessionRepr))
        invariant Unfed(old(log), log) && coreInstances == old(coreInstances)
      {
        ghost var before := log;
        var _ := AcceptConnection(connections[i]);
        UnfedOne(before, Accept(connections[i]));
      }
    }

    /** served are the clients that were looked at since the log was at start. */
    method ServeNextClient(id: nat, input: map<nat, Input>, writable: bool, ghost start: seq<Event>,
                           ghost served: set<nat>)
      requires AtRest() && id in sessionContexts && id !in served
      requires ClientsFed(start, log, input, served, clientsToRemove)
      modifies this, coreRepr, sessionRepr
      ensures AtRest() && fresh(coreRepr - old(coreRepr)) && fresh(sessionRepr - old(sessionRepr))
      ensures ClientsFed(start, log, input, served + {id}, clientsToRemove)
      ensures sessionContexts.Keys == old(sessionContexts.Keys)
    {
      hide Cores, Sessions, Run, ClientsFed, Fed, Offered;
      ghost var before, marked := log, clientsToRemove;
      ghost var text := ServeClient(id, input, writable);
      ClientsFedNext(start, before, log, input, served, marked, clientsToRemove, id, text);
    }

    method ServeClients(input: map<nat, Input>, writable: set<nat>)
      requires AtRest()
      modifies this, coreRepr, sessionRepr
      ensures AtRest() && fresh(coreRepr - old(coreRepr)) && fresh(sessionRepr - old(sessionRepr))
      ensures ClientsFed(old(log), log, input, sessionContexts.Keys, clientsToRemove) && old(log) <= log
      ensures sessionContexts.Keys == old(sessionContexts.Keys) && old(coreInstances.Keys) <= coreInstances.Keys
    {
      hide Cores, Sessions, Run, ClientsFed;
      ghost var start, listed, all := log, coreInstances.Keys, sessionContexts.Keys;
      var todo := sessionContexts.Keys;
      PresentCores();
      ClientsFedStart(log, input, clientsToRemove);
      assert all - todo == {};
      while todo != {}
        invariant AtRest() && fresh(coreRepr - old(coreRepr)) && fresh(sessionRepr - old(sessionRepr))
        invariant todo <= all && sessionContexts.Keys == all
        invariant ClientsFed(start, log, input, all - todo, clientsToRemove)
        decreases |todo|
      {
        var id := Least(todo);
        ServeNextClient(id, input, id in writable, start, all - todo);
        assert all - todo + {id} == all - (todo - {id});
        todo := todo - {id};
      }
      assert all - todo == all;
      CoresStayListed(start, input, all, listed);
    }

    lemma CoresStayListed(before: seq<Event>, input: map<nat, Input>, served: set<nat>, listed: set<nat>)
      requires AtRest() && ClientsFed(before, log, input, served, clientsToRemove)
      requires forall c :: c in listed ==> IsPresent(Run(world, before), c)
      ensures before <= log && listed <= coreInstances.Keys
    {
      hide Cores, Sessions, Run, ClientsFed;
      ClientsFedGrows(before, log, input, served, clientsToRemove);
      forall c | c in listed ensures c in coreInstances {
        StaysListed(before, input, served, c);
      }
    }

    lemma StaysListed(before: seq<Event>, input: map<nat, Input>, served: set<nat>, c: nat)
      requires AtRest() && ClientsFed(before, log, input, served, clientsToRemove) && IsPresent(Run(world, before), c)
      ensures c in coreInstances
    {
      hide Cores, Sessions, Run;
      PresentUntilExit(world, before, log, c);
      CoreAt(c);
    }

    /** What select found for one core. closed: it has exited. */
    method ServeCore(c: nat, input: map<nat, Input>, writable: bool) returns (closed: bool)
      requires AtRest() && IsPresent(St(), c)
      modifies this, coreRepr, sessionRepr
      ensures AtRest() && fresh(coreRepr - old(coreRepr)) && fresh(sessionRepr - old(sessionRepr))
      ensures Fed(old(log), log, OfCore(c), Offered(input, c))
      ensures old(clientsToRemove) <= clientsToRemove && sessionContexts.Keys == old(sessionContexts.Keys)
    {
      hide Cores, Sessions, Run, Fed, IsPresent;
      closed := false;
      FedNothing(log, OfCore(c));
      if c in input {
        match input[c] {
          case Closed => closed := true;
          case Received(text) => ReadFromCore(c, text);
        }
      }
      if writable {
        StillPresent(old(log), OfCore(c), Offered(input, c), c);
        FlushCoreOutput(c);
      }
    }

    /** read is how far the log was when all cores had been read; after that those that have exited go. */
    method ServeCores(input: map<nat, Input>, writable: set<nat>) returns (ghost read: seq<Event>)
      requires AtRest()
      modifies this, coreRepr, sessionRepr
      ensures AtRest() && fresh(coreRepr - old(coreRepr)) && fresh(sessionRepr - old(sessionRepr))
      ensures CoresFed(old(log), read, input, old(coreInstances.Keys)) && Unfed(read, log) && old(log) <= read <= log
      ensures old(clientsToRemove) <= clientsToRemove && sessionContexts.Keys == old(sessionContexts.Keys)
    {
      hide Cores, Sessions, Run, CoresFed, Fed, Unfed, IsPresent;
      ghost var listed := coreInstances.Keys;
      var todo, coresToRemove: set<nat> := coreInstances.Keys, {};
      PresentCores();
      CoresFedStart(log, input);
      assert listed - todo == {};
      while todo != {}
        invariant AtRest() && fresh(coreRepr - old(coreRepr)) && fresh(sessionRepr - old(sessionRepr))
        invariant todo <= listed && coresToRemove <= listed
        invariant CoresFed(old(log), log, input, listed - todo)
        invariant old(clientsToRemove) <= clientsToRemove && sessionContexts.Keys == old(sessionContexts.Keys)
        decreases |todo|
      {
        var c := Least(todo);
        ListedStays(old(log), input, listed - todo, c);
        ghost var before := log;
        var closed := ServeCore(c, input, c in writable);
        if closed {
          coresToRemove := coresToRemove + {c};
        }
        CoresFedNext(old(log), before, log, input, listed - todo, c);
        assert listed - todo + {c} == listed - (todo - {c});
        todo := todo - {c};
      }
      assert listed - todo == listed;
      read := log;
      forall c | c in coresToRemove ensures IsPresent(St(), c) {
        ListedStays(old(log), input, listed, c);
      }
      RemoveCores(coresToRemove);
      CoresFedGrows(old(log), read, input, listed);
    }

    lemma ListedStays(before: seq<Event>, input: map<nat, Input>, served: set<nat>, c: nat)
      requires AtRest() && CoresFed(before, log, input, served) && IsPresent(Run(world, before), c)
      ensures IsPresent(St(), c)
    {
      hide Cores, Sessions, Run, IsPresent;
      PresentUntilExit(world, before, log, c);
    }

    method RemoveCores(cs: set<nat>)
      requires AtRest() && forall c :: c in cs ==> IsPresent(St(), c)
      modifies this`cores, this`coreInstances, this`log
      ensures AtRest() && Unfed(old(log), log) && old(log) <= log
    {
      hide Cores, Sessions, Run, Text;
      var coresToRemove := cs;
      while coresToRemove != {}
        invariant AtRest() && Unfed(old(log), log)
        invariant forall c :: c in coresToRemove ==> IsPresent(St(), c)
        decreases |coresToRemove|
      {
        var c := Least(coresToRemove);
        ghost var before := log;
        coresToRemove := coresToRemove - {c};
        RemoveCoreInstance(c);
        UnfedOne(before, CoreExit(c));
      }
    }

    lemma PresentCores()
      requires Valid()
      ensures forall c :: c in coreInstances.Keys ==> IsPresent(St(), c)
    {
      hide CoreInstance.Rep, Sessions;
      forall c | c in coreInstances ensures IsPresent(St(), c) {
        CoreAt(c);
      }
    }

    // -------------------------------------------------------------- what the bytes are

    /** What was written to a live TCP client whose cores kept running is, command by command, the lines that
        the server answered and those of the core's reply, joined. */
    lemma ClientReadsItsOutputs(id: nat)
      requires AtRest() && id in sessionContexts && id !in clientsToRemove
      requires sessionContexts[id].connectionType.Tcp? && Undisturbed(cores, sessions[id])
      ensures sessionContexts[id].writer.written == Bytes(world.codes, Tcp, Owns(cores, sessions[id].issued))
      ensures sessionContexts[id].writer.written == Flat(SaidAll(cores, sessions[id].issued))
    {
      hide Run, Cores, Sessions, Bytes, Owns, Undisturbed, SaidAll, Flat;
      SessionAt(id);
      View(id);
      SequentialSession(world, log, id);
      TcpReadsAnswers(world.codes, cores, sessions[id].issued);
    }

    /** The lines written to a core, read by the protocol, are the commands written to it. */
    lemma CoreReadsItsCommands(c: nat)
      requires AtRest() && c in coreInstances
      ensures c in cores && coreInstances[c].writer.written == Flat(cores[c].stream)
      ensures Cut(cores[c].stream, Whole) == (CommandBlocks(cores[c].written), [])
      ensures Entries(cores[c].accepted) == cores[c].written + coreInstances[c].commandQ
    {
      hide Run, Cores, Sessions, Flat, Cut, Entries;
      CoreAt(c);
      CoreView(c);
      CoreInputFraming(world, log, c);
      FifoConserved(world, log, c);
    }

    /** When the sweep ends the conversation of an HTTP client that sent one request, the whole response has
        gone to the socket: header first, status line, and all data of the reply. */
    lemma WholeResponseSent(id: nat)
      requires AtRest() && id in sessionContexts && id !in clientsToRemove && sessions[id].requests <= 1
      requires HelpIsKnown(world) && ConversationOver(St(), id, DrainedNow())
      ensures var x, sent := sessions[id], sessionContexts[id].writer.sent;
        && |x.issued| == 1 && Complete(cores, x.issued[0])
        && sent == Bytes(world.codes, Http, Own(cores, x.issued[0]))
        && "HTTP/1.0 " <= sent && CountHeaders(Own(cores, x.issued[0])) == 1
        && Answers(world.codes, x.out, Said(cores, x.issued[0]), sent)
    {
      hide Run, Cores, Sessions, HelpIsKnown, Own, Complete, Bytes, CountHeaders, Finished, Answers, Said;
      ResponseIsMessage(world, log, id, DrainedNow());
      SessionAt(id);
      View(id);
      HttpResponseComplete(world, log, id, DrainedNow());
    }
  }
}
