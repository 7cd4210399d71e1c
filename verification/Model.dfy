/** The session/core multiplexer as a state machine over values: every step of the select loop as a function
    of the state. The classes of the server are proved against these functions, and the protocol's
    properties are proved about them. */
module Model {
  import opened Framing
  import opened Auth
  import opened HttpRequest
  import opened HttpResponse

  // ---------------------------------------------------------------- state

  /** A queued command (CommandQEntry). */
  datatype Entry = Entry(command: Line, dataset: seq<Line>, clientID: nat, acceptsData: bool, dataFinished: bool)
  {
    predicate Flushable() { !acceptsData || dataFinished }

    function Block(): Block { [command] + dataset }

    function Append(line: Line): Entry {
      if !acceptsData || dataFinished then this
      else this.(dataset := dataset + [line], dataFinished := Blank(line))
    }
  }

  function NewEntry(id: nat, line: Line): Entry {
    Entry(line, [], id, Opens(line), !Opens(line))
  }

  /** A core runs, or was told to stop but is still read from, or was removed. */
  datatype Life = Running | Stopped | Gone

  /** History: a command taken into a core's queue, the number of it among its session's commands, and the
      level the session had. */
  datatype Accepted = Accepted(entry: Entry, ord: nat, level: Level)

  /** A core process as the server sees it. The fields after linebuf are history: commands taken into the
      queue and written out, the lines written, the reply lines per written command, all lines received,
      how many replies were complete when the core stopped running, and whether it spoke unasked. */
  datatype Core = Core(
    name: string, life: Life, commandQ: seq<Entry>, lastClientID: nat, expectingReply: bool, expectingDataset: bool,
    linebuf: string,
    accepted: seq<Accepted>, written: seq<Entry>, stream: seq<Line>, replies: seq<Block>, emitted: seq<Line>,
    doneAtStop: nat, chatty: bool)
  {
    predicate Busy() { expectingReply || expectingDataset }

    predicate HasData(id: nat) { (lastClientID == id && Busy()) || InQueue(commandQ, id) }

    /** The number of complete replies. */
    function Done(): nat { if Busy() && written != [] then |written| - 1 else |written| }

    function ReplyAt(i: nat): Block { if i < |replies| then replies[i] else [] }
  }

  predicate InQueue(queue: seq<Entry>, id: nat) {
    exists i :: 0 <= i < |queue| && queue[i].clientID == id
  }

  /** A command at a core: the index-th that the core accepted. */
  datatype Ref = Ref(core: nat, index: nat)

  /** History: one command of a session as it was handled, and the level the session had when it began.
      served is what the server itself answered, fwd where the command waits for a core's reply. A refused
      HTTP request has an empty block. */
  datatype Issue = Issue(block: Block, tick: nat, level: Level, served: seq<Out>, fwd: Option<Ref>)

  /** A session (SessionContext). The fields after closing are history: output calls, lines handed to
      lineFromClient, commands handled, HTTP requests completed, whether the drain loop ever left lines
      queued behind a data set it opened, and whether the session ever switched cores too early. */
  datatype Session = Session(
    kind: Kind, level: Level, coreID: nat, lineQueue: seq<Line>, curCommand: Option<Entry>, linebuf: string,
    request: seq<Line>, closing: bool,
    out: seq<Out>, received: seq<Line>, issued: seq<Issue>, requests: nat, jumped: bool, warned: bool)

  datatype State = State(
    cores: map<nat, Core>, sessions: map<nat, Session>, marked: set<nat>,
    coreIDCounter: nat, sessionIDCounter: nat, tick: nat)

  const INIT := State(map[], map[], {}, 0, 0, 0)

  /** What the world outside answers while one command is handled: texts, whether starting or killing a
      process works, and the cached users. */
  datatype Answer = Answer(
    status: Line, data: seq<Line>, refusal: string, started: bool, killed: bool, users: Users)

  /** The core command table, the hash function, the HTTP codes, and the answers of the outside world in the
      order in which they are asked for. */
  datatype World = World(
    table: map<string, Level>, crypt: (string, string) -> string, codes: string -> Code, answers: nat -> Answer)

  // ---------------------------------------------------------------- queries

  predicate IsRunning(s: State, c: nat) {
    c in s.cores && s.cores[c].life.Running?
  }

  predicate IsPresent(s: State, c: nat) {
    c in s.cores && !s.cores[c].life.Gone?
  }

  /** findClient: sessions marked for removal are not found. */
  predicate IsClient(s: State, id: nat) {
    id in s.sessions && id !in s.marked
  }

  predicate NamedRunning(s: State, c: nat, name: string) {
    IsRunning(s, c) && s.cores[c].name == name
  }

  predicate NoneNamed(s: State, name: string) {
    forall c :: c in s.cores ==> !NamedRunning(s, c, name)
  }

  /** findNamedInstance: the running core of that name with the smallest ID. */
  function FindNamed(s: State, name: string): (r: Option<nat>)
    ensures r.None? <==> NoneNamed(s, name)
    ensures r.Some? ==> NamedRunning(s, r.value, name)
    ensures r.Some? ==> forall c :: NamedRunning(s, c, name) ==> r.value <= c
  {
    if NoneNamed(s, name) then None
    else Some(LeastNamed(s, name, 0))
  }

  function LeastNamed(s: State, name: string, from: nat): (c: nat)
    requires !NoneNamed(s, name)
    requires forall c :: NamedRunning(s, c, name) ==> from <= c
    ensures NamedRunning(s, c, name) && forall d :: NamedRunning(s, d, name) ==> c <= d
    decreases Ceiling(s.cores.Keys) - from
  {
    CeilingAbove(s.cores.Keys);
    assert exists c :: c in s.cores && NamedRunning(s, c, name);
    if NamedRunning(s, from, name) then from else LeastNamed(s, name, from + 1)
  }

  ghost function Ceiling(keys: set<nat>): nat {
    if keys == {} then 0 else
      var k :| k in keys;
      var rest := Ceiling(keys - {k});
      if k >= rest then k + 1 else rest
  }

  lemma {:induction false} CeilingAbove(keys: set<nat>)
    ensures forall k :: k in keys ==> k < Ceiling(keys)
  {
    if keys != {} {
      var k :| k in keys && Ceiling(keys) == if k >= Ceiling(keys - {k}) then k + 1 else Ceiling(keys - {k});
      CeilingAbove(keys - {k});
      forall j | j in keys ensures j < Ceiling(keys) {
        assert j == k || j in keys - {k};
      }
    }
  }

  predicate IsWaiting(s: State, id: nat)
    requires id in s.sessions
  {
    var x := s.sessions[id];
    x.curCommand.Some? || (IsRunning(s, x.coreID) && s.cores[x.coreID].HasData(id))
  }

  /** What handling a command never changes: the other sessions, and the input side of its own session. */
  ghost predicate Touches(s: State, t: State, id: nat) {
    && id in s.sessions && t.sessions.Keys == s.sessions.Keys
    && (forall j :: j in s.sessions && j != id ==> t.sessions[j] == s.sessions[j])
    && SameInput(s.sessions[id], t.sessions[id])
    && t.marked == s.marked && t.sessionIDCounter == s.sessionIDCounter
    && s.cores.Keys <= t.cores.Keys
  }

  /** The command being handled stays the session's last one; only its answers grow. */
  predicate SameCommand(x: Session, y: Session) {
    var n := |x.issued| - 1;
    && n >= 0 && |y.issued| == n + 1 && y.issued[..n] == x.issued[..n]
    && y.issued[n].block == x.issued[n].block && y.issued[n].tick == x.issued[n].tick
    && y.issued[n].level == x.issued[n].level
  }

  /** Handles part of the current command of session id. */
  ghost predicate Handles(s: State, t: State, id: nat) {
    Touches(s, t, id) && SameCommand(s.sessions[id], t.sessions[id])
  }

  predicate SameInput(x: Session, y: Session) {
    && y.kind == x.kind && y.lineQueue == x.lineQueue && y.curCommand == x.curCommand && y.linebuf == x.linebuf
    && y.request == x.request && y.received == x.received && y.requests == x.requests && y.jumped == x.jumped
    && |y.issued| >= |x.issued|
  }

  // ---------------------------------------------------------------- small updates

  function SetSession(s: State, id: nat, x: Session): State {
    s.(sessions := s.sessions[id := x])
  }

  function SetCore(s: State, c: nat, k: Core): State {
    s.(cores := s.cores[c := k])
  }

  /** A command is taken up: everything until the next Begin belongs to it. */
  function Begin(s: State, id: nat, block: Block): (t: State)
    requires id in s.sessions
    ensures Touches(s, t, id)
  {
    var x := s.sessions[id];
    SetSession(s, id, x.(issued := x.issued + [Issue(block, s.tick, x.level, [], None)])).(tick := s.tick + 1)
  }

  /** An output call of the server for the current command. An HTTP client that would get an empty status
      line first is shut down. */
  function Emit(s: State, id: nat, o: Out): (t: State)
    requires id in s.sessions && s.sessions[id].issued != []
    ensures Handles(s, t, id)
    ensures t.sessions[id].level == s.sessions[id].level
  {
    var x := s.sessions[id];
    var k := |x.issued| - 1;
    SetSession(s, id, Written(x, o).(issued := x.issued[k := x.issued[k].(served := x.issued[k].served + [o])]))
  }

  function Written(x: Session, o: Out): Session {
    var aborts := x.kind.Http? && o.Status? && CountStatus(x.out) == 0 && Blank(o.text);
    x.(out := x.out + [o], closing := x.closing || aborts)
  }

  function EmitAll(s: State, id: nat, outs: seq<Out>): (t: State)
    requires id in s.sessions && s.sessions[id].issued != []
    ensures Handles(s, t, id)
    ensures t.sessions[id].level == s.sessions[id].level
  {
    if outs == [] then s else Emit(EmitAll(s, id, outs[..|outs|-1]), id, outs[|outs|-1])
  }

  /** queueCommand. */
  function Enqueue(s: State, id: nat, c: nat, e: Entry): (t: State)
    requires id in s.sessions && s.sessions[id].issued != [] && c in s.cores
    ensures Handles(s, t, id)
    ensures t.sessions[id].level == s.sessions[id].level
  {
    var x, k := s.sessions[id], s.cores[c];
    var n := |x.issued| - 1;
    var k' := k.(commandQ := k.commandQ + [e], accepted := k.accepted + [Accepted(e, n, x.level)]);
    var x' := x.(issued := x.issued[n := x.issued[n].(fwd := Some(Ref(c, |k.accepted|)))]);
    SetCore(SetSession(s, id, x'), c, k')
  }

  /** flushCommandQ: writes at most one command, because writing one makes the core busy. */
  function FlushCore(k: Core): Core {
    if k.commandQ != [] && !k.Busy() && k.commandQ[0].Flushable() then
      var e := k.commandQ[0];
      k.(commandQ := k.commandQ[1..], lastClientID := e.clientID, expectingReply := true, expectingDataset := false,
         written := k.written + [e], stream := k.stream + e.Block(), replies := k.replies + [[]])
    else k
  }

  /** The core no longer counts as running. */
  function StopCore(k: Core, life: Life): Core {
    k.(life := life, doneAtStop := if k.life.Running? then k.Done() else k.doneAtStop)
  }

  // ---------------------------------------------------------------- commands

  const SERVER_COMMANDS: set<string> := {
    "create-graph", "use-graph", "authorize", "help", "drop-graph", "list-graphs", "session-info",
    "server-stats", "protocol-version", "quit", "shutdown" }

  const ADMIN_COMMANDS: set<string> := { "create-graph", "drop-graph", "shutdown" }

  const CORE_DELIMS: set<char> := {' ', '\t', '\n', ':', '<', '>'}

  const SHUTDOWN_LINE := "shutdown\n"

  function ServerLevel(name: string): Level {
    if name in ADMIN_COMMANDS then Admin else Read
  }

  /** Input or output is redirected. */
  predicate Redirects(line: Line) {
    '<' in line || '>' in line
  }

  /** The name that the core command table knows a command by, and the level it needs. */
  function CoreCommand(w: World, command: Line): Option<Level> {
    var words := SplitString(command, CORE_DELIMS);
    if words == [] || words[0] !in w.table then None
    else Some(if Redirects(command) then Admin else w.table[words[0]])
  }

  function ForwardToCore(w: World, a: Answer, s: State, id: nat, e: Entry): (t: State)
    requires id in s.sessions && s.sessions[id].issued != []
    ensures Handles(s, t, id) && t.cores.Keys == s.cores.Keys
    ensures t.sessions[id].level == s.sessions[id].level
  {
    var x := s.sessions[id];
    if IsRunning(s, x.coreID) then
      var need := CoreCommand(w, e.command);
      if need.None? then Emit(s, id, NotFound(a.refusal))
      else if Rank(x.level) >= Rank(need.value) then
        var t := Enqueue(s, id, x.coreID, e);
        SetCore(t, x.coreID, FlushCore(t.cores[x.coreID]))
      else Emit(s, id, Status(a.refusal, 0))
    else
      var t := Emit(s, id, Status(a.refusal, 0));
      SetSession(t, id, t.sessions[id].(coreID := 0))
  }

  /** The output of a command that answers with a status line and data. */
  function Listing(status: Line, data: seq<Line>): seq<Out> {
    [Status(status, 0)] + seq(|data|, i requires 0 <= i < |data| => Data(data[i], 0))
  }

  function HelpListing(a: Answer): seq<Out> {
    Listing(a.status + ":\n", seq(|a.data|, i requires 0 <= i < |a.data| => "# " + a.data[i] + "\n"))
  }

  function CreateGraph(a: Answer, s: State, id: nat, words: seq<string>): (t: State)
    requires id in s.sessions && s.sessions[id].issued != []
    ensures Handles(s, t, id) && t.sessions[id].level == s.sessions[id].level
  {
    if |words| != 2 || !ValidGraphName(words[1]) || FindNamed(s, words[1]).Some? then s
    else
      var t := s.(coreIDCounter := s.coreIDCounter + 1);
      if !a.started then t else SetCore(t, t.coreIDCounter, FreshCore(words[1]))
  }

  function FreshCore(name: string): Core {
    Core(name, Running, [], 0, false, false, "", [], [], [], [], [], 0, false)
  }

  /** What reconnectSession complains about: the session's old core still has data for it. */
  predicate WarnsOnReconnect(s: State, id: nat)
    requires id in s.sessions
  {
    var c := s.sessions[id].coreID;
    IsRunning(s, c) && s.cores[c].HasData(id)
  }

  /** reconnectSession. */
  function Reconnect(s: State, id: nat, c: nat): (t: State)
    requires id in s.sessions && s.sessions[id].issued != []
    ensures Handles(s, t, id)
    ensures t.sessions[id].level == s.sessions[id].level
  {
    var x := s.sessions[id];
    SetSession(s, id, x.(coreID := c, warned := x.warned || WarnsOnReconnect(s, id)))
  }

  function UseGraph(s: State, id: nat, words: seq<string>): (t: State)
    requires id in s.sessions && s.sessions[id].issued != []
    ensures Handles(s, t, id)
    ensures t.sessions[id].level == s.sessions[id].level
  {
    if |words| != 2 || FindNamed(s, words[1]).None? then s
    else Reconnect(s, id, FindNamed(s, words[1]).value)
  }

  function DropGraph(a: Answer, s: State, id: nat, words: seq<string>): (t: State)
    requires id in s.sessions && s.sessions[id].issued != []
    ensures Handles(s, t, id) && t.sessions[id].level == s.sessions[id].level
  {
    if |words| != 2 || FindNamed(s, words[1]).None? || !a.killed then s
    else
      var c := FindNamed(s, words[1]).value;
      SetCore(s, c, StopCore(s.cores[c], Stopped))
  }

  /** The level that an authorize command earns, if any. */
  function AuthorizeCommand(w: World, a: Answer, words: seq<string>): Option<Level> {
    if |words| != 3 || words[1] != "password" then None else Authorize(a.users, words[2], w.crypt)
  }

  function SetLevel(s: State, id: nat, level: Option<Level>): (t: State)
    requires id in s.sessions && s.sessions[id].issued != []
    ensures Handles(s, t, id)
  {
    if level.None? then s else SetSession(s, id, s.sessions[id].(level := level.value))
  }

  /** Lists the server commands; if the session is connected, the core's own help follows. */
  function HelpAll(w: World, a: Answer, s: State, id: nat, words: seq<string>): (t: State)
    requires id in s.sessions && s.sessions[id].issued != []
    ensures Handles(s, t, id)
    ensures t.sessions[id].level == s.sessions[id].level
  {
    var t := EmitAll(s, id, HelpListing(a));
    if IsRunning(s, s.sessions[id].coreID) then ForwardToCore(w, a, t, id, NewEntry(id, JoinWords(words)))
    else Emit(t, id, Data("\n", 0))
  }

  function Help(w: World, a: Answer, s: State, id: nat, words: seq<string>): (t: State)
    requires id in s.sessions && s.sessions[id].issued != [] && words != []
    ensures Handles(s, t, id)
    ensures t.sessions[id].level == s.sessions[id].level
  {
    if |words| > 2 then Emit(s, id, Status(a.status, 0))
    else if |words| == 1 then HelpAll(w, a, s, id, words)
    else if words[1] in SERVER_COMMANDS && words[1] != "help" then
      EmitAll(s, id, Listing(a.status + words[1] + ":\n", a.data))
    else if IsRunning(s, s.sessions[id].coreID) then ForwardToCore(w, a, s, id, NewEntry(id, JoinWords(words)))
    else Emit(s, id, Status(a.status, 0))
  }

  function Shutdown(w: World, a: Answer, s: State, id: nat, words: seq<string>): (t: State)
    requires id in s.sessions && s.sessions[id].issued != []
    ensures Handles(s, t, id)
    ensures t.sessions[id].level == s.sessions[id].level
  {
    var c := s.sessions[id].coreID;
    if |words| != 1 || !IsRunning(s, c) then s
    else
      var t := ForwardToCore(w, a, s, id, NewEntry(id, SHUTDOWN_LINE));
      SetCore(t, c, StopCore(t.cores[c], Stopped))
  }

  function Quit(a: Answer, s: State, id: nat, words: seq<string>): (t: State)
    requires id in s.sessions && s.sessions[id].issued != []
    ensures Handles(s, t, id) && t.sessions[id].level == s.sessions[id].level
  {
    if |words| != 1 then s
    else
      var t := Emit(s, id, Status(a.status, 0));
      SetSession(t, id, t.sessions[id].(closing := true))
  }

  /** The commands that return no data. */
  const VOID_COMMANDS: set<string> := {
    "create-graph", "use-graph", "drop-graph", "authorize", "protocol-version", "shutdown" }

  function ExecuteVoid(w: World, a: Answer, s: State, id: nat, words: seq<string>): (t: State)
    requires id in s.sessions && s.sessions[id].issued != [] && words != []
    ensures Handles(s, t, id)
    ensures words[0] != "authorize" ==> t.sessions[id].level == s.sessions[id].level
  {
    if words[0] == "create-graph" then CreateGraph(a, s, id, words)
    else if words[0] == "use-graph" then UseGraph(s, id, words)
    else if words[0] == "drop-graph" then DropGraph(a, s, id, words)
    else if words[0] == "authorize" then SetLevel(s, id, AuthorizeCommand(w, a, words))
    else if words[0] == "shutdown" then Shutdown(w, a, s, id, words)
    else s
  }

  /** Runs a server command. Commands that return no data answer with one status line; what it says is up
      to the outside world. */
  function Execute(w: World, a: Answer, s: State, id: nat, words: seq<string>): (t: State)
    requires id in s.sessions && s.sessions[id].issued != []
    requires words != [] && words[0] in SERVER_COMMANDS
    ensures Handles(s, t, id)
    ensures words[0] != "authorize" ==> t.sessions[id].level == s.sessions[id].level
  {
    hide Help, ExecuteVoid, EmitAll, Emit, Quit, Listing;
    if Rank(ServerLevel(words[0])) > Rank(s.sessions[id].level) then Emit(s, id, Status(a.refusal, 0))
    else if words[0] in VOID_COMMANDS then Emit(ExecuteVoid(w, a, s, id, words), id, Status(a.status, 0))
    else if words[0] == "help" then Help(w, a, s, id, words)
    else if words[0] == "quit" then Quit(a, s, id, words)
    else if |words| != 1 then Emit(s, id, Status(a.status, 0))
    else EmitAll(s, id, Listing(a.status, a.data))
  }

  /** processCommand, with the command already begun. */
  function Dispatch(w: World, a: Answer, s: State, id: nat, e: Entry): (t: State)
    requires id in s.sessions && s.sessions[id].issued != []
    ensures Handles(s, t, id)
  {
    var words := SplitString(e.command, BLANKS);
    if words == [] then s
    else if words[0] in SERVER_COMMANDS then
      if e.dataset != [] || Redirects(e.command) then Emit(s, id, Status(a.refusal, 0))
      else Execute(w, a, s, id, words)
    else if s.sessions[id].coreID != 0 then ForwardToCore(w, a, s, id, e)
    else Emit(s, id, NotFound(a.refusal))
  }

  function ProcessCommand(w: World, s: State, id: nat, e: Entry): (t: State)
    requires id in s.sessions
    ensures Touches(s, t, id)
    ensures var x, y := s.sessions[id], t.sessions[id];
      && |y.issued| == |x.issued| + 1 && y.issued[..|x.issued|] == x.issued
      && y.issued[|x.issued|].block == e.Block() && y.issued[|x.issued|].tick == s.tick
      && y.issued[|x.issued|].level == x.level
  {
    Dispatch(w, w.answers(s.tick), Begin(s, id, e.Block()), id, e)
  }

  // ---------------------------------------------------------------- lines from clients

  function PushLine(s: State, id: nat, line: Line): (t: State)
    requires id in s.sessions
    ensures t.sessions.Keys == s.sessions.Keys && t.marked == s.marked
  {
    SetSession(s, id, s.sessions[id].(lineQueue := s.sessions[id].lineQueue + [line]))
  }

  function SetCurrent(s: State, id: nat, e: Option<Entry>): (t: State)
    requires id in s.sessions
    ensures t.sessions.Keys == s.sessions.Keys && t.marked == s.marked
  {
    SetSession(s, id, s.sessions[id].(curCommand := e))
  }

  function LogReceived(s: State, id: nat, line: Line): (t: State)
    requires id in s.sessions
    ensures t.sessions.Keys == s.sessions.Keys && t.marked == s.marked
  {
    SetSession(s, id, s.sessions[id].(received := s.sessions[id].received + [line]))
  }

  /** lineFromClient for a line that ends in a newline. */
  function HandleLine(w: World, s: State, id: nat, line: Line, fromQueue: bool): (t: State)
    requires id in s.sessions
    ensures t.sessions.Keys == s.sessions.Keys && t.marked == s.marked
  {
    var x := s.sessions[id];
    if x.curCommand.Some? then
      var e := x.curCommand.value;
      if e.acceptsData && !e.dataFinished then
        var e' := e.Append(line);
        if e'.Flushable() then SetCurrent(ProcessCommand(w, SetCurrent(s, id, Some(e')), id, e'), id, None)
        else SetCurrent(s, id, Some(e'))
      else PushLine(s, id, line)
    else if !fromQueue && (x.lineQueue != [] || IsWaiting(s, id)) then PushLine(s, id, line)
    else
      var e := NewEntry(id, line);
      if e.Flushable() then ProcessCommand(w, s, id, e) else SetCurrent(s, id, Some(e))
  }

  function LineFromClient(w: World, s: State, id: nat, line: Line): (t: State)
    requires id in s.sessions
    ensures t.sessions.Keys == s.sessions.Keys && t.marked == s.marked
  {
    HandleLine(w, LogReceived(s, id, EnsureNewline(line)), id, EnsureNewline(line), false)
  }

  /** The drain loop takes one line off the queue. */
  function DrainOne(w: World, s: State, id: nat): (t: State)
    requires id in s.sessions && s.sessions[id].lineQueue != []
    ensures t.sessions.Keys == s.sessions.Keys && t.marked == s.marked
  {
    var t := HandleLine(w, s, id, EnsureNewline(s.sessions[id].lineQueue[0]), true);
    var x := t.sessions[id];
    var rest := if x.lineQueue == [] then [] else x.lineQueue[1..];
    SetSession(t, id, x.(lineQueue := rest, jumped := x.jumped || (x.curCommand.Some? && rest != [])))
  }

  predicate Draining(s: State, id: nat) {
    id in s.sessions && s.sessions[id].lineQueue != [] && !IsWaiting(s, id)
  }

  // ---------------------------------------------------------------- lines from HTTP clients

  function Refuse(w: World, s: State, id: nat): (t: State)
    requires id in s.sessions
    ensures t.sessions.Keys == s.sessions.Keys && t.marked == s.marked
  {
    Emit(Begin(s, id, []), id, Status(w.answers(s.tick).status, 0))
  }

  function HttpRun(w: World, s: State, id: nat, target: Target): (t: State)
    requires id in s.sessions
    ensures t.sessions.Keys == s.sessions.Keys && t.marked == s.marked
  {
    match target
    case ToCore(name, command) =>
      var c := FindNamed(s, name);
      if c.None? || Opens(command) then Refuse(w, s, id)
      else LineFromClient(w, SetSession(s, id, s.sessions[id].(coreID := c.value)), id, command)
    case Plain(command) =>
      if Opens(command) then Refuse(w, s, id) else LineFromClient(w, s, id, command)
    case _ => Refuse(w, s, id)
  }

  function LineFromHttpClient(w: World, s: State, id: nat, line: Line): (t: State)
    requires id in s.sessions
    ensures t.sessions.Keys == s.sessions.Keys && t.marked == s.marked
  {
    var x := s.sessions[id];
    var request := x.request + [line];
    if line != "\n" then SetSession(s, id, x.(request := request))
    else HttpRun(w, SetSession(s, id, x.(request := [], requests := x.requests + 1)), id, ParseRequest(request[0]))
  }

  // ---------------------------------------------------------------- lines from cores

  /** lineFromCore: the new flags and history of the core. */
  function CoreHears(k: Core, line: Line): Core {
    var k' := k.(emitted := k.emitted + [line]);
    if k.expectingReply then
      k'.(expectingReply := false, expectingDataset := k.expectingDataset || Opens(line),
          replies := GrowLast(k.replies, line))
    else if k.expectingDataset then
      k'.(expectingDataset := !Blank(line), replies := GrowLast(k.replies, line))
    else k'.(chatty := true)
  }

  function GrowLast(replies: seq<Block>, line: Line): seq<Block> {
    if replies == [] then [] else replies[|replies|-1 := replies[|replies|-1] + [line]]
  }

  function LineFromCore(s: State, c: nat, line: Line): State
    requires c in s.cores
  {
    var k := s.cores[c];
    var t := SetCore(s, c, CoreHears(k, line));
    if IsClient(s, k.lastClientID) && k.Busy() then
      var x := s.sessions[k.lastClientID];
      SetSession(t, k.lastClientID, Written(x, if k.expectingReply then Status(line, c) else Data(line, c)))
    else t
  }

  // ---------------------------------------------------------------- removal

  /** The index of the last queued command of a client. */
  function LastOf(queue: seq<Entry>, id: nat): Option<nat> {
    if queue == [] then None
    else if queue[|queue|-1].clientID == id then Some(|queue| - 1)
    else LastOf(queue[..|queue|-1], id)
  }

  lemma {:induction false} LastOfInRange(queue: seq<Entry>, id: nat)
    ensures LastOf(queue, id).Some? ==> LastOf(queue, id).value < |queue|
  {
    if queue != [] {
      LastOfInRange(queue[..|queue|-1], id);
    }
  }

  /** removeSession ends a data set that its client left open in a core's queue. */
  function EndDataset(k: Core, id: nat): Core {
    var i := LastOf(k.commandQ, id);
    LastOfInRange(k.commandQ, id);
    if i.Some? && !k.commandQ[i.value].Flushable() then
      k.(commandQ := k.commandQ[i.value := k.commandQ[i.value].Append("\n\n")])
    else k
  }

  function RemoveSession(s: State, id: nat): State {
    if id !in s.sessions then s
    else
      var c := s.sessions[id].coreID;
      var t := if c != 0 && IsRunning(s, c) then SetCore(s, c, EndDataset(s.cores[c], id)) else s;
      t.(sessions := t.sessions - {id})
  }
}
