/** Runs of the server: the events of the select loop in any order, and the state they lead to. */
module Machine {
  import opened Framing
  import opened Auth
  import opened HttpResponse
  import opened Model

  /** Each drain iteration takes exactly one line off the queue and adds none, so the loop ends. */
  lemma DrainOneShrinks(w: World, s: State, id: nat)
    requires Draining(s, id)
    ensures DrainOne(w, s, id).sessions[id].lineQueue == s.sessions[id].lineQueue[1..]
  {
  }

  /** The drain loop: held lines run until the queue is empty or the session waits again. */
  function Drain(w: World, s: State, id: nat): State
    decreases if id in s.sessions then |s.sessions[id].lineQueue| else 0
  {
    if !Draining(s, id) then s
    else
      DrainOneShrinks(w, s, id);
      Drain(w, DrainOne(w, s, id), id)
  }

  /** A complete line from a core: it is routed, and if its client was waiting, held lines may run. */
  function CoreLine(w: World, s: State, c: nat, line: Line): State
    requires c in s.cores
  {
    var id := s.cores[c].lastClientID;
    var waiting := IsClient(s, id) && IsWaiting(s, id);
    var t := LineFromCore(s, c, line);
    if waiting then Drain(w, t, id) else t
  }

  /** A complete line from a client. */
  function ClientLine(w: World, s: State, id: nat, line: Line): State
    requires id in s.sessions
  {
    if s.sessions[id].kind.Http? then LineFromHttpClient(w, s, id, line) else LineFromClient(w, s, id, line)
  }

  /** What can happen next. Write failures on a session's socket and read errors appear as Mark. */
  datatype Event =
    | Accept(kind: Kind)
    | ClientByte(id: nat, c: char)
    | CoreByte(core: nat, c: char)
    | Flush
    | Mark(id: nat)
    | Reap
    | CoreExit(core: nat)
    | SweepHttp(drained: set<nat>)

  /** One byte read from a client's socket. */
  function ReadClientByte(w: World, s: State, id: nat, c: char): State
    requires id in s.sessions
  {
    if c == '\r' then s
    else
      var x := s.sessions[id];
      var line := x.linebuf + [c];
      if c != '\n' || id in s.marked then SetSession(s, id, x.(linebuf := line))
      else ClientLine(w, SetSession(s, id, x.(linebuf := "")), id, line)
  }

  /** One byte read from a core's pipe. */
  function ReadCoreByte(w: World, s: State, c: nat, b: char): State
    requires c in s.cores
  {
    if b == '\r' then s
    else
      var k := s.cores[c];
      var line := k.linebuf + [b];
      if b != '\n' then SetCore(s, c, k.(linebuf := line))
      else CoreLine(w, SetCore(s, c, k.(linebuf := "")), c, line)
  }

  function FlushAll(s: State): State {
    s.(cores := map c | c in s.cores :: if s.cores[c].life.Gone? then s.cores[c] else FlushCore(s.cores[c]))
  }

  /** Deferred removal of the marked sessions, one after the other. */
  function RemoveAll(s: State, ids: set<nat>): State
    decreases Top(ids)
  {
    if ids == {} then s
    else
      var id := Least(ids);
      TopShrinks(ids, id);
      RemoveAll(RemoveSession(s, id), ids - {id})
  }

  ghost function Top(ids: set<nat>): nat { |ids| }

  lemma TopShrinks(ids: set<nat>, id: nat)
    requires id in ids
    ensures Top(ids - {id}) < Top(ids)
  {
  }

  ghost predicate Lowest(ids: set<nat>, id: nat) {
    id in ids && forall j :: j in ids ==> id <= j
  }

  /** A set is walked in ascending order. */
  function Least(ids: set<nat>): (id: nat)
    requires ids != {}
    ensures Lowest(ids, id)
  {
    LeastExists(ids);
    var id :| id in ids && forall j :: j in ids ==> id <= j;
    id
  }

  lemma {:induction false} LeastExists(ids: set<nat>)
    requires ids != {}
    ensures exists id :: Lowest(ids, id)
    decreases |ids|
  {
    var k :| k in ids;
    if ids == {k} {
      assert Lowest(ids, k);
    } else {
      LeastExists(ids - {k});
      var m :| Lowest(ids - {k}, m);
      forall j | j in ids ensures k <= j || m <= j {
        assert j == k || j in ids - {k};
      }
      assert Lowest(ids, if k < m then k else m);
    }
  }

  /** The rule by which the loop ends an HTTP conversation. drained: sessions without buffered output. */
  predicate ConversationOver(s: State, id: nat, drained: set<nat>) {
    id in s.sessions &&
    var x := s.sessions[id];
    && x.kind.Http? && Finished(x.out) && id in drained
    && (!IsRunning(s, x.coreID) || !s.cores[x.coreID].HasData(id))
  }

  function Sweep(s: State, drained: set<nat>): State {
    s.(sessions := map id | id in s.sessions ::
      if ConversationOver(s, id, drained) then s.sessions[id].(closing := true) else s.sessions[id])
  }

  function FreshSession(kind: Kind): Session {
    Session(kind, Read, 0, [], None, "", [], false, [], [], [], 0, false, false)
  }

  function Step(w: World, s: State, e: Event): State {
    match e
    case Accept(kind) =>
      var id := s.sessionIDCounter + 1;
      s.(sessions := s.sessions[id := FreshSession(kind)], sessionIDCounter := id)
    case ClientByte(id, c) => if id in s.sessions then ReadClientByte(w, s, id, c) else s
    case CoreByte(c, b) => if IsPresent(s, c) then ReadCoreByte(w, s, c, b) else s
    case Flush => FlushAll(s)
    case Mark(id) => if id in s.sessions then s.(marked := s.marked + {id}) else s
    case Reap => RemoveAll(s, s.marked).(marked := {})
    case CoreExit(c) => if IsPresent(s, c) then SetCore(s, c, StopCore(s.cores[c], Gone)) else s
    case SweepHttp(drained) => Sweep(s, drained)
  }

  /** The state after a run. */
  function Run(w: World, events: seq<Event>): State {
    if events == [] then INIT else Step(w, Run(w, events[..|events|-1]), events[|events|-1])
  }

  /** A stretch of bytes arriving from one descriptor. */
  function ClientBytes(id: nat, buf: string): seq<Event> {
    seq(|buf|, i requires 0 <= i < |buf| => ClientByte(id, buf[i]))
  }

  function CoreBytes(c: nat, buf: string): seq<Event> {
    seq(|buf|, i requires 0 <= i < |buf| => CoreByte(c, buf[i]))
  }
}
