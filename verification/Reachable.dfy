/** Every event keeps the invariant, so every run leads to a state that has it. */
module Reachable {
  import opened Framing
  import opened HttpResponse
  import opened Model
  import opened Machine
  import opened Invariants
  import opened Evolution
  import opened Commands
  import opened Steps

  // ---------------------------------------------------------------- bytes

  lemma BuffersMid(cores: Cores, j: nat, x: Session, y: Session, live: bool)
    requires Mid(cores, j, x, live) && y == x.(linebuf := y.linebuf, closing := y.closing)
    ensures Mid(cores, j, y, live)
  {
    hide Settled, Owns, Routed, OnlyFrom;
    BackGrows(cores, j, x, y);
  }

  lemma BuffersEnd(w: World, cores: Cores, j: nat, x: Session, y: Session, live: bool)
    requires End(w, cores, j, x) && y == x.(linebuf := y.linebuf, closing := y.closing)
    ensures End(w, cores, j, y) && (NoneStranded(cores, x, live) ==> NoneStranded(cores, y, live))
  {
    hide Settled, LevelAfter, HttpServed, WholeBlocks, Opens, EnsureNewline;
  }

  /** Input buffers and the closing flag are nobody's business. */
  lemma BuffersAreFree(w: World, cores: Cores, j: nat, x: Session, y: Session, live: bool)
    requires SessionOk(w, cores, j, x, live, true) && y == x.(linebuf := y.linebuf, closing := y.closing)
    ensures SessionOk(w, cores, j, y, live, true)
  {
    hide Mid, End, NoneStranded;
    BuffersMid(cores, j, x, y, live);
    BuffersEnd(w, cores, j, x, y, live);
  }

  lemma BuffersKeep(w: World, s: State, id: nat, y: Session)
    requires Inv(w, s, 0) && id in s.sessions
    requires y == s.sessions[id].(linebuf := y.linebuf, closing := y.closing)
    ensures Inv(w, SetSession(s, id, y), 0)
  {
    hide CoresOk, SessionOk;
    NobodyActs(w, s);
    BuffersAreFree(w, s.cores, id, s.sessions[id], y, id !in s.marked);
  }

  lemma ClientByteKeeps(w: World, s: State, id: nat, c: char)
    requires Inv(w, s, 0) && id in s.sessions
    ensures Inv(w, ReadClientByte(w, s, id, c), 0)
  {
    hide Inv, LineFromClient, LineFromHttpClient;
    var x := s.sessions[id];
    var line := x.linebuf + [c];
    if c == '\n' && id !in s.marked {
      var s1 := SetSession(s, id, x.(linebuf := ""));
      BuffersKeep(w, s, id, x.(linebuf := ""));
      if x.kind.Http? {
        HttpLineFromKeeps(w, s1, id, line);
      } else {
        TcpLineKeeps(w, s1, id, line);
      }
    } else if c != '\r' {
      BuffersKeep(w, s, id, x.(linebuf := line));
    }
  }

  lemma CoreLinebufKeeps(w: World, s: State, c: nat, buf: string)
    requires Inv(w, s, 0) && c in s.cores
    ensures Inv(w, SetCore(s, c, s.cores[c].(linebuf := buf)), 0)
  {
    hide SessionsOk, CoreOk, CoreEvolves;
    var k := s.cores[c];
    assert CoreFine(w, c, k, s.coreIDCounter, s.sessionIDCounter);
    forall j | j in s.sessions ensures CoreEvolves(k, k.(linebuf := buf), j) {
      LinebufEvolves(k, buf, j);
    }
    LinebufOk(k, buf);
    NeutralCore(w, s, 0, c, k.(linebuf := buf));
  }

  lemma CoreByteKeeps(w: World, s: State, c: nat, b: char)
    requires Inv(w, s, 0) && c in s.cores
    ensures Inv(w, ReadCoreByte(w, s, c, b), 0)
  {
    hide Inv, CoreLine;
    var k := s.cores[c];
    var buf := if b == '\n' then "" else k.linebuf + [b];
    CoreLinebufKeeps(w, s, c, buf);
    CoreLineKeeps(w, SetCore(s, c, k.(linebuf := buf)), c, k.linebuf + [b]);
  }

  lemma LinebufOk(k: Core, buf: string)
    requires CoreOk(k)
    ensures CoreOk(k.(linebuf := buf))
  {
  }

  // ---------------------------------------------------------------- the other events

  lemma FlushAllKeeps(w: World, s: State)
    requires Inv(w, s, 0)
    ensures Inv(w, FlushAll(s), 0)
  {
    hide CoreOk, CoreEvolves, FlushCore, Mid, End, NoneStranded;
    var t := FlushAll(s);
    forall d | d in t.cores ensures CoreFine(w, d, t.cores[d], t.coreIDCounter, t.sessionIDCounter)
    {
      assert CoreFine(w, d, s.cores[d], s.coreIDCounter, s.sessionIDCounter);
      FlushCoreOk(s.cores[d]);
      FlushKeepsNames(s.cores[d]);
    }
    forall d | d in s.cores ensures t.cores[d].life == s.cores[d].life && t.cores[d].name == s.cores[d].name {
      FlushKeepsNames(s.cores[d]);
    }
    forall j | j in s.sessions ensures Evolves(s.cores, t.cores, j) {
      forall d | d in s.cores ensures CoreEvolves(s.cores[d], t.cores[d], j) {
        assert CoreFine(w, d, s.cores[d], s.coreIDCounter, s.sessionIDCounter);
        FlushEvolves(s.cores[d], j);
        SameEvolves(s.cores, j);
      }
    }
    NamesStayUnique(s.cores, t.cores);
    NobodyActs(w, s);
    Bystanders(w, s, t, 0);
  }

  lemma FlushKeepsNames(k: Core)
    ensures FlushCore(k).name == k.name && FlushCore(k).life == k.life && FlushCore(k).accepted == k.accepted
  {
  }

  lemma NobodyActs(w: World, s: State)
    requires Inv(w, s, 0)
    ensures 0 !in s.sessions
  {
    hide CoresOk, SessionOk;
  }

  lemma MarkKeeps(w: World, s: State, id: nat)
    requires Inv(w, s, 0) && id in s.sessions
    ensures Inv(w, s.(marked := s.marked + {id}), 0)
  {
    hide CoresOk, End, Refs, Back, Turn, Delivered;
  }

  lemma SetCoreSame(s: State, c: nat)
    requires c in s.cores
    ensures SetCore(s, c, s.cores[c]) == s
  {
    assert s.cores[c := s.cores[c]] == s.cores;
  }

  lemma EndDatasetIsIdle(k: Core, id: nat)
    requires CoreOk(k)
    ensures EndDataset(k, id) == k
  {
    QueueIsFlushable(k);
    LastOfInRange(k.commandQ, id);
  }

  /** Removing a session touches no core: there is never an unfinished data set in a queue. */
  lemma RemovalIsClean(w: World, s: State, id: nat)
    requires CoresOk(w, s.cores, s.coreIDCounter, s.sessionIDCounter)
    ensures RemoveSession(s, id) == s.(sessions := s.sessions - {id})
  {
    if id in s.sessions {
      var c := s.sessions[id].coreID;
      if IsRunning(s, c) {
        assert CoreFine(w, c, s.cores[c], s.coreIDCounter, s.sessionIDCounter);
        EndDatasetIsIdle(s.cores[c], id);
        SetCoreSame(s, c);
      }
    } else {
      assert s.sessions - {id} == s.sessions;
    }
  }

  lemma {:induction false} RemovalsAreClean(w: World, s: State, ids: set<nat>)
    requires CoresOk(w, s.cores, s.coreIDCounter, s.sessionIDCounter)
    ensures RemoveAll(s, ids) == s.(sessions := s.sessions - ids)
    decreases |ids|
  {
    hide CoresOk, RemoveSession;
    if ids == {} {
      assert s.sessions - {} == s.sessions;
    } else {
      var id := Least(ids);
      RemovalIsClean(w, s, id);
      RemovalsAreClean(w, RemoveSession(s, id), ids - {id});
      assert s.sessions - {id} - (ids - {id}) == s.sessions - ids;
    }
  }

  lemma ReapKeeps(w: World, s: State)
    requires Inv(w, s, 0)
    ensures Inv(w, RemoveAll(s, s.marked).(marked := {}), 0)
  {
    hide CoresOk, SessionOk;
    RemovalsAreClean(w, s, s.marked);
  }

  lemma {:induction false} NothingRouted(k: Core, c: nat, id: nat, n: nat)
    requires forall i :: 0 <= i < |k.written| ==> k.written[i].clientID != id
    ensures RoutedTo(k, c, id, n) == []
  {
    if n > 0 {
      NothingRouted(k, c, id, n - 1);
    }
  }

  /** No core knows an ID that was not handed out yet. */
  lemma UnknownID(w: World, s: State, c: nat, id: nat)
    requires CoresOk(w, s.cores, s.coreIDCounter, s.sessionIDCounter) && id > s.sessionIDCounter && c in s.cores
    ensures Routed(s.cores[c], c, id) == []
    ensures forall i :: 0 <= i < |s.cores[c].accepted| ==> s.cores[c].accepted[i].entry.clientID != id
  {
    hide EntryOk, ReplyState, AnsweredBut, Stream, Flat;
    assert CoreFine(w, c, s.cores[c], s.coreIDCounter, s.sessionIDCounter);
    var k := s.cores[c];
    assert forall i :: 0 <= i < |k.written| ==> k.accepted[i].entry == k.written[i];
    NothingRouted(k, c, id, |k.written|);
  }

  lemma FreshSessionOk(w: World, s: State, id: nat, kind: Kind)
    requires CoresOk(w, s.cores, s.coreIDCounter, s.sessionIDCounter) && id > s.sessionIDCounter
    ensures SessionOk(w, s.cores, id, FreshSession(kind), true, true)
    ensures SessionOk(w, s.cores, id, FreshSession(kind), false, true)
  {
    hide CoresOk, Routed;
    forall c | c in s.cores
      ensures Routed(s.cores[c], c, id) == []
      ensures forall i :: 0 <= i < |s.cores[c].accepted| ==> s.cores[c].accepted[i].entry.clientID != id
    {
      UnknownID(w, s, c, id);
    }
  }

  lemma AcceptKeeps(w: World, s: State, kind: Kind)
    requires Inv(w, s, 0)
    ensures Inv(w, Step(w, s, Accept(kind)), 0)
  {
    hide CoreOk, SessionOk;
    var id := s.sessionIDCounter + 1;
    FreshSessionOk(w, s, id, kind);
    forall c | c in s.cores ensures CoreFine(w, c, s.cores[c], s.coreIDCounter, id) {
      assert CoreFine(w, c, s.cores[c], s.coreIDCounter, s.sessionIDCounter);
    }
  }

  lemma SweepKeeps(w: World, s: State, drained: set<nat>)
    requires Inv(w, s, 0)
    ensures Inv(w, Sweep(s, drained), 0)
  {
    hide CoresOk, SessionOk, ConversationOver;
    NobodyActs(w, s);
    forall j | j in s.sessions
      ensures SessionOk(w, s.cores, j, Sweep(s, drained).sessions[j], j !in s.marked, true)
    {
      BuffersAreFree(w, s.cores, j, s.sessions[j], Sweep(s, drained).sessions[j], j !in s.marked);
    }
  }

  lemma StepKeeps(w: World, s: State, e: Event)
    requires Inv(w, s, 0)
    ensures Inv(w, Step(w, s, e), 0)
  {
    hide Inv, ReadClientByte, ReadCoreByte, FlushAll, Sweep, StopCore, RemoveAll;
    match e {
      case Accept(kind) => AcceptKeeps(w, s, kind);
      case ClientByte(id, c) => if id in s.sessions { ClientByteKeeps(w, s, id, c); }
      case CoreByte(c, b) => if IsPresent(s, c) { CoreByteKeeps(w, s, c, b); }
      case Flush => FlushAllKeeps(w, s);
      case Mark(id) => if id in s.sessions { MarkKeeps(w, s, id); }
      case Reap => ReapKeeps(w, s);
      case CoreExit(c) => if IsPresent(s, c) { StopKeeps(w, s, 0, c, Gone); }
      case SweepHttp(drained) => SweepKeeps(w, s, drained);
    }
  }

  /** Every reachable state has the invariant. */
  lemma {:induction false} AlwaysInv(w: World, events: seq<Event>)
    ensures Inv(w, Run(w, events), 0)
  {
    hide Step;
    if events != [] {
      AlwaysInv(w, events[..|events|-1]);
      StepKeeps(w, Run(w, events[..|events|-1]), events[|events|-1]);
    }
  }
}
