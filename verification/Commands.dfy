/** Every step of handling one command keeps the invariants. */
module Commands {
  import opened Framing
  import opened Auth
  import opened HttpResponse
  import opened Model
  import opened Invariants
  import opened Evolution

  /** No line of the command's reply has arrived. */
  ghost predicate Unanswered(cores: Cores, iss: Issue) {
    iss.fwd.Some? && iss.fwd.value.core in cores ==>
      cores[iss.fwd.value.core].ReplyAt(iss.fwd.value.index) == []
  }

  ghost predicate MayAnswer(cores: Cores, x: Session) {
    x.issued != [] && Unanswered(cores, x.issued[|x.issued|-1])
  }

  /** A TCP session awaits nothing. */
  ghost predicate Free(cores: Cores, x: Session) {
    x.kind.Tcp? ==> AllSettled(cores, x)
  }

  /** A command has begun and is not forwarded. */
  ghost predicate Ready(cores: Cores, x: Session) {
    x.issued != [] && x.issued[|x.issued|-1].fwd.None? && Free(cores, x)
  }

  function LastBlock(x: Session): Block
    requires x.issued != []
  {
    x.issued[|x.issued|-1].block
  }

  /** The session's last command goes to the core as e, and its level has not changed since it began. */
  predicate ForwardsLast(x: Session, e: Entry) {
    x.issued != [] && x.issued[|x.issued|-1].level == x.level && Forwards(LastBlock(x), e)
  }

  predicate FromServer(o: Out) {
    o.NotFound? || o.from == 0
  }

  // ---------------------------------------------------------------- a session changes

  lemma ActorChanges(w: World, s: State, id: nat, y: Session)
    requires Inv(w, s, id) && id in s.sessions
    requires Mid(s.cores, id, y, id !in s.marked)
    ensures Inv(w, SetSession(s, id, y), id)
  {
    hide CoreOk, Gate, Mid;
    forall j ensures Evolves(s.cores, s.cores, j) {
      SameEvolves(s.cores, j);
    }
    assert forall c :: c in s.cores ==> CoreFine(w, c, s.cores[c], s.coreIDCounter, s.sessionIDCounter);
    Bystanders(w, s, SetSession(s, id, y), id);
  }

  lemma BackGrows(cores: Cores, id: nat, x: Session, y: Session)
    requires Back(cores, id, x) && |y.issued| >= |x.issued|
    requires forall k :: 0 <= k < |x.issued| ==> y.issued[k].fwd == x.issued[k].fwd
    ensures Back(cores, id, y)
  {
    forall c, i | c in cores && 0 <= i < |cores[c].accepted| && cores[c].accepted[i].entry.clientID == id
      ensures BackRef(y, c, i, cores[c].accepted[i].ord)
    {
      assert BackRef(x, c, i, cores[c].accepted[i].ord);
    }
  }

  /** Answers do not matter to who waits for what. */
  lemma SameFwd(cores: Cores, id: nat, x: Session, y: Session)
    requires |y.issued| == |x.issued| && y.kind == x.kind
    requires forall k :: 0 <= k < |x.issued| ==>
      && y.issued[k].fwd == x.issued[k].fwd && y.issued[k].block == x.issued[k].block
      && y.issued[k].level == x.issued[k].level
    ensures Refs(cores, id, x) ==> Refs(cores, id, y)
    ensures Back(cores, id, x) ==> Back(cores, id, y)
    ensures y.coreID == x.coreID && Turn(cores, x) ==> Turn(cores, y)
    ensures Free(cores, x) ==> Free(cores, y) && Turn(cores, y)
    ensures Undisturbed(cores, x) <==> Undisturbed(cores, y)
  {
    if Back(cores, id, x) {
      BackGrows(cores, id, x, y);
    }
    assert forall k :: 0 <= k < |x.issued| ==> (Settled(cores, y.issued[k]) <==> Settled(cores, x.issued[k]));
  }

  lemma BeginMid(cores: Cores, id: nat, x: Session, y: Session, iss: Issue, live: bool)
    requires Mid(cores, id, x, live) && Free(cores, x)
    requires y == x.(issued := x.issued + [iss]) && iss.fwd.None? && iss.served == []
    ensures Mid(cores, id, y, live) && Ready(cores, y)
  {
    assert y.issued[..|x.issued|] == x.issued;
    assert Owns(cores, y.issued) == Owns(cores, x.issued);
    assert Undisturbed(cores, y) ==> Undisturbed(cores, x) by {
      assert forall k :: 0 <= k < |x.issued| ==> y.issued[k] == x.issued[k];
    }
    BackGrows(cores, id, x, y);
  }

  lemma TickIsFree(w: World, s: State, actor: nat)
    requires Inv(w, s, actor)
    ensures Inv(w, s.(tick := s.tick + 1), actor)
  {
    hide Mid, End, NoneStranded, CoreFine;
  }

  lemma BeginKeeps(w: World, s: State, id: nat, block: Block)
    requires Inv(w, s, id) && id in s.sessions && Free(s.cores, s.sessions[id])
    ensures var t := Begin(s, id, block); Inv(w, t, id) && Ready(t.cores, t.sessions[id])
  {
    hide CoresOk, Mid, Ready, Free;
    var x := s.sessions[id];
    var iss := Issue(block, s.tick, x.level, [], None);
    var y := x.(issued := x.issued + [iss]);
    BeginMid(s.cores, id, x, y, iss, id !in s.marked);
    ActorChanges(w, s, id, y);
    TickIsFree(w, SetSession(s, id, y), id);
  }

  lemma EmitRoutes(cores: Cores, id: nat, x: Session, y: Session, o: Out, live: bool)
    requires Routes(cores, id, x, live) && y.out == x.out + [o] && FromServer(o) && 0 !in cores
    ensures Routes(cores, id, y, live)
  {
    assert y.out[..|x.out|] == x.out;
    assert forall c :: c > 0 ==> OnlyFrom(y.out, c) == OnlyFrom(x.out, c);
  }

  lemma EmitOwns(cores: Cores, x: Session, y: Session, o: Out)
    requires MayAnswer(cores, x)
    requires var n := |x.issued| - 1; y.issued == x.issued[n := x.issued[n].(served := x.issued[n].served + [o])]
    ensures Owns(cores, y.issued) == Owns(cores, x.issued) + [o]
    ensures MayAnswer(cores, y) && (Ready(cores, x) && y.kind == x.kind ==> Ready(cores, y))
  {
    var n := |x.issued| - 1;
    assert y.issued[..n] == x.issued[..n];
    assert Own(cores, y.issued[n]) == Own(cores, x.issued[n]) + [o];
    assert forall k :: 0 <= k < |x.issued| ==> (Settled(cores, y.issued[k]) <==> Settled(cores, x.issued[k]));
  }

  lemma EmitMid(cores: Cores, id: nat, x: Session, y: Session, o: Out, live: bool)
    requires Mid(cores, id, x, live) && MayAnswer(cores, x) && FromServer(o) && 0 !in cores
    requires y.kind == x.kind && y.coreID == x.coreID && y.out == x.out + [o]
    requires var n := |x.issued| - 1; y.issued == x.issued[n := x.issued[n].(served := x.issued[n].served + [o])]
    ensures Mid(cores, id, y, live) && MayAnswer(cores, y)
    ensures Ready(cores, x) ==> Ready(cores, y)
  {
    hide Refs, Back, Turn, Undisturbed, Owns, Unanswered, Routes, Free;
    SameFwd(cores, id, x, y);
    EmitRoutes(cores, id, x, y, o, live);
    EmitOwns(cores, x, y, o);
  }

  lemma EmitKeeps(w: World, s: State, id: nat, o: Out)
    requires Inv(w, s, id) && id in s.sessions && MayAnswer(s.cores, s.sessions[id]) && FromServer(o)
    ensures var t := Emit(s, id, o); Inv(w, t, id) && MayAnswer(t.cores, t.sessions[id])
    ensures Ready(s.cores, s.sessions[id]) ==> Ready(s.cores, Emit(s, id, o).sessions[id])
  {
    hide Mid, Ready, CoreOk, Gate;
    var y := Emit(s, id, o).sessions[id];
    EmitMid(s.cores, id, s.sessions[id], y, o, id !in s.marked);
    ActorChanges(w, s, id, y);
  }

  lemma {:induction false} EmitAllKeeps(w: World, s: State, id: nat, outs: seq<Out>)
    requires Inv(w, s, id) && id in s.sessions && MayAnswer(s.cores, s.sessions[id])
    requires forall i :: 0 <= i < |outs| ==> FromServer(outs[i])
    ensures var t := EmitAll(s, id, outs); Inv(w, t, id) && MayAnswer(t.cores, t.sessions[id])
    ensures var t := EmitAll(s, id, outs);
      t.cores == s.cores && (Ready(s.cores, s.sessions[id]) ==> Ready(s.cores, t.sessions[id]))
  {
    hide Inv, Ready;
    if outs != [] {
      EmitAllKeeps(w, s, id, outs[..|outs|-1]);
      EmitKeeps(w, EmitAll(s, id, outs[..|outs|-1]), id, outs[|outs|-1]);
    }
  }

  lemma ReconnectMid(cores: Cores, id: nat, x: Session, y: Session, live: bool)
    requires Mid(cores, id, x, live) && y == x.(coreID := y.coreID, level := y.level, closing := y.closing,
                                                         warned := y.warned)
    requires y.coreID != x.coreID ==> Free(cores, x)
    ensures Mid(cores, id, y, live)
    ensures Ready(cores, x) ==> Ready(cores, y)
    ensures MayAnswer(cores, x) ==> MayAnswer(cores, y)
  {
    hide Refs, Back, Turn, Undisturbed, Owns, Unanswered, OnlyFrom, Routed;
    SameFwd(cores, id, x, y);
  }

  /** Level and core of a session that awaits nothing may change. */
  lemma ReconnectKeeps(w: World, s: State, id: nat, y: Session)
    requires Inv(w, s, id) && id in s.sessions
    requires y == s.sessions[id].(coreID := y.coreID, level := y.level, closing := y.closing, warned := y.warned)
    requires y.coreID != s.sessions[id].coreID ==> Free(s.cores, s.sessions[id])
    ensures Inv(w, SetSession(s, id, y), id)
    ensures Ready(s.cores, s.sessions[id]) ==> Ready(s.cores, y)
    ensures MayAnswer(s.cores, s.sessions[id]) ==> MayAnswer(s.cores, y)
  {
    hide CoresOk, Mid, Ready, MayAnswer, Free;
    ReconnectMid(s.cores, id, s.sessions[id], y, id !in s.marked);
    ActorChanges(w, s, id, y);
  }

  // ---------------------------------------------------------------- a core changes

  /** A core changes in a way that concerns no session's commands. */
  lemma NeutralCore(w: World, s: State, actor: nat, c: nat, k: Core)
    requires Inv(w, s, actor) && c in s.cores
    requires CoreOk(k) && k.accepted == s.cores[c].accepted && k.name == s.cores[c].name
    requires forall j :: j in s.sessions ==> CoreEvolves(s.cores[c], k, j)
    requires k.life.Running? ==> s.cores[c].life.Running?
    ensures Inv(w, SetCore(s, c, k), actor)
  {
    hide CoreOk, CoreEvolves, Mid, End, NoneStranded;
    var t := SetCore(s, c, k);
    forall d | d in t.cores ensures CoreFine(w, d, t.cores[d], t.coreIDCounter, t.sessionIDCounter) {
      assert CoreFine(w, d, s.cores[d], s.coreIDCounter, s.sessionIDCounter);
    }
    forall j | j in s.sessions ensures Evolves(s.cores, t.cores, j) {
      OneEvolves(s.cores, c, k, j);
    }
    if actor in s.sessions {
      MidEvolves(s.cores, t.cores, actor, s.sessions[actor], actor !in s.marked);
    }
    NamesStayUnique(s.cores, t.cores);
    Bystanders(w, s, t, actor);
  }

  lemma FlushKeeps(w: World, s: State, actor: nat, c: nat)
    requires Inv(w, s, actor) && c in s.cores
    ensures Inv(w, SetCore(s, c, FlushCore(s.cores[c])), actor)
    ensures forall x :: MayAnswer(s.cores, x) ==> MayAnswer(s.cores[c := FlushCore(s.cores[c])], x)
  {
    hide CoreOk, CoreEvolves, SessionsOk;
    assert CoreFine(w, c, s.cores[c], s.coreIDCounter, s.sessionIDCounter);
    FlushCoreOk(s.cores[c]);
    forall j | j in s.sessions ensures CoreEvolves(s.cores[c], FlushCore(s.cores[c]), j) {
      FlushEvolves(s.cores[c], j);
    }
    NeutralCore(w, s, actor, c, FlushCore(s.cores[c]));
    FlushAddsNoLine(s.cores[c]);
  }

  lemma FlushAddsNoLine(k: Core)
    ensures forall i: nat :: k.ReplyAt(i) == [] ==> FlushCore(k).ReplyAt(i) == []
  {
  }

  lemma StopKeeps(w: World, s: State, actor: nat, c: nat, life: Life)
    requires Inv(w, s, actor) && c in s.cores && life != Running
    ensures Inv(w, SetCore(s, c, StopCore(s.cores[c], life)), actor)
    ensures forall x :: MayAnswer(s.cores, x) ==> MayAnswer(s.cores[c := StopCore(s.cores[c], life)], x)
    ensures forall x :: Ready(s.cores, x) ==> Ready(s.cores[c := StopCore(s.cores[c], life)], x)
  {
    hide CoreOk, CoreEvolves, SessionsOk;
    assert CoreFine(w, c, s.cores[c], s.coreIDCounter, s.sessionIDCounter);
    StopCoreOk(s.cores[c], life);
    forall j | j in s.sessions ensures CoreEvolves(s.cores[c], StopCore(s.cores[c], life), j) {
      StopEvolves(s.cores[c], life, j);
    }
    NeutralCore(w, s, actor, c, StopCore(s.cores[c], life));
  }

  lemma CounterKeeps(w: World, s: State, actor: nat)
    requires Inv(w, s, actor)
    ensures Inv(w, s.(coreIDCounter := s.coreIDCounter + 1), actor)
  {
    hide CoreOk, Gate, SessionOk;
    var t := s.(coreIDCounter := s.coreIDCounter + 1);
    forall d | d in t.cores ensures CoreFine(w, d, t.cores[d], t.coreIDCounter, t.sessionIDCounter) {
      assert CoreFine(w, d, s.cores[d], s.coreIDCounter, s.sessionIDCounter);
    }
  }

  lemma AddCoreKeeps(w: World, s: State, actor: nat, c: nat, name: string)
    requires Inv(w, s, actor) && NoneNamed(s, name) && c !in s.cores && 0 < c <= s.coreIDCounter
    ensures Inv(w, SetCore(s, c, FreshCore(name)), actor)
  {
    hide CoreOk, Mid, End, NoneStranded;
    var t := SetCore(s, c, FreshCore(name));
    FreshCoreOk(name);
    forall d | d in t.cores ensures CoreFine(w, d, t.cores[d], t.coreIDCounter, t.sessionIDCounter) {
      assert d in s.cores ==> CoreFine(w, d, s.cores[d], s.coreIDCounter, s.sessionIDCounter);
    }
    forall j | j in s.sessions ensures Evolves(s.cores, t.cores, j) {
      NewEvolves(s.cores, c, FreshCore(name), j);
    }
    if actor in s.sessions {
      MidEvolves(s.cores, t.cores, actor, s.sessions[actor], actor !in s.marked);
    }
    forall d, e | SameRunningName(t.cores, d, e) ensures d == e {
      assert d != c && e != c ==> SameRunningName(s.cores, d, e);
      assert d in s.cores ==> !NamedRunning(s, d, name);
      assert e in s.cores ==> !NamedRunning(s, e, name);
    }
    Bystanders(w, s, t, actor);
  }

  lemma NewIDIsFresh(w: World, s: State, actor: nat)
    requires Inv(w, s, actor)
    ensures s.coreIDCounter + 1 !in s.cores
  {
    forall c | c in s.cores ensures c <= s.coreIDCounter {
      assert CoreFine(w, c, s.cores[c], s.coreIDCounter, s.sessionIDCounter);
    }
  }

  // ---------------------------------------------------------------- a command enters a core's queue

  lemma EnqueueKeeps(w: World, s: State, id: nat, e: Entry)
    requires Inv(w, s, id) && id in s.sessions && Ready(s.cores, s.sessions[id])
    requires IsRunning(s, s.sessions[id].coreID)
    requires EntryOk(e) && e.clientID == id && ForwardsLast(s.sessions[id], e)
    requires CoreCommand(w, e.command).Some? && Rank(s.sessions[id].level) >= Rank(CoreCommand(w, e.command).value)
    ensures var t := Enqueue(s, id, s.sessions[id].coreID, e); Inv(w, t, id) && MayAnswer(t.cores, t.sessions[id])
  {
    hide CoreOk, CoreEvolves, Mid, EntryOk, CoreCommand, Forwards;
    var c := s.sessions[id].coreID;
    var k, t := s.cores[c], Enqueue(s, id, c, e);
    var a := Accepted(e, |s.sessions[id].issued| - 1, s.sessions[id].level);
    forall d | d in t.cores ensures CoreFine(w, d, t.cores[d], t.coreIDCounter, t.sessionIDCounter) {
      assert CoreFine(w, d, s.cores[d], s.coreIDCounter, s.sessionIDCounter);
      if d == c {
        QueueCoreOk(k, a);
        assert Allowed(w, a);
      }
    }
    forall j | j in s.sessions && j != id ensures Evolves(s.cores, t.cores, j) {
      QueueEvolves(k, a, j);
      OneEvolves(s.cores, c, t.cores[c], j);
    }
    NamesStayUnique(s.cores, t.cores);
    EnqueueMid(s.cores, id, s.sessions[id], c, a, id !in s.marked);
    Bystanders(w, s, t, id);
  }

  lemma EnqueueMid(cores: Cores, id: nat, x: Session, c: nat, a: Accepted, live: bool)
    requires Mid(cores, id, x, live) && Ready(cores, x) && c in cores && c == x.coreID && CoreOk(cores[c])
    requires a.entry.clientID == id && a.ord == |x.issued| - 1 && a.level == x.level && ForwardsLast(x, a.entry)
    ensures var k := cores[c];
      var k' := k.(commandQ := k.commandQ + [a.entry], accepted := k.accepted + [a]);
      var n := |x.issued| - 1;
      var y := x.(issued := x.issued[n := x.issued[n].(fwd := Some(Ref(c, |k.accepted|)))]);
      Mid(cores[c := k'], id, y, live) && MayAnswer(cores[c := k'], y)
  {
    var k, n := cores[c], |x.issued| - 1;
    var k' := k.(commandQ := k.commandQ + [a.entry], accepted := k.accepted + [a]);
    var y := x.(issued := x.issued[n := x.issued[n].(fwd := Some(Ref(c, |k.accepted|)))]);
    var cores' := cores[c := k'];
    hide CoreOk, Forwards, Ready, Refs, Back, Turn, Owns, Undisturbed, Routes, MayAnswer;
    assert x.issued != [] && x.issued[n].fwd.None? by { ReadyIsOpen(cores, x); }
    EnqueueRefs(cores, cores', id, x, y, c, a);
    EnqueueOuts(cores, cores', x, y, c, a);
    EnqueueRoutes(cores, cores', id, x, y, c, a, live);
  }

  lemma ReadyIsOpen(cores: Cores, x: Session)
    requires Ready(cores, x)
    ensures x.issued != [] && x.issued[|x.issued|-1].fwd.None?
  {
  }

  lemma EnqueueRoutes(cores: Cores, cores': Cores, id: nat, x: Session, y: Session, c: nat, a: Accepted, live: bool)
    requires Routes(cores, id, x, live) && c in cores && y.out == x.out
    requires var k := cores[c];
      cores' == cores[c := k.(commandQ := k.commandQ + [a.entry], accepted := k.accepted + [a])]
    ensures Routes(cores', id, y, live)
  {
    forall d | d in cores ensures Routed(cores'[d], d, id) == Routed(cores[d], d, id) {
      RoutedFrame(cores[d], cores'[d], d, id, |cores[d].written|);
    }
  }

  lemma EnqueueOuts(cores: Cores, cores': Cores, x: Session, y: Session, c: nat, a: Accepted)
    requires Turn(cores, x) && Ready(cores, x) && c in cores && c == x.coreID && CoreOk(cores[c])
    requires var k := cores[c];
      cores' == cores[c := k.(commandQ := k.commandQ + [a.entry], accepted := k.accepted + [a])]
    requires var n := |x.issued| - 1;
      y == x.(issued := x.issued[n := x.issued[n].(fwd := Some(Ref(c, |cores[c].accepted|)))])
    ensures Turn(cores', y) && Owns(cores', y.issued) == Owns(cores, x.issued) && MayAnswer(cores', y)
    ensures Undisturbed(cores', y) ==> Undisturbed(cores, x)
  {
    hide Whole, Open, EntryOk, ReplyOuts;
    var n := |x.issued| - 1;
    NotYetAnswered(cores[c]);
    hide CoreOk, Forwards, Owns, Own;
    forall j | 0 <= j <= n
      ensures Own(cores', y.issued[j]) == Own(cores, x.issued[j])
      ensures j < n ==> (Settled(cores', y.issued[j]) <==> Settled(cores, x.issued[j]))
      ensures j < n && x.issued[j].fwd.Some? ==>
        (Kept(cores', y.issued[j].fwd.value) <==> Kept(cores, x.issued[j].fwd.value))
    {
      QueueIsNotHeard(cores, cores', x.issued[j], y.issued[j], c, a);
    }
    OwnsUpTo(cores, cores', x.issued, y.issued);
  }

  /** Joining a queue answers nobody. */
  lemma QueueIsNotHeard(cores: Cores, cores': Cores, iss: Issue, iss': Issue, c: nat, a: Accepted)
    requires c in cores && |cores[c].replies| <= |cores[c].accepted|
    requires var k := cores[c];
      cores' == cores[c := k.(commandQ := k.commandQ + [a.entry], accepted := k.accepted + [a])]
    requires iss' == iss || (iss.fwd.None? && iss' == iss.(fwd := Some(Ref(c, |cores[c].accepted|))))
    ensures Own(cores', iss') == Own(cores, iss)
    ensures iss' == iss ==> (Settled(cores', iss) <==> Settled(cores, iss))
    ensures iss' == iss && iss.fwd.Some? ==> (Kept(cores', iss.fwd.value) <==> Kept(cores, iss.fwd.value))
  {
    assert iss.served + [] == iss.served;
  }

  lemma NotYetAnswered(k: Core)
    requires CoreOk(k)
    ensures |k.replies| <= |k.accepted|
  {
  }

  lemma EnqueueRefs(cores: Cores, cores': Cores, id: nat, x: Session, y: Session, c: nat, a: Accepted)
    requires c in cores && x.issued != [] && x.issued[|x.issued|-1].fwd.None?
    requires Refs(cores, id, x) && Back(cores, id, x)
    requires a.entry.clientID == id && a.ord == |x.issued| - 1 && a.level == x.level && ForwardsLast(x, a.entry)
    requires c in cores' && cores' == cores[c := cores'[c]] && cores'[c].accepted == cores[c].accepted + [a]
    requires var n := |x.issued| - 1;
      y.issued == x.issued[n := x.issued[n].(fwd := Some(Ref(c, |cores[c].accepted|)))]
    ensures Refs(cores', id, y) && Back(cores', id, y)
  {
    forall d, i | d in cores' && 0 <= i < |cores'[d].accepted| && cores'[d].accepted[i].entry.clientID == id
      ensures BackRef(y, d, i, cores'[d].accepted[i].ord)
    {
      if d != c || i < |cores[c].accepted| {
        assert BackRef(x, d, i, cores[d].accepted[i].ord);
      }
    }
  }

  lemma {:induction false} OwnsUpTo(cores: Cores, cores': Cores, a: seq<Issue>, b: seq<Issue>)
    requires |a| == |b| && forall k :: 0 <= k < |a| ==> Own(cores', b[k]) == Own(cores, a[k])
    ensures Owns(cores', b) == Owns(cores, a)
  {
    if a != [] {
      OwnsUpTo(cores, cores', a[..|a|-1], b[..|b|-1]);
    }
  }
}
