/** How cores change from the point of view of a session that is not the one acting, and that such changes
    keep everything that holds of it. */
module Evolution {
  import opened Framing
  import opened Model
  import opened Invariants

  /** A core changed without taking a command from session id or hearing a line for it. */
  ghost predicate CoreEvolves(k: Core, k': Core, id: nat) {
    && |k.accepted| <= |k'.accepted| && k'.accepted[..|k.accepted|] == k.accepted
    && (forall i :: |k.accepted| <= i < |k'.accepted| ==> k'.accepted[i].entry.clientID != id)
    && (forall i :: 0 <= i < |k.accepted| && k.accepted[i].entry.clientID == id ==>
          k'.ReplyAt(i) == k.ReplyAt(i) && (i < k'.Done() <==> i < k.Done()))
    && (k'.life.Running? ==> k.life.Running?)
    && (!k.life.Running? ==> k'.doneAtStop == k.doneAtStop)
    && (forall c :: Routed(k', c, id) == Routed(k, c, id))
  }

  ghost predicate Evolves(cores: Cores, cores': Cores, id: nat) {
    && (forall c :: c in cores ==> c in cores' && CoreEvolves(cores[c], cores'[c], id))
    && (forall c :: c in cores' && c !in cores ==> c > 0 && Untouched(cores'[c], id))
  }

  ghost predicate Untouched(k: Core, id: nat) {
    k.accepted == [] && k.written == []
  }

  lemma SameEvolves(cores: Cores, id: nat)
    ensures Evolves(cores, cores, id)
  {
    forall c | c in cores ensures CoreEvolves(cores[c], cores[c], id) {
    }
  }

  lemma OneEvolves(cores: Cores, c: nat, k: Core, id: nat)
    requires c in cores && CoreEvolves(cores[c], k, id)
    ensures Evolves(cores, cores[c := k], id)
  {
    SameEvolves(cores, id);
  }

  lemma NewEvolves(cores: Cores, c: nat, k: Core, id: nat)
    requires c !in cores && c > 0 && Untouched(k, id)
    ensures Evolves(cores, cores[c := k], id)
  {
    SameEvolves(cores, id);
  }

  lemma {:induction false} RoutedFrame(k: Core, k': Core, c: nat, id: nat, n: nat)
    requires n <= |k.written| && n <= |k'.written|
    requires forall i :: 0 <= i < n ==> k'.written[i].clientID == k.written[i].clientID
    requires forall i :: 0 <= i < n && k.written[i].clientID == id ==> k'.ReplyAt(i) == k.ReplyAt(i)
    ensures RoutedTo(k', c, id, n) == RoutedTo(k, c, id, n)
  {
    if n > 0 {
      RoutedFrame(k, k', c, id, n - 1);
    }
  }

  lemma FlushEvolves(k: Core, id: nat)
    requires CoreOk(k)
    ensures CoreEvolves(k, FlushCore(k), id)
  {
    hide Whole, Open, EntryOk, Stream, Flat;
    FlushCoreOk(k);
    var f := FlushCore(k);
    if f != k {
      forall c ensures Routed(f, c, id) == Routed(k, c, id) {
        RoutedFrame(k, f, c, id, |k.written|);
        assert f.ReplyAt(|k.written|) == [];
        assert ReplyOuts([], c) == [];
      }
    }
  }

  lemma QueueEvolves(k: Core, a: Accepted, id: nat)
    requires a.entry.clientID != id
    ensures CoreEvolves(k, k.(commandQ := k.commandQ + [a.entry], accepted := k.accepted + [a]), id)
  {
    var q := k.(commandQ := k.commandQ + [a.entry], accepted := k.accepted + [a]);
    forall c ensures Routed(q, c, id) == Routed(k, c, id) {
      RoutedFrame(k, q, c, id, |k.written|);
    }
  }

  lemma StopEvolves(k: Core, life: Life, id: nat)
    requires life != Running
    ensures CoreEvolves(k, StopCore(k, life), id)
  {
    var q := StopCore(k, life);
    forall c ensures Routed(q, c, id) == Routed(k, c, id) {
      RoutedFrame(k, q, c, id, |k.written|);
    }
  }

  lemma LinebufEvolves(k: Core, buf: string, id: nat)
    ensures CoreEvolves(k, k.(linebuf := buf), id)
  {
    var q := k.(linebuf := buf);
    forall c ensures Routed(q, c, id) == Routed(k, c, id) {
      RoutedFrame(k, q, c, id, |k.written|);
    }
  }

  lemma LastWritten(k: Core)
    requires CoreOk(k) && k.written != []
    ensures k.accepted[|k.written|-1].entry == k.written[|k.written|-1]
  {
  }

  lemma HearsChangesLast(k: Core, line: Line, i: nat)
    requires |k.replies| == |k.written| && (k.Busy() ==> k.written != [])
    ensures i != |k.written| - 1 || !k.Busy() ==>
      CoreHears(k, line).ReplyAt(i) == k.ReplyAt(i) && (i < CoreHears(k, line).Done() <==> i < k.Done())
  {
  }

  lemma BusyHasWritten(k: Core)
    requires CoreOk(k)
    ensures |k.replies| == |k.written| && (k.Busy() ==> k.written != [])
    ensures k.written != [] ==> k.lastClientID == k.written[|k.written|-1].clientID
  {
    hide Fifo;
  }

  lemma HearsKeepsRest(k: Core, line: Line)
    ensures var h := CoreHears(k, line);
      h.doneAtStop == k.doneAtStop && h.accepted == k.accepted && h.written == k.written
      && h.name == k.name && h.life == k.life
  {
  }

  /** A line from a core concerns nobody but the client of its last command, and nobody if it was idle. */
  lemma HearsEvolves(k: Core, line: Line, id: nat)
    requires CoreOk(k) && (k.lastClientID != id || !k.Busy())
    ensures CoreEvolves(k, CoreHears(k, line), id)
  {
    hide CoreHears;
    var h := CoreHears(k, line);
    BusyHasWritten(k);
    HearsKeepsRest(k, line);
    if k.Busy() {
      LastWritten(k);
    }
    hide CoreOk;
    forall i: nat | i != |k.written| - 1 || !k.Busy()
      ensures h.ReplyAt(i) == k.ReplyAt(i) && (i < h.Done() <==> i < k.Done())
    {
      HearsChangesLast(k, line, i);
    }
    forall i | 0 <= i < |k.accepted| && k.accepted[i].entry.clientID == id
      ensures h.ReplyAt(i) == k.ReplyAt(i) && (i < h.Done() <==> i < k.Done())
    {
      assert i != |k.written| - 1 || !k.Busy();
    }
    forall c ensures Routed(h, c, id) == Routed(k, c, id) {
      RoutedFrame(k, h, c, id, |k.written|);
    }
  }

  // ---------------------------------------------------------------- bystanders

  lemma {:induction false} OwnsFrame(cores: Cores, cores': Cores, issued: seq<Issue>)
    requires forall k :: 0 <= k < |issued| ==> Own(cores', issued[k]) == Own(cores, issued[k])
    ensures Owns(cores', issued) == Owns(cores, issued)
  {
    if issued != [] {
      OwnsFrame(cores, cores', issued[..|issued|-1]);
    }
  }

  lemma OwnEvolves(cores: Cores, cores': Cores, id: nat, x: Session, k: nat)
    requires Refs(cores, id, x) && Evolves(cores, cores', id) && k < |x.issued|
    ensures Own(cores', x.issued[k]) == Own(cores, x.issued[k])
    ensures Settled(cores, x.issued[k]) ==> Settled(cores', x.issued[k])
    ensures x.issued[k].fwd.Some? && Kept(cores', x.issued[k].fwd.value) ==> Kept(cores, x.issued[k].fwd.value)
  {
  }

  /** What evolves around a session keeps what holds of it. */
  lemma MidEvolves(cores: Cores, cores': Cores, id: nat, x: Session, live: bool)
    requires Mid(cores, id, x, live) && Evolves(cores, cores', id)
    ensures Mid(cores', id, x, live)
  {
    forall k | 0 <= k < |x.issued|
      ensures Own(cores', x.issued[k]) == Own(cores, x.issued[k])
      ensures Settled(cores, x.issued[k]) ==> Settled(cores', x.issued[k])
      ensures x.issued[k].fwd.Some? && Kept(cores', x.issued[k].fwd.value) ==> Kept(cores, x.issued[k].fwd.value)
    {
      OwnEvolves(cores, cores', id, x, k);
    }
    OwnsFrame(cores, cores', x.issued);
    assert Refs(cores', id, x);
    assert Back(cores', id, x) by { BackEvolves(cores, cores', id, x); }
    assert Routes(cores', id, x, live) by { RoutesEvolve(cores, cores', id, x, live); }
  }

  lemma BackEvolves(cores: Cores, cores': Cores, id: nat, x: Session)
    requires Back(cores, id, x) && Evolves(cores, cores', id)
    ensures Back(cores', id, x)
  {
    forall c, i | c in cores' && 0 <= i < |cores'[c].accepted| && cores'[c].accepted[i].entry.clientID == id
      ensures BackRef(x, c, i, cores'[c].accepted[i].ord)
    {
      assert c in cores ==> CoreEvolves(cores[c], cores'[c], id);
      assert c !in cores ==> Untouched(cores'[c], id);
      assert cores'[c].accepted[i] == cores[c].accepted[i];
    }
  }

  lemma RoutesEvolve(cores: Cores, cores': Cores, id: nat, x: Session, live: bool)
    requires Routes(cores, id, x, live) && Evolves(cores, cores', id)
    ensures Routes(cores', id, x, live)
  {
    forall c | c in cores'
      ensures if live then OnlyFrom(x.out, c) == Routed(cores'[c], c, id)
              else OnlyFrom(x.out, c) <= Routed(cores'[c], c, id)
    {
      if c in cores {
        assert CoreEvolves(cores[c], cores'[c], id);
      } else {
        assert Untouched(cores'[c], id);
      }
    }
  }

  lemma EndEvolves(w: World, cores: Cores, cores': Cores, id: nat, x: Session)
    requires Refs(cores, id, x) && End(w, cores, id, x) && Evolves(cores, cores', id)
    ensures End(w, cores', id, x)
  {
    if x.curCommand.Some? {
      forall k | 0 <= k < |x.issued| ensures Settled(cores', x.issued[k]) {
        OwnEvolves(cores, cores', id, x, k);
      }
    }
  }

  lemma NoneStrandedEvolves(cores: Cores, cores': Cores, id: nat, x: Session, live: bool)
    requires Refs(cores, id, x) && NoneStranded(cores, x, live) && Evolves(cores, cores', id)
    requires forall c :: c in cores' ==> CoreOk(cores'[c])
    ensures NoneStranded(cores', x, live)
  {
    if x.kind.Tcp? && live && !x.jumped && Undisturbed(cores', x) && x.lineQueue != [] {
      forall k | 0 <= k < |x.issued| && x.issued[k].fwd.Some? ensures Kept(cores, x.issued[k].fwd.value) {
        OwnEvolves(cores, cores', id, x, k);
      }
      var n := |x.issued| - 1;
      assert !Settled(cores, x.issued[n]);
      var r := x.issued[n].fwd.value;
      assert CoreEvolves(cores[r.core], cores'[r.core], id) && CoreOk(cores'[r.core]);
      assert Kept(cores', r);
    }
  }

  lemma SessionEvolves(w: World, cores: Cores, cores': Cores, j: nat, x: Session, live: bool, atRest: bool)
    requires SessionOk(w, cores, j, x, live, atRest) && Evolves(cores, cores', j)
    requires forall c :: c in cores' ==> CoreOk(cores'[c])
    ensures SessionOk(w, cores', j, x, live, atRest)
  {
    MidEvolves(cores, cores', j, x, live);
    if atRest {
      EndEvolves(w, cores, cores', j, x);
      NoneStrandedEvolves(cores, cores', j, x, live);
    }
  }

  /** All sessions but the actor keep their invariants when the cores evolve around them. */
  lemma Bystanders(w: World, s: State, t: State, actor: nat)
    requires SessionsOk(w, s, actor) && forall c :: c in t.cores ==> CoreOk(t.cores[c])
    requires t.sessions.Keys == s.sessions.Keys && t.sessionIDCounter == s.sessionIDCounter && t.marked == s.marked
    requires forall j :: j in s.sessions && j != actor ==>
      t.sessions[j] == s.sessions[j] && Evolves(s.cores, t.cores, j)
    requires actor in s.sessions ==> Mid(t.cores, actor, t.sessions[actor], actor !in t.marked)
    ensures SessionsOk(w, t, actor)
  {
    forall j | j in t.sessions
      ensures 0 < j <= t.sessionIDCounter && SessionOk(w, t.cores, j, t.sessions[j], j !in t.marked, j != actor)
    {
      if j != actor {
        SessionEvolves(w, s.cores, t.cores, j, s.sessions[j], j !in s.marked, true);
      }
    }
  }

  lemma NamesStayUnique(cores: Cores, cores': Cores)
    requires UniqueNames(cores)
    requires forall c :: c in cores' && cores'[c].life.Running? ==>
      c in cores && cores[c].life.Running? && cores[c].name == cores'[c].name
    ensures UniqueNames(cores')
  {
    forall c, d | SameRunningName(cores', c, d) ensures c == d {
      assert SameRunningName(cores, c, d);
    }
  }
}
