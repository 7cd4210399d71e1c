/** What a stretch of a run read from each descriptor. */
module Logs {
  import opened Model
  import opened Machine
  import opened Invariants
  import opened Reachable
  import opened History

  datatype Source = OfClient(id: nat) | OfCore(core: nat)

  /** What is read from a descriptor; the end of input or an error closes it. */
  datatype Input = Closed | Received(text: string)

  function Heard(e: Event, d: Source): string {
    match e
    case ClientByte(id, b) => if d == OfClient(id) then [b] else ""
    case CoreByte(c, b) => if d == OfCore(c) then [b] else ""
    case _ => ""
  }

  /** All bytes read from a descriptor, in order. */
  function Text(log: seq<Event>, d: Source): string {
    if log == [] then "" else Text(log[..|log|-1], d) + Heard(log[|log|-1], d)
  }

  /** What there is to read from a descriptor. */
  function Offered(input: map<nat, Input>, id: nat): string {
    if id in input && input[id].Received? then input[id].text else ""
  }

  ghost predicate NoExits(events: seq<Event>) {
    forall e :: e in events ==> !e.CoreExit?
  }

  /** The log went on; this text was read from d, nothing from anything else, and no core exited. */
  ghost predicate Fed(before: seq<Event>, after: seq<Event>, d: Source, text: string) {
    && before <= after && NoExits(after[|before|..])
    && forall x: Source :: Text(after, x) == Text(before, x) + if x == d then text else ""
  }

  lemma FedNothing(log: seq<Event>, d: Source)
    ensures Fed(log, log, d, "")
  {
  }

  lemma FedOne(log: seq<Event>, e: Event, d: Source)
    requires !e.CoreExit? && forall x: Source :: x != d ==> Heard(e, x) == ""
    ensures Fed(log, log + [e], d, Heard(e, d))
  {
    assert (log + [e])[..|log|] == log && (log + [e])[|log|..] == [e];
  }

  lemma FedChain(a: seq<Event>, b: seq<Event>, c: seq<Event>, d: Source, first: string, then_: string)
    requires Fed(a, b, d, first) && Fed(b, c, d, then_)
    ensures Fed(a, c, d, first + then_)
  {
    hide Text;
    assert c[|a|..] == b[|a|..] + c[|b|..];
    forall x: Source ensures Text(c, x) == Text(a, x) + if x == d then first + then_ else "" {
      assert Text(b, x) == Text(a, x) + if x == d then first else "";
    }
  }

  lemma FedThenNothing(a: seq<Event>, b: seq<Event>, c: seq<Event>, d: Source, text: string)
    requires Fed(a, b, d, text) && Fed(b, c, d, "")
    ensures Fed(a, c, d, text)
  {
    FedChain(a, b, c, d, text, "");
    assert text + "" == text;
  }

  /** Nothing read is nothing read from any descriptor. */
  lemma FedAny(before: seq<Event>, after: seq<Event>, d: Source, x: Source)
    requires Fed(before, after, d, "")
    ensures Fed(before, after, x, "")
  {
    hide Text;
  }

  // ---------------------------------------------------------------- many descriptors

  /** From the clients in served what they sent was read, all of it unless they are marked for removal. */
  ghost predicate ClientsFed(before: seq<Event>, after: seq<Event>, input: map<nat, Input>, served: set<nat>,
                             marked: set<nat>)
  {
    && before <= after && NoExits(after[|before|..])
    && (forall c: nat :: Text(after, OfCore(c)) == Text(before, OfCore(c)))
    && (forall id: nat :: id !in served ==> Text(after, OfClient(id)) == Text(before, OfClient(id)))
    && (forall id: nat :: id in served ==>
          Text(after, OfClient(id)) <= Text(before, OfClient(id)) + Offered(input, id))
    && (forall id: nat :: id in served && id !in marked ==>
          Text(after, OfClient(id)) == Text(before, OfClient(id)) + Offered(input, id))
  }

  lemma ClientsFedStart(log: seq<Event>, input: map<nat, Input>, marked: set<nat>)
    ensures ClientsFed(log, log, input, {}, marked)
  {
  }

  lemma ClientsFedNext(a: seq<Event>, b: seq<Event>, c: seq<Event>, input: map<nat, Input>, served: set<nat>,
                       marked: set<nat>, marked': set<nat>, id: nat, text: string)
    requires ClientsFed(a, b, input, served, marked) && Fed(b, c, OfClient(id), text)
    requires id !in served && text <= Offered(input, id) && (id !in marked' ==> text == Offered(input, id))
    requires marked <= marked'
    ensures ClientsFed(a, c, input, served + {id}, marked')
  {
    hide Text, Offered;
    assert c[|a|..] == b[|a|..] + c[|b|..];
    forall j: nat ensures Text(c, OfClient(j)) == Text(b, OfClient(j)) + if j == id then text else "" {
    }
    forall k: nat ensures Text(c, OfCore(k)) == Text(b, OfCore(k)) {
      assert Text(c, OfCore(k)) == Text(b, OfCore(k)) + "";
    }
  }

  /** From the cores in served all that they sent was read. */
  ghost predicate CoresFed(before: seq<Event>, after: seq<Event>, input: map<nat, Input>, served: set<nat>) {
    && before <= after && NoExits(after[|before|..])
    && (forall id: nat :: Text(after, OfClient(id)) == Text(before, OfClient(id)))
    && (forall c: nat :: Text(after, OfCore(c))
                      == Text(before, OfCore(c)) + if c in served then Offered(input, c) else "")
  }

  lemma CoresFedStart(log: seq<Event>, input: map<nat, Input>)
    ensures CoresFed(log, log, input, {})
  {
  }

  lemma CoresFedNext(a: seq<Event>, b: seq<Event>, c: seq<Event>, input: map<nat, Input>, served: set<nat>, k: nat)
    requires CoresFed(a, b, input, served) && Fed(b, c, OfCore(k), Offered(input, k)) && k !in served
    ensures CoresFed(a, c, input, served + {k})
  {
    hide Text, Offered;
    assert c[|a|..] == b[|a|..] + c[|b|..];
    forall j: nat ensures Text(c, OfCore(j)) == Text(b, OfCore(j)) + if j == k then Offered(input, k) else "" {
    }
    forall id: nat ensures Text(c, OfClient(id)) == Text(b, OfClient(id)) {
      assert Text(c, OfClient(id)) == Text(b, OfClient(id)) + "";
    }
  }

  lemma ClientsFedGrows(before: seq<Event>, after: seq<Event>, input: map<nat, Input>, served: set<nat>,
                        marked: set<nat>)
    requires ClientsFed(before, after, input, served, marked)
    ensures before <= after
  {
  }

  lemma CoresFedGrows(before: seq<Event>, after: seq<Event>, input: map<nat, Input>, served: set<nat>)
    requires CoresFed(before, after, input, served)
    ensures before <= after
  {
  }

  /** The log went on without reading anything. */
  ghost predicate Unfed(before: seq<Event>, after: seq<Event>) {
    before <= after && forall x: Source :: Text(after, x) == Text(before, x)
  }

  lemma UnfedOne(log: seq<Event>, e: Event)
    requires !e.ClientByte? && !e.CoreByte?
    ensures Unfed(log, log + [e])
  {
    assert (log + [e])[..|log|] == log;
  }

  lemma UnfedChain(a: seq<Event>, b: seq<Event>, c: seq<Event>)
    requires Unfed(a, b) && Unfed(b, c)
    ensures Unfed(a, c)
  {
    hide Text;
  }

  /** What a turn of the loop read from each client and each core. */
  ghost predicate TurnRead(before: seq<Event>, after: seq<Event>, clientInput: map<nat, Input>, clients: set<nat>,
                           marked: set<nat>, coreInput: map<nat, Input>, cores: set<nat>)
  {
    && (forall id: nat :: Text(after, OfClient(id)) <= Text(before, OfClient(id)) + Offered(clientInput, id))
    && (forall id: nat :: id in clients && id !in marked ==>
          Text(after, OfClient(id)) == Text(before, OfClient(id)) + Offered(clientInput, id))
    && (forall c: nat :: Text(after, OfCore(c)) <= Text(before, OfCore(c)) + Offered(coreInput, c))
    && (forall c: nat :: c in cores ==>
          Text(after, OfCore(c)) == Text(before, OfCore(c)) + Offered(coreInput, c))
  }

  /** A turn: nothing is read before the clients, then the clients are read, then the cores, and after that
      nothing more. */
  lemma TurnReads(a: seq<Event>, b: seq<Event>, c: seq<Event>, d: seq<Event>, e: seq<Event>,
                  clientInput: map<nat, Input>, clients: set<nat>, marked: set<nat>, markedLater: set<nat>,
                  coreInput: map<nat, Input>, cores: set<nat>, coresBefore: set<nat>)
    requires Unfed(a, b) && ClientsFed(b, c, clientInput, clients, marked) && marked <= markedLater
    requires CoresFed(c, d, coreInput, cores) && Unfed(d, e) && coresBefore <= cores
    ensures TurnRead(a, e, clientInput, clients, markedLater, coreInput, coresBefore)
  {
    hide Text, Offered, NoExits;
    forall id: nat
      ensures Text(e, OfClient(id)) == Text(c, OfClient(id)) && Text(b, OfClient(id)) == Text(a, OfClient(id))
    {
    }
    forall k: nat
      ensures Text(e, OfCore(k)) == Text(a, OfCore(k)) + if k in cores then Offered(coreInput, k) else ""
    {
    }
  }

  // ---------------------------------------------------------------- cores stay

  lemma StepStays(w: World, s: State, e: Event, c: nat)
    requires Inv(w, s, 0) && IsPresent(s, c) && !e.CoreExit?
    ensures IsPresent(Step(w, s, e), c)
  {
    hide Inv, ReadClientByte, ReadCoreByte, RemoveAll, ConversationOver;
    InvBelow(w, s);
    match e {
      case ClientByte(id, b) => if id in s.sessions { ClientByteOnward(w, s, id, b); }
      case CoreByte(d, b) => if IsPresent(s, d) { CoreByteOnward(w, s, d, b); }
      case Flush => FlushKeepsNames(s.cores[c]);
      case Reap => ReapLeavesCores(w, s);
      case _ =>
    }
  }

  /** A core is on the list until it exits. */
  lemma {:induction false} PresentUntilExit(w: World, before: seq<Event>, after: seq<Event>, c: nat)
    requires before <= after && NoExits(after[|before|..]) && IsPresent(Run(w, before), c)
    ensures IsPresent(Run(w, after), c)
    decreases |after|
  {
    hide Step, Inv, IsPresent;
    if |after| > |before| {
      var n := |after| - 1;
      assert after[n] == after[|before|..][n - |before|];
      assert after[..n][|before|..] == after[|before|..][..n - |before|];
      PresentUntilExit(w, before, after[..n], c);
      AlwaysInv(w, after[..n]);
      StepStays(w, Run(w, after[..n]), after[n], c);
    } else {
      assert before == after;
    }
  }
}
