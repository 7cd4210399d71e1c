/** What holds in every reachable state: of each core by itself, of each session against the cores, and of
    the whole server. */
module Invariants {
  import opened Framing
  import opened Auth
  import opened HttpResponse
  import opened Model

  type Cores = map<nat, Core>

  // ---------------------------------------------------------------- cores

  /** A command that may stand in a core's queue: complete, not blank, and somebody's. */
  ghost predicate EntryOk(e: Entry) {
    e.Flushable() && Whole(e.Block()) && !Blank(e.command) && e.clientID > 0
  }

  function Stream(written: seq<Entry>): seq<Line> {
    if written == [] then [] else Stream(written[..|written|-1]) + written[|written|-1].Block()
  }

  /** The flags tell how far the reply to the last written command has come. */
  ghost predicate ReplyState(written: seq<Entry>, replies: seq<Block>, last: nat, reply: bool, dataset: bool) {
    if written == [] || replies == [] then last == 0 && !reply && !dataset
    else
      var r := replies[|replies|-1];
      && last == written[|written|-1].clientID
      && !(reply && dataset)
      && (reply <==> r == [])
      && (dataset <==> r != [] && Open(r))
      && (r == [] || Open(r) || Whole(r))
  }

  ghost predicate Fifo(accepted: seq<Accepted>, written: seq<Entry>, queue: seq<Entry>) {
    && |accepted| == |written| + |queue|
    && (forall i :: 0 <= i < |written| ==> accepted[i].entry == written[i])
    && (forall i :: 0 <= i < |queue| ==> accepted[|written| + i].entry == queue[i])
    && (forall i :: 0 <= i < |accepted| ==> EntryOk(accepted[i].entry))
  }

  ghost predicate AnsweredBut(replies: seq<Block>) {
    forall i :: 0 <= i < |replies| - 1 ==> Whole(replies[i])
  }

  /** Accepted commands are the written ones followed by the queue, all complete; every reply but the last is
      complete; the stream written is that of the written commands, and the lines received are the replies. */
  ghost predicate CoreOk(k: Core) {
    && Fifo(k.accepted, k.written, k.commandQ)
    && |k.replies| == |k.written| && AnsweredBut(k.replies)
    && ReplyState(k.written, k.replies, k.lastClientID, k.expectingReply, k.expectingDataset)
    && k.stream == Stream(k.written)
    && (!k.life.Running? ==> k.doneAtStop <= k.Done())
    && (!k.chatty ==> k.emitted == Flat(k.replies))
  }

  /** Every accepted command was allowed at the level its session had. */
  ghost predicate Gate(w: World, k: Core) {
    forall i :: 0 <= i < |k.accepted| ==> Allowed(w, k.accepted[i])
  }

  ghost predicate Allowed(w: World, a: Accepted) {
    var need := CoreCommand(w, a.entry.command);
    need.Some? && Rank(a.level) >= Rank(need.value)
  }

  lemma FreshCoreOk(name: string)
    ensures CoreOk(FreshCore(name))
  {
  }

  lemma QueueCoreOk(k: Core, a: Accepted)
    requires CoreOk(k) && EntryOk(a.entry)
    ensures CoreOk(k.(commandQ := k.commandQ + [a.entry], accepted := k.accepted + [a]))
  {
  }

  lemma QueueIsFlushable(k: Core)
    requires Fifo(k.accepted, k.written, k.commandQ)
    ensures forall i :: 0 <= i < |k.commandQ| ==> k.commandQ[i].Flushable()
  {
    forall i | 0 <= i < |k.commandQ| ensures k.commandQ[i].Flushable() {
      assert EntryOk(k.accepted[|k.written| + i].entry);
    }
  }

  lemma FlushFifo(accepted: seq<Accepted>, written: seq<Entry>, queue: seq<Entry>)
    requires Fifo(accepted, written, queue) && queue != []
    ensures Fifo(accepted, written + [queue[0]], queue[1..])
  {
    assert accepted[|written| + 0].entry == queue[0];
    forall i | 0 <= i < |queue| - 1 ensures accepted[|written| + 1 + i].entry == queue[1..][i] {
      assert accepted[|written| + (i + 1)].entry == queue[i+1];
    }
  }

  /** A flush keeps the core's invariant, completes no reply, and leaves an idle core without a queue. */
  lemma FlushCoreOk(k: Core)
    requires CoreOk(k)
    ensures CoreOk(FlushCore(k))
    ensures !FlushCore(k).Busy() ==> FlushCore(k).commandQ == []
    ensures FlushCore(k).Done() == k.Done() && FlushCore(k).life == k.life
  {
    hide Whole, Open, EntryOk, Fifo, Stream, Flat, AnsweredBut;
    QueueIsFlushable(k);
    var f := FlushCore(k);
    if f != k {
      FlushFifo(k.accepted, k.written, k.commandQ);
      StreamGrows(k.written, k.commandQ[0]);
      FlatAppend(k.replies, []);
      assert Flat(k.replies) + [] == Flat(k.replies);
      IdleIsAnswered(k);
    }
  }

  lemma StreamGrows(written: seq<Entry>, e: Entry)
    ensures Stream(written + [e]) == Stream(written) + e.Block()
  {
    assert (written + [e])[..|written|] == written;
  }

  lemma IdleIsAnswered(k: Core)
    requires CoreOk(k) && !k.Busy()
    ensures AnsweredBut(k.replies + [[]])
  {
    assert k.replies == [] || Whole(k.replies[|k.replies|-1]);
  }

  lemma HearsReply(written: seq<Entry>, replies: seq<Block>, last: nat, reply: bool, dataset: bool, line: Line)
    requires |written| == |replies| && AnsweredBut(replies)
    requires ReplyState(written, replies, last, reply, dataset) && (reply || dataset)
    ensures ReplyState(written, GrowLast(replies, line), last, false, if reply then Opens(line) else !Blank(line))
    ensures AnsweredBut(GrowLast(replies, line))
  {
    var r := replies[|replies|-1];
    ExtendBlock(r, line);
    assert !(Open(r + [line]) && Whole(r + [line]));
  }

  lemma FlatGrowLast(replies: seq<Block>, line: Line)
    requires replies != []
    ensures Flat(GrowLast(replies, line)) == Flat(replies) + [line]
  {
    var n := |replies| - 1;
    assert GrowLast(replies, line)[..n] == replies[..n];
    assert Flat(replies[..n]) + (replies[n] + [line]) == Flat(replies[..n]) + replies[n] + [line];
  }

  lemma HearsCoreOk(k: Core, line: Line)
    requires CoreOk(k)
    ensures CoreOk(CoreHears(k, line))
    ensures CoreHears(k, line).Done() >= k.Done() && CoreHears(k, line).life == k.life
  {
    if k.Busy() {
      HearsReply(k.written, k.replies, k.lastClientID, k.expectingReply, k.expectingDataset, line);
      FlatGrowLast(k.replies, line);
    }
  }

  lemma StopCoreOk(k: Core, life: Life)
    requires CoreOk(k)
    ensures CoreOk(StopCore(k, life))
  {
  }

  // ---------------------------------------------------------------- sessions

  /** A command goes to the core as it came, except that `help` is rebuilt from its words and `shutdown` is
      replaced by the bare command. */
  predicate Forwards(block: Block, e: Entry) {
    e.Block() == block ||
    (|block| == 1 && e.dataset == [] &&
      var words := SplitString(block[0], BLANKS);
      words != [] &&
      ((words[0] == "help" && e.command == JoinWords(words)) || (words == ["shutdown"] && e.command == SHUTDOWN_LINE)))
  }

  ghost predicate RefOk(cores: Cores, id: nat, ord: nat, iss: Issue, r: Ref) {
    && r.core in cores && r.index < |cores[r.core].accepted|
    && var a := cores[r.core].accepted[r.index];
      a.ord == ord && a.entry.clientID == id && a.level == iss.level && Forwards(iss.block, a.entry)
  }

  /** Commands that wait for a core's reply are the session's own ... */
  ghost predicate Refs(cores: Cores, id: nat, x: Session) {
    forall k :: 0 <= k < |x.issued| && x.issued[k].fwd.Some? ==> RefOk(cores, id, k, x.issued[k], x.issued[k].fwd.value)
  }

  ghost predicate BackRef(x: Session, c: nat, i: nat, ord: nat) {
    ord < |x.issued| && x.issued[ord].fwd == Some(Ref(c, i))
  }

  /** ... and whatever a core accepted from the session is one of them. */
  ghost predicate Back(cores: Cores, id: nat, x: Session) {
    forall c, i :: c in cores && 0 <= i < |cores[c].accepted| && cores[c].accepted[i].entry.clientID == id ==>
      BackRef(x, c, i, cores[c].accepted[i].ord)
  }

  /** No reply is awaited for this command, or not from a running core. */
  predicate Settled(cores: Cores, iss: Issue) {
    iss.fwd.Some? && iss.fwd.value.core in cores ==>
      var r := iss.fwd.value;
      r.index < cores[r.core].Done() || !cores[r.core].life.Running?
  }

  ghost predicate AllSettled(cores: Cores, x: Session) {
    forall k :: 0 <= k < |x.issued| ==> Settled(cores, x.issued[k])
  }

  /** Only the last command of a TCP session can be waiting for its reply, and it waits at its core. */
  ghost predicate Turn(cores: Cores, x: Session) {
    x.kind.Tcp? ==>
      forall k :: 0 <= k < |x.issued| && !Settled(cores, x.issued[k]) ==>
        k == |x.issued| - 1 && x.issued[k].fwd.value.core == x.coreID
  }

  ghost predicate Kept(cores: Cores, r: Ref) {
    r.core in cores && (cores[r.core].life.Running? || r.index < cores[r.core].doneAtStop)
  }

  /** The second proviso: no core stopped running before it had answered this session. */
  ghost predicate Undisturbed(cores: Cores, x: Session) {
    forall k :: 0 <= k < |x.issued| && x.issued[k].fwd.Some? ==> Kept(cores, x.issued[k].fwd.value)
  }

  /** The output calls that pass on a reply: the status line, then the data lines. */
  function ReplyOuts(reply: Block, c: nat): seq<Out> {
    seq(|reply|, j requires 0 <= j < |reply| => if j == 0 then Status(reply[0], c) else Data(reply[j], c))
  }

  /** A command's own output: what the server answered, then the core's reply as far as it has come. */
  function Own(cores: Cores, iss: Issue): seq<Out> {
    if iss.fwd.Some? && iss.fwd.value.core in cores then
      var r := iss.fwd.value;
      iss.served + ReplyOuts(cores[r.core].ReplyAt(r.index), r.core)
    else iss.served
  }

  function Owns(cores: Cores, issued: seq<Issue>): seq<Out> {
    if issued == [] then [] else Owns(cores, issued[..|issued|-1]) + Own(cores, issued[|issued|-1])
  }

  /** The session's output is its commands' own outputs, one after the other. */
  ghost predicate Delivered(cores: Cores, x: Session) {
    |x.issued| <= 1 || (x.kind.Tcp? && Undisturbed(cores, x)) ==> x.out == Owns(cores, x.issued)
  }

  function OnlyFrom(outs: seq<Out>, c: nat): seq<Out> {
    if outs == [] then [] else
      var o := outs[|outs|-1];
      OnlyFrom(outs[..|outs|-1], c) + if !o.NotFound? && o.from == c then [o] else []
  }

  /** What the first n replies of a core hold for a client. */
  function RoutedTo(k: Core, c: nat, id: nat, n: nat): seq<Out> {
    if n == 0 then [] else
      var own := n <= |k.written| && k.written[n-1].clientID == id;
      RoutedTo(k, c, id, n - 1) + if own then ReplyOuts(k.ReplyAt(n - 1), c) else []
  }

  function Routed(k: Core, c: nat, id: nat): seq<Out> {
    RoutedTo(k, c, id, |k.written|)
  }

  /** A client gets exactly the reply lines of its own commands, in order; once it is marked for removal it
      gets no more of them. */
  ghost predicate Routes(cores: Cores, id: nat, x: Session, live: bool) {
    && (forall c :: c in cores ==>
          if live then OnlyFrom(x.out, c) == Routed(cores[c], c, id) else OnlyFrom(x.out, c) <= Routed(cores[c], c, id))
    && (forall c :: c > 0 && c !in cores ==> OnlyFrom(x.out, c) == [])
  }

  /** What holds of a session even in the middle of a command. */
  ghost predicate Mid(cores: Cores, id: nat, x: Session, live: bool) {
    && Refs(cores, id, x) && Back(cores, id, x) && Turn(cores, x)
    && (live ==> Delivered(cores, x))
    && Routes(cores, id, x, live)
  }

  function IssuedLines(issued: seq<Issue>): seq<Line> {
    if issued == [] then [] else IssuedLines(issued[..|issued|-1]) + issued[|issued|-1].block
  }

  function CurrentLines(x: Session): seq<Line> {
    if x.curCommand.Some? then x.curCommand.value.Block() else []
  }

  /** The lines a session has been given, in the order in which they were or will be handled. */
  function HandledLines(x: Session): seq<Line> {
    IssuedLines(x.issued) + CurrentLines(x) + x.lineQueue
  }

  /** An open command is an unfinished data set, and nothing is awaited meanwhile. */
  ghost predicate CurrentOk(cores: Cores, id: nat, x: Session) {
    x.curCommand.Some? ==>
      var e := x.curCommand.value;
      && x.kind.Tcp? && e.acceptsData && !e.dataFinished && e.clientID == id && Open(e.Block())
      && AllSettled(cores, x)
  }

  ghost predicate WholeBlocks(issued: seq<Issue>) {
    forall k :: 0 <= k < |issued| ==> Whole(issued[k].block)
  }

  /** No line is lost or duplicated; unless the drain loop left lines behind an open data set, none is
      overtaken either. */
  ghost predicate LinesOk(x: Session) {
    x.kind.Tcp? ==>
      && multiset(x.received) == multiset(HandledLines(x))
      && WholeBlocks(x.issued)
      && (!x.jumped ==> x.received == HandledLines(x) && (x.curCommand.Some? ==> x.lineQueue == []))
  }

  /** The level a command earned its session, if it is a successful authorize. */
  function Earned(w: World, iss: Issue): Option<Level> {
    if |iss.block| != 1 || Redirects(iss.block[0]) then None
    else
      var words := SplitString(iss.block[0], BLANKS);
      if words == [] || words[0] != "authorize" then None
      else AuthorizeCommand(w, w.answers(iss.tick), words)
  }

  function LevelAfter(w: World, issued: seq<Issue>): Level {
    if issued == [] then Read
    else
      var earned := Earned(w, issued[|issued|-1]);
      if earned.Some? then earned.value else LevelAfter(w, issued[..|issued|-1])
  }

  /** The session has the level that its commands earned it, and had it before each of them. */
  ghost predicate LevelOk(w: World, x: Session) {
    x.level == LevelAfter(w, x.issued) &&
    forall k :: 0 <= k < |x.issued| ==> x.issued[k].level == LevelAfter(w, x.issued[..k])
  }

  /** `help` is a core command, whoever may run it. */
  predicate HelpIsKnown(w: World) {
    "help" in w.table
  }

  predicate HelpHead(served: seq<Out>) {
    served != [] && served[0].Status? && Opens(served[0].text) &&
    forall i :: 1 <= i < |served| ==> served[i].Data? && !Blank(served[i].text)
  }

  /** What the server itself answers to the only command of an HTTP session. */
  predicate HttpServed(iss: Issue) {
    if iss.fwd.Some? then iss.served == [] || HelpHead(iss.served) else OneResponse(iss.served)
  }

  ghost predicate HttpOk(w: World, x: Session) {
    x.kind.Http? ==>
      && x.curCommand.None?
      && (forall l :: l in x.lineQueue ==> !Opens(l))
      && (x.requests <= 1 ==> |x.issued| <= x.requests && x.lineQueue == [])
      && (x.requests <= 1 && x.issued != [] && HelpIsKnown(w) ==> HttpServed(x.issued[0]))
  }

  ghost predicate QueueOk(x: Session) {
    forall l :: l in x.lineQueue ==> EnsureNewline(l) == l
  }

  /** What holds of a session between two commands. */
  ghost predicate End(w: World, cores: Cores, id: nat, x: Session) {
    && CurrentOk(cores, id, x) && LinesOk(x) && QueueOk(x)
    && LevelOk(w, x) && HttpOk(w, x)
  }

  /** Lines are held back only while a reply is awaited. */
  ghost predicate NoneStranded(cores: Cores, x: Session, live: bool) {
    x.kind.Tcp? && live && !x.jumped && Undisturbed(cores, x) && x.lineQueue != [] ==>
      x.curCommand.None? && x.issued != [] && !Settled(cores, x.issued[|x.issued|-1])
      && x.issued[|x.issued|-1].fwd.Some? && x.issued[|x.issued|-1].fwd.value.core in cores
  }

  // ---------------------------------------------------------------- the server

  /** A core with this ID, when so many core and session IDs have been handed out. */
  ghost predicate CoreFine(w: World, c: nat, k: Core, coreIDs: nat, sessionIDs: nat) {
    && 0 < c <= coreIDs && CoreOk(k) && Gate(w, k)
    && forall i :: 0 <= i < |k.accepted| ==> k.accepted[i].entry.clientID <= sessionIDs
  }

  ghost predicate CoresOk(w: World, cores: Cores, coreIDs: nat, sessionIDs: nat) {
    forall c :: c in cores ==> CoreFine(w, c, cores[c], coreIDs, sessionIDs)
  }

  ghost predicate SameRunningName(cores: Cores, c: nat, d: nat) {
    c in cores && d in cores && cores[c].life.Running? && cores[d].life.Running? && cores[c].name == cores[d].name
  }

  /** No two running cores share a name. */
  ghost predicate UniqueNames(cores: Cores) {
    forall c, d :: SameRunningName(cores, c, d) ==> c == d
  }

  /** What holds of a session, at rest or in the middle of a command. */
  ghost predicate SessionOk(w: World, cores: Cores, j: nat, x: Session, live: bool, atRest: bool) {
    Mid(cores, j, x, live) && (atRest ==> End(w, cores, j, x) && NoneStranded(cores, x, live))
  }

  ghost predicate SessionsOk(w: World, s: State, actor: nat) {
    forall j :: j in s.sessions ==>
      0 < j <= s.sessionIDCounter && SessionOk(w, s.cores, j, s.sessions[j], j !in s.marked, j != actor)
  }

  /** The invariant while session actor is in the middle of a command; actor 0 is nobody. */
  ghost predicate Inv(w: World, s: State, actor: nat) {
    && CoresOk(w, s.cores, s.coreIDCounter, s.sessionIDCounter) && UniqueNames(s.cores)
    && SessionsOk(w, s, actor)
  }
}
