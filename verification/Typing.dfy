/** Lines as their bytes arrive, and server commands typed at a prompt. */
module Typing {
  import opened Framing
  import opened Model
  import opened Machine
  import opened Theorems

  // ---------------------------------------------------------------- bytes

  predicate Plainly(text: string) {
    NoNewline(text) && '\r' !in text
  }

  lemma RunTwo(w: World, events: seq<Event>, more: seq<Event>, e: Event)
    ensures Run(w, events + (more + [e])) == Step(w, Run(w, events + more), e)
  {
    assert events + (more + [e]) == events + more + [e];
    RunLast(w, events + more, e);
  }

  lemma {:induction false} TypeText(w: World, events: seq<Event>, id: nat, text: string)
    requires Plainly(text)
    requires var s := Run(w, events); id in s.sessions && s.sessions[id].linebuf == ""
    ensures var s := Run(w, events);
      Run(w, events + ClientBytes(id, text)) == SetSession(s, id, s.sessions[id].(linebuf := text))
    decreases |text|
  {
    hide Run;
    var s := Run(w, events);
    if text == "" {
      assert events + ClientBytes(id, text) == events;
      assert s.sessions[id := s.sessions[id]] == s.sessions;
    } else {
      var n := |text| - 1;
      assert text == text[..n] + [text[n]] && text[n] in text;
      TypeText(w, events, id, text[..n]);
      assert ClientBytes(id, text) == ClientBytes(id, text[..n]) + [ClientByte(id, text[n])];
      RunTwo(w, events, ClientBytes(id, text[..n]), ClientByte(id, text[n]));
    }
  }

  /** Typing a line is handing it over. */
  lemma TypeAnyLine(w: World, events: seq<Event>, id: nat, text: string)
    requires Plainly(text)
    requires var s := Run(w, events); IsClient(s, id) && s.sessions[id].linebuf == ""
    ensures Run(w, events + ClientBytes(id, text + "\n")) == ClientLine(w, Run(w, events), id, text + "\n")
  {
    hide Run, ClientLine;
    var s := Run(w, events);
    TypeText(w, events, id, text);
    assert ClientBytes(id, text + "\n") == ClientBytes(id, text) + [ClientByte(id, '\n')];
    RunTwo(w, events, ClientBytes(id, text), ClientByte(id, '\n'));
    assert s.sessions[id := s.sessions[id]] == s.sessions;
    var t := SetSession(s, id, s.sessions[id].(linebuf := text));
    assert t.sessions[id := s.sessions[id]] == s.sessions;
  }

  lemma TypeLine(w: World, events: seq<Event>, id: nat, text: string)
    requires Plainly(text)
    requires var s := Run(w, events); IsClient(s, id) && s.sessions[id].linebuf == "" && s.sessions[id].kind.Tcp?
    ensures Run(w, events + ClientBytes(id, text + "\n")) == LineFromClient(w, Run(w, events), id, text + "\n")
  {
    hide Run, LineFromClient;
    TypeAnyLine(w, events, id, text);
  }

  lemma {:induction false} Printing(w: World, events: seq<Event>, c: nat, text: string)
    requires Plainly(text)
    requires var s := Run(w, events); IsPresent(s, c) && s.cores[c].linebuf == ""
    ensures var s := Run(w, events);
      Run(w, events + CoreBytes(c, text)) == SetCore(s, c, s.cores[c].(linebuf := text))
    decreases |text|
  {
    hide Run;
    var s := Run(w, events);
    if text == "" {
      assert events + CoreBytes(c, text) == events;
      assert s.cores[c := s.cores[c]] == s.cores;
    } else {
      var n := |text| - 1;
      assert text == text[..n] + [text[n]] && text[n] in text;
      Printing(w, events, c, text[..n]);
      assert CoreBytes(c, text) == CoreBytes(c, text[..n]) + [CoreByte(c, text[n])];
      RunTwo(w, events, CoreBytes(c, text[..n]), CoreByte(c, text[n]));
    }
  }

  lemma PrintLine(w: World, events: seq<Event>, c: nat, text: string)
    requires Plainly(text)
    requires var s := Run(w, events); IsPresent(s, c) && s.cores[c].linebuf == ""
    ensures Run(w, events + CoreBytes(c, text + "\n")) == CoreLine(w, Run(w, events), c, text + "\n")
  {
    hide Run, CoreLine;
    var s := Run(w, events);
    Printing(w, events, c, text);
    assert CoreBytes(c, text + "\n") == CoreBytes(c, text) + [CoreByte(c, '\n')];
    RunTwo(w, events, CoreBytes(c, text), CoreByte(c, '\n'));
    assert s.cores[c := s.cores[c]] == s.cores;
    var t := SetCore(s, c, s.cores[c].(linebuf := text));
    assert t.cores[c := s.cores[c]] == s.cores;
  }

  // ---------------------------------------------------------------- commands

  /** A TCP session that nothing keeps from running a command. */
  predicate AtPrompt(s: State, id: nat) {
    IsClient(s, id) &&
    var x := s.sessions[id];
    x.kind.Tcp? && x.curCommand.None? && x.lineQueue == [] && x.linebuf == "" && !x.jumped && !IsWaiting(s, id)
  }

  predicate Says(line: Line, words: seq<string>) {
    SplitString(line, BLANKS) == words && words != [] && EndsLine(line) && !Redirects(line)
  }

  /** A server command at the prompt runs at once. */
  lemma ServerCommandRuns(w: World, s: State, id: nat, line: Line, words: seq<string>)
    requires AtPrompt(s, id) && Says(line, words) && !ColonEnded(words) && words[0] in SERVER_COMMANDS
    ensures var b := Begin(LogReceived(s, id, line), id, [line]);
      LineFromClient(w, s, id, line) == Execute(w, w.answers(s.tick), b, id, words)
  {
    hide Execute, SplitString;
    OpensByLastWord(line);
    assert NewEntry(id, line).Block() == [line];
    assert !IsWaiting(LogReceived(s, id, line), id);
  }
}
