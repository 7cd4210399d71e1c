/** The credential cache against the files while others write them (src/auth.h): one refresh taken apart
    into its system calls, with file writes and the passing of time in between. */
module AuthCache {
  import opened Framing
  import opened Auth

  datatype File = File(content: seq<Line>, mtime: int)

  /** Where a refresh stands. now is the time it sampled when it began. */
  datatype Phase =
    | Idle
    | SampledTime(now: int)
    | PasswdUnchanged(now: int)
    | ReadingPasswd(now: int)
    | ReadingGroups(now: int, passwd: seq<Line>)

  datatype System = System(clock: int, passwd: File, groups: File, users: Users, lastCacheRefresh: int, phase: Phase)

  datatype Action =
    | Tick
    | WritePasswd(content: seq<Line>)
    | WriteGroups(content: seq<Line>)
    | RefreshStep

  /** The server started at this clock: it read both files and then sampled the time, with nothing in between. */
  function Started(clock: int, passwd: File, groups: File): System {
    System(clock, passwd, groups, ParsedOr(ParseFiles(passwd.content, groups.content), map[]), clock, Idle)
  }

  function RefreshNext(s: System): System {
    match s.phase
    case Idle => s.(phase := SampledTime(s.clock))
    case SampledTime(now) =>
      if s.passwd.mtime >= s.lastCacheRefresh then s.(lastCacheRefresh := now, phase := ReadingPasswd(now))
      else s.(phase := PasswdUnchanged(now))
    case PasswdUnchanged(now) =>
      if s.groups.mtime >= s.lastCacheRefresh then s.(lastCacheRefresh := now, phase := ReadingPasswd(now))
      else s.(phase := Idle)
    case ReadingPasswd(now) =>
      if ParsePasswd(s.passwd.content).None? then s.(phase := Idle)
      else s.(phase := ReadingGroups(now, s.passwd.content))
    case ReadingGroups(now, passwd) =>
      s.(users := ParsedOr(ParseFiles(passwd, s.groups.content), s.users), phase := Idle)
  }

  function Next(s: System, a: Action): System {
    match a
    case Tick => s.(clock := s.clock + 1)
    case WritePasswd(content) => s.(passwd := File(content, s.clock))
    case WriteGroups(content) => s.(groups := File(content, s.clock))
    case RefreshStep => RefreshNext(s)
  }

  function Run(s: System, actions: seq<Action>): System {
    if actions == [] then s else Next(Run(s, actions[..|actions|-1]), actions[|actions|-1])
  }

  /** If both files look older than the cache, the cache is what the files say, unless they say nothing. */
  predicate Coherent(s: System) {
    s.passwd.mtime < s.lastCacheRefresh && s.groups.mtime < s.lastCacheRefresh ==>
      var parsed := ParseFiles(s.passwd.content, s.groups.content);
      parsed.None? || parsed.value == s.users
  }

  ghost predicate Inv(s: System) {
    && s.passwd.mtime <= s.clock && s.groups.mtime <= s.clock && s.lastCacheRefresh <= s.clock
    && match s.phase
       case Idle => Coherent(s)
       case SampledTime(now) => Coherent(s) && now <= s.clock
       case PasswdUnchanged(now) => Coherent(s) && now <= s.clock
       case ReadingPasswd(now) => s.lastCacheRefresh == now
       case ReadingGroups(now, passwd) =>
         s.lastCacheRefresh == now && (s.passwd.mtime < now ==> passwd == s.passwd.content)
  }

  lemma InvKept(s: System, a: Action)
    requires Inv(s)
    ensures Inv(Next(s, a))
  {
  }

  lemma {:induction false} InvAlways(s: System, actions: seq<Action>)
    requires Inv(s)
    ensures Inv(Run(s, actions))
  {
    if actions != [] {
      InvAlways(s, actions[..|actions|-1]);
      InvKept(Run(s, actions[..|actions|-1]), actions[|actions|-1]);
    }
  }

  /** Whatever is written whenever, between any two system calls of any refresh: when no refresh is under
      way, files that look older than the cache are the files the cache was made from. */
  lemma CacheCoherent(clock: int, passwd: File, groups: File, actions: seq<Action>)
    requires passwd.mtime <= clock && groups.mtime <= clock
    ensures var s := Run(Started(clock, passwd, groups), actions);
            s.phase == Idle ==> Coherent(s)
  {
    InvAlways(Started(clock, passwd, groups), actions);
  }

  function Refreshing(n: nat): seq<Action> {
    seq(n, _ => RefreshStep)
  }

  /** A refresh that nobody interferes with does in its system calls what the refresh function says. */
  lemma UndisturbedRefresh(s: System) returns (n: nat)
    requires s.phase == Idle
    ensures var t := Run(s, Refreshing(n));
      && t.phase == Idle && t.passwd == s.passwd && t.groups == s.groups && t.clock == s.clock
      && (t.users, t.lastCacheRefresh) == Refreshed(s.users, s.lastCacheRefresh, s.clock,
           Some(s.passwd.mtime), Some(s.groups.mtime), s.passwd.content, s.groups.content)
  {
    var passwdNew := s.passwd.mtime >= s.lastCacheRefresh;
    var stale := passwdNew || s.groups.mtime >= s.lastCacheRefresh;
    var parses := ParsePasswd(s.passwd.content).Some?;
    n := (if passwdNew then 2 else 3) + (if !stale then 0 else if parses then 2 else 1);
    RunSteps(s, n);
    var s2 := RefreshNext(RefreshNext(s));
    assert Steps(s, 1) == RefreshNext(s) && Steps(s, 2) == s2;
    assert Steps(s, 3) == RefreshNext(s2);
    assert Steps(s, 4) == RefreshNext(RefreshNext(s2));
    assert Steps(s, 5) == RefreshNext(RefreshNext(RefreshNext(s2)));
  }

  function Steps(s: System, n: nat): System {
    if n == 0 then s else RefreshNext(Steps(s, n - 1))
  }

  lemma {:induction false} RunSteps(s: System, n: nat)
    ensures Run(s, Refreshing(n)) == Steps(s, n)
  {
    if n > 0 {
      RunSteps(s, n - 1);
      assert Refreshing(n)[..n-1] == Refreshing(n - 1);
    }
  }

  /** Once a refresh ran undisturbed, from any reachable state, the users are those of the current files,
      unless these do not parse. */
  lemma RefreshServesCurrentFiles(s: System)
    requires Inv(s) && s.phase == Idle
    ensures var (users, last) := Refreshed(s.users, s.lastCacheRefresh, s.clock,
              Some(s.passwd.mtime), Some(s.groups.mtime), s.passwd.content, s.groups.content);
            var parsed := ParseFiles(s.passwd.content, s.groups.content);
            if parsed.Some? then users == parsed.value else users == s.users
  {
  }

  /** What the start needs instead of being undisturbed: a file that changed since it was read must not look
      older than the time sample. Then the cache is coherent in every run from there on. */
  lemma StartCoherent(passwd: seq<Line>, groups: seq<Line>, s: System, actions: seq<Action>)
    requires s.users == ParsedOr(ParseFiles(passwd, groups), map[]) && s.lastCacheRefresh == s.clock && s.phase == Idle
    requires s.passwd.mtime <= s.clock && s.groups.mtime <= s.clock
    requires s.passwd.content != passwd ==> s.passwd.mtime >= s.lastCacheRefresh
    requires s.groups.content != groups ==> s.groups.mtime >= s.lastCacheRefresh
    ensures var t := Run(s, actions); t.phase == Idle ==> Coherent(t)
  {
    hide ParseFiles;
    InvAlways(s, actions);
  }

  /** A start that was disturbed leads to a coherent cache in every run exactly if, at the time sample, some
      file looks as young as the sample, or the files do not parse, or they give the users that were read. */
  lemma StartCoherentIff(s: System)
    requires s.lastCacheRefresh == s.clock && s.phase == Idle
    requires s.passwd.mtime <= s.clock && s.groups.mtime <= s.clock
    ensures (forall actions :: Run(s, actions).phase == Idle ==> Coherent(Run(s, actions))) <==>
      (s.passwd.mtime == s.clock || s.groups.mtime == s.clock
       || ParseFiles(s.passwd.content, s.groups.content) in {None, Some(s.users)})
  {
    hide ParseFiles;
    if Coherent(s) {
      forall actions ensures Run(s, actions).phase == Idle ==> Coherent(Run(s, actions)) {
        InvAlways(s, actions);
      }
    } else {
      assert Run(s, []) == s;
    }
  }

  predicate Quiet(actions: seq<Action>) {
    forall a :: a in actions ==> a.Tick? || a.RefreshStep?
  }

  /** As long as nobody writes, a cache that looks younger than both files is never read again, be it right or
      wrong. */
  lemma {:induction false} QuietKeepsCache(s: System, actions: seq<Action>)
    requires s.phase == Idle && s.passwd.mtime < s.lastCacheRefresh && s.groups.mtime < s.lastCacheRefresh
    requires Quiet(actions)
    ensures var t := Run(s, actions);
      && t.users == s.users && t.passwd == s.passwd && t.groups == s.groups
      && t.lastCacheRefresh == s.lastCacheRefresh && (t.phase.Idle? || t.phase.SampledTime? || t.phase.PasswdUnchanged?)
  {
    if actions != [] {
      var n := |actions| - 1;
      assert actions[n] in actions;
      QuietKeepsCache(s, actions[..n]);
    }
  }

  /** The start-up read and the time sample after it must not be torn apart: if the group file changes in
      between and the second ends, the cache is wrong and stays wrong, through any number of refreshes, until
      a file is written again, although both files look old. */
  lemma TornStartIsStale() returns (started: System)
    ensures started.users == ParsedOr(ParseFiles(started.passwd.content, []), map[])
    ensures started.passwd.mtime == started.groups.mtime == started.clock - 1
    ensures started.lastCacheRefresh == started.clock && started.phase == Idle
    ensures forall actions :: Quiet(actions) ==> !Coherent(Run(started, actions))
  {
    hide PasswdLine, GroupLine;
    var pw, gr := ["a:0123456789abc"], ["admin:::a"];
    PasswdExample();
    GroupExample();
    var parsed := map["a" := UserInfo("0123456789abc", Read)];
    assert pw[..0] == [] && gr[..0] == [];
    assert ParsePasswd(pw) == Some(parsed);
    assert ParseGroups(parsed, []) == Some(parsed);
    assert ParseGroups(parsed, gr) == Some(ApplyGroup(parsed, Admin, ["a"]));
    assert ApplyGroup(parsed, Admin, ["a"])["a"].level == Admin;
    started := System(1, File(pw, 0), File(gr, 0), parsed, 1, Idle);
    hide ParseFiles, Run;
    forall actions | Quiet(actions) ensures !Coherent(Run(started, actions)) {
      QuietKeepsCache(started, actions);
    }
  }

  lemma JoinTwo(a: string, b: string, sep: char)
    ensures Join([a, b], sep) == a + [sep] + b
  {
    assert [a, b][..1] == [a];
  }

  lemma JoinFour(a: string, b: string, c: string, d: string, sep: char)
    ensures Join([a, b, c, d], sep) == a + [sep] + b + [sep] + c + [sep] + d
  {
    JoinTwo(a, b, sep);
    assert [a, b, c, d][..3] == [a, b, c] && [a, b, c][..2] == [a, b];
  }

  lemma PasswdExample()
    ensures PasswdLine("a:0123456789abc") == Some(("a", "0123456789abc"))
  {
    hide Fields, Join;
    var line := "a" + [':'] + "0123456789abc";
    JoinTwo("a", "0123456789abc", ':');
    SplitLineRoundTrip(["a", "0123456789abc"], ':', "");
    assert line + "" == line == "a:0123456789abc";
  }

  lemma GroupExample()
    ensures GroupLine("admin:::a") == Some((Admin, ["a"]))
  {
    hide Fields, Join, TrimRight;
    var line := "admin" + [':'] + "" + [':'] + "" + [':'] + "a";
    JoinFour("admin", "", "", "a", ':');
    SplitLineRoundTrip(["admin", "", "", "a"], ':', "");
    assert line + "" == line == "admin:::a";
    assert Join(["a"], ',') == "a" by { JoinOne("a", ','); }
    SplitLineRoundTrip(["a"], ',', "");
    assert "a" + "" == "a";
  }

  lemma JoinOne(a: string, sep: char)
    ensures Join([a], sep) == a
  {
  }
}
