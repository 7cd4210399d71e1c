/** The password authority (src/auth.h): credential files, group merge, and the cache of both. */
module Auth {
  import opened Framing
  import opened HttpRequest

  datatype Level = Read | Write | Admin

  function Rank(level: Level): nat {
    match level
    case Read => 0
    case Write => 1
    case Admin => 2
  }

  function LevelNamed(name: string): Option<Level> {
    if name == "read" then Some(Read)
    else if name == "write" then Some(Write)
    else if name == "admin" then Some(Admin)
    else None
  }

  datatype UserInfo = UserInfo(hash: string, level: Level)

  type Users = map<string, UserInfo>

  // ---------------------------------------------------------------- fields of a line

  function TrimRight(s: string): string
    decreases |s|
  {
    if s != "" && IsSpace(s[|s|-1]) then TrimRight(s[..|s|-1]) else s
  }

  /** The fields between separators; empty fields count, so there is always at least one. */
  function Fields(s: string, sep: char): (fields: seq<string>)
    ensures fields != []
    decreases |s|
  {
    if s == "" then [""] else
      var before := Fields(s[..|s|-1], sep);
      var last := |before| - 1;
      if s[|s|-1] == sep then before + [""] else before[last := before[last] + [s[|s|-1]]]
  }

  function SplitFields(line: string, sep: char): seq<string> {
    if line == "" then [] else Fields(TrimRight(line), sep)
  }

  function Join(fields: seq<string>, sep: char): string
    requires fields != []
  {
    var last := |fields| - 1;
    if last == 0 then fields[0] else Join(fields[..last], sep) + [sep] + fields[last]
  }

  /** Empty, or with a character that is not white space: what the splitting loop can take. */
  predicate Splittable(line: string) {
    line == "" || TrimRight(line) != ""
  }

  method SplitLine(line: string, sep: char) returns (fields: seq<string>)
    requires Splittable(line)
    ensures fields == SplitFields(line, sep)
  {
    fields := [];
    if line == "" {
      return;
    }
    var text := line;
    while IsSpace(text[|text|-1])
      invariant text != "" && TrimRight(text) == TrimRight(line)
      decreases |text|
    {
      text := text[..|text|-1];
    }
    ghost var trimmed := text;
    text := text + [sep];
    var s := "";
    for i := 0 to |text|
      invariant i <= |trimmed| ==> fields + [s] == Fields(trimmed[..i], sep)
      invariant i == |text| ==> fields == Fields(trimmed, sep)
    {
      if i < |trimmed| {
        assert trimmed[..i+1][..i] == trimmed[..i];
      } else {
        assert trimmed[..i] == trimmed;
      }
      if text[i] == sep {
        fields, s := fields + [s], "";
      } else {
        s := s + [text[i]];
      }
    }
  }

  /** Joining undoes splitting ... */
  lemma {:induction false} JoinOfFields(s: string, sep: char)
    ensures Join(Fields(s, sep), sep) == s
    decreases |s|
  {
    if s != "" {
      var before := Fields(s[..|s|-1], sep);
      var last := |before| - 1;
      JoinOfFields(s[..|s|-1], sep);
      assert s == s[..|s|-1] + [s[|s|-1]];
      if s[|s|-1] == sep {
        assert (before + [""])[..last+1] == before;
      } else {
        var after := before[last := before[last] + [s[|s|-1]]];
        assert after[..last] == before[..last];
      }
    }
  }

  /** ... and splitting undoes joining, for fields that do not hold the separator. */
  lemma {:induction false} FieldsOfJoin(fields: seq<string>, sep: char)
    requires fields != [] && forall f :: f in fields ==> sep !in f
    ensures Fields(Join(fields, sep), sep) == fields
    decreases |fields|
  {
    var last := |fields| - 1;
    assert fields[last] in fields;
    if last > 0 {
      FieldsOfJoin(fields[..last], sep);
      var head := Join(fields[..last], sep) + [sep];
      assert head[..|head|-1] == Join(fields[..last], sep);
      GrowLastField(head, fields[last], sep);
      assert (fields[..last] + [""])[last := fields[last]] == fields;
    } else {
      GrowLastField("", fields[0], sep);
      assert "" + fields[0] == fields[0];
      assert [""][0 := fields[0]] == fields;
    }
  }

  lemma {:induction false} GrowLastField(head: string, field: string, sep: char)
    requires sep !in field
    requires var fs := Fields(head, sep); fs[|fs|-1] == ""
    ensures var fs := Fields(head, sep); Fields(head + field, sep) == fs[|fs|-1 := field]
    decreases |field|
  {
    var fs := Fields(head, sep);
    if field == "" {
      assert head + field == head;
      assert fs[|fs|-1 := ""] == fs;
    } else {
      var n := |field| - 1;
      GrowLastField(head, field[..n], sep);
      assert (head + field)[..|head + field|-1] == head + field[..n];
      assert field[..n] + [field[n]] == field;
      assert field[n] in field;
    }
  }

  /** splitLine is inverted by joining with the separator, up to white space stripped at the end. */
  lemma SplitLineRoundTrip(fields: seq<string>, sep: char, tail: string)
    requires fields != [] && forall f :: f in fields ==> sep !in f
    requires var line := Join(fields, sep); line != "" && !IsSpace(line[|line|-1])
    requires forall i :: 0 <= i < |tail| ==> IsSpace(tail[i])
    ensures SplitFields(Join(fields, sep) + tail, sep) == fields
    ensures Join(SplitFields(Join(fields, sep) + tail, sep), sep) == Join(fields, sep)
  {
    TrimTail(Join(fields, sep), tail);
    FieldsOfJoin(fields, sep);
  }

  lemma {:induction false} TrimTail(s: string, tail: string)
    requires s == "" || !IsSpace(s[|s|-1])
    requires forall i :: 0 <= i < |tail| ==> IsSpace(tail[i])
    ensures TrimRight(s + tail) == s
    decreases |tail|
  {
    if tail == "" {
      assert s + tail == s;
    } else {
      TrimTail(s, tail[..|tail|-1]);
      assert (s + tail)[..|s + tail|-1] == s + tail[..|tail|-1];
    }
  }

  // ---------------------------------------------------------------- the credential files

  /** One line of the htpasswd file: user:hash, with a hash of 13 characters. */
  function PasswdLine(line: Line): Option<(string, string)> {
    var f := SplitFields(line, ':');
    if |f| == 2 && f[0] != "" && |f[1]| == 13 then Some((f[0], f[1])) else None
  }

  function ParsePasswd(lines: seq<Line>): Option<Users> {
    if lines == [] then Some(map[]) else
      var users := ParsePasswd(lines[..|lines|-1]);
      var entry := PasswdLine(lines[|lines|-1]);
      if lines[|lines|-1] == "" then users
      else if users.None? || entry.None? then None
      else Some(users.value[entry.value.0 := UserInfo(entry.value.1, Read)])
  }

  /** One line of the group file, level:password:GID:user,user,...: a level and whom it is granted to. */
  function GroupLine(line: Line): Option<(Level, seq<string>)> {
    var f := SplitFields(line, ':');
    if |f| == 4 && LevelNamed(f[0]).Some? then Some((LevelNamed(f[0]).value, SplitFields(f[3], ','))) else None
  }

  function Elevate(info: UserInfo, level: Level): UserInfo {
    if Rank(level) > Rank(info.level) then info.(level := level) else info
  }

  function ApplyGroup(users: Users, level: Level, names: seq<string>): Users {
    map u | u in users :: if u in names then Elevate(users[u], level) else users[u]
  }

  function ParseGroups(users: Users, lines: seq<Line>): Option<Users> {
    if lines == [] then Some(users) else
      var before := ParseGroups(users, lines[..|lines|-1]);
      var group := GroupLine(lines[|lines|-1]);
      if lines[|lines|-1] == "" then before
      else if before.None? || group.None? then None
      else Some(ApplyGroup(before.value, group.value.0, group.value.1))
  }

  function ParseFiles(passwd: seq<Line>, groups: seq<Line>): Option<Users> {
    var users := ParsePasswd(passwd);
    if users.None? then None else ParseGroups(users.value, groups)
  }

  /** Some line of the group file grants level to user. */
  ghost predicate Granted(lines: seq<Line>, user: string, level: Level) {
    exists i :: 0 <= i < |lines| && GrantedBy(lines[i], user, level)
  }

  predicate GrantedBy(line: Line, user: string, level: Level) {
    GroupLine(line).Some? && GroupLine(line).value.0 == level && user in GroupLine(line).value.1
  }

  lemma GrantedGrows(lines: seq<Line>, line: Line, user: string, level: Level)
    ensures Granted(lines + [line], user, level) <==> Granted(lines, user, level) || GrantedBy(line, user, level)
  {
    var more := lines + [line];
    assert more[|lines|] == line;
    if Granted(lines, user, level) {
      var i :| 0 <= i < |lines| && GrantedBy(lines[i], user, level);
      assert more[i] == lines[i];
    }
    if Granted(more, user, level) {
      var i :| 0 <= i < |more| && GrantedBy(more[i], user, level);
      assert i < |lines| ==> lines[i] == more[i];
    }
  }

  /** The group file is refused exactly when one of its lines is malformed. */
  lemma {:induction false} GroupsParse(users: Users, lines: seq<Line>)
    ensures ParseGroups(users, lines).Some? <==> forall l :: l in lines ==> l == "" || GroupLine(l).Some?
  {
    if lines != [] {
      GroupsParse(users, lines[..|lines|-1]);
      assert lines == lines[..|lines|-1] + [lines[|lines|-1]];
    }
  }

  lemma {:induction false} GroupsKeepUsers(users: Users, lines: seq<Line>)
    requires ParseGroups(users, lines).Some?
    ensures ParseGroups(users, lines).value.Keys == users.Keys
  {
    if lines != [] {
      GroupsKeepUsers(users, lines[..|lines|-1]);
    }
  }

  /** The merge keeps a user's hash, and gives the user the greatest of the level it had and all levels
      granted to it. */
  lemma {:induction false} GroupMergeIsMaximum(users: Users, lines: seq<Line>, u: string, level: Level)
    requires u in users && ParseGroups(users, lines).Some?
    ensures var merged := ParseGroups(users, lines).value;
      && u in merged
      && merged[u].hash == users[u].hash
      && (merged[u].level == users[u].level || Granted(lines, u, merged[u].level))
      && Rank(users[u].level) <= Rank(merged[u].level)
      && (Granted(lines, u, level) ==> Rank(level) <= Rank(merged[u].level))
  {
    if lines != [] {
      var before, line := lines[..|lines|-1], lines[|lines|-1];
      GroupMergeIsMaximum(users, before, u, level);
      assert lines == before + [line];
      GrantedGrows(before, line, u, level);
      GrantedGrows(before, line, u, ParseGroups(users, lines).value[u].level);
    }
  }

  /** What a group line says, whatever the order in which it says it. */
  ghost predicate SameGrants(a: seq<Line>, b: seq<Line>) {
    forall u, level :: Granted(a, u, level) <==> Granted(b, u, level)
  }

  lemma MoreGrantsMoreLevel(users: Users, a: seq<Line>, b: seq<Line>, u: string)
    requires SameGrants(a, b) && u in users
    requires ParseGroups(users, a).Some? && ParseGroups(users, b).Some?
    ensures u in ParseGroups(users, a).value && u in ParseGroups(users, b).value
    ensures ParseGroups(users, a).value[u].hash == ParseGroups(users, b).value[u].hash
    ensures Rank(ParseGroups(users, a).value[u].level) <= Rank(ParseGroups(users, b).value[u].level)
  {
    GroupMergeIsMaximum(users, a, u, Read);
    var level := ParseGroups(users, a).value[u].level;
    GroupMergeIsMaximum(users, b, u, level);
    assert Granted(a, u, level) ==> Granted(b, u, level);
  }

  /** Neither the order of group lines, nor that of names in a line, nor how the names are spread over
      lines, makes a difference. */
  lemma GroupOrderIrrelevant(users: Users, a: seq<Line>, b: seq<Line>)
    requires SameGrants(a, b)
    requires ParseGroups(users, a).Some? && ParseGroups(users, b).Some?
    ensures ParseGroups(users, a) == ParseGroups(users, b)
  {
    GroupsKeepUsers(users, a);
    GroupsKeepUsers(users, b);
    var ma, mb := ParseGroups(users, a).value, ParseGroups(users, b).value;
    forall u | u in users ensures ma[u] == mb[u] {
      SameInfo(users, a, b, u);
    }
    assert ma == mb;
  }

  /** Two group lines that read the same, or list the same names, in whatever order, at the same level. */
  ghost predicate SameLine(l: Line, m: Line) {
    l == m ||
    (GroupLine(l).Some? && GroupLine(m).Some? && GroupLine(l).value.0 == GroupLine(m).value.0 &&
     forall n :: n in GroupLine(l).value.1 <==> n in GroupLine(m).value.1)
  }

  /** The lines of one file are those of the other, up to the order of lines and of names within lines; c is
      the first file with its names put in the other's order. */
  ghost predicate Reordered(a: seq<Line>, b: seq<Line>, c: seq<Line>) {
    |c| == |a| && (forall i :: 0 <= i < |a| ==> SameLine(a[i], c[i])) && multiset(c) == multiset(b)
  }

  lemma ReorderedGrants(a: seq<Line>, b: seq<Line>, c: seq<Line>, u: string, level: Level)
    requires Reordered(a, b, c)
    ensures Granted(a, u, level) <==> Granted(b, u, level)
  {
    hide GroupLine;
    if Granted(a, u, level) {
      var i :| 0 <= i < |a| && GrantedBy(a[i], u, level);
      assert GrantedBy(c[i], u, level) by { assert SameLine(a[i], c[i]); }
      assert c[i] in multiset(c) && c[i] in b;
    }
    if Granted(b, u, level) {
      var j :| 0 <= j < |b| && GrantedBy(b[j], u, level);
      assert b[j] in multiset(b) && b[j] in c;
      var i :| 0 <= i < |c| && c[i] == b[j];
      assert GrantedBy(a[i], u, level) by { assert SameLine(a[i], c[i]); }
    }
  }

  lemma ReorderedParses(users: Users, a: seq<Line>, b: seq<Line>, c: seq<Line>)
    requires Reordered(a, b, c)
    ensures ParseGroups(users, a).Some? == ParseGroups(users, b).Some?
  {
    hide GroupLine;
    GroupsParse(users, a);
    GroupsParse(users, b);
    if l :| l in a && l != "" && GroupLine(l).None? {
      var i :| 0 <= i < |a| && a[i] == l;
      assert SameLine(a[i], c[i]);
      assert c[i] in multiset(c) && l in b;
    }
    if l :| l in b && l != "" && GroupLine(l).None? {
      assert l in multiset(b) && l in c;
      var i :| 0 <= i < |c| && c[i] == l;
      assert SameLine(a[i], c[i]);
      assert l in a;
    }
  }

  /** Reordering the lines of a group file, and the names within its lines, changes neither whether it is
      accepted nor what it gives. */
  lemma GroupReordering(users: Users, a: seq<Line>, b: seq<Line>, c: seq<Line>)
    requires Reordered(a, b, c)
    ensures ParseGroups(users, a) == ParseGroups(users, b)
  {
    ReorderedParses(users, a, b, c);
    if ParseGroups(users, a).Some? {
      forall u, level ensures Granted(a, u, level) <==> Granted(b, u, level) {
        ReorderedGrants(a, b, c, u, level);
      }
      GroupOrderIrrelevant(users, a, b);
    }
  }

  lemma SameInfo(users: Users, a: seq<Line>, b: seq<Line>, u: string)
    requires SameGrants(a, b) && u in users
    requires ParseGroups(users, a).Some? && ParseGroups(users, b).Some?
    ensures u in ParseGroups(users, a).value && u in ParseGroups(users, b).value
    ensures ParseGroups(users, a).value[u] == ParseGroups(users, b).value[u]
  {
    MoreGrantsMoreLevel(users, a, b, u);
    assert SameGrants(b, a);
    MoreGrantsMoreLevel(users, b, a, u);
    SameByRank(ParseGroups(users, a).value[u], ParseGroups(users, b).value[u]);
  }

  lemma SameByRank(x: UserInfo, y: UserInfo)
    requires x.hash == y.hash && Rank(x.level) == Rank(y.level)
    ensures x == y
  {
  }

  // ---------------------------------------------------------------- what the files say

  /** The line reads user:hash. */
  predicate Names(line: Line, user: string, hash: string) {
    SplitFields(line, ':') == [user, hash] && user != "" && |hash| == 13
  }

  /** The line reads word:password:GID:user,user,... */
  predicate IsGroup(line: Line, word: string) {
    var f := SplitFields(line, ':');
    |f| == 4 && f[0] == word
  }

  predicate Lists(line: Line, word: string, user: string) {
    IsGroup(line, word) && user in SplitFields(SplitFields(line, ':')[3], ',')
  }

  ghost predicate NamedBy(line: Line, user: string) {
    exists hash :: Names(line, user, hash)
  }

  ghost predicate NamedIn(passwd: seq<Line>, user: string) {
    exists i :: 0 <= i < |passwd| && NamedBy(passwd[i], user)
  }

  /** The last line that names the user gives it this hash. */
  ghost predicate HashedAs(passwd: seq<Line>, user: string, hash: string) {
    exists i :: 0 <= i < |passwd| && Names(passwd[i], user, hash)
      && forall j :: i < j < |passwd| ==> !NamedBy(passwd[j], user)
  }

  ghost predicate ListedIn(groups: seq<Line>, word: string, user: string) {
    exists i :: 0 <= i < |groups| && Lists(groups[i], word, user)
  }

  lemma NamesIsEntry(line: Line, user: string)
    ensures NamedBy(line, user) <==> PasswdLine(line).Some? && PasswdLine(line).value.0 == user
    ensures NamedBy(line, user) ==> Names(line, user, PasswdLine(line).value.1)
    ensures line == "" ==> !NamedBy(line, user)
  {
    hide Fields, TrimRight;
    var f := SplitFields(line, ':');
    if |f| == 2 {
      assert f == [f[0], f[1]];
      assert PasswdLine(line).Some? ==> Names(line, f[0], f[1]);
    }
  }

  lemma NamedGrows(passwd: seq<Line>, line: Line, user: string)
    ensures NamedIn(passwd + [line], user) <==> NamedIn(passwd, user) || NamedBy(line, user)
  {
    hide NamedBy;
    var more := passwd + [line];
    assert more[|passwd|] == line;
    assert forall i :: 0 <= i < |passwd| ==> more[i] == passwd[i];
  }

  lemma HashedGrows(passwd: seq<Line>, line: Line, user: string, hash: string)
    requires if NamedBy(line, user) then Names(line, user, hash) else HashedAs(passwd, user, hash)
    ensures HashedAs(passwd + [line], user, hash)
  {
    hide Names, NamedBy;
    var more := passwd + [line];
    assert more[|passwd|] == line;
    if !NamedBy(line, user) {
      var i :| 0 <= i < |passwd| && Names(passwd[i], user, hash)
        && forall j :: i < j < |passwd| ==> !NamedBy(passwd[j], user);
      assert Names(more[i], user, hash);
      forall j | i < j < |more| ensures !NamedBy(more[j], user) {
        assert j < |passwd| ==> more[j] == passwd[j];
      }
    }
  }

  /** The users of the password file: those it names, each with the hash of its last line, at read level. */
  lemma {:induction false} PasswdUsers(passwd: seq<Line>, user: string)
    requires ParsePasswd(passwd).Some?
    ensures var users := ParsePasswd(passwd).value;
      && (user in users <==> NamedIn(passwd, user))
      && (user in users ==> HashedAs(passwd, user, users[user].hash) && users[user].level == Read)
  {
    hide Names, PasswdLine, NamedBy, HashedAs;
    if passwd != [] {
      var before, line := passwd[..|passwd|-1], passwd[|passwd|-1];
      assert passwd == before + [line];
      PasswdUsers(before, user);
      NamesIsEntry(line, user);
      NamedGrows(before, line, user);
      var users := ParsePasswd(passwd).value;
      if user in users {
        HashedGrows(before, line, user, users[user].hash);
      }
    }
  }

  lemma ListsIsGrant(line: Line, user: string)
    ensures Lists(line, "read", user) <==> GrantedBy(line, user, Read)
    ensures Lists(line, "write", user) <==> GrantedBy(line, user, Write)
    ensures Lists(line, "admin", user) <==> GrantedBy(line, user, Admin)
  {
    hide SplitFields;
  }

  lemma ListedIsGranted(groups: seq<Line>, user: string)
    ensures ListedIn(groups, "write", user) <==> Granted(groups, user, Write)
    ensures ListedIn(groups, "admin", user) <==> Granted(groups, user, Admin)
  {
    hide Lists, GrantedBy;
    forall i | 0 <= i < |groups|
      ensures Lists(groups[i], "write", user) <==> GrantedBy(groups[i], user, Write)
      ensures Lists(groups[i], "admin", user) <==> GrantedBy(groups[i], user, Admin)
    {
      ListsIsGrant(groups[i], user);
    }
  }

  /** What the two files mean together: the users are those that the password file names, each with the hash of
      its last line there, at admin level if an admin group lists it, else at write level if a write group
      does, else at read level. */
  lemma UsersOfFiles(passwd: seq<Line>, groups: seq<Line>, user: string)
    requires ParseFiles(passwd, groups).Some?
    ensures var users := ParseFiles(passwd, groups).value;
      && (user in users <==> NamedIn(passwd, user))
      && (user in users ==>
            && HashedAs(passwd, user, users[user].hash)
            && users[user].level == if ListedIn(groups, "admin", user) then Admin
                                    else if ListedIn(groups, "write", user) then Write else Read)
  {
    hide ParsePasswd, ParseGroups, NamedIn, HashedAs, ListedIn, Granted;
    var read := ParsePasswd(passwd).value;
    PasswdUsers(passwd, user);
    GroupsKeepUsers(read, groups);
    if user in read {
      ListedIsGranted(groups, user);
      GroupMergeIsMaximum(read, groups, user, Write);
      GroupMergeIsMaximum(read, groups, user, Admin);
    }
  }

  ghost predicate PasswdFits(line: Line) {
    line == "" || exists user :: NamedBy(line, user)
  }

  predicate GroupFits(line: Line) {
    line == "" || IsGroup(line, "read") || IsGroup(line, "write") || IsGroup(line, "admin")
  }

  lemma {:induction false} PasswdParse(passwd: seq<Line>)
    ensures ParsePasswd(passwd).Some? <==> forall l :: l in passwd ==> PasswdFits(l)
  {
    hide PasswdLine, PasswdFits;
    if passwd != [] {
      var before, line := passwd[..|passwd|-1], passwd[|passwd|-1];
      assert passwd == before + [line];
      PasswdParse(before);
      PasswdFitsIff(line);
    }
  }

  lemma PasswdFitsIff(line: Line)
    ensures PasswdFits(line) <==> line == "" || PasswdLine(line).Some?
  {
    hide PasswdLine, NamedBy;
    if PasswdLine(line).Some? {
      NamesIsEntry(line, PasswdLine(line).value.0);
    }
    if user :| NamedBy(line, user) {
      NamesIsEntry(line, user);
    }
  }

  /** The files are accepted exactly if every line that is not empty has the form that it should have. */
  lemma FilesParseIff(passwd: seq<Line>, groups: seq<Line>)
    ensures ParseFiles(passwd, groups).Some?
      <==> (forall l :: l in passwd ==> PasswdFits(l)) && (forall l :: l in groups ==> GroupFits(l))
  {
    hide PasswdFits, SplitFields, ParseGroups, ParsePasswd;
    PasswdParse(passwd);
    if ParsePasswd(passwd).Some? {
      GroupsParse(ParsePasswd(passwd).value, groups);
    }
  }

  // ---------------------------------------------------------------- authorization

  /** The level that credentials of the form user:password earn with these users, if any. */
  function Authorize(users: Users, credentials: string, crypt: (string, string) -> string): Option<Level> {
    var cred := SplitFields(credentials, ':');
    if |cred| != 2 || cred[0] == "" || cred[1] == "" then None
    else if cred[0] !in users then None
    else if crypt(cred[1], users[cred[0]].hash) != users[cred[0]].hash then None
    else Some(users[cred[0]].level)
  }

  function ParsedOr(parsed: Option<Users>, users: Users): Users {
    if parsed.Some? then parsed.value else users
  }

  /** The users and the refresh time after one refresh that sampled the clock at now, found these
      modification times (None: no such file) and read these contents. */
  function Refreshed(users: Users, last: int, now: int, passwdTime: Option<int>, groupTime: Option<int>,
                     passwd: seq<Line>, groups: seq<Line>): (Users, int)
  {
    if passwdTime.None? then (users, last)
    else if passwdTime.value < last && groupTime.None? then (users, last)
    else if passwdTime.value < last && groupTime.value < last then (users, last)
    else (ParsedOr(ParseFiles(passwd, groups), users), now)
  }

  /** A line as the file reader hands it out. */
  predicate Readable(lines: seq<Line>) {
    forall l :: l in lines ==> Splittable(l)
  }

  /** The text after the last separator of a line is empty or ends as the trimmed line does. */
  lemma {:induction false} LastFieldEndsAsLine(s: string, sep: char)
    ensures var f := Fields(s, sep); var last := f[|f|-1];
            last == "" || (s != "" && last[|last|-1] == s[|s|-1])
    decreases |s|
  {
    if s != "" {
      LastFieldEndsAsLine(s[..|s|-1], sep);
    }
  }

  lemma {:induction false} TrimmedEnd(s: string)
    ensures TrimRight(s) == "" || !IsSpace(TrimRight(s)[|TrimRight(s)|-1])
    decreases |s|
  {
    if s != "" && IsSpace(s[|s|-1]) {
      TrimmedEnd(s[..|s|-1]);
    }
  }

  lemma LastFieldSplittable(line: Line, sep: char)
    ensures var f := SplitFields(line, sep); f != [] ==> Splittable(f[|f|-1])
  {
    TrimmedEnd(line);
    LastFieldEndsAsLine(TrimRight(line), sep);
  }

  lemma EmptyHasNoFields(line: Line, sep: char)
    ensures SplitFields(line, sep) == [] <==> line == ""
  {
  }

  lemma NoLevelIsEmpty()
    ensures LevelNamed("") == None
  {
  }

  /** The authority: a cache of the two credential files. */
  class PasswordAuth {
    var users: Users
    var lastCacheRefresh: int

    /** The files are read once at start; now is sampled after that. A server does not start with files
        that do not parse differently from one that starts without users. */
    constructor (now: int, passwd: seq<Line>, groups: seq<Line>)
      requires Readable(passwd) && Readable(groups)
      ensures users == ParsedOr(ParseFiles(passwd, groups), map[])
      ensures lastCacheRefresh == now
    {
      users, lastCacheRefresh := map[], 0;
      new;
      var _ := ReadCredentialFiles(passwd, groups);
      lastCacheRefresh := now;
    }

    method ReadCredentialFiles(passwd: seq<Line>, groups: seq<Line>) returns (ok: bool)
      requires Readable(passwd) && Readable(groups)
      modifies this`users
      ensures ok <==> ParseFiles(passwd, groups).Some?
      ensures users == ParsedOr(ParseFiles(passwd, groups), old(users))
      ensures !ok ==> users == old(users)
    {
      hide SplitFields, Splittable, ApplyGroup, LevelNamed;
      var newUsers: Users := map[];
      for i := 0 to |passwd|
        invariant users == old(users)
        invariant ParsePasswd(passwd[..i]) == Some(newUsers)
      {
        assert passwd[..i+1][..i] == passwd[..i];
        EmptyHasNoFields(passwd[i], ':');
        var fields := SplitLine(passwd[i], ':');
        if |fields| == 0 {
          continue;
        }
        if |fields| != 2 || fields[0] == "" || |fields[1]| != 13 {
          RefusedPasswd(passwd, i);
          return false;
        }
        newUsers := newUsers[fields[0] := UserInfo(fields[1], Read)];
      }
      assert passwd[..|passwd|] == passwd;
      ghost var read := newUsers;
      for i := 0 to |groups|
        invariant users == old(users)
        invariant ParseGroups(read, groups[..i]) == Some(newUsers)
      {
        assert groups[..i+1][..i] == groups[..i];
        EmptyHasNoFields(groups[i], ':');
        var fields := SplitLine(groups[i], ':');
        if |fields| == 0 {
          continue;
        }
        NoLevelIsEmpty();
        if |fields| != 4 || fields[0] == "" || LevelNamed(fields[0]) == None {
          RefusedGroups(read, groups, i);
          return false;
        }
        var level := LevelNamed(fields[0]).value;
        LastFieldSplittable(groups[i], ':');
        var names := SplitLine(fields[3], ',');
        newUsers := ElevateAll(newUsers, level, names);
      }
      assert groups[..|groups|] == groups;
      users := newUsers;
      return true;
    }

    /** Goes through the names of a group line and raises the users among them. */
    static method ElevateAll(users: Users, level: Level, names: seq<string>) returns (raised: Users)
      ensures raised == ApplyGroup(users, level, names)
    {
      raised := users;
      assert users == ApplyGroup(users, level, names[..0]);
      for i := 0 to |names|
        invariant raised == ApplyGroup(users, level, names[..i])
      {
        assert names[..i+1] == names[..i] + [names[i]];
        if names[i] in raised && Rank(level) > Rank(raised[names[i]].level) {
          raised := raised[names[i] := raised[names[i]].(level := level)];
        }
      }
      assert names[..|names|] == names;
    }

    /** Reads the files again if one may have changed since the last refresh. */
    method RefreshFileCache(now: int, passwdTime: Option<int>, groupTime: Option<int>,
                            passwd: seq<Line>, groups: seq<Line>)
      requires Readable(passwd) && Readable(groups)
      modifies this
      ensures (users, lastCacheRefresh)
           == Refreshed(old(users), old(lastCacheRefresh), now, passwdTime, groupTime, passwd, groups)
      ensures ParseFiles(passwd, groups).None? ==> users == old(users)
    {
      var needRefresh := false;
      if passwdTime == None {
        return;
      }
      var mtime := passwdTime.value;
      if mtime >= lastCacheRefresh {
        needRefresh := true;
      } else if groupTime == None {
        return;
      } else {
        mtime := groupTime.value;
      }
      if mtime >= lastCacheRefresh || needRefresh {
        lastCacheRefresh := now;
        var _ := ReadCredentialFiles(passwd, groups);
      }
    }

    method AuthorizeUser(credentials: string, crypt: (string, string) -> string, now: int,
                         passwdTime: Option<int>, groupTime: Option<int>,
                         passwd: seq<Line>, groups: seq<Line>) returns (level: Option<Level>)
      requires Readable(passwd) && Readable(groups) && Splittable(credentials)
      modifies this
      ensures (users, lastCacheRefresh)
           == Refreshed(old(users), old(lastCacheRefresh), now, passwdTime, groupTime, passwd, groups)
      ensures level == Authorize(users, credentials, crypt)
    {
      RefreshFileCache(now, passwdTime, groupTime, passwd, groups);
      var cred := SplitLine(credentials, ':');
      if |cred| != 2 || cred[0] == "" || cred[1] == "" {
        return None;
      }
      if cred[0] !in users {
        return None;
      }
      var crypted := crypt(cred[1], users[cred[0]].hash);
      if crypted != users[cred[0]].hash {
        return None;
      }
      return Some(users[cred[0]].level);
    }
  }

  lemma {:induction false} RefusedPasswd(lines: seq<Line>, i: nat)
    requires i < |lines| && lines[i] != "" && PasswdLine(lines[i]).None?
    ensures ParsePasswd(lines).None?
    decreases |lines|
  {
    if i < |lines| - 1 {
      RefusedPasswd(lines[..|lines|-1], i);
    }
  }

  lemma {:induction false} RefusedGroups(users: Users, lines: seq<Line>, i: nat)
    requires i < |lines| && lines[i] != "" && GroupLine(lines[i]).None?
    ensures ParseGroups(users, lines).None?
    decreases |lines|
  {
    if i < |lines| - 1 {
      RefusedGroups(users, lines[..|lines|-1], i);
    }
  }
}
