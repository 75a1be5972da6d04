/** Allocating quota project ids in the two system files (internal/workspace/workspace.go). */
module ProjectQuota {
  import opened Prelude
  import opened Text

  /* Lines */

  function IndexOf(s: string, c: char): (i: nat)
    ensures i <= |s| && (i < |s| ==> s[i] == c)
    ensures forall k :: 0 <= k < i ==> s[k] != c
  {
    if s == "" || s[0] == c then 0 else 1 + IndexOf(s[1..], c)
  }

  /** The lines of a text, as a scanner reads them. */
  function Lines(text: string): seq<string> {
    if text == "" then []
    else
      var i := IndexOf(text, '\n');
      if i == |text| then [text] else [text[..i]] + Lines(text[i + 1..])
  }

  function Render(lines: seq<string>): string {
    if lines == [] then "" else lines[0] + "\n" + Render(lines[1..])
  }

  lemma IndexOfFirst(a: string, c: char, b: string)
    requires c !in a
    ensures IndexOf(a + [c] + b, c) == |a|
  {
    var s := a + [c] + b;
    assert s[|a|] == c;
    assert forall k :: 0 <= k < |a| ==> s[k] == a[k] != c;
  }

  lemma LinesOfFirst(first: string, rest: string)
    requires '\n' !in first
    ensures Lines(first + "\n" + rest) == [first] + Lines(rest)
  {
    IndexOfFirst(first, '\n', rest);
    var text := first + "\n" + rest;
    assert text[..|first|] == first && text[|first| + 1..] == rest;
    hide IndexOf;
  }

  lemma {:induction false} LinesOfRender(lines: seq<string>)
    requires forall i :: 0 <= i < |lines| ==> '\n' !in lines[i]
    ensures Lines(Render(lines)) == lines
  {
    hide Lines;
    if lines == [] {
      NoLines();
    } else {
      LinesOfFirst(lines[0], Render(lines[1..]));
      LinesOfRender(lines[1..]);
    }
  }

  lemma NoLines()
    ensures Lines("") == []
  {
  }

  /* Numbers */

  const MAX_INT64: int := 0x7FFF_FFFF_FFFF_FFFF
  const MIN_INT64: int := -0x8000_0000_0000_0000

  predicate IsInt64(n: int) { MIN_INT64 <= n <= MAX_INT64 }

  function PrintInt(n: int): string {
    if n < 0 then "-" + Print(-n) else Print(n)
  }

  /** `strconv.Atoi`: an optional sign and decimal digits, within 64 bits. */
  function Atoi(s: string): (n: Option<int>)
    ensures n.Some? ==> IsInt64(n.value)
  {
    var negative := s != "" && s[0] == '-';
    var digits := if s != "" && (s[0] == '-' || s[0] == '+') then s[1..] else s;
    if digits == "" || !AllDigits(digits) then None
    else
      var v: int := DigitsValue(digits);
      var n := if negative then -v else v;
      if IsInt64(n) then Some(n) else None
  }

  lemma DigitsArePlain(s: string)
    requires AllDigits(s) && s != ""
    ensures Trimmed(s) && s[0] != '-' && s[0] != '+' && s[0] != '#' && ':' !in s && '\n' !in s
  {
    assert IsDigit(s[0]) && IsDigit(s[|s| - 1]);
  }

  lemma SignedReadsBack(digits: string)
    requires AllDigits(digits) && digits != ""
    ensures Atoi(digits) == if IsInt64(DigitsValue(digits)) then Some(DigitsValue(digits)) else None
    ensures var n: int := DigitsValue(digits); Atoi("-" + digits) == if IsInt64(-n) then Some(-n) else None
  {
    DigitsArePlain(digits);
    assert ("-" + digits)[1..] == digits;
    hide DigitsValue, AllDigits;
  }

  /** Printed numbers are read back as they were, and have no space or colon in them. */
  lemma PrintIntReadsBack(n: int)
    requires IsInt64(n)
    ensures Atoi(PrintInt(n)) == Some(n)
    ensures Trimmed(PrintInt(n)) && PrintInt(n) != "" && ':' !in PrintInt(n) && '\n' !in PrintInt(n) && PrintInt(n)[0] != '#'
  {
    var m: nat := if n < 0 then -n else n;
    var p := Print(m);
    PrintThenValue(m);
    DigitsArePlain(p);
    SignedReadsBack(p);
    hide Print, DigitsValue, Atoi, AllDigits;
    if n < 0 { assert ("-" + p)[|p|] == p[|p| - 1]; }
  }

  /* The two files */

  type Ids = map<string, int>

  type Paths = map<int, string>

  /** The parts of a line around its first colon, trimmed; None for blank lines, comments and lines without two parts. */
  function Parts(rawLine: string): Option<(string, string)> {
    var line := TrimSpace(rawLine);
    var i := IndexOf(line, ':');
    if line == "" || line[0] == '#' || i == |line| then None
    else
      var left, right := TrimSpace(line[..i]), TrimSpace(line[i + 1..]);
      if left == "" || right == "" then None else Some((left, right))
  }

  function ParseIds(lines: seq<string>): Ids {
    if lines == [] then map[]
    else
      var before, parts := ParseIds(lines[..|lines| - 1]), Parts(lines[|lines| - 1]);
      if parts.None? then before
      else
        var id := Atoi(parts.value.1);
        if id.None? then before else before[parts.value.0 := id.value]
  }

  function ParsePaths(lines: seq<string>): Paths {
    if lines == [] then map[]
    else
      var before, parts := ParsePaths(lines[..|lines| - 1]), Parts(lines[|lines| - 1]);
      if parts.None? then before
      else
        var id := Atoi(parts.value.0);
        if id.None? then before else before[id.value := parts.value.1]
  }

  method ReadProjidMap(text: string) returns (ids: Ids)
    ensures ids == ParseIds(Lines(text))
  {
    var lines := Lines(text);
    ids := map[];
    var i := 0;
    while i < |lines|
      invariant i <= |lines|
      invariant ids == ParseIds(lines[..i])
    {
      assert lines[..i + 1][..i] == lines[..i];
      var parts := Parts(lines[i]);
      i := i + 1;
      if parts.None? { continue; }
      var id := Atoi(parts.value.1);
      if id.None? { continue; }
      ids := ids[parts.value.0 := id.value];
    }
    assert lines[..i] == lines;
  }

  method ReadProjectsMap(text: string) returns (paths: Paths)
    ensures paths == ParsePaths(Lines(text))
  {
    var lines := Lines(text);
    paths := map[];
    var i := 0;
    while i < |lines|
      invariant i <= |lines|
      invariant paths == ParsePaths(lines[..i])
    {
      assert lines[..i + 1][..i] == lines[..i];
      var parts := Parts(lines[i]);
      i := i + 1;
      if parts.None? { continue; }
      var id := Atoi(parts.value.0);
      if id.None? { continue; }
      paths := paths[id.value := parts.value.1];
    }
    assert lines[..i] == lines;
  }

  function IdLine(name: string, id: int): string {
    name + ":" + PrintInt(id)
  }

  function PathLine(id: int, path: string): string {
    PrintInt(id) + ":" + path
  }

  /** Text that a line can carry: not empty, on one line, without space at its ends. */
  predicate OneLine(s: string) {
    s != "" && Trimmed(s) && '\n' !in s
  }

  predicate CleanName(name: string) {
    OneLine(name) && ':' !in name && name[0] != '#'
  }

  ghost predicate CleanIds(ids: Ids) {
    forall name :: name in ids ==> CleanName(name) && IsInt64(ids[name])
  }

  ghost predicate CleanPaths(paths: Paths) {
    forall id :: id in paths ==> IsInt64(id) && OneLine(paths[id])
  }

  lemma PartsOfLine(a: string, b: string)
    requires CleanName(a) && OneLine(b)
    ensures Parts(a + ":" + b) == Some((a, b)) && '\n' !in a + ":" + b
  {
    var line := a + ":" + b;
    assert line[0] == a[0] && line[|line| - 1] == b[|b| - 1];
    TrimSpaceTrims(line);
    TrimSpaceTrims(a);
    TrimSpaceTrims(b);
    IndexOfFirst(a, ':', b);
    assert line == a + [':'] + b;
    assert line[..|a|] == a && line[|a| + 1..] == b;
  }

  lemma IdLineReadsBack(name: string, id: int)
    requires CleanName(name) && IsInt64(id)
    ensures Parts(IdLine(name, id)) == Some((name, PrintInt(id))) && '\n' !in IdLine(name, id)
  {
    PrintIntReadsBack(id);
    PartsOfLine(name, PrintInt(id));
  }

  lemma PathLineReadsBack(id: int, path: string)
    requires IsInt64(id) && OneLine(path)
    ensures Parts(PathLine(id, path)) == Some((PrintInt(id), path)) && '\n' !in PathLine(id, path)
  {
    PrintIntReadsBack(id);
    PartsOfLine(PrintInt(id), path);
  }

  /** The lines for a map, its keys in some order. */
  function IdLines(ids: Ids, names: seq<string>): seq<string>
    requires forall i :: 0 <= i < |names| ==> names[i] in ids
  {
    seq(|names|, i requires 0 <= i < |names| => IdLine(names[i], ids[names[i]]))
  }

  function PathLines(paths: Paths, order: seq<int>): seq<string>
    requires forall i :: 0 <= i < |order| ==> order[i] in paths
  {
    seq(|order|, i requires 0 <= i < |order| => PathLine(order[i], paths[order[i]]))
  }

  function IdsOf(ids: Ids, names: seq<string>): Ids {
    map name | name in ids && name in names :: ids[name]
  }

  function PathsOf(paths: Paths, order: seq<int>): Paths {
    map id | id in paths && id in order :: paths[id]
  }

  lemma ParseIdsOneMore(lines: seq<string>, name: string, id: int)
    requires CleanName(name) && IsInt64(id)
    ensures ParseIds(lines + [IdLine(name, id)]) == ParseIds(lines)[name := id]
  {
    IdLineReadsBack(name, id);
    PrintIntReadsBack(id);
    assert (lines + [IdLine(name, id)])[..|lines|] == lines;
    hide Parts, Atoi, IdLine, PrintInt, CleanName;
  }

  lemma ParsePathsOneMore(lines: seq<string>, id: int, path: string)
    requires IsInt64(id) && OneLine(path)
    ensures ParsePaths(lines + [PathLine(id, path)]) == ParsePaths(lines)[id := path]
  {
    PathLineReadsBack(id, path);
    PrintIntReadsBack(id);
    assert (lines + [PathLine(id, path)])[..|lines|] == lines;
    hide Parts, Atoi, PathLine, PrintInt, OneLine;
  }

  lemma {:induction false} ParsedIds(ids: Ids, names: seq<string>)
    requires CleanIds(ids) && forall i :: 0 <= i < |names| ==> names[i] in ids
    ensures ParseIds(IdLines(ids, names)) == IdsOf(ids, names)
  {
    hide IdLine, CleanName, IsInt64, ParseIds;
    if names == [] {
      assert ParseIds([]) == map[] by { NothingParsed(); }
    } else {
      var init, last := names[..|names| - 1], names[|names| - 1];
      ParsedIds(ids, init);
      ParseIdsOneMore(IdLines(ids, init), last, ids[last]);
      assert IdLines(ids, names) == IdLines(ids, init) + [IdLine(last, ids[last])];
      assert names == init + [last];
      assert IdsOf(ids, names) == IdsOf(ids, init)[last := ids[last]];
    }
  }

  lemma {:induction false} ParsedPaths(paths: Paths, order: seq<int>)
    requires CleanPaths(paths) && forall i :: 0 <= i < |order| ==> order[i] in paths
    ensures ParsePaths(PathLines(paths, order)) == PathsOf(paths, order)
  {
    hide PathLine, OneLine, IsInt64, ParsePaths;
    if order == [] {
      assert ParsePaths([]) == map[] by { NothingParsed(); }
    } else {
      var init, last := order[..|order| - 1], order[|order| - 1];
      ParsedPaths(paths, init);
      ParsePathsOneMore(PathLines(paths, init), last, paths[last]);
      assert PathLines(paths, order) == PathLines(paths, init) + [PathLine(last, paths[last])];
      assert order == init + [last];
      assert PathsOf(paths, order) == PathsOf(paths, init)[last := paths[last]];
    }
  }

  lemma NothingParsed()
    ensures ParseIds([]) == map[] && ParsePaths([]) == map[]
  {
  }

  /** Reading a file after writing a map to it gives the map back. */
  lemma IdsReadBack(ids: Ids, names: seq<string>)
    requires CleanIds(ids)
    requires (forall i :: 0 <= i < |names| ==> names[i] in ids) && forall name :: name in ids ==> name in names
    ensures ParseIds(Lines(Render(IdLines(ids, names)))) == ids
  {
    ParsedIds(ids, names);
    assert IdsOf(ids, names) == ids;
    forall i | 0 <= i < |names| ensures '\n' !in IdLines(ids, names)[i] { IdLineReadsBack(names[i], ids[names[i]]); }
    hide ParseIds, IdLine, Render, Lines;
    LinesOfRender(IdLines(ids, names));
  }

  lemma {:induction false} AllPaths(paths: Paths, order: seq<int>)
    requires (forall i :: 0 <= i < |order| ==> order[i] in paths) && forall id :: id in paths ==> id in order
    ensures PathsOf(paths, order) == paths
  {
    forall id | id in paths ensures id in PathsOf(paths, order) { assert id in order; }
    assert PathsOf(paths, order).Keys == paths.Keys;
  }

  lemma {:induction false} PathsReadBack(paths: Paths, order: seq<int>)
    requires CleanPaths(paths)
    requires (forall i :: 0 <= i < |order| ==> order[i] in paths) && forall id :: id in paths ==> id in order
    ensures ParsePaths(Lines(Render(PathLines(paths, order)))) == paths
  {
    forall i | 0 <= i < |order| ensures '\n' !in PathLines(paths, order)[i] { PathLineReadsBack(order[i], paths[order[i]]); }
    hide ParsePaths, PathLine, Render, Lines, PathsOf;
    ParsedPaths(paths, order);
    AllPaths(paths, order);
    LinesOfRender(PathLines(paths, order));
  }

  /** Whatever a file holds, what is read from it can be written. */
  lemma {:induction false} ParsedIsClean(lines: seq<string>)
    requires forall i :: 0 <= i < |lines| ==> '\n' !in lines[i]
    ensures CleanIds(ParseIds(lines)) && CleanPaths(ParsePaths(lines))
  {
    hide Parts, Atoi, CleanName, OneLine;
    if lines != [] {
      ParsedIsClean(lines[..|lines| - 1]);
      PartsAreClean(lines[|lines| - 1]);
    }
  }

  lemma {:induction false} TrimIsPart(s: string)
    ensures forall c :: c in TrimSpace(s) ==> c in s
  {
    TrimLeftIsPart(s);
    TrimRightEdge(TrimLeft(s));
    assert forall c :: c in TrimSpace(s) ==> c in TrimLeft(s);
  }

  lemma {:induction false} TrimLeftIsPart(s: string)
    ensures forall c :: c in TrimLeft(s) ==> c in s
  {
    if s != "" && IsSpace(s[0]) { TrimLeftIsPart(s[1..]); }
  }

  lemma PartsAreClean(rawLine: string)
    requires '\n' !in rawLine
    ensures Parts(rawLine).Some? ==> CleanName(Parts(rawLine).value.0) && OneLine(Parts(rawLine).value.1)
  {
    var line := TrimSpace(rawLine);
    TrimIsPart(rawLine);
    TrimSpaceTrims(rawLine);
    var i := IndexOf(line, ':');
    if line != "" && line[0] != '#' && i < |line| {
      var left, right := TrimSpace(line[..i]), TrimSpace(line[i + 1..]);
      TrimIsPart(line[..i]);
      TrimIsPart(line[i + 1..]);
      TrimSpaceTrims(line[..i]);
      TrimSpaceTrims(line[i + 1..]);
      if left != "" { LeftStarts(line, i); }
    }
  }

  /** The left part of a trimmed line starts as the line does. */
  lemma LeftStarts(line: string, i: nat)
    requires Trimmed(line) && i <= |line| && TrimSpace(line[..i]) != ""
    ensures TrimSpace(line[..i])[0] == line[0]
  {
    assert i > 0;
    assert TrimLeft(line[..i]) == line[..i];
    TrimRightEdge(line[..i]);
  }

  lemma {:induction false} LinesAreSingle(text: string)
    ensures forall i :: 0 <= i < |Lines(text)| ==> '\n' !in Lines(text)[i]
    decreases |text|
  {
    if text != "" {
      var i := IndexOf(text, '\n');
      if i < |text| { LinesAreSingle(text[i + 1..]); }
    }
  }

  /* Allocation */

  datatype Quota = Quota(ids: Ids, paths: Paths)

  function ProjectChar(c: char): char {
    if 'a' <= c <= 'z' || '0' <= c <= '9' || c == '-' || c == '_' then c else '_'
  }

  /** The quota project of a workspace. Different workspaces may share one. */
  function ProjectName(workspace: string): string {
    var trimmed := TrimSpace(Lower(workspace));
    if trimmed == "" then "sb_unknown"
    else "sb_" + seq(|trimmed|, i requires 0 <= i < |trimmed| => ProjectChar(trimmed[i]))
  }

  /** The name of a workspace as it goes into its project's name. */
  function Stem(workspace: string): string {
    var trimmed := TrimSpace(Lower(workspace));
    if trimmed == "" then "unknown" else trimmed
  }

  predicate Allowed(c: char) {
    IsDigit(c) || 'a' <= c <= 'z' || c == '-' || c == '_'
  }

  /** A project's name is "sb_" and the name of the workspace, with "_" for each character that is not allowed. */
  lemma ProjectNameSpells(workspace: string)
    ensures var name, stem := ProjectName(workspace), Stem(workspace);
      && |name| == 3 + |stem| && name[..3] == "sb_"
      && forall i :: 0 <= i < |stem| ==> name[3 + i] == if Allowed(stem[i]) then stem[i] else '_'
  {
    hide Lower, TrimSpace;
    if TrimSpace(Lower(workspace)) == "" { assert "sb_unknown" == "sb_" + "unknown"; }
  }

  predicate Blurred(c: char) {
    c == '_' || !Allowed(c)
  }

  /**
   * Two workspaces share a project exactly when their names in lower case have the same characters at the same places,
   * but for "_" and the characters it stands for, which are all taken for one.
   */
  lemma ProjectsAreShared(a: string, b: string)
    ensures ProjectName(a) == ProjectName(b) <==>
      && |Stem(a)| == |Stem(b)|
      && forall i :: 0 <= i < |Stem(a)| ==> Stem(a)[i] == Stem(b)[i] || (Blurred(Stem(a)[i]) && Blurred(Stem(b)[i]))
  {
    ProjectNameSpells(a);
    ProjectNameSpells(b);
    hide ProjectName, Stem;
    var x, y, m, n := Stem(a), Stem(b), ProjectName(a), ProjectName(b);
    if m == n {
      forall i | 0 <= i < |x| ensures x[i] == y[i] || (Blurred(x[i]) && Blurred(y[i])) {
        assert m[3 + i] == n[3 + i];
      }
    } else if |x| == |y| {
      var k :| 0 <= k < |m| && m[k] != n[k];
      assert m == m[..3] + m[3..] && n == n[..3] + n[3..];
      var i := k - 3;
      assert m[3 + i] != n[3 + i] && !(x[i] == y[i] || (Blurred(x[i]) && Blurred(y[i])));
    }
  }

  lemma ProjectNameIsClean(workspace: string)
    ensures CleanName(ProjectName(workspace))
  {
    var name := ProjectName(workspace);
    assert forall i :: 0 <= i < |name| ==> name[i] == ProjectChar(name[i]);
    assert name[0] == 's';
    hide Lower, TrimSpace;
  }

  /** "A" and "a" are the same project to the quota files. */
  lemma ProjectNamesCollide()
    ensures ProjectName("A") == ProjectName("a") == "sb_a"
  {
    assert Lower("A") == "a" && Lower("a") == "a";
    assert TrimSpace("a") == "a";
  }

  const FIRST_ID: int := 10000

  ghost predicate IsMaxId(ids: Ids, m: int) {
    && m >= FIRST_ID - 1 && (m == FIRST_ID - 1 || exists name :: name in ids && ids[name] == m)
    && forall name :: name in ids ==> ids[name] <= m
  }

  /** 64-bit addition of one. */
  function Increment(n: int): int {
    if n == MAX_INT64 then MIN_INT64 else n + 1
  }

  lemma {:induction false} MaxIdExists(ids: Ids) returns (m: int)
    ensures IsMaxId(ids, m)
    decreases |ids|
  {
    if ids == map[] {
      m := FIRST_ID - 1;
    } else {
      var name :| name in ids;
      var rest := ids - {name};
      assert ids.Keys == rest.Keys + {name};
      m := MaxIdExists(rest);
      if ids[name] > m {
        m := ids[name];
      } else if m != FIRST_ID - 1 {
        var other :| other in rest && rest[other] == m;
        assert ids[other] == m;
      }
      forall n | n in ids ensures ids[n] <= m { assert n == name || n in rest; }
    }
  }

  ghost function MaxId(ids: Ids): (m: int)
    ensures IsMaxId(ids, m)
  {
    assert exists m :: IsMaxId(ids, m) by { var m := MaxIdExists(ids); }
    var m :| IsMaxId(ids, m);
    m
  }

  method NextProjectId(ids: Ids) returns (id: int)
    ensures id == Increment(MaxId(ids))
  {
    var max := FIRST_ID - 1;
    var left := ids.Keys;
    while left != {}
      invariant left <= ids.Keys
      invariant max >= FIRST_ID - 1 && (max == FIRST_ID - 1 || exists name :: name in ids && ids[name] == max)
      invariant forall name :: name in ids && name !in left ==> ids[name] <= max
      decreases left
    {
      var name :| name in left;
      if ids[name] > max {
        max := ids[name];
      }
      left := left - {name};
    }
    assert IsMaxId(ids, max);
    id := if max == MAX_INT64 then MIN_INT64 else max + 1;
  }

  /** A newly allocated id is at least the first one and above all others, unless the numbers have run out. */
  lemma NewIdIsFresh(ids: Ids)
    ensures Increment(MaxId(ids)) >= 10000 <==> MaxId(ids) != MAX_INT64
    ensures ids == map[] ==> Increment(MaxId(ids)) == 10000
    ensures MaxId(ids) != MAX_INT64 ==> forall name :: name in ids ==> ids[name] < Increment(MaxId(ids))
  {
  }

  ghost function Ensured(q: Quota, workspace: string, dir: string): Quota {
    var name := ProjectName(workspace);
    var id := if name in q.ids then q.ids[name] else Increment(MaxId(q.ids));
    Quota(q.ids[name := id], q.paths[id := dir])
  }

  function Deleted(q: Quota, workspace: string): Quota {
    var name := ProjectName(workspace);
    if name !in q.ids then q else Quota(q.ids - {name}, q.paths - {q.ids[name]})
  }

  /** No two projects share an id, and every recorded path belongs to an allocated one. */
  ghost predicate Consistent(q: Quota) {
    && (forall a, b :: a in q.ids && b in q.ids && q.ids[a] == q.ids[b] ==> a == b)
    && (forall id :: id in q.paths ==> exists name :: name in q.ids && q.ids[name] == id)
  }

  function PathOf(q: Quota, project: string): Option<string> {
    if project in q.ids && q.ids[project] in q.paths then Some(q.paths[q.ids[project]]) else None
  }

  /** Nothing has to be allocated for the project, or the next number is free. */
  ghost predicate IdSuffices(q: Quota, workspace: string) {
    ProjectName(workspace) in q.ids || Increment(MaxId(q.ids)) !in q.ids.Values
  }

  /**
   * Setting a quota records the path under the project, whatever happens to the ids. It keeps the ids apart, and the
   * paths of the other projects, exactly when the project has an id already or the next number is free.
   */
  lemma {:induction false} EnsureKeepsConsistent(q: Quota, workspace: string, dir: string)
    requires Consistent(q)
    ensures Consistent(Ensured(q, workspace, dir)) <==> IdSuffices(q, workspace)
    ensures PathOf(Ensured(q, workspace, dir), ProjectName(workspace)) == Some(dir)
    ensures IdSuffices(q, workspace) ==>
      forall project :: project != ProjectName(workspace) ==> PathOf(Ensured(q, workspace, dir), project) == PathOf(q, project)
  {
    var n, name := Ensured(q, workspace, dir), ProjectName(workspace);
    hide ProjectName, MaxId, Increment;
    if IdSuffices(q, workspace) {
      EnsuredIsConsistent(q, workspace, dir);
    } else {
      var other :| other in q.ids && q.ids[other] == Increment(MaxId(q.ids));
      assert n.ids[other] == n.ids[name] && other != name;
    }
  }

  lemma {:induction false} EnsuredIsConsistent(q: Quota, workspace: string, dir: string)
    requires Consistent(q) && IdSuffices(q, workspace)
    ensures Consistent(Ensured(q, workspace, dir))
  {
    var n, name := Ensured(q, workspace, dir), ProjectName(workspace);
    hide ProjectName, MaxId, Increment;
    forall id | id in n.paths ensures exists x :: x in n.ids && n.ids[x] == id {
      if id != n.ids[name] {
        var x :| x in q.ids && q.ids[x] == id;
        assert x in n.ids && n.ids[x] == id;
      }
    }
  }

  /** Numbers are left as long as the largest one is not in use. */
  lemma {:induction false} NumbersSuffice(q: Quota, workspace: string)
    requires MaxId(q.ids) != MAX_INT64
    ensures IdSuffices(q, workspace)
  {
    NewIdIsFresh(q.ids);
    hide ProjectName, MaxId;
  }

  lemma DeleteKeepsConsistent(q: Quota, workspace: string)
    requires Consistent(q)
    ensures Consistent(Deleted(q, workspace))
    ensures PathOf(Deleted(q, workspace), ProjectName(workspace)) == None
    ensures forall project :: project != ProjectName(workspace) ==>
      && (project in Deleted(q, workspace).ids <==> project in q.ids)
      && (project in q.ids ==> Deleted(q, workspace).ids[project] == q.ids[project])
      && PathOf(Deleted(q, workspace), project) == PathOf(q, project)
  {
    hide ProjectName;
    var n := Deleted(q, workspace);
    forall id | id in n.paths ensures exists x :: x in n.ids && n.ids[x] == id {
      var x :| x in q.ids && q.ids[x] == id;
      assert x in n.ids && n.ids[x] == id;
    }
  }

  /** Deleting a workspace takes the quota entry of another one with it exactly when both have the same project name. */
  lemma DeleteTouchesSameProject(q: Quota, workspace: string, other: string)
    requires Consistent(q) && ProjectName(other) in q.ids
    ensures ProjectName(other) in Deleted(q, workspace).ids <==> ProjectName(other) != ProjectName(workspace)
  {
    hide ProjectName;
  }

  /* Runs */

  datatype Op = EnsureOp(workspace: string, dir: string) | DeleteOp(workspace: string)

  ghost function Apply(q: Quota, op: Op): Quota {
    match op
    case EnsureOp(workspace, dir) => Ensured(q, workspace, dir)
    case DeleteOp(workspace) => Deleted(q, workspace)
  }

  ghost function Run(q: Quota, ops: seq<Op>): Quota {
    if ops == [] then q else Apply(Run(q, ops[..|ops| - 1]), ops[|ops| - 1])
  }

  /** Whether an id is left at each allocation of a run. */
  ghost predicate IdsSuffice(q: Quota, ops: seq<Op>) {
    ops != [] ==>
      var init, op := ops[..|ops| - 1], ops[|ops| - 1];
      IdsSuffice(q, init) && (op.EnsureOp? ==> IdSuffices(Run(q, init), op.workspace))
  }

  /** Every state of a run is consistent. */
  ghost predicate AlwaysConsistent(q: Quota, ops: seq<Op>) {
    Consistent(Run(q, ops)) && (ops != [] ==> AlwaysConsistent(q, ops[..|ops| - 1]))
  }

  ghost predicate Clean(q: Quota) {
    CleanIds(q.ids) && CleanPaths(q.paths)
  }

  lemma ApplyKeepsClean(q: Quota, op: Op)
    requires Clean(q) && (op.EnsureOp? ==> OneLine(op.dir) && IsInt64(MaxId(q.ids)))
    ensures Clean(Apply(q, op))
  {
    ProjectNameIsClean(op.workspace);
    hide ProjectName, CleanName, OneLine;
  }

  lemma MaxIdFits(ids: Ids)
    requires CleanIds(ids)
    ensures IsInt64(MaxId(ids))
  {
    hide CleanName;
  }

  /**
   * Ids stay injective and paths belong to ids in every state of a run exactly when an id is left at each allocation,
   * and in any case both maps can be written to their files and read back.
   */
  lemma {:induction false} RunKeepsConsistent(q: Quota, ops: seq<Op>)
    requires Consistent(q) && Clean(q)
    requires forall i :: 0 <= i < |ops| && ops[i].EnsureOp? ==> OneLine(ops[i].dir)
    ensures AlwaysConsistent(q, ops) <==> IdsSuffice(q, ops)
    ensures Clean(Run(q, ops))
  {
    hide Consistent, Clean, OneLine, Apply, IdSuffices;
    if ops != [] {
      var init, op := ops[..|ops| - 1], ops[|ops| - 1];
      RunKeepsConsistent(q, init);
      LastStaysClean(q, init, op);
      if AlwaysConsistent(q, init) { LastKeepsConsistent(q, init, op); }
    }
  }

  lemma {:induction false} LastStaysClean(q: Quota, ops: seq<Op>, op: Op)
    requires Clean(Run(q, ops)) && (op.EnsureOp? ==> OneLine(op.dir))
    ensures Clean(Apply(Run(q, ops), op))
  {
    MaxIdFits(Run(q, ops).ids);
    hide Run, CleanIds, CleanPaths, OneLine, MaxId;
    ApplyKeepsClean(Run(q, ops), op);
  }

  lemma {:induction false} LastKeepsConsistent(q: Quota, ops: seq<Op>, op: Op)
    requires Consistent(Run(q, ops))
    ensures Consistent(Apply(Run(q, ops), op)) <==> (op.EnsureOp? ==> IdSuffices(Run(q, ops), op.workspace))
  {
    hide Run, Consistent, IdSuffices;
    match op
    case EnsureOp(workspace, dir) => EnsureKeepsConsistent(Run(q, ops), workspace, dir);
    case DeleteOp(workspace) => DeleteKeepsConsistent(Run(q, ops), workspace);
  }

  lemma CleanHasCleanIds(q: Quota)
    ensures Clean(q) ==> CleanIds(q.ids)
  {
  }
}
