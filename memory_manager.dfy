/** The per-user workspace store (`MemoryManager`). The disk is modelled as the store's own
    state: the text of each existing workspace file, the workspace files that exist but cannot
    be read back, the snapshot files written to `history/`, and whether the disk accepts
    writes at all. Timestamps are passed in, never read from a clock. */
module MemoryStore {
  import opened Wrappers
  import opened Text
  import opened Dates
  import opened Foreign
  import opened MarkdownDoc

  /** The keys of the `WORKSPACES` table. */
  datatype Workspace = Shared | GoalTracking | Nutrition | Chat

  /** The four workspaces in the order of the `WORKSPACES` table. */
  const AllWorkspaces: seq<Workspace> := [Shared, GoalTracking, Nutrition, Chat]

  function Name(w: Workspace): string {
    match w
    case Shared => "shared"
    case GoalTracking => "goal_tracking"
    case Nutrition => "nutrition"
    case Chat => "chat"
  }

  /** The workspace a name denotes; `None` where the source raises ValueError. */
  function ParseWorkspace(ws: string): (r: Option<Workspace>)
    ensures r.Some? ==> Name(r.value) == ws
  {
    if ws == "shared" then Some(Shared)
    else if ws == "goal_tracking" then Some(GoalTracking)
    else if ws == "nutrition" then Some(Nutrition)
    else if ws == "chat" then Some(Chat)
    else None
  }

  /** The file of a workspace, relative to the user's directory. */
  function WorkspaceFile(w: Workspace): string {
    match w
    case Shared => "shared/user_memory.md"
    case GoalTracking => "goal_tracking/user_goals.md"
    case Nutrition => "nutrition/user_nutrition.md"
    case Chat => "chat/user_chat.md"
  }

  /** `get_workspace_path`: `agent/UserMemory/<user_id>/<file>`, or ValueError. */
  function WorkspacePath(userId: int, ws: string): (r: Result<string, string>)
    ensures r.Raise? <==> ParseWorkspace(ws).None?
    ensures r.Raise? ==> r.error == "ValueError"
    ensures r.Ok? ==>
      var file := WorkspaceFile(ParseWorkspace(ws).value);
      "agent/UserMemory/" <= r.value && |file| <= |r.value| && r.value[|r.value| - |file|..] == file
  {
    match ParseWorkspace(ws)
    case None => Raise("ValueError")
    case Some(w) =>
      var p := "agent/UserMemory/" + IntToString(userId) + "/" + WorkspaceFile(w);
      assert p[|p| - |WorkspaceFile(w)|..] == WorkspaceFile(w);
      Ok(p)
  }

  /** Every workspace name is accepted back as that workspace, and distinct workspaces have
      distinct names and distinct files. */
  lemma WorkspaceNames(w: Workspace, v: Workspace)
    ensures ParseWorkspace(Name(w)) == Some(w)
    ensures w != v ==> Name(w) != Name(v) && WorkspaceFile(w) != WorkspaceFile(v)
  {
  }

  /** The `AGENT_WORKSPACES` table: the workspaces an agent type may read, in order. */
  function AgentWorkspaces(agentType: string): (r: Option<seq<Workspace>>)
    ensures r.Some? ==> |r.value| >= 2 && r.value[0] == Shared
    ensures agentType == "all" ==> r == Some(AllWorkspaces)
  {
    if agentType == "goal_tracking" then Some([Shared, GoalTracking])
    else if agentType == "nutrition" then Some([Shared, Nutrition])
    else if agentType == "chat" then Some([Shared, Chat])
    else if agentType == "all" then Some(AllWorkspaces)
    else None
  }

  /** Each agent reads the shared workspace and its own, and nobody else's; there is no
      "shared" agent. */
  lemma AgentReadsOwnWorkspace(w: Workspace)
    ensures w != Shared ==> AgentWorkspaces(Name(w)) == Some([Shared, w])
    ensures w == Shared ==> AgentWorkspaces(Name(w)).None?
  {
  }

  /** ASCII upper-casing (`str.upper()` on the workspace names). */
  function Upper(s: string): (r: string)
    ensures |r| == |s|
  {
    if s == [] then []
    else [if 'a' <= s[0] <= 'z' then (s[0] as int - 32) as char else s[0]] + Upper(s[1..])
  }

  function WorkspaceHeader(w: Workspace): (r: string)
    ensures r != []
  {
    "=== " + Upper(Name(w)) + " WORKSPACE ===\n"
  }

  /** What `read_workspace` returns for a workspace: `None` when the file is missing or
      cannot be read. */
  function ReadIn(files: map<Workspace, string>, unreadable: set<Workspace>, w: Workspace): Option<string> {
    if w in files && w !in unreadable then Some(files[w]) else None
  }

  /** Python truthiness of `read_workspace`'s result: present and non-empty. */
  predicate HasText(c: Option<string>) {
    c.Some? && c.value != ""
  }

  /** Some workspace of `names` reads back with text. */
  predicate AnyText(files: map<Workspace, string>, unreadable: set<Workspace>, names: seq<Workspace>) {
    exists k :: 0 <= k < |names| && HasText(ReadIn(files, unreadable, names[k]))
  }

  /** The pieces `get_context_for_agent` joins: a header plus the text of each readable,
      non-empty workspace, in table order. */
  function ContextParts(files: map<Workspace, string>, unreadable: set<Workspace>, names: seq<Workspace>): (r: seq<string>)
    ensures |r| <= |names|
    ensures forall k :: 0 <= k < |r| ==> r[k] != []
  {
    if names == [] then []
    else
      var w := names[|names| - 1];
      var c := ReadIn(files, unreadable, w);
      ContextParts(files, unreadable, names[..|names| - 1])
        + (if HasText(c) then [WorkspaceHeader(w) + c.value] else [])
  }

  /** There is a context part exactly when some workspace has text. */
  lemma {:induction false} ContextPartsEmpty(files: map<Workspace, string>, unreadable: set<Workspace>, names: seq<Workspace>)
    ensures ContextParts(files, unreadable, names) == [] <==> !AnyText(files, unreadable, names)
    decreases |names|
  {
    if names != [] {
      var init := names[..|names| - 1];
      ContextPartsEmpty(files, unreadable, init);
      if AnyText(files, unreadable, init) {
        var k :| 0 <= k < |init| && HasText(ReadIn(files, unreadable, init[k]));
        assert names[k] == init[k];
      }
      if AnyText(files, unreadable, names) {
        var k :| 0 <= k < |names| && HasText(ReadIn(files, unreadable, names[k]));
        if k < |init| {
          assert init[k] == names[k];
        }
      }
    }
  }

  /** Joining non-empty pieces gives the empty text only for no pieces. */
  lemma JoinEmpty(parts: seq<string>, sep: string)
    requires forall k :: 0 <= k < |parts| ==> parts[k] != []
    ensures Join(parts, sep) == [] <==> parts == []
  {
    if |parts| >= 2 {
      assert Join(parts, sep) == parts[0] + sep + Join(parts[1..], sep);
    }
  }

  /** `get_context_for_agent` yields the empty text exactly when none of the agent's
      workspaces has text. */
  lemma ContextEmptyIff(files: map<Workspace, string>, unreadable: set<Workspace>, names: seq<Workspace>)
    ensures Join(ContextParts(files, unreadable, names), "\n\n") == [] <==> !AnyText(files, unreadable, names)
  {
    ContextPartsEmpty(files, unreadable, names);
    JoinEmpty(ContextParts(files, unreadable, names), "\n\n");
  }

  /** The file name of a snapshot: `<ws>_<stamp>.md`. */
  function SnapshotName(w: Workspace, stamp: string): string {
    Name(w) + "_" + stamp + ".md"
  }

  /** Snapshots of distinct workspaces taken at the same time have distinct names: the
      workspace names differ in length. */
  lemma SnapshotNamesDistinct(w: Workspace, v: Workspace, stamp: string)
    requires w != v
    ensures SnapshotName(w, stamp) != SnapshotName(v, stamp)
  {
    assert |SnapshotName(w, stamp)| == |Name(w)| + |stamp| + 4;
    assert |SnapshotName(v, stamp)| == |Name(v)| + |stamp| + 4;
  }

  /** The `history/` directory after `archive_snapshot` has copied each workspace of `names`
      with text to `<ws>_<stamp>.md`, in order. */
  function Archived(history: map<string, string>, files: map<Workspace, string>, unreadable: set<Workspace>,
                    names: seq<Workspace>, stamp: string): (r: map<string, string>)
    ensures history.Keys <= r.Keys
  {
    if names == [] then history
    else
      var w := names[|names| - 1];
      var c := ReadIn(files, unreadable, w);
      var earlier := Archived(history, files, unreadable, names[..|names| - 1], stamp);
      if HasText(c) then earlier[SnapshotName(w, stamp) := c.value] else earlier
  }

  /** After archiving distinct workspaces, the snapshot of each one with text holds that
      text. */
  lemma {:induction false} ArchivedHolds(history: map<string, string>, files: map<Workspace, string>, unreadable: set<Workspace>,
                                         names: seq<Workspace>, stamp: string, k: nat)
    requires k < |names| && HasText(ReadIn(files, unreadable, names[k]))
    requires forall j :: 0 <= j < |names| && j != k ==> names[j] != names[k]
    ensures SnapshotName(names[k], stamp) in Archived(history, files, unreadable, names, stamp)
    ensures Archived(history, files, unreadable, names, stamp)[SnapshotName(names[k], stamp)] == files[names[k]]
    decreases |names|
  {
    var init := names[..|names| - 1];
    if k < |init| {
      ArchivedHolds(history, files, unreadable, init, stamp, k);
      SnapshotNamesDistinct(names[|names| - 1], names[k], stamp);
    }
  }

  /** Archiving leaves every other file of `history/` as it was. */
  lemma {:induction false} ArchivedKeeps(history: map<string, string>, files: map<Workspace, string>, unreadable: set<Workspace>,
                                         names: seq<Workspace>, stamp: string, key: string)
    requires key in history
    requires forall j :: 0 <= j < |names| ==> key != SnapshotName(names[j], stamp)
    ensures Archived(history, files, unreadable, names, stamp)[key] == history[key]
    decreases |names|
  {
    if names != [] {
      ArchivedKeeps(history, files, unreadable, names[..|names| - 1], stamp, key);
    }
  }

  /** The workspaces `archive_snapshot` copies, in order; `None` where reading the one named
      workspace raises ValueError before anything is written. */
  function ArchiveNames(workspace: string): (r: Option<seq<Workspace>>)
    ensures workspace == "all" ==> r == Some(AllWorkspaces)
    ensures workspace != "all" ==> (r.Some? <==> ParseWorkspace(workspace).Some?)
    ensures r.Some? ==> forall i, j :: 0 <= i < j < |r.value| ==> r.value[i] != r.value[j]
  {
    if workspace == "all" then Some(AllWorkspaces)
    else match ParseWorkspace(workspace)
      case None => None
      case Some(w) => Some([w])
  }

  class MemoryManager {
    const userId: int
    /** Text of each existing workspace file. */
    var files: map<Workspace, string>
    /** Workspace files that exist but whose read raises (and so reads as `None`). */
    var unreadable: set<Workspace>
    /** Files written under `history/`, keyed by file name. */
    var snapshots: map<string, string>
    /** Whether writes and deletions on the disk succeed. */
    var writable: bool

    ghost predicate Valid()
      reads this
    {
      unreadable <= files.Keys
    }

    constructor (userId: int, files: map<Workspace, string>, unreadable: set<Workspace>, snapshots: map<string, string>, writable: bool)
      requires unreadable <= files.Keys
      ensures Valid()
      ensures this.userId == userId && this.files == files && this.unreadable == unreadable
      ensures this.snapshots == snapshots && this.writable == writable
    {
      this.userId := userId;
      this.files := files;
      this.unreadable := unreadable;
      this.snapshots := snapshots;
      this.writable := writable;
    }

    /** `read_workspace` */
    function Read(ws: string): (r: Result<Option<string>, string>)
      reads this
      ensures r.Raise? <==> ParseWorkspace(ws).None?
      ensures r.Ok? && r.value.Some? ==> ParseWorkspace(ws).value in files && r.value.value == files[ParseWorkspace(ws).value]
      ensures r.Ok? && ParseWorkspace(ws).value !in files ==> r.value.None?
    {
      match ParseWorkspace(ws)
      case None => Raise("ValueError")
      case Some(w) => Ok(ReadIn(files, unreadable, w))
    }

    /** `workspace_exists` */
    function Exists(ws: string): (r: Result<bool, string>)
      reads this
      ensures r.Raise? <==> ParseWorkspace(ws).None?
      ensures r.Ok? ==> (r.value <==> ParseWorkspace(ws).value in files)
    {
      match ParseWorkspace(ws)
      case None => Raise("ValueError")
      case Some(w) => Ok(w in files)
    }

    /** `get_all_workspaces`: every workspace name, and nothing else, mapped to what reading
        it returns. */
    method ReadAll() returns (r: map<string, Option<string>>)
      ensures forall k :: k in r ==> ParseWorkspace(k).Some?
      ensures forall w :: w in AllWorkspaces ==> Name(w) in r && r[Name(w)] == ReadIn(files, unreadable, w)
    {
      r := map[];
      var i := 0;
      while i < |AllWorkspaces|
        invariant 0 <= i <= |AllWorkspaces|
        invariant forall k :: k in r ==> ParseWorkspace(k).Some?
        invariant forall j :: 0 <= j < i ==> Name(AllWorkspaces[j]) in r && r[Name(AllWorkspaces[j])] == ReadIn(files, unreadable, AllWorkspaces[j])
      {
        var w := AllWorkspaces[i];
        WorkspaceNames(w, w);
        r := r[Name(w) := ReadIn(files, unreadable, w)];
        i := i + 1;
      }
    }

    /** `write_workspace`: ValueError for an unknown name, `false` when the disk refuses. */
    method Write(ws: string, content: string) returns (r: Result<bool, string>)
      requires Valid()
      modifies this
      ensures Valid()
      ensures r.Raise? <==> ParseWorkspace(ws).None?
      ensures r.Ok? ==> (r.value <==> writable)
      ensures snapshots == old(snapshots) && writable == old(writable)
      ensures r == Ok(true) ==>
        files == old(files)[ParseWorkspace(ws).value := content] && unreadable == old(unreadable) - {ParseWorkspace(ws).value}
      ensures r == Ok(true) ==> Read(ws) == Ok(Some(content))
      ensures r != Ok(true) ==> files == old(files) && unreadable == old(unreadable)
    {
      var w := ParseWorkspace(ws);
      if w.None? {
        return Raise("ValueError");
      }
      if !writable {
        return Ok(false);
      }
      files := files[w.value := content];
      unreadable := unreadable - {w.value};
      return Ok(true);
    }

    /** `read_workspace_structured`: `None` for a missing, unreadable or empty file. */
    method ReadStructured(ws: string, load: string -> Option<Frontmatter>) returns (r: Result<Option<Parsed>, string>)
      ensures r.Raise? <==> ParseWorkspace(ws).None?
      ensures r.Ok? ==> (r.value.Some? <==> HasText(Read(ws).value))
      ensures r.Ok? && r.value.Some? ==>
        var text := Read(ws).value.value;
        && r.value.value.raw == text
        && r.value.value.sections == Sections(Split(AfterFrontmatter(text), '\n'))
        && r.value.value.frontmatter == FrontmatterOf(text, load)
    {
      var content := Read(ws);
      if content.Raise? {
        return Raise(content.error);
      }
      if !HasText(content.value) {
        return Ok(None);
      }
      var parsed := ParseMarkdown(content.value.value, load);
      return Ok(Some(parsed));
    }

    /** `get_workspace_metadata`: the frontmatter of the parsed file, or `None`. */
    method Metadata(ws: string, load: string -> Option<Frontmatter>) returns (r: Result<Option<Frontmatter>, string>)
      ensures r.Raise? <==> ParseWorkspace(ws).None?
      ensures r.Ok? ==> (r.value.Some? <==> HasText(Read(ws).value))
      ensures r.Ok? && r.value.Some? ==> r.value.value == FrontmatterOf(Read(ws).value.value, load)
    {
      var parsed := ReadStructured(ws, load);
      if parsed.Raise? {
        return Raise(parsed.error);
      }
      if parsed.value.None? {
        return Ok(None);
      }
      return Ok(Some(parsed.value.value.frontmatter));
    }

    /** `update_section`, with `now` standing for `datetime.now()`: a missing, unreadable or
        empty file becomes the bare section; otherwise the section is patched and the
        frontmatter timestamp rewritten. */
    method UpdateSection(ws: string, section: string, content: string, replace: bool, now: DateTime)
      returns (r: Result<bool, string>)
      requires Valid()
      modifies this
      ensures Valid()
      ensures r.Raise? <==> ParseWorkspace(ws).None?
      ensures r.Raise? ==> r.error == "ValueError"
      ensures r.Ok? ==> (r.value <==> writable)
      ensures snapshots == old(snapshots) && writable == old(writable)
      ensures r == Ok(true) ==>
        var edit := if replace then Replace(content) else Append(content);
        Read(ws) == Ok(Some(UpdateSectionText(old(Read(ws)).value, section, edit, IsoDateTime(now))))
      ensures r == Ok(true) ==>
        var edit := if replace then Replace(content) else Append(content);
        files == old(files)[ParseWorkspace(ws).value := UpdateSectionText(old(Read(ws)).value, section, edit, IsoDateTime(now))]
      ensures r == Ok(true) ==> unreadable == old(unreadable) - {ParseWorkspace(ws).value}
      ensures r != Ok(true) ==> files == old(files) && unreadable == old(unreadable)
    {
      var current := Read(ws);
      if current.Raise? {
        return Raise(current.error);
      }
      var edit := if replace then Replace(content) else Append(content);
      var text := UpdateSectionText(current.value, section, edit, IsoDateTime(now));
      r := Write(ws, text);
    }

    /** `get_context_for_agent`: ValueError for an unknown agent type; otherwise the readable,
        non-empty workspaces of that agent, each under its header, joined by blank lines. */
    method ContextForAgent(agentType: string) returns (r: Result<string, string>)
      ensures r.Raise? <==> AgentWorkspaces(agentType).None?
      ensures r.Ok? ==> r.value == Join(ContextParts(files, unreadable, AgentWorkspaces(agentType).value), "\n\n")
    {
      var names := AgentWorkspaces(agentType);
      if names.None? {
        return Raise("ValueError");
      }
      var ns := names.value;
      var contents: seq<string> := [];
      var i := 0;
      while i < |ns|
        invariant 0 <= i <= |ns|
        invariant contents == ContextParts(files, unreadable, ns[..i])
      {
        var c := ReadIn(files, unreadable, ns[i]);
        assert ns[..i + 1][..i] == ns[..i];
        if HasText(c) {
          contents := contents + [WorkspaceHeader(ns[i]) + c.value];
        }
        i := i + 1;
      }
      assert ns[..i] == ns;
      return Ok(if contents != [] then Join(contents, "\n\n") else "");
    }

    /** `archive_snapshot`, with `now` standing for `datetime.now()`: copies each named
        workspace with text to `history/<ws>_<stamp>.md`; stops with `false` at the first copy
        the disk refuses. */
    method ArchiveSnapshot(workspace: string, now: DateTime) returns (r: Result<bool, string>)
      modifies this
      ensures files == old(files) && unreadable == old(unreadable) && writable == old(writable)
      ensures r.Raise? <==> ArchiveNames(workspace).None?
      ensures r.Ok? ==> (r.value <==> writable || !AnyText(files, unreadable, ArchiveNames(workspace).value))
      ensures r.Ok? && writable ==>
        snapshots == Archived(old(snapshots), files, unreadable, ArchiveNames(workspace).value, SnapshotStamp(now))
      ensures !(r.Ok? && writable) ==> snapshots == old(snapshots)
    {
      r := ArchiveAs(workspace, SnapshotStamp(now));
    }

    /** The copying loop of `archive_snapshot`, for a given stamp. */
    method ArchiveAs(workspace: string, stamp: string) returns (r: Result<bool, string>)
      modifies this
      ensures files == old(files) && unreadable == old(unreadable) && writable == old(writable)
      ensures r.Raise? <==> ArchiveNames(workspace).None?
      ensures r.Ok? ==> (r.value <==> writable || !AnyText(files, unreadable, ArchiveNames(workspace).value))
      ensures r.Ok? && writable ==> snapshots == Archived(old(snapshots), files, unreadable, ArchiveNames(workspace).value, stamp)
      ensures !(r.Ok? && writable) ==> snapshots == old(snapshots)
    {
      var names := ArchiveNames(workspace);
      if names.None? {
        return Raise("ValueError");
      }
      var ns := names.value;
      var i := 0;
      while i < |ns|
        invariant 0 <= i <= |ns|
        invariant files == old(files) && unreadable == old(unreadable) && writable == old(writable)
        invariant writable ==> snapshots == Archived(old(snapshots), files, unreadable, ns[..i], stamp)
        invariant !writable ==> snapshots == old(snapshots)
        invariant !writable ==> forall k :: 0 <= k < i ==> !HasText(ReadIn(files, unreadable, ns[k]))
      {
        var c := ReadIn(files, unreadable, ns[i]);
        assert ns[..i + 1][..i] == ns[..i];
        if HasText(c) {
          if !writable {
            return Ok(false);
          }
          snapshots := snapshots[SnapshotName(ns[i], stamp) := c.value];
        }
        i := i + 1;
      }
      assert ns[..i] == ns;
      return Ok(true);
    }

    /** `delete_workspace`: `true` when the file is gone afterwards, including when it never
        existed; `false` when the disk refuses. */
    method Delete(ws: string) returns (r: Result<bool, string>)
      requires Valid()
      modifies this
      ensures Valid()
      ensures r.Raise? <==> ParseWorkspace(ws).None?
      ensures r.Ok? ==> (r.value <==> writable || ParseWorkspace(ws).value !in old(files))
      ensures snapshots == old(snapshots) && writable == old(writable)
      ensures r == Ok(true) ==>
        files == old(files) - {ParseWorkspace(ws).value} && unreadable == old(unreadable) - {ParseWorkspace(ws).value}
      ensures r == Ok(true) ==> Exists(ws) == Ok(false)
      ensures r != Ok(true) ==> files == old(files) && unreadable == old(unreadable)
    {
      var w := ParseWorkspace(ws);
      if w.None? {
        return Raise("ValueError");
      }
      if w.value in files {
        if !writable {
          return Ok(false);
        }
        files := files - {w.value};
        unreadable := unreadable - {w.value};
      }
      return Ok(true);
    }
  }

  /** The frontmatter `_parse_markdown` yields: the loaded block between the opening `---`
      line and the first closing one, or `{}`. */
  function FrontmatterOf(content: string, load: string -> Option<Frontmatter>): (r: Frontmatter)
    ensures FrontmatterEnd(content).None? ==> r == map[]
    ensures FrontmatterEnd(content).Some? ==> r == load(content[4..FrontmatterEnd(content).value]).GetOr(map[])
  {
    match FrontmatterEnd(content)
    case None => map[]
    case Some(e) => load(content[4..e]).GetOr(map[])
  }

  /** One entry of the memory root's directory listing. */
  datatype DirEntry = DirEntry(name: string, isDir: bool)

  /** The id an entry contributes: a directory whose name `int()` accepts. */
  function UserId(e: DirEntry): Option<int> {
    if e.isDir then ParseInt(e.name) else None
  }

  /** The ids `get_all_user_ids` reports, in listing order. */
  function UserIds(entries: seq<DirEntry>): (r: seq<int>)
    ensures |r| <= |entries|
  {
    if entries == [] then []
    else
      var last := entries[|entries| - 1];
      UserIds(entries[..|entries| - 1]) + (match UserId(last) case None => [] case Some(id) => [id])
  }

  /** `get_all_user_ids`: the directory listing is passed in, `baseExists` says whether the
      memory root exists. */
  method AllUserIds(baseExists: bool, entries: seq<DirEntry>) returns (ids: seq<int>)
    ensures !baseExists ==> ids == []
    ensures baseExists ==> ids == UserIds(entries)
  {
    ids := [];
    if !baseExists {
      return;
    }
    var i := 0;
    while i < |entries|
      invariant 0 <= i <= |entries|
      invariant ids == UserIds(entries[..i])
    {
      assert entries[..i + 1][..i] == entries[..i];
      var id := UserId(entries[i]);
      if id.Some? {
        ids := ids + [id.value];
      }
      i := i + 1;
    }
    assert entries[..i] == entries;
  }

  /** The directory a store creates for its user (`str(user_id)`) is reported back as that
      user's id, and plain files are never reported. */
  lemma UserDirRoundTrip(userId: int, name: string)
    ensures UserIds([DirEntry(IntToString(userId), true)]) == [userId]
    ensures UserIds([DirEntry(name, false)]) == []
  {
    ParseIntRoundTrip(userId);
    assert [DirEntry(IntToString(userId), true)][..0] == [];
    assert [DirEntry(name, false)][..0] == [];
  }
}
