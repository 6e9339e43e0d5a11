/** The GET handler of app/api/play-projects/route.ts: every sub-directory
    of public/play becomes a project whose display name is the folder name
    with '-' turned into ' ' and each word capitalised; the projects are
    sorted by display name. The directory is given as its listing, and
    String.prototype.localeCompare as a collation rank on names. */
module PlayProjects {
  import opened Base
  import StableSort

  /** One entry of the listing, as fs.statSync sees it: a directory, any
      other file, or an entry whose stat throws. */
  datatype EntryKind = Directory | RegularFile | StatFails
  datatype DirEntry = DirEntry(name: string, kind: EntryKind)

  /** public/play: absent, listed, or failing to be listed. */
  datatype PlayDir = Missing | Listed(entries: seq<DirEntry>) | Unreadable

  datatype Project = Project(id: string, name: string, path: string)

  /** The JSON body: the projects and, when something threw, the error. */
  datatype Reply = Reply(projects: seq<Project>, error: Option<string>)

  /** String.prototype.toUpperCase on one character, for ASCII letters. */
  function ToUpper(c: char): (u: char)
    ensures u == ' ' <==> c == ' '
  {
    if 'a' <= c <= 'z' then (c as int - 32) as char else c
  }

  /** word.charAt(0).toUpperCase() + word.slice(1) */
  function Capitalize(word: string): (r: string)
    ensures |r| == |word|
  {
    if word == "" then "" else [ToUpper(word[0])] + word[1..]
  }

  function CapitalizeAll(words: seq<string>): (r: seq<string>)
    ensures |r| == |words|
  {
    if words == [] then [] else [Capitalize(words[0])] + CapitalizeAll(words[1..])
  }

  /** folder.split('-').map(capitalize).join(' '): as long as the folder,
      with a space exactly where the folder has a space or a dash, and every
      character that does not open a word kept as it is. */
  function DisplayName(folder: string): (name: string)
    ensures |name| == |folder|
    ensures forall i :: 0 <= i < |folder| ==> (name[i] == ' ' <==> folder[i] == ' ' || folder[i] == '-')
    ensures forall i :: 0 < i < |folder| && folder[i] != '-' && folder[i - 1] != '-' ==> name[i] == folder[i]
  {
    var parts := Split(folder, '-');
    TitledIsJoin(folder, true);
    assert CapitalizeAll(parts) == [Capitalize(parts[0])] + CapitalizeAll(parts[1..]);
    Join(CapitalizeAll(parts), ' ')
  }

  /** Character i of the display name: '-' becomes ' ', a character opening
      a word (first, or right after '-') is upper-cased, every other character
      is kept. `atStart` says whether s[0] opens a word. */
  function TitledChar(s: string, atStart: bool, i: int): char
    requires 0 <= i < |s|
  {
    if s[i] == '-' then ' '
    else if (i == 0 && atStart) || (i > 0 && s[i - 1] == '-') then ToUpper(s[i])
    else s[i]
  }

  /** The display name built character by character. */
  function Titled(s: string, atStart: bool): (r: string)
    ensures |r| == |s|
    ensures forall i :: 0 <= i < |s| ==> r[i] == TitledChar(s, atStart, i)
  {
    if s == [] then []
    else
      var rest := Titled(s[1..], s[0] == '-');
      assert forall i :: 1 <= i < |s| ==> TitledChar(s[1..], s[0] == '-', i - 1) == TitledChar(s, atStart, i);
      [TitledChar(s, atStart, 0)] + rest
  }

  lemma JoinConsChar(c: char, w: string, rest: seq<string>, sep: char)
    ensures Join([[c] + w] + rest, sep) == [c] + Join([w] + rest, sep)
  {
    if rest != [] {
      assert ([[c] + w] + rest)[1..] == rest;
      assert ([w] + rest)[1..] == rest;
    }
  }

  /** The split-map-join chain, with the first word capitalised or not. */
  lemma {:induction false} TitledIsJoin(s: string, atStart: bool)
    ensures var parts := Split(s, '-');
      Titled(s, atStart)
        == Join([if atStart then Capitalize(parts[0]) else parts[0]] + CapitalizeAll(parts[1..]), ' ')
    decreases |s|
  {
    if s == [] {
    } else if s[0] == '-' {
      var rest := Split(s[1..], '-');
      TitledIsJoin(s[1..], true);
      assert Split(s, '-') == [""] + rest;
      var tail := CapitalizeAll(rest);
      assert tail == [Capitalize(rest[0])] + CapitalizeAll(rest[1..]);
      assert ([""] + tail)[1..] == tail;
    } else {
      var rest := Split(s[1..], '-');
      TitledIsJoin(s[1..], false);
      var parts := Split(s, '-');
      assert parts[0] == [s[0]] + rest[0] && parts[1..] == rest[1..];
      var first := if atStart then Capitalize(parts[0]) else parts[0];
      assert first == [if atStart then ToUpper(s[0]) else s[0]] + rest[0];
      JoinConsChar(first[0], rest[0], CapitalizeAll(rest[1..]), ' ');
    }
  }

  /** The display name is the folder titled character by character. */
  lemma DisplayNameIsTitled(folder: string)
    ensures DisplayName(folder) == Titled(folder, true)
  {
    var parts := Split(folder, '-');
    TitledIsJoin(folder, true);
    assert CapitalizeAll(parts) == [Capitalize(parts[0])] + CapitalizeAll(parts[1..]);
  }

  /** Each '-' becomes exactly one space and nothing else turns into one,
      so the name has as many characters as the folder and as many spaces as
      the folder has spaces and dashes together. */
  lemma DisplayNameSpaces(folder: string)
    ensures |DisplayName(folder)| == |folder|
    ensures Count(DisplayName(folder), ' ') == Count(folder, ' ') + Count(folder, '-')
  {
    DisplayNameIsTitled(folder);
    var name := DisplayName(folder);
    forall i | 0 <= i < |name| ensures name[i] == ' ' <==> folder[i] == ' ' || folder[i] == '-' {
      assert name[i] == TitledChar(folder, true, i);
    }
    SpacesFromDashes(name, folder);
  }

  lemma {:induction false} SpacesFromDashes(name: string, folder: string)
    requires |name| == |folder|
    requires forall i :: 0 <= i < |name| ==> (name[i] == ' ' <==> folder[i] == ' ' || folder[i] == '-')
    ensures Count(name, ' ') == Count(folder, ' ') + Count(folder, '-')
  {
    if name != [] {
      SpacesFromDashes(name[..|name| - 1], folder[..|folder| - 1]);
    }
  }

  function ProjectOf(folder: string): (p: Project)
    ensures p.id == folder && p.path == "/play/" + folder
  {
    Project(folder, DisplayName(folder), "/play/" + folder)
  }

  predicate IsDirectory(e: DirEntry) { e.kind == Directory }

  /** The listing's directories, in listing order. */
  function Folders(entries: seq<DirEntry>): (r: seq<string>)
    ensures |r| <= |entries|
    ensures forall f :: f in r ==> exists e :: e in entries && IsDirectory(e) && e.name == f
  {
    if entries == [] then []
    else
      var rest := Folders(entries[1..]);
      if IsDirectory(entries[0]) then [entries[0].name] + rest else rest
  }

  function ProjectsOf(folders: seq<string>): (r: seq<Project>)
    ensures |r| == |folders|
    ensures forall i :: 0 <= i < |folders| ==> r[i] == ProjectOf(folders[i])
  {
    seq(|folders|, i requires 0 <= i < |folders| => ProjectOf(folders[i]))
  }

  /** The handler. `rank` orders names as localeCompare does. */
  function GetProjects(dir: PlayDir, rank: string -> real): (r: Reply)
    ensures r.error.Some? ==> r.projects == [] && r.error.value == "Failed to load projects"
    ensures r.error.Some? <==> dir.Unreadable? || (dir.Listed? && exists e :: e in dir.entries && e.kind == StatFails)
    ensures dir.Missing? ==> r == Reply([], None)
  {
    match dir
    case Missing => Reply([], None)
    case Unreadable => Reply([], Some("Failed to load projects"))
    case Listed(entries) =>
      if exists e :: e in entries && e.kind == StatFails then Reply([], Some("Failed to load projects"))
      else Reply(StableSort.SortBy(ProjectsOf(Folders(entries)), (p: Project) => rank(p.name)), None)
  }

  /** A sub-directory's name, and only a sub-directory's, appears in the
      listing's folders. */
  lemma {:induction false} FoldersAreDirectories(entries: seq<DirEntry>)
    ensures forall f :: f in Folders(entries) <==> exists e :: e in entries && e.kind == Directory && e.name == f
  {
    if entries != [] {
      FoldersAreDirectories(entries[1..]);
      forall f ensures f in Folders(entries) <==> exists e :: e in entries && e.kind == Directory && e.name == f {
        if e :| e in entries && e.kind == Directory && e.name == f {
          if e != entries[0] {
            assert e in entries[1..];
          }
        }
      }
    }
  }

  /** A listing that reads cleanly gives one project per sub-directory, in
      rank order of the display names. */
  lemma ListedProjects(entries: seq<DirEntry>, rank: string -> real)
    requires forall e :: e in entries ==> e.kind != StatFails
    ensures var r := GetProjects(Listed(entries), rank);
      && r.error == None
      && multiset(r.projects) == multiset(ProjectsOf(Folders(entries)))
      && StableSort.SortedBy(r.projects, (p: Project) => rank(p.name))
      && forall p :: p in r.projects <==> exists f :: f in Folders(entries) && p == ProjectOf(f)
  {
    var unsorted := ProjectsOf(Folders(entries));
    var key := (p: Project) => rank(p.name);
    assert GetProjects(Listed(entries), rank) == Reply(StableSort.SortBy(unsorted, key), None);
    StableSort.SortIsSorted(unsorted, key);
    StableSort.SortIsPermutation(unsorted, key);
    SameMembers(StableSort.SortBy(unsorted, key), unsorted);
    ProjectsOfMembers(Folders(entries));
  }

  /** Every project of a list of folders is the project of one of them. */
  lemma ProjectsOfMembers(folders: seq<string>)
    ensures forall p :: p in ProjectsOf(folders) <==> exists f :: f in folders && p == ProjectOf(f)
  {
    forall p ensures p in ProjectsOf(folders) <==> exists f :: f in folders && p == ProjectOf(f) {
      if f :| f in folders && p == ProjectOf(f) {
        var i :| 0 <= i < |folders| && folders[i] == f;
        assert ProjectsOf(folders)[i] == p;
      }
    }
  }

  /** Two permutations of each other hold the same projects. */
  lemma SameMembers(a: seq<Project>, b: seq<Project>)
    requires multiset(a) == multiset(b)
    ensures forall p :: p in a <==> p in b
  {
    forall p ensures p in a <==> p in b {
      assert p in a <==> p in multiset(a);
      assert p in b <==> p in multiset(b);
    }
  }
}
