/** Finding artifact files under a directory with a worklist of directories. */
module ArtifactWalk {
  import opened Wrappers
  import opened Sequences

  datatype File = File(path: string, bytes: nat)

  /** A directory tree; symbolic links and other special entries are neither files nor directories. */
  datatype Node =
    | Directory(path: string, entries: seq<Node>)
    | Regular(file: File)
    | Special(path: string)

  const DIRECTORY_LIMIT: nat := 1000

  type PathOrder = (string, string) -> bool

  function PathOf(n: Node): string {
    match n
    case Directory(path, _) => path
    case Regular(file) => file.path
    case Special(path) => path
  }

  function ByPath(le: PathOrder): (Node, Node) -> bool {
    (a: Node, b: Node) => le(PathOf(a), PathOf(b))
  }

  function FilesByPath(le: PathOrder): (File, File) -> bool {
    (a: File, b: File) => le(a.path, b.path)
  }

  // ----- what a tree holds -----

  datatype Tally = Tally(files: multiset<File>, directories: nat, nodes: nat)

  function Plus(a: Tally, b: Tally): Tally {
    Tally(a.files + b.files, a.directories + b.directories, a.nodes + b.nodes)
  }

  lemma PlusSwaps(a: Tally, b: Tally, c: Tally)
    ensures Plus(a, Plus(b, c)) == Plus(b, Plus(a, c))
  {
  }

  lemma PlusRegroups(a: Tally, b: Tally, c: Tally)
    ensures Plus(Plus(a, b), c) == Plus(a, Plus(b, c)) == Plus(Plus(a, c), b)
  {
  }

  const NOTHING := Tally(multiset{}, 0, 0)

  /** Everything a tree holds: its regular files, its directories, its nodes. */
  function Holds(n: Node): Tally
    decreases n, 1
  {
    match n
    case Directory(_, entries) => Plus(HoldAll(entries), Tally(multiset{}, 1, 1))
    case Regular(file) => Tally(multiset{file}, 0, 1)
    case Special(_) => Tally(multiset{}, 0, 1)
  }

  function HoldAll(s: seq<Node>): Tally
    decreases s, 0
  {
    if s == [] then NOTHING else Plus(Holds(s[0]), HoldAll(s[1..]))
  }

  /** A list's total under any way of weighing nodes. */
  function Total(weigh: Node -> Tally, s: seq<Node>): Tally {
    if s == [] then NOTHING else Plus(weigh(s[0]), Total(weigh, s[1..]))
  }

  lemma {:induction false} HoldAllIsTotal(s: seq<Node>)
    ensures HoldAll(s) == Total(Holds, s)
  {
    if s != [] {
      HoldAllIsTotal(s[1..]);
    }
  }

  lemma TotalFirst(weigh: Node -> Tally, n: Node, s: seq<Node>)
    ensures Total(weigh, [n] + s) == Plus(weigh(n), Total(weigh, s))
  {
    assert ([n] + s)[1..] == s;
  }

  lemma {:induction false} TotalOneMore(weigh: Node -> Tally, s: seq<Node>, n: Node)
    ensures Total(weigh, s + [n]) == Plus(Total(weigh, s), weigh(n))
  {
    if s == [] {
      TotalFirst(weigh, n, []);
      assert s + [n] == [n] + [];
    } else {
      TotalOneMore(weigh, s[1..], n);
      TotalFirst(weigh, s[0], s[1..] + [n]);
      assert s + [n] == [s[0]] + (s[1..] + [n]);
      PlusRegroups(weigh(s[0]), Total(weigh, s[1..]), weigh(n));
    }
  }

  lemma {:induction false} InsertTotal(weigh: Node -> Tally, le: (Node, Node) -> bool, n: Node, s: seq<Node>)
    ensures Total(weigh, Insert(le, n, s)) == Plus(weigh(n), Total(weigh, s))
  {
    TotalFirst(weigh, n, s);
    if s == [] {
      assert [n] + s == [n];
    } else if !le(n, s[0]) {
      InsertTotal(weigh, le, n, s[1..]);
      TotalFirst(weigh, s[0], Insert(le, n, s[1..]));
      PlusSwaps(weigh(s[0]), weigh(n), Total(weigh, s[1..]));
    }
  }

  /** Sorting the entries of a directory changes nothing about what they hold. */
  lemma {:induction false} SortTotal(weigh: Node -> Tally, le: (Node, Node) -> bool, s: seq<Node>)
    ensures Total(weigh, Sort(le, s)) == Total(weigh, s)
  {
    if s != [] {
      SortTotal(weigh, le, s[1..]);
      InsertTotal(weigh, le, s[0], Sort(le, s[1..]));
    }
  }

  /** The weight of a node is what it is itself and the total of its entries. */
  ghost predicate WeighsParts(weigh: Node -> Tally, n: Node) {
    match n
    case Directory(_, entries) => weigh(n) == Plus(Total(weigh, entries), Tally(multiset{}, 1, 1))
    case Regular(file) => weigh(n) == Tally(multiset{file}, 0, 1)
    case Special(_) => weigh(n) == Tally(multiset{}, 0, 1)
  }

  ghost predicate Fair(weigh: Node -> Tally) {
    forall n {:trigger WeighsParts(weigh, n)} :: WeighsParts(weigh, n)
  }

  lemma HoldsIsFair()
    ensures Fair(Holds)
  {
    forall n
      ensures WeighsParts(Holds, n)
    {
      if n.Directory? {
        HoldAllIsTotal(n.entries);
      }
    }
  }

  // ----- the walk -----

  predicate AllFit(files: multiset<File>, maxBytes: nat) {
    forall f :: f in files ==> f.bytes <= maxBytes
  }

  predicate EachFits(files: seq<File>, maxBytes: nat) {
    forall i :: 0 <= i < |files| ==> files[i].bytes <= maxBytes
  }

  lemma EachFitsAllFit(files: seq<File>, maxBytes: nat)
    requires EachFits(files, maxBytes)
    ensures AllFit(multiset(files), maxBytes)
  {
    forall f | f in multiset(files)
      ensures f.bytes <= maxBytes
    {
      assert f in files;
    }
  }

  /** The number of files at which the walk stops: one is taken before the limit is looked at. */
  function StopAt(maxFiles: nat): nat {
    if maxFiles == 0 then 1 else maxFiles
  }

  datatype Outcome = Going | Full | TooBig

  /** Found files, waiting directories and entries still to be looked at make up the whole tree. */
  ghost predicate Covers(weigh: Node -> Tally, all: Tally, files: seq<File>, visited: nat, stack: seq<Node>, left: seq<Node>) {
    && multiset(files) + Total(weigh, stack).files + Total(weigh, left).files == all.files
    && visited + Total(weigh, stack).directories + Total(weigh, left).directories == all.directories
  }

  lemma DirectoryWaits(weigh: Node -> Tally, all: Tally, files: seq<File>, visited: nat, stack: seq<Node>, left: seq<Node>, entry: Node)
    requires Covers(weigh, all, files, visited, stack, left + [entry])
    ensures Covers(weigh, all, files, visited, stack + [entry], left)
  {
    TotalOneMore(weigh, left, entry);
    TotalOneMore(weigh, stack, entry);
  }

  lemma FileIsTaken(weigh: Node -> Tally, all: Tally, files: seq<File>, visited: nat, stack: seq<Node>, left: seq<Node>, entry: Node)
    requires entry.Regular? && WeighsParts(weigh, entry)
    requires Covers(weigh, all, files, visited, stack, left + [entry])
    ensures Covers(weigh, all, files + [entry.file], visited, stack, left)
    ensures entry.file in all.files
  {
    TotalOneMore(weigh, left, entry);
    assert multiset(files + [entry.file]) == multiset(files) + multiset{entry.file};
  }

  lemma SpecialIsPassed(weigh: Node -> Tally, all: Tally, files: seq<File>, visited: nat, stack: seq<Node>, left: seq<Node>, entry: Node)
    requires entry.Special? && WeighsParts(weigh, entry)
    requires Covers(weigh, all, files, visited, stack, left + [entry])
    ensures Covers(weigh, all, files, visited, stack, left)
  {
    TotalOneMore(weigh, left, entry);
  }

  lemma NodesMoveOn(weigh: Node -> Tally, stack: seq<Node>, left: seq<Node>, entry: Node)
    ensures Total(weigh, stack + [entry]).nodes + Total(weigh, left).nodes == Total(weigh, stack).nodes + Total(weigh, left + [entry]).nodes
    ensures Total(weigh, left).nodes <= Total(weigh, left + [entry]).nodes
  {
    TotalOneMore(weigh, left, entry);
    TotalOneMore(weigh, stack, entry);
  }

  /** A directory taken off the stack leaves its entries to be looked at. */
  lemma DirectoryIsVisited(weigh: Node -> Tally, all: Tally, files: seq<File>, visited: nat, waiting: seq<Node>, directory: Node)
    requires WeighsParts(weigh, directory)
    requires Covers(weigh, all, files, visited, waiting + [directory], []) && directory.Directory?
    ensures Covers(weigh, all, files, visited + 1, waiting, directory.entries)
    ensures Total(weigh, waiting).nodes + Total(weigh, directory.entries).nodes < Total(weigh, waiting + [directory]).nodes
  {
    TotalOneMore(weigh, waiting, directory);
  }

  /** What one entry, or a directory's, leaves behind. */
  ghost predicate Keeps(weigh: Node -> Tally, all: Tally, files: seq<File>, visited: nat, stack: seq<Node>, left: seq<Node>,
                        maxFiles: nat, maxBytes: nat, outcome: Outcome) {
    match outcome
    case TooBig => !AllFit(all.files, maxBytes)
    case Full => |files| == StopAt(maxFiles) && multiset(files) <= all.files && EachFits(files, maxBytes)
    case Going =>
      && |files| < StopAt(maxFiles) && EachFits(files, maxBytes)
      && Covers(weigh, all, files, visited, stack, left)
      && forall n :: n in stack ==> n.Directory?
  }

  method TakeEntry(entry: Node, maxFiles: nat, maxBytes: nat, found: seq<File>, waiting: seq<Node>,
                   ghost weigh: Node -> Tally, ghost all: Tally, ghost visited: nat, ghost left: seq<Node>)
    returns (files: seq<File>, stack: seq<Node>, outcome: Outcome)
    requires Fair(weigh)
    requires Keeps(weigh, all, found, visited, waiting, left + [entry], maxFiles, maxBytes, Going)
    ensures Keeps(weigh, all, files, visited, stack, left, maxFiles, maxBytes, outcome)
    ensures Total(weigh, stack).nodes + Total(weigh, left).nodes <= Total(weigh, waiting).nodes + Total(weigh, left + [entry]).nodes
  {
    files, stack := found, waiting;
    assert WeighsParts(weigh, entry);
    NodesMoveOn(weigh, stack, left, entry);
    if entry.Directory? {
      DirectoryWaits(weigh, all, files, visited, stack, left, entry);
      return files, stack + [entry], Going;
    }
    if !entry.Regular? {
      SpecialIsPassed(weigh, all, files, visited, stack, left, entry);
      return files, stack, Going;
    }
    FileIsTaken(weigh, all, files, visited, stack, left, entry);
    if entry.file.bytes > maxBytes {
      return files, stack, TooBig;
    }
    files := files + [entry.file];
    if |files| >= maxFiles {
      CoveredFiles(weigh, all, files, visited, stack, left);
      return files, stack, Full;
    }
    outcome := Going;
  }

  /** One directory's entries, from the last to the first. */
  method TakeEntries(entries: seq<Node>, maxFiles: nat, maxBytes: nat, found: seq<File>, waiting: seq<Node>,
                     ghost weigh: Node -> Tally, ghost all: Tally, ghost visited: nat)
    returns (files: seq<File>, stack: seq<Node>, outcome: Outcome)
    requires Fair(weigh)
    requires Keeps(weigh, all, found, visited, waiting, entries, maxFiles, maxBytes, Going)
    ensures Keeps(weigh, all, files, visited, stack, [], maxFiles, maxBytes, outcome)
    ensures outcome.Going? ==> Total(weigh, stack).nodes <= Total(weigh, waiting).nodes + Total(weigh, entries).nodes
  {
    files, stack, outcome := found, waiting, Going;
    var k := |entries|;
    assert entries[..k] == entries;
    while k > 0
      invariant 0 <= k <= |entries| && outcome == Going
      invariant Keeps(weigh, all, files, visited, stack, entries[..k], maxFiles, maxBytes, Going)
      invariant Total(weigh, stack).nodes + Total(weigh, entries[..k]).nodes <= Total(weigh, waiting).nodes + Total(weigh, entries).nodes
    {
      k := k - 1;
      assert entries[..k + 1] == entries[..k] + [entries[k]];
      files, stack, outcome := TakeEntry(entries[k], maxFiles, maxBytes, files, stack, weigh, all, visited, entries[..k]);
      if outcome != Going {
        return;
      }
    }
    assert entries[..0] == [];
  }

  lemma CoveredFiles(weigh: Node -> Tally, all: Tally, files: seq<File>, visited: nat, stack: seq<Node>, left: seq<Node>)
    requires Covers(weigh, all, files, visited, stack, left)
    ensures multiset(files) <= all.files && |files| <= |all.files| && visited <= all.directories
  {
    SubBag(multiset(files), all.files);
    assert |multiset(files)| == |files|;
  }

  /** The loop over the waiting directories; a walk that runs into a limit gives no outcome. */
  method Walk(root: Node, maxFiles: nat, maxBytes: nat, le: PathOrder) returns (files: seq<File>, outcome: Option<Outcome>)
    requires root.Directory?
    ensures outcome.None? ==> Holds(root).directories > DIRECTORY_LIMIT
    ensures outcome.Some? ==> Keeps(Holds, Holds(root), files, Holds(root).directories, [], [], maxFiles, maxBytes, outcome.value)
    ensures outcome == Some(Going) ==> Holds(root).directories <= DIRECTORY_LIMIT
  {
    ghost var weigh, all := Holds, Holds(root);
    HoldsIsFair();
    files := [];
    var stack := [root];
    var visited := 0;
    TotalFirst(weigh, root, []);
    assert [root] == [root] + [];
    while stack != []
      invariant Keeps(weigh, all, files, visited, stack, [], maxFiles, maxBytes, Going) && visited <= DIRECTORY_LIMIT
      decreases Total(weigh, stack).nodes
    {
      var directory, waiting := stack[|stack| - 1], stack[..|stack| - 1];
      assert stack == waiting + [directory];
      assert WeighsParts(weigh, directory);
      DirectoryIsVisited(weigh, all, files, visited, waiting, directory);
      CoveredFiles(weigh, all, files, visited + 1, waiting, directory.entries);
      visited := visited + 1;
      if visited > DIRECTORY_LIMIT {
        return files, None;
      }
      var entries := Sort(ByPath(le), directory.entries);
      SortTotal(weigh, ByPath(le), directory.entries);
      var after;
      files, stack, after := TakeEntries(entries, maxFiles, maxBytes, files, waiting, weigh, all, visited);
      if after != Going {
        return files, Some(after);
      }
    }
    return files, Some(Going);
  }

  method Discover(root: Node, maxFiles: nat, maxBytes: nat, le: PathOrder) returns (r: Result<seq<File>>)
    requires TotalPreorder(FilesByPath(le))
    ensures !root.Directory? ==> r.Err?
    ensures r.Ok? ==> multiset(r.value) <= Holds(root).files && AllFit(multiset(r.value), maxBytes)
    ensures r.Ok? && |Holds(root).files| < StopAt(maxFiles) ==>
              multiset(r.value) == Holds(root).files && Sorted(FilesByPath(le), r.value)
    ensures r.Ok? && |Holds(root).files| >= StopAt(maxFiles) ==> |r.value| == StopAt(maxFiles)
    ensures root.Directory? && r.Err? ==> Holds(root).directories > DIRECTORY_LIMIT || !AllFit(Holds(root).files, maxBytes)
    ensures root.Directory? && |Holds(root).files| < StopAt(maxFiles) ==>
              (r.Err? <==> Holds(root).directories > DIRECTORY_LIMIT || !AllFit(Holds(root).files, maxBytes))
  {
    if !root.Directory? {
      return Err("not a directory");
    }
    ghost var all := Holds(root);
    var files, outcome := Walk(root, maxFiles, maxBytes, le);
    if outcome.None? {
      return Err("Remote Computer artifact discovery exceeded directory traversal limit");
    }
    if outcome.value == TooBig {
      return Err("Remote Computer artifact exceeds the discovery limit");
    }
    EachFitsAllFit(files, maxBytes);
    assert |multiset(files)| == |files|;
    if outcome.value == Full {
      SubBag(multiset(files), all.files);
      return Ok(files);
    }
    assert multiset(files) == all.files;
    SortIsRearrangement(FilesByPath(le), files);
    SortSorted(FilesByPath(le), files);
    return Ok(Sort(FilesByPath(le), files));
  }

  lemma SubBag(a: multiset<File>, b: multiset<File>)
    requires a <= b
    ensures |a| <= |b|
  {
    assert b == a + (b - a);
  }

  /** Where every path occurs once, no path is returned twice. */
  lemma DistinctPathsStayDistinct(files: seq<File>, all: multiset<File>)
    requires multiset(files) <= all
    requires forall f :: f in all ==> all[f] == 1
    requires forall f, g :: f in all && g in all && f.path == g.path ==> f == g
    ensures forall i, j :: 0 <= i < j < |files| ==> files[i].path != files[j].path
  {
    forall i, j | 0 <= i < j < |files|
      ensures files[i].path != files[j].path
    {
      assert files[i] in multiset(files) && files[j] in multiset(files);
      assert files == files[..i] + [files[i]] + files[i + 1..j] + [files[j]] + files[j + 1..];
      assert files[i] == files[j] ==> multiset(files)[files[i]] >= 2;
    }
  }
}
