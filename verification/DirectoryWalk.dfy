/** Listing every file below a directory with an explicit stack, as the packaging script does. */
module DirectoryWalk {
  import opened Sorting

  type Name(==, !new)

  /** The entries of a finite tree; other entries are neither directories nor files. */
  datatype Entry = FileEntry(name: Name) | OtherEntry(name: Name) | DirEntry(name: Name, entries: seq<Entry>)

  type Path = seq<Name>

  ghost predicate NamesDiffer(entries: seq<Entry>) {
    forall i, j :: 0 <= i < j < |entries| ==> entries[i].name != entries[j].name
  }

  /** Every directory lists each name once. */
  ghost predicate WellFormed(entries: seq<Entry>) {
    && NamesDiffer(entries)
    && forall i :: 0 <= i < |entries| && entries[i].DirEntry? ==> WellFormed(entries[i].entries)
  }

  /** The path, relative to the directory, names a file: followed entry by entry. */
  ghost predicate NamesFile(entries: seq<Entry>, rest: Path)
    decreases |rest|
  {
    exists i :: 0 <= i < |entries| && EntryNames(entries[i], rest)
  }

  ghost predicate EntryNames(e: Entry, rest: Path)
    decreases |rest|, 0
  {
    && rest != [] && rest[0] == e.name
    && (if |rest| == 1 then e.FileEntry? else e.DirEntry? && NamesFile(e.entries, rest[1..]))
  }

  // ---------------------------------------------------------------- the recursive listing

  function Listing(path: Path, e: Entry): seq<Path>
    decreases e, 0
  {
    match e
    case FileEntry(name) => [path + [name]]
    case OtherEntry(_) => []
    case DirEntry(name, entries) => Listings(path + [name], entries)
  }

  function Listings(path: Path, entries: seq<Entry>): seq<Path>
    decreases entries, 1
  {
    if entries == [] then []
    else Listings(path, entries[..|entries| - 1]) + Listing(path, entries[|entries| - 1])
  }

  /** The path starts here and goes on to name a file. */
  ghost predicate Names(path: Path, e: Entry, p: Path) { path <= p && EntryNames(e, p[|path|..]) }

  ghost predicate Below(path: Path, entries: seq<Entry>, p: Path) { path <= p && NamesFile(entries, p[|path|..]) }

  lemma NamesFileEntry(path: Path, e: Entry, p: Path)
    requires e.FileEntry?
    ensures Names(path, e, p) <==> p == path + [e.name]
  {
    if Names(path, e, p) {
      assert p == path + p[|path|..];
      assert p[|path|..] == [e.name];
    }
    if p == path + [e.name] { assert p[|path|..] == [e.name]; }
  }

  lemma NamesDirEntry(path: Path, e: Entry, p: Path)
    requires e.DirEntry?
    ensures Names(path, e, p) <==> Below(path + [e.name], e.entries, p)
  {
    var n := |path|;
    if Names(path, e, p) {
      assert p == path + p[n..];
      assert path + [e.name] == p[..n + 1] && p[n..][1..] == p[n + 1..];
    }
    if Below(path + [e.name], e.entries, p) {
      assert p[..n + 1] == path + [e.name];
      assert path == p[..n] && p[n..][0] == e.name && p[n..][1..] == p[n + 1..];
      assert NamesFile(e.entries, p[n + 1..]);
      if |p[n..]| == 1 { EmptyNamesNothing(e.entries); }
    }
  }

  lemma EmptyNamesNothing(entries: seq<Entry>)
    ensures !NamesFile(entries, [])
  {
  }

  /** The listing holds exactly the paths that name a file. */
  lemma {:induction false} ListingFinds(path: Path, e: Entry, p: Path)
    ensures p in Listing(path, e) <==> Names(path, e, p)
    decreases e, 0
  {
    match e
    case FileEntry(_) => NamesFileEntry(path, e, p);
    case OtherEntry(_) =>
    case DirEntry(name, entries) =>
      NamesDirEntry(path, e, p);
      ListingsFind(path + [name], entries, p);
  }

  lemma {:induction false} ListingsFind(path: Path, entries: seq<Entry>, p: Path)
    ensures p in Listings(path, entries) <==> Below(path, entries, p)
    decreases entries, 1
  {
    if entries != [] {
      var n := |entries| - 1;
      ListingsFind(path, entries[..n], p);
      ListingFinds(path, entries[n], p);
      hide EntryNames;
      BelowLast(path, entries, p);
    }
  }

  lemma BelowLast(path: Path, entries: seq<Entry>, p: Path)
    requires entries != []
    ensures Below(path, entries, p) <==>
      Below(path, entries[..|entries| - 1], p) || Names(path, entries[|entries| - 1], p)
  {
    hide EntryNames;
    var n := |entries| - 1;
    if Below(path, entries[..n], p) {
      var i :| 0 <= i < n && EntryNames(entries[..n][i], p[|path|..]);
      assert entries[i] == entries[..n][i];
    }
    if Below(path, entries, p) && !Names(path, entries[n], p) {
      var i :| 0 <= i <= n && EntryNames(entries[i], p[|path|..]);
      assert entries[..n][i] == entries[i];
    }
  }

  // ---------------------------------------------------------------- each file once

  lemma DistinctJoin<T>(a: seq<T>, b: seq<T>)
    requires Distinct(a) && Distinct(b) && forall x :: x in a ==> x !in b
    ensures Distinct(a + b)
  {
    assert forall i :: 0 <= i < |a| ==> a[i] in a;
    assert forall i :: 0 <= i < |b| ==> b[i] in b;
  }

  lemma {:induction false} ListingIsDistinct(path: Path, e: Entry)
    requires e.DirEntry? ==> WellFormed(e.entries)
    ensures Distinct(Listing(path, e))
    decreases e, 0
  {
    if e.DirEntry? { ListingsAreDistinct(path + [e.name], e.entries); }
  }

  /** The listing names each file once. */
  lemma {:induction false} ListingsAreDistinct(path: Path, entries: seq<Entry>)
    requires WellFormed(entries)
    ensures Distinct(Listings(path, entries))
    decreases entries, 1
  {
    if entries != [] {
      var n := |entries| - 1;
      var before, last := Listings(path, entries[..n]), Listing(path, entries[n]);
      WithoutLastEntry(entries);
      ListingsAreDistinct(path, entries[..n]);
      ListingIsDistinct(path, entries[n]);
      forall p | p in before ensures p !in last {
        ListingsFind(path, entries[..n], p);
        ListingFinds(path, entries[n], p);
        OneEntryOnly(path, entries, p);
      }
      hide WellFormed;
      DistinctJoin(before, last);
    }
  }

  lemma WithoutLastEntry(entries: seq<Entry>)
    requires WellFormed(entries) && entries != []
    ensures WellFormed(entries[..|entries| - 1])
  {
    var n := |entries| - 1;
    assert forall i :: 0 <= i < n ==> entries[..n][i] == entries[i];
  }

  /** A path below an earlier entry is not below the last one: the names differ. */
  lemma OneEntryOnly(path: Path, entries: seq<Entry>, p: Path)
    requires NamesDiffer(entries) && entries != [] && Below(path, entries[..|entries| - 1], p)
    ensures !Names(path, entries[|entries| - 1], p)
  {
    var n := |entries| - 1;
    var i :| 0 <= i < n && EntryNames(entries[..n][i], p[|path|..]);
    assert entries[..n][i] == entries[i];
  }

  // ---------------------------------------------------------------- the stack

  /** A directory waiting on the stack. */
  datatype Frame = Frame(path: Path, entries: seq<Entry>)

  function Pending(stack: seq<Frame>): seq<Path> {
    if stack == [] then []
    else
      var n := |stack| - 1;
      Pending(stack[..n]) + Listings(stack[n].path, stack[n].entries)
  }

  function Size(e: Entry): nat
    decreases e, 0
  {
    if e.DirEntry? then 1 + Sizes(e.entries) else 1
  }

  function Sizes(entries: seq<Entry>): nat
    decreases entries, 1
  {
    if entries == [] then 0 else Sizes(entries[..|entries| - 1]) + Size(entries[|entries| - 1])
  }

  /** What remains to be visited, for termination. */
  function Weight(stack: seq<Frame>): nat {
    if stack == [] then 0
    else
      var n := |stack| - 1;
      Weight(stack[..n]) + 1 + Sizes(stack[n].entries)
  }

  lemma Push(stack: seq<Frame>, f: Frame)
    ensures Pending(stack + [f]) == Pending(stack) + Listings(f.path, f.entries)
    ensures Weight(stack + [f]) == Weight(stack) + 1 + Sizes(f.entries)
  {
    assert (stack + [f])[..|stack|] == stack;
  }

  lemma NextEntry(path: Path, entries: seq<Entry>, i: nat)
    requires i < |entries|
    ensures Listings(path, entries[..i + 1]) == Listings(path, entries[..i]) + Listing(path, entries[i])
    ensures Sizes(entries[..i + 1]) == Sizes(entries[..i]) + Size(entries[i])
  {
    assert entries[..i + 1][..i] == entries[..i];
  }

  /** What the inner loop does with one entry. */
  function Visit(f: Frame, e: Entry, stack: seq<Frame>, output: seq<Path>): (seq<Frame>, seq<Path>) {
    match e
    case FileEntry(name) => (stack, output + [f.path + [name]])
    case OtherEntry(_) => (stack, output)
    case DirEntry(name, entries) => (stack + [Frame(f.path + [name], entries)], output)
  }

  /** Found and still pending paths are those at the start of the directory and its first i entries. */
  ghost predicate Visited(found: multiset<Path>, weight: nat, f: Frame, i: nat, stack: seq<Frame>, output: seq<Path>) {
    && i <= |f.entries|
    && multiset(output) + multiset(Pending(stack)) == found + multiset(Listings(f.path, f.entries[..i]))
    && Weight(stack) <= weight + Sizes(f.entries[..i])
  }

  lemma VisitCounts(f: Frame, e: Entry, stack: seq<Frame>, output: seq<Path>)
    ensures
      var (stack', output') := Visit(f, e, stack, output);
      && multiset(output') + multiset(Pending(stack')) ==
           multiset(output) + multiset(Pending(stack)) + multiset(Listing(f.path, e))
      && Weight(stack') <= Weight(stack) + Size(e)
  {
    match e
    case FileEntry(_) => hide Pending, Weight;
    case OtherEntry(_) => hide Pending, Weight;
    case DirEntry(name, entries) =>
      Push(stack, Frame(f.path + [name], entries));
      hide Pending, Weight, Listings, Sizes;
  }

  lemma VisitEntry(found: multiset<Path>, weight: nat, f: Frame, i: nat, stack: seq<Frame>, output: seq<Path>)
    requires Visited(found, weight, f, i, stack, output) && i < |f.entries|
    ensures
      var (stack', output') := Visit(f, f.entries[i], stack, output);
      Visited(found, weight, f, i + 1, stack', output')
  {
    hide Pending, Weight, Sizes, Size, Listing, Listings;
    VisitCounts(f, f.entries[i], stack, output);
    NextEntry(f.path, f.entries, i);
  }

  lemma StartVisit(stack: seq<Frame>, f: Frame, output: seq<Path>)
    ensures Visited(multiset(output) + multiset(Pending(stack)), Weight(stack), f, 0, stack, output)
    ensures multiset(output) + multiset(Pending(stack + [f])) ==
            multiset(output) + multiset(Pending(stack)) + multiset(Listings(f.path, f.entries))
  {
    Push(stack, f);
    assert f.entries[..0] == [];
    hide Pending, Weight;
  }

  lemma EndVisit(found: multiset<Path>, weight: nat, f: Frame, stack: seq<Frame>, output: seq<Path>)
    requires Visited(found, weight, f, |f.entries|, stack, output)
    ensures multiset(output) + multiset(Pending(stack)) == found + multiset(Listings(f.path, f.entries))
    ensures Weight(stack) <= weight + Sizes(f.entries)
  {
    assert f.entries[..|f.entries|] == f.entries;
  }

  /**
   The packaging script's walk: it ends on every finite tree, and lists every file below the root
   exactly once, in the order of the sort.
   */
  method CollectFiles(root: Path, entries: seq<Entry>, less: (Path, Path) -> bool) returns (output: seq<Path>)
    requires StrictOrder(less) && WellFormed(entries)
    ensures Sorted(less, output) && Distinct(output)
    ensures forall p :: p in output <==> root <= p && NamesFile(entries, p[|root|..])
  {
    hide StrictOrder, WellFormed, NamesFile, Listings, Visited, Weight, Pending, Sizes;
    output := [];
    var stack := [Frame(root, entries)];
    OneFrame(Frame(root, entries));
    while stack != []
      invariant multiset(output) + multiset(Pending(stack)) == multiset(Listings(root, entries))
      decreases Weight(stack)
    {
      output, stack := VisitDirectory(stack, output);
    }
    assert Pending([]) == [] by { NothingPending(); }
    Collected(root, entries, less, output);
    output := Sort(less, output);
  }

  lemma OneFrame(f: Frame)
    ensures Pending([f]) == Listings(f.path, f.entries)
  {
    Push([], f);
    assert [] + [f] == [f];
  }

  lemma NothingPending()
    ensures Pending([]) == []
  {
  }

  /** One turn of the outer loop: pop a directory and go through its entries. */
  method VisitDirectory(waiting: seq<Frame>, sofar: seq<Path>) returns (output: seq<Path>, stack: seq<Frame>)
    requires waiting != []
    ensures multiset(output) + multiset(Pending(stack)) == multiset(sofar) + multiset(Pending(waiting))
    ensures Weight(stack) < Weight(waiting)
  {
    hide Listings, Visited, Weight, Pending, Sizes;
    var n := |waiting| - 1;
    var f := waiting[n];
    output, stack := sofar, waiting[..n];
    assert waiting == waiting[..n] + [f];
    Push(waiting[..n], f);
    StartVisit(stack, f, output);
    ghost var found, weight := multiset(output) + multiset(Pending(stack)), Weight(stack);
    for i := 0 to |f.entries|
      invariant Visited(found, weight, f, i, stack, output)
    {
      VisitEntry(found, weight, f, i, stack, output);
      match f.entries[i]
      case FileEntry(name) => output := output + [f.path + [name]];
      case OtherEntry(_) =>
      case DirEntry(name, entries) => stack := stack + [Frame(f.path + [name], entries)];
    }
    EndVisit(found, weight, f, stack, output);
  }

  /** Whatever order the files were found in, sorting gives the same distinct listing. */
  lemma Collected(root: Path, entries: seq<Entry>, less: (Path, Path) -> bool, output: seq<Path>)
    requires StrictOrder(less) && WellFormed(entries) && multiset(output) == multiset(Listings(root, entries))
    ensures Sorted(less, Sort(less, output)) && Distinct(Sort(less, output))
    ensures forall p :: p in Sort(less, output) <==> root <= p && NamesFile(entries, p[|root|..])
  {
    var listing := Listings(root, entries);
    ListingsAreDistinct(root, entries);
    DistinctMultiset(listing, output);
    SortSorts(less, output);
    SortMembers(less, output);
    SortedDistinct(less, Sort(less, output));
    hide StrictOrder, WellFormed, NamesFile, Sort, Listings;
    forall p ensures p in Sort(less, output) <==> root <= p && NamesFile(entries, p[|root|..]) {
      ListingsFind(root, entries, p);
      MembersAgree(Sort(less, output), listing, p);
    }
  }

  lemma DistinctMultiset<T>(s: seq<T>, t: seq<T>)
    requires Distinct(s) && multiset(s) == multiset(t)
    ensures Distinct(t)
  {
    forall i, j | 0 <= i < j < |t| ensures t[i] != t[j] {
      CountsOnce(s, t[i]);
      CountsTwice(t, i, j);
    }
  }

  lemma CountsTwice<T>(t: seq<T>, i: nat, j: nat)
    requires i < j < |t|
    ensures t[i] == t[j] ==> multiset(t)[t[i]] >= 2
  {
    assert t == t[..j] + [t[j]] + t[j + 1..];
    assert t[..j][i] == t[i] && t[i] in t[..j];
    assert t[i] in multiset(t[..j]);
  }
}
