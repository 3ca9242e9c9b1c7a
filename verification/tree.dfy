/**
 * A directory tree as the signing step sees it, and `pathlib.Path.glob`
 * over it.
 *
 * A file may be an archive; `archive` holds the entries `unzip` extracts
 * from it (empty for a file that is not one). A symbolic link is a leaf:
 * `glob` does not descend into it, and what it points to is not modelled.
 */
module Bundle {

  import opened Paths

  datatype Entry =
    | File(name: string, archive: seq<Entry>)
    | Symlink(name: string)
    | Dir(name: string, children: seq<Entry>)

  /** A path yielded by `glob`, with the entry it names. */
  datatype Found = Found(path: Path, entry: Entry)

  /** The last component of a glob pattern: `*`, or `*` followed by a fixed suffix such as `.so`. */
  datatype Pattern = AnyName | Suffix(suffix: string)

  predicate Matches(name: string, pat: Pattern) {
    match pat
    case AnyName => true
    case Suffix(s) => EndsWith(name, s)
  }

  /** Number of entries in a tree, archive contents included; the measure every recursion over trees decreases. */
  function EntrySize(e: Entry): (n: nat)
    ensures n >= 1
    decreases e
  {
    match e
    case File(_, archive) => 1 + ListSize(archive)
    case Symlink(_) => 1
    case Dir(_, children) => 1 + ListSize(children)
  }

  function ListSize(es: seq<Entry>): (n: nat)
    ensures es != [] ==> n >= EntrySize(es[0]) + ListSize(es[1..])
    decreases es
  {
    if es == [] then 0 else EntrySize(es[0]) + ListSize(es[1..])
  }

  /** What extracting an entry yields: the archive's entries for a file, nothing otherwise. */
  function Extracted(e: Entry): (r: seq<Entry>)
    ensures ListSize(r) < EntrySize(e)
  {
    if e.File? then e.archive else []
  }

  /** What `glob` below an entry sees: its children when it is a directory, nothing otherwise. */
  function Listing(e: Entry): (r: seq<Entry>)
    ensures ListSize(r) < EntrySize(e)
  {
    if e.Dir? then e.children else []
  }

  /** The entry as a one-component glob result: present when its name matches. */
  function Here(base: Path, e: Entry, pat: Pattern): seq<Found> {
    if Matches(e.name, pat) then [Found(Join(base, e.name), e)] else []
  }

  /** The entries of one directory whose names match: `base.glob(pattern)` with a pattern of one component. */
  function Matching(base: Path, es: seq<Entry>, pat: Pattern): seq<Found>
    decreases es
  {
    if es == [] then [] else Here(base, es[0], pat) + Matching(base, es[1..], pat)
  }

  /**
   * `base.glob('**' + '/' + pattern)` as pathlib (Python 3.8 to 3.11) computes it:
   * the matching entries of `base`, then the same for every subdirectory
   * in turn, depth first; symbolic links are not followed. Python 3.12
   * yields the same entries (see `GlobIsWalkSelection`) in another order:
   * it lists every subdirectory of a directory before descending.
   */
  function Glob(base: Path, es: seq<Entry>, pat: Pattern): seq<Found>
    decreases ListSize(es), 2
  {
    Matching(base, es, pat) + Descend(base, es, pat)
  }

  /** The recursive part of `Glob`: the results below each subdirectory, in listing order. */
  function Descend(base: Path, es: seq<Entry>, pat: Pattern): seq<Found>
    decreases ListSize(es), 1
  {
    if es == [] then [] else Below(base, es[0], pat) + Descend(base, es[1..], pat)
  }

  /** The results below one entry: those of its directory when it is one. */
  function Below(base: Path, e: Entry, pat: Pattern): seq<Found>
    decreases EntrySize(e), 0
  {
    if e.Dir? then Glob(Join(base, e.name), e.children, pat) else []
  }

  /** Reference enumeration: every entry of the tree with its path, each one followed by what lies below it. */
  function Walk(base: Path, es: seq<Entry>): seq<Found>
    decreases ListSize(es), 1
  {
    if es == [] then [] else Subtree(base, es[0]) + Walk(base, es[1..])
  }

  /** One entry followed by the enumeration of what lies below it. */
  function Subtree(base: Path, e: Entry): seq<Found>
    decreases EntrySize(e), 0
  {
    [Found(Join(base, e.name), e)] + (if e.Dir? then Walk(Join(base, e.name), e.children) else [])
  }

  /** The found paths whose last component matches. */
  function Select(found: seq<Found>, pat: Pattern): seq<Found> {
    if found == [] then []
    else (if Matches(found[0].entry.name, pat) then [found[0]] else []) + Select(found[1..], pat)
  }

  /** The paths of the found regular files, in order: the `is_file() and not is_symlink()` filter. */
  function RegularFiles(found: seq<Found>): seq<Path> {
    if found == [] then []
    else (if found[0].entry.File? then [found[0].path] else []) + RegularFiles(found[1..])
  }

  /** The found paths, in order. */
  function PathsOf(found: seq<Found>): seq<Path> {
    if found == [] then [] else [found[0].path] + PathsOf(found[1..])
  }

  /** `Select` keeps exactly the matching found paths. */
  lemma {:induction false} SelectMembers(found: seq<Found>, pat: Pattern, f: Found)
    ensures f in Select(found, pat) <==> f in found && Matches(f.entry.name, pat)
    decreases |found|
  {
    if found != [] {
      SelectMembers(found[1..], pat, f);
      assert found == [found[0]] + found[1..];
    }
  }

  /** `RegularFiles` keeps exactly the paths of the found regular files. */
  lemma {:induction false} RegularFilesMembers(found: seq<Found>, p: Path)
    ensures p in RegularFiles(found) <==> exists f :: f in found && f.entry.File? && f.path == p
    decreases |found|
  {
    if found != [] {
      RegularFilesMembers(found[1..], p);
      assert found == [found[0]] + found[1..];
    }
  }

  /** `PathsOf` keeps every found path, in order. */
  lemma {:induction false} PathsOfAt(found: seq<Found>)
    ensures |PathsOf(found)| == |found|
    ensures forall k :: 0 <= k < |found| ==> PathsOf(found)[k] == found[k].path
    decreases |found|
  {
    if found != [] {
      PathsOfAt(found[1..]);
    }
  }

  lemma {:induction false} SelectAppend(a: seq<Found>, b: seq<Found>, pat: Pattern)
    ensures Select(a + b, pat) == Select(a, pat) + Select(b, pat)
    decreases |a|
  {
    if a == [] {
      assert a + b == b;
    } else {
      assert (a + b)[1..] == a[1..] + b;
      SelectAppend(a[1..], b, pat);
    }
  }

  /**
   * `Glob` yields every matching entry of the tree exactly as often as the
   * reference enumeration holds it: only its order differs.
   */
  lemma {:induction false} GlobIsWalkSelection(base: Path, es: seq<Entry>, pat: Pattern)
    ensures multiset(Glob(base, es, pat)) == multiset(Select(Walk(base, es), pat))
    decreases ListSize(es), 1
  {
    if es != [] {
      var e, rest := es[0], es[1..];
      BelowIsSubtreeSelection(base, e, pat);
      GlobIsWalkSelection(base, rest, pat);
      SelectAppend(Subtree(base, e), Walk(base, rest), pat);
      Shuffle(Here(base, e, pat), Matching(base, rest, pat), Below(base, e, pat), Descend(base, rest, pat),
              Select(Walk(base, rest), pat));
    }
  }

  /** The same for one entry: its own match, then the matches below it. */
  lemma {:induction false} BelowIsSubtreeSelection(base: Path, e: Entry, pat: Pattern)
    ensures multiset(Here(base, e, pat) + Below(base, e, pat)) == multiset(Select(Subtree(base, e), pat))
    decreases EntrySize(e), 0
  {
    var p := Join(base, e.name);
    var under := if e.Dir? then Walk(p, e.children) else [];
    SelectAppend([Found(p, e)], under, pat);
    assert [Found(p, e)][1..] == [];
    assert Select([Found(p, e)], pat) == Here(base, e, pat);
    if e.Dir? {
      GlobIsWalkSelection(p, e.children, pat);
    }
  }

  /** Moving the matches below the first entry past those of its siblings leaves the multiset alone. */
  lemma Shuffle(here: seq<Found>, mr: seq<Found>, below: seq<Found>, dr: seq<Found>, sw: seq<Found>)
    requires multiset(mr + dr) == multiset(sw)
    ensures multiset((here + mr) + (below + dr)) == multiset((here + below) + sw)
  {
    calc {
      multiset((here + mr) + (below + dr));
      multiset(here) + multiset(mr) + multiset(below) + multiset(dr);
      multiset(here) + multiset(below) + (multiset(mr) + multiset(dr));
      multiset((here + below) + sw);
    }
  }

  /** Every entry of the enumeration lies inside the tree, so it is no bigger than the tree. */
  lemma {:induction false} WalkBounded(base: Path, es: seq<Entry>)
    ensures forall f :: f in Walk(base, es) ==> EntrySize(f.entry) <= ListSize(es)
    decreases ListSize(es)
  {
    if es != [] {
      var p := Join(base, es[0].name);
      WalkBounded(base, es[1..]);
      if es[0].Dir? {
        WalkBounded(p, es[0].children);
      }
    }
  }

  /** What `Glob` finds is somewhere in the tree: no found entry is bigger than the tree. */
  lemma GlobBounded(base: Path, es: seq<Entry>, pat: Pattern)
    ensures forall f :: f in Glob(base, es, pat) ==> EntrySize(f.entry) <= ListSize(es)
  {
    GlobIsWalkSelection(base, es, pat);
    WalkBounded(base, es);
    forall f | f in Glob(base, es, pat)
      ensures EntrySize(f.entry) <= ListSize(es)
    {
      assert f in multiset(Glob(base, es, pat));
      assert f in multiset(Select(Walk(base, es), pat));
      SelectMembers(Walk(base, es), pat, f);
    }
  }

  /** `Glob` finds exactly the matching entries of the reference enumeration. */
  lemma GlobFindsExactly(base: Path, es: seq<Entry>, pat: Pattern, f: Found)
    ensures f in Glob(base, es, pat) <==> f in Walk(base, es) && Matches(f.entry.name, pat)
  {
    GlobIsWalkSelection(base, es, pat);
    assert f in Glob(base, es, pat) <==> f in multiset(Glob(base, es, pat));
    assert f in Select(Walk(base, es), pat) <==> f in multiset(Select(Walk(base, es), pat));
    SelectMembers(Walk(base, es), pat, f);
  }

  /** `Matching` finds exactly the matching entries right inside `base`, each under its own name. */
  lemma {:induction false} MatchingMembers(base: Path, es: seq<Entry>, pat: Pattern, f: Found)
    ensures f in Matching(base, es, pat)
        <==> exists k :: 0 <= k < |es| && Matches(es[k].name, pat) && f == Found(Join(base, es[k].name), es[k])
    decreases |es|
  {
    if es != [] {
      MatchingMembers(base, es[1..], pat, f);
      if f in Matching(base, es[1..], pat) {
        var k :| 0 <= k < |es[1..]| && Matches(es[1..][k].name, pat) && f == Found(Join(base, es[1..][k].name), es[1..][k]);
        assert es[k + 1] == es[1..][k];
      }
      forall k | 0 < k < |es| && Matches(es[k].name, pat) && f == Found(Join(base, es[k].name), es[k])
        ensures f in Matching(base, es[1..], pat)
      {
        assert es[1..][k - 1] == es[k];
      }
    }
  }

  /** A matching entry right inside `base` is among the results of both kinds of glob. */
  lemma {:induction false} MatchingFindsDirectEntry(base: Path, es: seq<Entry>, pat: Pattern, k: nat)
    requires k < |es| && Matches(es[k].name, pat)
    ensures Found(Join(base, es[k].name), es[k]) in Matching(base, es, pat)
    ensures Found(Join(base, es[k].name), es[k]) in Glob(base, es, pat)
    decreases k
  {
    if k > 0 {
      MatchingFindsDirectEntry(base, es[1..], pat, k - 1);
      assert es[1..][k - 1] == es[k];
    }
  }
}
