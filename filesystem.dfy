/**
 * The slice of the filesystem the core touches: building paths with
 * `filepath.Join` and asking `pathutil.IsPathExists` whether one exists.
 * The real filesystem is replaced by an oracle value.
 */
module FileSystem {
  import opened Wrappers
  import opened Strings

  /** The elements of `elems` that are not empty, in their order. */
  function NonEmpty(elems: seq<string>): (r: seq<string>)
    ensures forall i :: 0 <= i < |r| ==> r[i] != ""
    ensures |r| <= |elems|
  {
    if elems == [] then []
    else if elems[0] == "" then NonEmpty(elems[1..])
    else [elems[0]] + NonEmpty(elems[1..])
  }

  /**
   * `filepath.Join`: the non-empty elements joined with `/`. The lexical
   * clean-up Go applies afterwards (collapsing `//`, resolving `..`) is not
   * modelled.
   */
  function Join(elems: seq<string>): string
  {
    JoinWith(NonEmpty(elems), '/')
  }

  /** A path element that is one directory name: not empty, no `/`. */
  predicate IsSegment(s: string)
  {
    s != "" && '/' !in s
  }

  lemma {:induction false} NonEmptyAppend(xs: seq<string>, ys: seq<string>)
    ensures NonEmpty(xs + ys) == NonEmpty(xs) + NonEmpty(ys)
  {
    if xs == [] {
      assert xs + ys == ys;
    } else {
      assert (xs + ys)[0] == xs[0] && (xs + ys)[1..] == xs[1..] + ys;
      NonEmptyAppend(xs[1..], ys);
    }
  }

  lemma {:induction false} NonEmptyOfSegments(elems: seq<string>)
    requires forall i :: 0 <= i < |elems| ==> elems[i] != ""
    ensures NonEmpty(elems) == elems
  {
    if elems != [] {
      NonEmptyOfSegments(elems[1..]);
    }
  }

  /** A join of non-empty elements is empty only when there are none. */
  lemma {:induction false} JoinWithNonEmpty(parts: seq<string>, sep: char)
    requires forall i :: 0 <= i < |parts| ==> parts[i] != ""
    ensures JoinWith(parts, sep) == "" <==> parts == []
  {
    if |parts| > 1 {
      assert |JoinWith(parts, sep)| >= |parts[0]|;
    }
  }

  /** The path of whole segments splits at `/` back into exactly those segments. */
  lemma JoinSegments(elems: seq<string>)
    requires |elems| >= 1
    requires forall i :: 0 <= i < |elems| ==> IsSegment(elems[i])
    ensures Split(Join(elems), '/') == elems
  {
    NonEmptyOfSegments(elems);
    SplitJoin(elems, '/');
  }

  /** Joining a joined path as the last element is the same as joining all the elements at once. */
  lemma JoinNested(xs: seq<string>, ys: seq<string>)
    ensures Join(xs + [Join(ys)]) == Join(xs + ys)
  {
    var inner := Join(ys);
    NonEmptyAppend(xs, [inner]);
    NonEmptyAppend(xs, ys);
    JoinWithNonEmpty(NonEmpty(ys), '/');
    var a := NonEmpty(xs);
    if inner == "" {
      assert NonEmpty([inner]) == [];
      assert NonEmpty(ys) == [];
      assert a + [] == a;
    } else {
      assert NonEmpty([inner]) == [inner];
      if a == [] {
        assert [] + [inner] == [inner];
        assert [] + NonEmpty(ys) == NonEmpty(ys);
      } else {
        JoinWithAppend(a, [inner], '/');
        JoinWithAppend(a, NonEmpty(ys), '/');
      }
    }
  }

  /**
   * What `pathutil.IsPathExists` can observe: the paths that exist, and the
   * paths whose check fails with an error other than "does not exist"
   * (permissions, I/O). The second wins over the first.
   */
  datatype Fs = Fs(existing: set<string>, unreadable: set<string>)

  /** `pathutil.IsPathExists`: an error for an unreadable path, otherwise whether it exists. */
  function IsPathExists(fs: Fs, path: string): Result<bool, string>
  {
    if path in fs.unreadable then Failure(path) else Success(path in fs.existing)
  }
}
