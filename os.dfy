/**
 * The part of the operating system the channel image service relies on:
 * POSIX `os.path.join`, and a file store that maps each file path to its bytes.
 * Directories are implicit: a directory exists as the prefix of the paths below it.
 */
module Os {

  newtype byte = b: int | 0 <= b < 256

  /** The file store: every regular file, by path, with its contents. */
  type Files = map<string, seq<byte>>

  /**
   * A single path component that names an entry of its directory: non-empty, free
   * of the separator, and neither `.` nor `..`.
   */
  predicate PlainName(s: string)
  {
    |s| > 0 && '/' !in s && s != "." && s != ".."
  }

  /** What `os.path.join(a, b)` puts in front of a relative `b`. */
  function DirPrefix(a: string): (p: string)
    ensures p == a || p == a + "/"
    ensures p == "" || p[|p| - 1] == '/'
  {
    if a == "" || a[|a| - 1] == '/' then a else a + "/"
  }

  /**
   * POSIX `os.path.join` of two components: an absolute `b` replaces `a`;
   * otherwise `b` is appended, with a separator unless `a` is empty or already ends in one.
   */
  function Join(a: string, b: string): (r: string)
    ensures b != "" && b[0] == '/' ==> r == b
    ensures PlainName(b) ==> r != "" && r[|r| - 1] != '/'
  {
    if |b| > 0 && b[0] == '/' then b
    else if a == "" || a[|a| - 1] == '/' then a + b
    else a + "/" + b
  }

  /** Joining a plain name gives a path that ends in that name, hence not in a separator. */
  lemma JoinPlain(a: string, b: string)
    requires PlainName(b)
    ensures Join(a, b) == DirPrefix(a) + b
    ensures Join(a, b) != "" && Join(a, b)[|Join(a, b)| - 1] != '/'
  {
    assert b[|b| - 1] in b;
  }

  /** In `x + "/" + n`, with `n` free of separators, the separator after `x` is the last one. */
  lemma LastSeparator(x: string, n: string)
    requires '/' !in n
    ensures var s := x + "/" + n; s[|x|] == '/' && forall i :: |x| < i < |s| ==> s[i] != '/'
  {
    var s := x + "/" + n;
    forall i | |x| < i < |s| ensures s[i] != '/' {
      assert s[i] == n[i - |x| - 1];
    }
  }

  /**
   * A path of the form `x + "/" + n`, with `n` free of separators, determines both `x` and `n`:
   * `n` is everything after the last separator.
   */
  lemma SplitLast(x1: string, n1: string, x2: string, n2: string)
    requires '/' !in n1 && '/' !in n2
    requires x1 + "/" + n1 == x2 + "/" + n2
    ensures x1 == x2 && n1 == n2
  {
    var s := x1 + "/" + n1;
    LastSeparator(x1, n1);
    LastSeparator(x2, n2);
    assert |x1| == |x2|;
    assert n1 == s[|x1| + 1..] == n2;
    assert x1 == s[..|x1|] == x2;
  }

  /** Two plain names joined onto the same directory give the same path only when they are the same name. */
  lemma JoinDistinctNames(a: string, b1: string, b2: string)
    requires PlainName(b1) && PlainName(b2) && b1 != b2
    ensures Join(a, b1) != Join(a, b2)
  {
    JoinPlain(a, b1);
    JoinPlain(a, b2);
    var p := DirPrefix(a);
    assert (p + b1)[|p|..] == b1;
    assert (p + b2)[|p|..] == b2;
  }

  /**
   * `os.replace(src, dst)` on an existing `src`: `dst` takes the former contents of `src`,
   * `src` disappears (unless it is `dst` itself) and no other file changes.
   */
  function Replace(files: Files, src: string, dst: string): (r: Files)
    requires src in files
    ensures dst in r && r[dst] == files[src]
    ensures src != dst ==> src !in r
    ensures forall q :: q != src && q != dst ==> (q in r <==> q in files)
    ensures forall q :: q in r && q != dst ==> r[q] == files[q]
  {
    if src == dst then files else (files - {src})[dst := files[src]]
  }

  /** Creating a file that was absent and unlinking it again leaves the store as it was. */
  lemma CreateThenUnlink(files: Files, path: string, contents: seq<byte>)
    requires path !in files
    ensures files[path := contents] - {path} == files
  {
    assert (files[path := contents] - {path}).Keys == files.Keys;
  }

  /**
   * Creating an absent file, writing another one, and unlinking the first again
   * amounts to the write alone.
   */
  lemma CreateWriteUnlink(files: Files, path: string, contents: seq<byte>, other: string, data: seq<byte>)
    requires path !in files && path != other
    ensures files[path := contents][other := data] - {path} == files[other := data]
  {
    assert (files[path := contents][other := data] - {path}).Keys == files[other := data].Keys;
  }

  /** The process's file store, which the service reads and changes in place. */
  class FileSystem {
    var files: Files

    constructor (initial: Files)
      ensures files == initial
    {
      files := initial;
    }
  }
}
