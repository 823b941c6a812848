/** The path filter of the file monitor: which changed paths are handed on to the
    agent (`FileMonitorHandler._should_monitor`, agent.py:116-127), together with the
    pieces of `pathlib.PurePosixPath` and `str` it relies on. */
module PathFilter {

  // ---------------------------------------------------------------------------
  // str.replace("*", "") and str.startswith
  // ---------------------------------------------------------------------------

  /** `pattern.replace("*", "")`: every '*' is deleted, wherever it stands. */
  function RemoveStars(pattern: string): (r: string)
    ensures '*' !in r
    ensures |r| <= |pattern|
  {
    if pattern == [] then []
    else if pattern[0] == '*' then RemoveStars(pattern[1..])
    else [pattern[0]] + RemoveStars(pattern[1..])
  }

  lemma {:induction false} RemoveStarsAppend(a: string, b: string)
    ensures RemoveStars(a + b) == RemoveStars(a) + RemoveStars(b)
  {
    if a != [] {
      assert (a + b)[0] == a[0];
      assert (a + b)[1..] == a[1..] + b;
      RemoveStarsAppend(a[1..], b);
      if a[0] != '*' {
        assert [a[0]] + (RemoveStars(a[1..]) + RemoveStars(b))
            == ([a[0]] + RemoveStars(a[1..])) + RemoveStars(b);
      }
    } else {
      assert a + b == b;
    }
  }

  /** A pattern without '*' is used as it is. */
  lemma {:induction false} RemoveStarsIdentity(pattern: string)
    requires '*' !in pattern
    ensures RemoveStars(pattern) == pattern
  {
    if pattern != [] {
      RemoveStarsIdentity(pattern[1..]);
    }
  }

  /** A pattern made only of '*' (or empty) becomes the empty prefix. */
  lemma {:induction false} RemoveStarsOnlyStars(pattern: string)
    requires forall i :: 0 <= i < |pattern| ==> pattern[i] == '*'
    ensures RemoveStars(pattern) == ""
  {
    if pattern != [] {
      RemoveStarsOnlyStars(pattern[1..]);
    }
  }

  // A '*' between two star-free parts simply disappears: "/home/*/.cache"
  // becomes "/home//.cache", not a one-segment wildcard.
  lemma StarBetween(a: string, b: string)
    requires '*' !in a && '*' !in b
    ensures RemoveStars(a + "*" + b) == a + b
  {
    assert a + "*" + b == a + ("*" + b);
    RemoveStarsAppend(a, "*" + b);
    assert ("*" + b)[1..] == b;
    RemoveStarsIdentity(a);
    RemoveStarsIdentity(b);
  }

  /** `s.startswith(p)`. */
  predicate StartsWith(s: string, p: string)
  {
    p <= s
  }

  // ---------------------------------------------------------------------------
  // PurePosixPath(path).name
  // ---------------------------------------------------------------------------

  /** The path split at every '/', empty pieces included ("a//b/" gives "a", "", "b", ""). */
  function Segments(path: string): (r: seq<string>)
    ensures |r| >= 1
    ensures forall k :: 0 <= k < |r| ==> '/' !in r[k]
  {
    if path == [] then [[]]
    else if path[0] == '/' then [[]] + Segments(path[1..])
    else
      var rest := Segments(path[1..]);
      [[path[0]] + rest[0]] + rest[1..]
  }

  /** The components pathlib keeps: empty pieces and "." are dropped. */
  function Parts(segments: seq<string>): (r: seq<string>)
    ensures forall k :: 0 <= k < |r| ==> r[k] in segments && r[k] != "" && r[k] != "."
  {
    if segments == [] then []
    else if segments[0] == "" || segments[0] == "." then Parts(segments[1..])
    else [segments[0]] + Parts(segments[1..])
  }

  /** `Path(path).name`: the last component kept by pathlib, or "" when there is none
      ("/", "", "."). A trailing '/' or "/." does not change the name. */
  function Name(path: string): (r: string)
    ensures '/' !in r && r != "."
  {
    var parts := Parts(Segments(path));
    if parts == [] then "" else parts[|parts| - 1]
  }

  lemma {:induction false} SegmentsJoin(a: string, b: string)
    ensures Segments(a + "/" + b) == Segments(a) + Segments(b)
  {
    if a == [] {
      assert a + "/" + b == ['/'] + b;
      assert (['/'] + b)[1..] == b;
    } else {
      assert (a + "/" + b)[0] == a[0];
      assert (a + "/" + b)[1..] == a[1..] + "/" + b;
      SegmentsJoin(a[1..], b);
    }
  }

  lemma {:induction false} SegmentsOfComponent(n: string)
    requires '/' !in n
    ensures Segments(n) == [n]
  {
    if n != [] {
      SegmentsOfComponent(n[1..]);
      assert [n[0]] + n[1..] == n;
    }
  }

  lemma {:induction false} PartsAppend(x: seq<string>, y: seq<string>)
    ensures Parts(x + y) == Parts(x) + Parts(y)
  {
    if x != [] {
      assert (x + y)[0] == x[0];
      assert (x + y)[1..] == x[1..] + y;
      PartsAppend(x[1..], y);
      if x[0] != "" && x[0] != "." {
        assert [x[0]] + (Parts(x[1..]) + Parts(y)) == ([x[0]] + Parts(x[1..])) + Parts(y);
      }
    } else {
      assert x + y == y;
    }
  }

  /** The name of "dir/n" is n, for any directory part and any component n. */
  lemma NameOfJoin(dir: string, n: string)
    requires '/' !in n && n != "" && n != "."
    ensures Name(dir + "/" + n) == n
  {
    SegmentsJoin(dir, n);
    SegmentsOfComponent(n);
    PartsAppend(Segments(dir), [n]);
    assert Parts([n]) == [n] by {
      assert [n][1..] == [];
    }
  }

  // ---------------------------------------------------------------------------
  // PurePosixPath.suffix and str.lower
  // ---------------------------------------------------------------------------

  /** `s.rfind(c)`: the index of the last c, or -1. */
  function LastIndexOf(s: string, c: char): (i: int)
    ensures -1 <= i < |s|
    ensures i >= 0 ==> s[i] == c
    ensures forall k :: i < k < |s| ==> s[k] != c
  {
    if s == [] then -1
    else if s[|s| - 1] == c then |s| - 1
    else LastIndexOf(s[..|s| - 1], c)
  }

  /** `PurePosixPath.suffix` on a name: from the last '.' on, provided that dot is
      neither the first nor the last character; otherwise "". */
  function Suffix(name: string): (r: string)
    ensures r == "" || (2 <= |r| < |name| && r[0] == '.' && '.' !in r[1..] && name[|name| - |r|..] == r)
  {
    var i := LastIndexOf(name, '.');
    if 0 < i < |name| - 1 then name[i..] else ""
  }

  /** "stem.ext" has suffix ".ext" whenever the stem is not empty. */
  lemma SuffixOfExtension(stem: string, ext: string)
    requires stem != "" && ext != "" && '.' !in ext
    ensures Suffix(stem + "." + ext) == "." + ext
  {
    var name := stem + "." + ext;
    var i := LastIndexOf(name, '.');
    assert name[|stem|] == '.';
    assert forall k :: |stem| < k < |name| ==> name[k] == ext[k - |stem| - 1];
    assert i == |stem|;
    assert name[i..] == "." + ext;
  }

  /** A hidden file such as ".bashrc" has no suffix. */
  lemma HiddenFileHasNoSuffix(e: string)
    requires '.' !in e
    ensures Suffix("." + e) == ""
  {
    var name := "." + e;
    assert name[0] == '.';
    assert forall k :: 0 < k < |name| ==> name[k] == e[k - 1];
    assert LastIndexOf(name, '.') == 0;
  }

  predicate IsUpper(c: char)
  {
    'A' <= c <= 'Z'
  }

  function LowerChar(c: char): (r: char)
    ensures !IsUpper(r)
    ensures !IsUpper(c) ==> r == c
    ensures IsUpper(c) ==> r as int == c as int + 32
  {
    if IsUpper(c) then (c as int + 32) as char else c
  }

  /** `s.lower()` on ASCII letters. */
  function Lower(s: string): (r: string)
    ensures |r| == |s|
    ensures forall k :: 0 <= k < |s| ==> r[k] == LowerChar(s[k])
  {
    if s == [] then [] else [LowerChar(s[0])] + Lower(s[1..])
  }

  // ---------------------------------------------------------------------------
  // _should_monitor
  // ---------------------------------------------------------------------------

  /** Some exclude pattern, with its stars removed, is a prefix of the path. */
  predicate Excluded(path: string, excludePaths: seq<string>)
  {
    exists k :: 0 <= k < |excludePaths| && StartsWith(path, RemoveStars(excludePaths[k]))
  }

  /** The lower-cased suffix of the path's name is listed; an empty list allows all. */
  predicate ExtensionAllowed(path: string, fileExtensions: seq<string>)
  {
    fileExtensions == [] || Lower(Suffix(Name(path))) in fileExtensions
  }

  /** What `_should_monitor` answers. */
  predicate Monitored(path: string, excludePaths: seq<string>, fileExtensions: seq<string>)
  {
    !Excluded(path, excludePaths) && ExtensionAllowed(path, fileExtensions)
  }

  /** `_should_monitor`: walk the exclude patterns, returning false at the first one that
      prefixes the path, then test the extension. */
  method ShouldMonitor(path: string, excludePaths: seq<string>, fileExtensions: seq<string>)
    returns (ok: bool)
    ensures ok == Monitored(path, excludePaths, fileExtensions)
  {
    for i := 0 to |excludePaths|
      invariant forall k :: 0 <= k < i ==> !StartsWith(path, RemoveStars(excludePaths[k]))
    {
      if StartsWith(path, RemoveStars(excludePaths[i])) {
        return false;
      }
    }
    var ext := Lower(Suffix(Name(path)));
    ok := if fileExtensions != [] then ext in fileExtensions else true;
  }

  // ---------------------------------------------------------------------------
  // Properties of the filter
  // ---------------------------------------------------------------------------

  /** A matching exclusion rejects the path whatever its extension and whatever the
      allowlist. */
  lemma ExclusionWins(path: string, excludePaths: seq<string>, k: nat)
    requires k < |excludePaths| && StartsWith(path, RemoveStars(excludePaths[k]))
    ensures forall exts :: !Monitored(path, excludePaths, exts)
  {
  }

  /** With no exclusion matching and an empty allowlist, everything is monitored. */
  lemma EmptyAllowlistAdmitsAll(path: string, excludePaths: seq<string>)
    requires !Excluded(path, excludePaths)
    ensures Monitored(path, excludePaths, [])
  {
  }

  /** An exclude pattern made only of stars (or empty) rejects every path. */
  lemma StarPatternExcludesAll(excludePaths: seq<string>, k: nat)
    requires k < |excludePaths|
    requires forall i :: 0 <= i < |excludePaths[k]| ==> excludePaths[k][i] == '*'
    ensures forall path, exts :: !Monitored(path, excludePaths, exts)
  {
    RemoveStarsOnlyStars(excludePaths[k]);
  }

  /** The name of "dir/stem.ext" is "stem.ext" and its suffix is ".ext". */
  lemma SuffixOfJoin(dir: string, stem: string, ext: string)
    requires stem != "" && ext != "" && '/' !in stem && '/' !in ext && '.' !in ext
    ensures Suffix(Name(dir + "/" + stem + "." + ext)) == "." + ext
  {
    var n := stem + "." + ext;
    assert dir + "/" + stem + "." + ext == dir + "/" + n;
    assert '/' !in n by {
      assert n == stem + ("." + ext);
    }
    NameOfJoin(dir, n);
    SuffixOfExtension(stem, ext);
  }

  /** For a file "dir/stem.ext" not excluded, the answer is exactly whether the
      lower-cased ".ext" is listed (or the list is empty). */
  lemma MonitoredByExtension(dir: string, stem: string, ext: string,
                             excludePaths: seq<string>, fileExtensions: seq<string>)
    requires stem != "" && ext != "" && '/' !in stem && '/' !in ext && '.' !in ext
    requires !Excluded(dir + "/" + stem + "." + ext, excludePaths)
    ensures Monitored(dir + "/" + stem + "." + ext, excludePaths, fileExtensions)
        <==> fileExtensions == [] || Lower("." + ext) in fileExtensions
  {
    SuffixOfJoin(dir, stem, ext);
  }

  /** ".TXT" and ".txt" are treated alike. */
  lemma UpperAndLowerExtensionAlike(dir: string, stem: string,
                                    excludePaths: seq<string>, fileExtensions: seq<string>)
    requires stem != "" && '/' !in stem
    requires !Excluded(dir + "/" + stem + ".TXT", excludePaths)
    requires !Excluded(dir + "/" + stem + ".txt", excludePaths)
    ensures Monitored(dir + "/" + stem + ".TXT", excludePaths, fileExtensions)
        <==> Monitored(dir + "/" + stem + ".txt", excludePaths, fileExtensions)
  {
    assert dir + "/" + stem + ".TXT" == dir + "/" + stem + "." + "TXT";
    assert dir + "/" + stem + ".txt" == dir + "/" + stem + "." + "txt";
    MonitoredByExtension(dir, stem, "TXT", excludePaths, fileExtensions);
    MonitoredByExtension(dir, stem, "txt", excludePaths, fileExtensions);
    LowerDotTxt();
  }

  lemma LowerDotTxt()
    ensures Lower(".TXT") == ".txt" && Lower(".txt") == ".txt"
  {
    var u, l := Lower(".TXT"), Lower(".txt");
    assert LowerChar('T') == 't' && LowerChar('X') == 'x';
    assert u[0] == '.' && u[1] == 't' && u[2] == 'x' && u[3] == 't';
    assert l[0] == '.' && l[1] == 't' && l[2] == 'x' && l[3] == 't';
  }

  /** The allowlist itself is not lower-cased: when every entry holds an upper-case
      letter, no path ever passes the extension test. */
  lemma UpperCaseEntriesNeverMatch(path: string, excludePaths: seq<string>,
                                   fileExtensions: seq<string>)
    requires fileExtensions != []
    requires forall e :: e in fileExtensions ==> exists i :: 0 <= i < |e| && IsUpper(e[i])
    ensures !Monitored(path, excludePaths, fileExtensions)
  {
  }

  lemma StripDataCache()
    ensures RemoveStars("/data/*/cache") == "/data//cache"
  {
    assert "/data/*/cache" == "/data/" + "*" + "/cache";
    StarBetween("/data/", "/cache");
  }

  /** A pattern "a*b" whose b starts with '/' never excludes a path in which a
      non-empty segment stands where the '*' was: the star matches nothing, not one
      path segment. */
  lemma WildcardIsNotASegment(a: string, segment: string, b: string, tail: string)
    requires '*' !in a && '*' !in b
    requires b != [] && b[0] == '/' && segment != [] && segment[0] != '/'
    ensures !StartsWith(a + segment + b + tail, RemoveStars(a + "*" + b))
  {
    StarBetween(a, b);
    var path := a + segment + b + tail;
    assert path[|a|] == segment[0];
    assert (a + b)[|a|] == '/';
  }

  // The exclusion pattern "/data/*/cache" does not exclude "/data/session/cache/x.txt".
  lemma SegmentWildcardExample()
    ensures Monitored("/data/session/cache/x.txt", ["/data/*/cache"], [".txt"])
  {
    var pattern, path := "/data/*/cache", "/data/session/cache/x.txt";
    assert !Excluded(path, [pattern]) by {
      assert pattern == "/data/" + "*" + "/cache";
      assert path == "/data/" + "session" + "/cache" + "/x.txt";
      WildcardIsNotASegment("/data/", "session", "/cache", "/x.txt");
      assert [pattern][0] == pattern;
    }
    assert ExtensionAllowed(path, [".txt"]) by {
      assert path == "/data/session/cache" + "/" + "x" + "." + "txt";
      SuffixOfJoin("/data/session/cache", "x", "txt");
      LowerDotTxt();
    }
  }

  /** A file whose extension is not listed is not monitored. */
  lemma UnlistedExtensionRejected()
    ensures !Monitored("/data/readme.md", [], [".txt"])
  {
    assert "/data/readme.md" == "/data" + "/" + "readme" + "." + "md";
    MonitoredByExtension("/data", "readme", "md", [], [".txt"]);
    assert Lower(".md") == ".md";
  }
}
