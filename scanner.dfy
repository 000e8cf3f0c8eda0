/**
 * org.kasource.commons.util.AnnotationScanner: turning a comma-separated
 * scan path into the package paths to scan and the regular expression of
 * acceptable class names. Java's `String.replace`, `String.split` and
 * `String.trim` are written out.
 */
module Scanner {

  /** `s.replace(from, to)` for single characters. */
  function ReplaceChar(s: string, from: char, to: char): (r: string)
    ensures |r| == |s|
    ensures forall i :: 0 <= i < |s| ==> r[i] == if s[i] == from then to else s[i]
    ensures from != to ==> from !in r
  {
    if |s| == 0 then ""
    else [if s[0] == from then to else s[0]] + ReplaceChar(s[1..], from, to)
  }

  /** The scan path after `findAnotatedClasses` has rewritten it: dots become slashes. */
  function NormaliseScanPath(scanPath: string): (r: string)
    ensures '.' !in r && |r| == |scanPath|
    ensures forall i :: 0 <= i < |scanPath| && scanPath[i] != '.' ==> r[i] == scanPath[i]
  {
    if '.' in scanPath then ReplaceChar(scanPath, '.', '/') else scanPath
  }

  /** Every piece between separators, empty ones included (what `split` computes before it drops trailing empties). */
  function Pieces(s: string, sep: char): (r: seq<string>)
    ensures |r| >= 1
    ensures forall i :: 0 <= i < |r| ==> sep !in r[i]
    decreases |s|
  {
    if |s| == 0 then [""]
    else
      var rest := Pieces(s[1..], sep);
      if s[0] == sep then [""] + rest
      else [[s[0]] + rest[0]] + rest[1..]
  }

  /** The pieces glued back together with the separator between them. */
  function Join(pieces: seq<string>, sep: char): string
    requires |pieces| >= 1
    decreases |pieces|
  {
    if |pieces| == 1 then pieces[0] else pieces[0] + [sep] + Join(pieces[1..], sep)
  }

  /** Joining the pieces again gives back the string. */
  lemma {:induction false} JoinPieces(s: string, sep: char)
    ensures Join(Pieces(s, sep), sep) == s
    decreases |s|
  {
    if |s| > 0 {
      var rest := Pieces(s[1..], sep);
      JoinPieces(s[1..], sep);
      if s[0] != sep {
        var r := Pieces(s, sep);
        assert r[1..] == rest[1..];
        if |rest| > 1 {
          assert Join(r, sep) == [s[0]] + rest[0] + [sep] + Join(rest[1..], sep);
          assert Join(rest, sep) == rest[0] + [sep] + Join(rest[1..], sep);
        }
        assert s == [s[0]] + s[1..];
      } else {
        assert ([""] + rest)[1..] == rest;
        assert s == [s[0]] + s[1..];
      }
    }
  }

  /** The pieces with the trailing empty ones removed. */
  function DropTrailingEmpty(pieces: seq<string>): (r: seq<string>)
    ensures |r| <= |pieces| && r == pieces[..|r|]
    ensures |r| == 0 || r[|r| - 1] != ""
    ensures forall i :: |r| <= i < |pieces| ==> pieces[i] == ""
    decreases |pieces|
  {
    if |pieces| > 0 && pieces[|pieces| - 1] == "" then DropTrailingEmpty(pieces[..|pieces| - 1]) else pieces
  }

  /** `s.split(",")` for a one-character separator: without a separator the string itself, else the pieces without trailing empty ones. */
  function Split(s: string, sep: char): (r: seq<string>)
    ensures sep !in s ==> r == [s]
    ensures forall i :: 0 <= i < |r| ==> sep !in r[i]
  {
    if sep !in s then [s] else DropTrailingEmpty(Pieces(s, sep))
  }

  /** Characters `String.trim` removes: everything up to and including the space. */
  predicate Blank(c: char)
  {
    c <= ' '
  }

  function TrimStart(s: string): (r: string)
    ensures |r| <= |s| && r == s[|s| - |r|..]
    ensures |r| == 0 || !Blank(r[0])
    ensures forall i :: 0 <= i < |s| - |r| ==> Blank(s[i])
    decreases |s|
  {
    if |s| > 0 && Blank(s[0]) then TrimStart(s[1..]) else s
  }

  function TrimEnd(s: string): (r: string)
    ensures |r| <= |s| && r == s[..|r|]
    ensures |r| == 0 || !Blank(r[|r| - 1])
    ensures forall i :: |r| <= i < |s| ==> Blank(s[i])
    decreases |s|
  {
    if |s| > 0 && Blank(s[|s| - 1]) then TrimEnd(s[..|s| - 1]) else s
  }

  /** `s.trim()`: neither end of the result is blank, and only blanks were cut off. */
  function Trim(s: string): (r: string)
    ensures |r| == 0 || (!Blank(r[0]) && !Blank(r[|r| - 1]))
  {
    TrimEnd(TrimStart(s))
  }

  /** `trim` removes a blank prefix and a blank suffix and keeps what lies between. */
  lemma TrimCuts(s: string) returns (k: nat)
    ensures k + |Trim(s)| <= |s| && Trim(s) == s[k..k + |Trim(s)|]
    ensures forall i :: 0 <= i < k ==> Blank(s[i])
    ensures forall i :: k + |Trim(s)| <= i < |s| ==> Blank(s[i])
  {
    var t := TrimStart(s);
    k := |s| - |t|;
    assert t == s[k..];
  }

  /** `s.replace("/", "\\.")`: each slash becomes a backslash and a dot. */
  function EscapeSlashes(s: string): (r: string)
    ensures '/' !in r
    ensures '/' !in s ==> r == s
    decreases |s|
  {
    if |s| == 0 then ""
    else (if s[0] == '/' then "\\." else [s[0]]) + EscapeSlashes(s[1..])
  }

  /** What one scan path contributes to the include pattern. */
  function Alternative(path: string): string
  {
    EscapeSlashes(Trim(path)) + ".*"
  }

  /** The alternatives of all paths joined with `|`; the empty string for no paths. */
  function IncludeRegExp(paths: seq<string>): (r: string)
    ensures |paths| == 0 <==> r == ""
    decreases |paths|
  {
    if |paths| == 0 then ""
    else if |paths| == 1 then Alternative(paths[0])
    else IncludeRegExp(paths[..|paths| - 1]) + "|" + Alternative(paths[|paths| - 1])
  }

  /** What the loop has built after the given paths: each alternative followed by a `|`. */
  function Terminated(paths: seq<string>): string
    decreases |paths|
  {
    if |paths| == 0 then "" else Terminated(paths[..|paths| - 1]) + Alternative(paths[|paths| - 1]) + "|"
  }

  lemma {:induction false} TerminatedIsJoinPlusBar(paths: seq<string>)
    requires |paths| > 0
    ensures Terminated(paths) == IncludeRegExp(paths) + "|"
    decreases |paths|
  {
    var n := |paths|;
    var init := paths[..n - 1];
    var a := Alternative(paths[n - 1]);
    assert Terminated(paths) == Terminated(init) + a + "|";
    if n > 1 {
      TerminatedIsJoinPlusBar(init);
      var j := IncludeRegExp(init);
      assert IncludeRegExp(paths) == j + "|" + a;
      assert (j + "|") + a + "|" == (j + "|" + a) + "|";
    } else {
      assert init == [];
      assert IncludeRegExp(paths) == a;
      assert "" + a + "|" == a + "|";
    }
  }

  /** `buildIncludeRegExp(scanPaths)`: append each alternative and a `|`, then cut the last `|`. */
  method BuildIncludeRegExp(scanPaths: seq<string>) returns (includeRegExp: string)
    ensures includeRegExp == IncludeRegExp(scanPaths)
  {
    includeRegExp := "";
    for i := 0 to |scanPaths|
      invariant includeRegExp == Terminated(scanPaths[..i])
    {
      assert scanPaths[..i + 1][..i] == scanPaths[..i];
      assert scanPaths[..i + 1][i] == scanPaths[i];
      includeRegExp := includeRegExp + Alternative(scanPaths[i]) + "|";
    }
    assert scanPaths[..|scanPaths|] == scanPaths;
    if |scanPaths| > 0 {
      TerminatedIsJoinPlusBar(scanPaths);
      ghost var joined := IncludeRegExp(scanPaths);
      assert includeRegExp == joined + "|";
      assert (joined + "|")[..|joined|] == joined;
      includeRegExp := includeRegExp[..|includeRegExp| - 1];
    }
  }

  /** A single path gives its own alternative with no `|`. */
  lemma OnePathNoBar(path: string)
    ensures IncludeRegExp([path]) == EscapeSlashes(Trim(path)) + ".*"
  {
  }

  /** Adding a path appends `|` and its alternative. */
  lemma AppendPath(paths: seq<string>, path: string)
    requires |paths| > 0
    ensures IncludeRegExp(paths + [path]) == IncludeRegExp(paths) + "|" + Alternative(path)
  {
    var all := paths + [path];
    assert |all| == |paths| + 1 && |all| > 1;
    assert all[..|all| - 1] == paths;
    assert all[|all| - 1] == path;
  }

  /**
   * The start of `findAnotatedClasses`: rewrite dots to slashes, split on
   * commas and build the include pattern from the pieces.
   */
  method ScanPaths(scanPath: string) returns (scanPaths: seq<string>, includeRegExp: string)
    ensures scanPaths == Split(NormaliseScanPath(scanPath), ',')
    ensures includeRegExp == IncludeRegExp(scanPaths)
  {
    var path := scanPath;
    if '.' in path {
      path := ReplaceChar(path, '.', '/');
    }
    scanPaths := Split(path, ',');
    includeRegExp := BuildIncludeRegExp(scanPaths);
  }

  /** The pieces `split` keeps, joined back with commas, are the string without its trailing commas. */
  lemma SplitKeepsPrefix(s: string, sep: char)
    requires sep in s && |Split(s, sep)| > 0
    ensures Join(Split(s, sep), sep) + Repeat(sep, |Pieces(s, sep)| - |Split(s, sep)|) == s
  {
    var all := Pieces(s, sep);
    var kept := Split(s, sep);
    JoinPieces(s, sep);
    JoinDroppedEmpty(all, |kept|, sep);
  }

  function Repeat(c: char, n: nat): (r: string)
    ensures |r| == n && forall i :: 0 <= i < n ==> r[i] == c
  {
    if n == 0 then "" else [c] + Repeat(c, n - 1)
  }

  lemma {:induction false} JoinDroppedEmpty(pieces: seq<string>, k: nat, sep: char)
    requires 1 <= k <= |pieces|
    requires forall i :: k <= i < |pieces| ==> pieces[i] == ""
    ensures Join(pieces[..k], sep) + Repeat(sep, |pieces| - k) == Join(pieces, sep)
    decreases |pieces|
  {
    if k == |pieces| {
      assert pieces[..k] == pieces;
    } else if k == 1 {
      if |pieces| > 1 {
        JoinDroppedEmpty(pieces[1..], |pieces| - 1, sep);
        assert pieces[1..][..|pieces| - 1] == pieces[1..];
        JoinAllEmpty(pieces[1..], sep);
      }
    } else {
      JoinDroppedEmpty(pieces[1..], k - 1, sep);
      assert pieces[1..][..k - 1] == pieces[..k][1..];
    }
  }

  lemma {:induction false} JoinAllEmpty(pieces: seq<string>, sep: char)
    requires |pieces| >= 1 && forall i :: 0 <= i < |pieces| ==> pieces[i] == ""
    ensures [sep] + Join(pieces, sep) == Repeat(sep, |pieces|)
    decreases |pieces|
  {
    if |pieces| > 1 {
      JoinAllEmpty(pieces[1..], sep);
    }
  }
}
