/**
 parentPath, filenameFromPath and removePrefix of Linux/utils/utils.cpp.  parentPath scans a path
 backwards and never looks at tokens; here it is shown to agree with tokenizeString about what the
 components of a path are.
 */
module Paths {
  import opened Wrappers
  import opened Tokens
  import FileTree
  import Listings

  const SLASH := "/"

  /** The components of a path: its tokens between slashes, empty ones ignored. */
  function Components(p: string): seq<string> { NonEmpty(Split(p, SLASH)) }

  // ----- parentPath -----

  /** find_last_of and find_last_not_of "/" at or before `from`; None stands for npos. */
  function LastSlash(p: string, from: nat): (r: Option<nat>)
    requires from < |p|
    ensures r.Some? ==> r.value <= from && p[r.value] == '/' && Clean(p[r.value + 1..from + 1], SLASH)
    ensures r.None? ==> Clean(p[..from + 1], SLASH)
  {
    if p[from] == '/' then Some(from)
    else if from == 0 then None
    else
      var r := LastSlash(p, from - 1);
      assert r.Some? ==> p[r.value + 1..from + 1] == p[r.value + 1..from] + [p[from]];
      r
  }

  function LastNonSlash(p: string, from: nat): (r: Option<nat>)
    requires from < |p|
    ensures r.Some? ==> r.value <= from && p[r.value] != '/' && Slashes(p[r.value + 1..from + 1])
    ensures r.None? ==> Slashes(p[..from + 1])
  {
    if p[from] != '/' then Some(from)
    else if from == 0 then None
    else
      var r := LastNonSlash(p, from - 1);
      assert r.Some? ==> p[r.value + 1..from + 1] == p[r.value + 1..from] + [p[from]];
      r
  }

  predicate Slashes(p: string) {
    forall i :: 0 <= i < |p| ==> p[i] == '/'
  }

  predicate EndsInSlash(p: string) { p != "" && p[|p| - 1] == '/' }

  /** The path without its trailing slashes. */
  function TrimSlashes(p: string): string {
    if EndsInSlash(p) then TrimSlashes(p[..|p| - 1]) else p
  }

  /** The path without its trailing stretch of characters other than slashes. */
  function TrimName(p: string): string {
    if p != "" && p[|p| - 1] != '/' then TrimName(p[..|p| - 1]) else p
  }

  function ParentOf(p: string): string { TrimSlashes(TrimName(TrimSlashes(p))) }

  lemma {:induction false} TrimSlashesFits(p: string)
    ensures !EndsInSlash(TrimSlashes(p)) && TrimSlashes(p) <= p && Slashes(p[|TrimSlashes(p)|..])
  {
    if EndsInSlash(p) {
      var front, r := p[..|p| - 1], TrimSlashes(p);
      TrimSlashesFits(front);
      assert p[|r|..] == front[|r|..] + [p[|p| - 1]];
    }
  }

  lemma {:induction false} TrimNameFits(p: string)
    ensures (TrimName(p) == "" || EndsInSlash(TrimName(p))) && TrimName(p) <= p && Clean(p[|TrimName(p)|..], SLASH)
  {
    if p != "" && p[|p| - 1] != '/' {
      var front, r := p[..|p| - 1], TrimName(p);
      TrimNameFits(front);
      assert p[|r|..] == front[|r|..] + [p[|p| - 1]];
    }
  }

  lemma {:induction false} TrimSlashesUnique(p: string, q: string)
    requires q <= p && !EndsInSlash(q) && Slashes(p[|q|..])
    ensures TrimSlashes(p) == q
  {
    assert |q| < |p| ==> p[|q|..][|p| - 1 - |q|] == p[|p| - 1];
    if EndsInSlash(p) {
      TrimSlashesUnique(p[..|p| - 1], q);
    }
  }

  lemma {:induction false} TrimNameUnique(p: string, q: string)
    requires q <= p && (q == "" || EndsInSlash(q)) && Clean(p[|q|..], SLASH)
    ensures TrimName(p) == q
  {
    assert |q| < |p| ==> p[|q|..][|p| - 1 - |q|] == p[|p| - 1];
    if p != "" && p[|p| - 1] != '/' {
      TrimNameUnique(p[..|p| - 1], q);
    }
  }

  lemma AllSlashes(p: string)
    requires Slashes(p)
    ensures TrimSlashes(p) == ""
  {
    TrimSlashesUnique(p, "");
  }

  lemma AllName(p: string)
    requires Clean(p, SLASH)
    ensures TrimName(p) == ""
  {
    TrimNameUnique(p, "");
  }

  /** The path up to and including the position found; "" for npos. */
  function Upto(p: string, r: Option<nat>): string {
    if r.None? || r.value >= |p| then "" else p[..r.value + 1]
  }

  lemma FrontOfFront(p: string, i: nat, j: nat)
    requires i <= j <= |p|
    ensures p[..i] <= p[..j] && p[..j][|p[..i]|..] == p[i..j]
  {
  }

  lemma FrontEndsInSlash(p: string, i: nat)
    requires i < |p| && p[i] == '/'
    ensures EndsInSlash(p[..i + 1])
  {
  }

  /** What the first and third scans of parentPath find. */
  lemma TrimSlashesByScan(p: string, end: nat)
    requires end < |p|
    ensures TrimSlashes(Upto(p, Some(end))) == Upto(p, LastNonSlash(p, end))
  {
    var r := LastNonSlash(p, end);
    if r.None? {
      AllSlashes(p[..end + 1]);
    } else {
      FrontOfFront(p, r.value + 1, end + 1);
      TrimSlashesUnique(p[..end + 1], p[..r.value + 1]);
    }
  }

  /** What the second scan finds. */
  lemma TrimNameByScan(p: string, end: nat)
    requires end < |p|
    ensures TrimName(Upto(p, Some(end))) == Upto(p, LastSlash(p, end))
  {
    var r := LastSlash(p, end);
    if r.None? {
      AllName(p[..end + 1]);
    } else {
      FrontEndsInSlash(p, r.value);
      FrontOfFront(p, r.value + 1, end + 1);
      TrimNameUnique(p[..end + 1], p[..r.value + 1]);
    }
  }

  lemma NothingToTrim()
    ensures TrimSlashes("") == "" && TrimName("") == ""
  {
  }

  lemma WholePath(p: string)
    requires p != ""
    ensures Upto(p, Some(|p| - 1)) == p
  {
  }

  /** Three scans from the end; None means that a scan ran off the front. */
  method ParentPath(path: string) returns (parent: string)
    ensures parent == ParentOf(path)
  {
    NothingToTrim();
    if path == "" {
      return "";
    }
    WholePath(path);
    var start := LastNonSlash(path, |path| - 1);
    TrimSlashesByScan(path, |path| - 1);
    if start.None? {
      return "";
    }
    TrimNameByScan(path, start.value);
    start := LastSlash(path, start.value);
    if start.None? {
      return "";
    }
    TrimSlashesByScan(path, start.value);
    start := LastNonSlash(path, start.value);
    if start.None? {
      return "";
    }
    return path[..start.value + 1];
  }

  // ----- The two algorithms agree -----

  /** A slash separates components wherever it stands. */
  lemma ComponentsAtSlash(a: string, b: string)
    ensures Components(a + SLASH + b) == Components(a) + Components(b)
  {
    SplitAtDelimiter(a, '/', b, SLASH);
    NonEmptyAppend(Split(a, SLASH), Split(b, SLASH));
  }

  lemma ComponentsOfName(name: string)
    requires Clean(name, SLASH)
    ensures Components(name) == if name == "" then [] else [name]
  {
    SplitClean(name, SLASH);
    NonEmptyOne(name);
  }

  lemma {:induction false} TrimSlashesKeepsComponents(p: string)
    ensures Components(TrimSlashes(p)) == Components(p)
  {
    if EndsInSlash(p) {
      assert p == p[..|p| - 1] + SLASH + "";
      ComponentsAtSlash(p[..|p| - 1], "");
      ComponentsOfName("");
      TrimSlashesKeepsComponents(p[..|p| - 1]);
    }
  }

  lemma ComponentsAdd(dir: string, name: string)
    requires name != "" && Clean(name, SLASH) && (dir == "" || EndsInSlash(dir))
    ensures Components(dir + name) == Components(dir) + [name]
  {
    ComponentsOfName(name);
    ComponentsOfName("");
    if dir == "" {
      assert dir + name == name;
    } else {
      var front := dir[..|dir| - 1];
      assert dir + name == front + SLASH + name && dir == front + SLASH + "";
      ComponentsAtSlash(front, name);
      ComponentsAtSlash(front, "");
    }
  }

  /** A path that does not end in a slash is its directory part followed by its last component. */
  lemma LastComponent(q: string)
    requires q != "" && !EndsInSlash(q)
    ensures TrimName(q) <= q && Components(q) == Components(TrimName(q)) + [q[|TrimName(q)|..]]
  {
    TrimNameFits(q);
    var dir, name := TrimName(q), q[|TrimName(q)|..];
    assert q == dir + name;
    ComponentsAdd(dir, name);
  }

  /** The components of the parent path are those of the path without the last one. */
  lemma ParentDropsLastComponent(p: string)
    ensures
      Components(ParentOf(p))
      == if Components(p) == [] then [] else Components(p)[..|Components(p)| - 1]
  {
    var q := TrimSlashes(p);
    TrimSlashesFits(p);
    TrimSlashesKeepsComponents(p);
    TrimSlashesKeepsComponents(TrimName(q));
    if q == "" {
      ComponentsOfName("");
    } else {
      LastComponent(q);
    }
  }

  /**
   The parent is pinned down: q is the parent of p exactly if p is q, then slashes, then a name, then slashes,
   where q does not end in a slash, and only an empty q can do without slashes after it; a path of nothing but
   slashes has the empty parent.
   */
  ghost predicate HasParent(p: string, q: string, a: string, name: string, b: string) {
    && p == q + a + name + b && Slashes(a) && Slashes(b) && Clean(name, SLASH)
    && (name == "" ==> q == "") && (a == "" ==> q == "") && !EndsInSlash(q)
  }

  lemma ParentFits(p: string) returns (a: string, name: string, b: string)
    ensures HasParent(p, ParentOf(p), a, name, b)
  {
    var t := TrimSlashes(p);
    var d := TrimName(t);
    var q := TrimSlashes(d);
    TrimSlashesFits(p);
    TrimNameFits(t);
    TrimSlashesFits(d);
    a, name, b := d[|q|..], t[|d|..], p[|t|..];
    assert d == q + a && t == d + name && p == t + b;
  }

  lemma ParentIsUnique(p: string, q: string, a: string, name: string, b: string)
    requires HasParent(p, q, a, name, b)
    ensures q == ParentOf(p)
  {
    var d := q + a;
    if name == "" {
      assert p == a + b && Slashes(p);
      AllSlashes(p);
    } else {
      var t := d + name;
      assert t[|d|..] == name && d[|q|..] == a && p[|t|..] == b;
      assert t[|t| - 1] == name[|name| - 1];
      TrimSlashesUnique(p, t);
      assert d == "" || d[|d| - 1] == a[|a| - 1];
      TrimNameUnique(t, d);
      TrimSlashesUnique(d, q);
    }
  }

  lemma ParentIff(p: string, q: string)
    ensures q == ParentOf(p) <==> exists a, name, b :: HasParent(p, q, a, name, b)
  {
    var a, name, b := ParentFits(p);
    if exists a, name, b :: HasParent(p, q, a, name, b) {
      var a', name', b' :| HasParent(p, q, a', name', b');
      ParentIsUnique(p, q, a', name', b');
    }
  }

  function Ancestor(p: string, k: nat): string {
    if k == 0 then p else ParentOf(Ancestor(p, k - 1))
  }

  lemma NoComponents(q: string)
    requires Components(q) == [] && !EndsInSlash(q)
    ensures q == ""
  {
    if q != "" {
      LastComponent(q);
    }
  }

  /** Going up drops one component at a time. */
  lemma {:induction false} AncestorComponents(p: string, k: nat)
    requires k <= |Components(p)|
    ensures Components(Ancestor(p, k)) == Components(p)[..|Components(p)| - k]
  {
    if k > 0 {
      AncestorComponents(p, k - 1);
      ParentDropsLastComponent(Ancestor(p, k - 1));
    }
  }

  /** A path of n >= 1 components has n ancestors: the n-th is the empty string and no earlier one is. */
  lemma EmptyAfterAllComponents(p: string, k: nat)
    requires 1 <= k <= |Components(p)|
    ensures Ancestor(p, k) == "" <==> k == |Components(p)|
  {
    AncestorComponents(p, k);
    TrimSlashesFits(TrimName(TrimSlashes(Ancestor(p, k - 1))));
    if k == |Components(p)| {
      NoComponents(Ancestor(p, k));
    } else {
      ComponentsOfName("");
    }
  }

  /** Trailing slashes do not change the parent. */
  lemma ParentIgnoresTrailingSlashes(p: string, slashes: string)
    requires Slashes(slashes)
    ensures ParentOf(p + slashes) == ParentOf(p)
  {
    var q := TrimSlashes(p);
    TrimSlashesFits(p);
    assert p == q + p[|q|..];
    assert (p + slashes)[|q|..] == p[|q|..] + slashes;
    TrimSlashesUnique(p + slashes, q);
  }

  // ----- filenameFromPath -----

  function FileName(p: string): string {
    var tokens := Split(p, SLASH);
    tokens[|tokens| - 1]
  }

  /** The name up to its last dot; all of it if there is none. */
  function Stem(name: string): string {
    var i := LastDot(name, |name|);
    if i.None? then name else name[..i.value]
  }

  /** find_last_of '.' before `end`. */
  function LastDot(name: string, end: nat): (r: Option<nat>)
    requires end <= |name|
    ensures r.Some? ==> r.value < end && name[r.value] == '.' && forall i :: r.value < i < end ==> name[i] != '.'
    ensures r.None? ==> forall i :: 0 <= i < end ==> name[i] != '.'
  {
    if end == 0 then None
    else if name[end - 1] == '.' then Some(end - 1)
    else LastDot(name, end - 1)
  }

  method FilenameFromPath(path: string, includeExtension: bool) returns (name: string)
    ensures name == if includeExtension then FileName(path) else Stem(FileName(path))
  {
    var tokens := TokenizeString(path, [], SLASH, false);
    var filename := tokens[|tokens| - 1];
    if includeExtension {
      return filename;
    }
    var dot := LastDot(filename, |filename|);
    return if dot.None? then filename else filename[..dot.value];
  }

  /** The file name is what follows the last slash. */
  lemma FileNameIsRest(p: string)
    ensures p == TrimName(p) + FileName(p)
  {
    TrimNameFits(p);
    var dir, name := TrimName(p), p[|TrimName(p)|..];
    SplitClean(name, SLASH);
    if dir == "" {
      assert p == name;
    } else {
      var front := dir[..|dir| - 1];
      assert p == front + SLASH + name;
      SplitAtDelimiter(front, '/', name, SLASH);
    }
  }

  /** Whatever directory it is in, a name without slashes is its own file name. */
  lemma FileNameDropsDirectory(dir: string, name: string)
    requires Clean(name, SLASH) && (dir == "" || EndsInSlash(dir))
    ensures FileName(dir + name) == name
  {
    assert (dir + name)[|dir|..] == name;
    TrimNameUnique(dir + name, dir);
    FileNameIsRest(dir + name);
  }

  /** Only the last extension is dropped, with its dot. */
  lemma StemDropsExtension(stem: string, extension: string)
    requires '.' !in extension
    ensures Stem(stem + "." + extension) == stem
  {
    var name := stem + "." + extension;
    assert name[|stem|] == '.';
    assert forall i :: |stem| < i < |name| ==> name[i] == extension[i - |stem| - 1];
    assert name[..|stem|] == stem;
  }

  /** What is dropped is the last dot and what follows it; without a dot nothing is dropped. */
  lemma StemAndExtension(name: string)
    ensures '.' !in name <==> Stem(name) == name
    ensures '.' in name ==> exists extension :: '.' !in extension && name == Stem(name) + "." + extension
  {
    var i := LastDot(name, |name|);
    if i.Some? {
      var extension := name[i.value + 1..];
      assert name[i.value] in name && '.' !in extension;
      assert name == Stem(name) + "." + extension;
    }
  }

  /** A path is its parent, a run of slashes (empty exactly if it has none) and its file name. */
  lemma PathDecomposition(p: string) returns (slashes: string)
    requires p != "" && !EndsInSlash(p)
    ensures p == ParentOf(p) + slashes + FileName(p) && Slashes(slashes)
    ensures slashes == "" <==> '/' !in p
  {
    var dir := TrimName(p);
    TrimSlashesUnique(p, p);
    TrimNameFits(p);
    TrimSlashesFits(dir);
    FileNameIsRest(p);
    slashes := dir[|ParentOf(p)|..];
    if dir == "" {
      assert p == FileName(p) == p[0..];
      assert forall i :: 0 <= i < |p| ==> p[i] !in SLASH;
    } else {
      assert p[|dir| - 1] == '/';
    }
  }

  // ----- Paths built by the scan -----

  /**
   traverse_dir_ glues a name to the directory path as it is.  The result names an entry of that
   directory exactly if the path is empty or ends in a slash; otherwise the name runs into the last
   component.
   */
  lemma NameIsAppendedIffSlash(dir: string, name: string)
    requires name != "" && Clean(name, SLASH)
    ensures Components(dir + name) == Components(dir) + [name] <==> dir == "" || EndsInSlash(dir)
  {
    ComponentsOfName(name);
    ComponentsOfName("");
    if dir == "" {
      assert dir + name == name;
    } else if EndsInSlash(dir) {
      ComponentsAdd(dir, name);
    } else {
      NameRunsIntoComponent(dir, name);
    }
  }

  lemma NameRunsIntoComponent(dir: string, name: string)
    requires name != "" && Clean(name, SLASH) && dir != "" && !EndsInSlash(dir)
    ensures |Components(dir + name)| == |Components(dir)|
  {
    var up := TrimName(dir);
    TrimNameFits(dir);
    LastComponent(dir);
    assert (dir + name)[|up|..] == dir[|up|..] + name;
    TrimNameUnique(dir + name, up);
    LastComponent(dir + name);
  }

  // ----- removePrefix -----

  /** The prefix is cut off if it is there; compare(0, size, prefix) == 0 asks whether it is. */
  function RemovePrefix(prefix: string, value: string): string {
    if FileTree.HasPrefix(value, prefix) then value[|prefix|..] else value
  }

  /** Of a value that begins with the prefix the rest is left; any other value is returned as it is. */
  lemma RemovePrefixCuts(prefix: string, value: string)
    ensures forall rest :: value == prefix + rest ==> RemovePrefix(prefix, value) == rest
    ensures (forall rest :: value != prefix + rest) ==> RemovePrefix(prefix, value) == value
  {
    Listings.HasPrefixMeans(value, prefix);
    assert forall rest :: value == prefix + rest ==> value[|prefix|..] == rest;
  }

  /** Putting the prefix back restores the value exactly if the value begins with it. */
  lemma RemovePrefixUndone(prefix: string, value: string)
    ensures prefix + RemovePrefix(prefix, value) == value <==> exists rest :: value == prefix + rest
  {
    RemovePrefixCuts(prefix, value);
  }
}
