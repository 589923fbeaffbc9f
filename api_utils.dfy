/**
 * The C plugin helpers of the core's REST API
 * (python/foglamp/services/core/api/utils.py): the search for C plugin
 * libraries and utilities under the installation root, the derivation of a
 * plugin name from its library file name, and the call of the
 * get_plugin_info utility. os.walk is a given listing, the subprocess and
 * the JSON parser are oracles.
 */
module ApiUtils {
  import opened Common
  import opened Json

  /** One triple os.walk yields: a directory, its sub-directories and its files. */
  datatype WalkEntry = WalkEntry(path: string, subdirs: seq<string>, files: seq<string>)

  /**
   * The installation as os.walk sees it: _FOGLAMP_ROOT and the walk of any
   * directory (nothing for a directory that does not exist).
   */
  datatype FileSystem = FileSystem(root: string, walk: string -> seq<WalkEntry>)

  /** os.path.join(a, b) for a relative b. */
  function PathJoin(a: string, b: string): (r: string)
    ensures r == a + b || r == a + "/" + b
    ensures a != [] && a[|a| - 1] != '/' ==> r == a + "/" + b
  {
    if a == [] || a[|a| - 1] == '/' then a + b else a + "/" + b
  }

  /**
   * The name find_c_plugin_libs derives from a library file: every "lib", then
   * every ".so", removed; never longer than the file name.
   */
  function LibName(fname: string): (r: string)
    ensures |r| <= |fname|
  {
    ReplaceAll(ReplaceAll(fname, "lib", ""), ".so", "")
  }

  /** The subtrees searched for one direction: <dir>/<direction> for each directory whose name contains "plugins". */
  function PluginSubtrees(fs: FileSystem, direction: string): (r: seq<string>)
    ensures forall p :: p in r <==>
      exists e, name :: e in fs.walk(fs.root) && name in e.subdirs && Contains(name, "plugins") &&
                        p == PathJoin(e.path, name) + "/" + direction
  {
    FlatMap(fs.walk(fs.root), (e: WalkEntry) =>
      FlatMap(e.subdirs, (name: string) =>
        if Contains(name, "plugins") then [PathJoin(e.path, name) + "/" + direction] else []))
  }

  /**
   * The plugin names of the ".so" files of one directory, in listing order
   * and one per file: the names of a split listing are those of each part.
   */
  function FileLibs(files: seq<string>): (r: seq<string>)
    ensures forall x :: x in r <==> exists f :: f in files && EndsWith(f, ".so") && x == LibName(f)
    ensures |files| == 1 ==> r == (if EndsWith(files[0], ".so") then [LibName(files[0])] else [])
    ensures forall i :: 0 < i < |files| ==> r == FileLibs(files[..i]) + FileLibs(files[i..])
    decreases |files|
  {
    var one := (f: string) => if EndsWith(f, ".so") then [LibName(f)] else [];
    FlatMapSplit(files, one);
    FlatMap(files, one)
  }

  /**
   * The plugin names of the ".so" files in a walk, directory after
   * directory in walk order: one walked directory gives its FileLibs, and
   * the names of a split walk are those of each part.
   */
  function LibsIn(walk: seq<WalkEntry>): (r: seq<string>)
    ensures forall x :: x in r <==> exists e, f :: e in walk && f in e.files && EndsWith(f, ".so") && x == LibName(f)
    ensures |walk| == 1 ==> r == FileLibs(walk[0].files)
    ensures forall i :: 0 < i < |walk| ==> r == LibsIn(walk[..i]) + LibsIn(walk[i..])
    decreases |walk|
  {
    var dir := (e: WalkEntry) => FileLibs(e.files);
    FlatMapSplit(walk, dir);
    FlatMap(walk, dir)
  }

  /** The libraries under a sequence of subtrees, subtree after subtree. */
  function LibsUnder(fs: FileSystem, subtrees: seq<string>): (r: seq<string>)
    ensures forall x :: x in r <==> exists p :: p in subtrees && x in LibsIn(fs.walk(p))
    ensures |subtrees| == 1 ==> r == LibsIn(fs.walk(subtrees[0]))
    ensures forall i :: 0 < i < |subtrees| ==> r == LibsUnder(fs, subtrees[..i]) + LibsUnder(fs, subtrees[i..])
    decreases |subtrees|
  {
    var under := (p: string) => LibsIn(fs.walk(p));
    FlatMapSplit(subtrees, under);
    FlatMap(subtrees, under)
  }

  /**
   * find_c_plugin_libs(direction): the names of the ".so" files found
   * under the searched subtrees, subtree by subtree, with nothing removed:
   * the list splits at every subtree boundary.
   */
  function FindCPluginLibs(fs: FileSystem, direction: string): (r: seq<string>)
    ensures forall x :: x in r <==>
      exists p :: p in PluginSubtrees(fs, direction) && x in LibsIn(fs.walk(p))
    ensures var ps := PluginSubtrees(fs, direction);
      forall i :: 0 < i < |ps| ==> r == LibsUnder(fs, ps[..i]) + LibsUnder(fs, ps[i..])
  {
    LibsUnder(fs, PluginSubtrees(fs, direction))
  }

  /**
   * The duplicates find_c_plugin_libs reports: a library name found under
   * two different searched subtrees (a build tree and its installed copy,
   * say) is listed at least twice.
   */
  lemma FindCPluginLibsDuplicates(fs: FileSystem, direction: string, i: nat, j: nat, x: string)
    requires i < j < |PluginSubtrees(fs, direction)|
    requires x in LibsIn(fs.walk(PluginSubtrees(fs, direction)[i]))
    requires x in LibsIn(fs.walk(PluginSubtrees(fs, direction)[j]))
    ensures multiset(FindCPluginLibs(fs, direction))[x] >= 2
  {
    var ps := PluginSubtrees(fs, direction);
    var before, after := LibsUnder(fs, ps[..j]), LibsUnder(fs, ps[j..]);
    assert FindCPluginLibs(fs, direction) == before + after;
    InLibsUnder(fs, ps[..j], ps[i], x);
    InLibsUnder(fs, ps[j..], ps[j], x);
    InBothHalves(before, after, x);
  }

  /** A value in both halves of a concatenation occurs in it at least twice. */
  lemma InBothHalves(before: seq<string>, after: seq<string>, x: string)
    requires x in before && x in after
    ensures multiset(before + after)[x] >= 2
  {
    assert multiset(before + after) == multiset(before) + multiset(after);
  }

  /** A library found in one of the subtrees is among the libraries under them. */
  lemma InLibsUnder(fs: FileSystem, subtrees: seq<string>, p: string, x: string)
    requires p in subtrees && x in LibsIn(fs.walk(p))
    ensures x in LibsUnder(fs, subtrees)
  {
  }

  /** The (directory, file name) pairs of a walk, in the order os.walk yields them. */
  function Candidates(walk: seq<WalkEntry>): (r: seq<(string, string)>)
    ensures forall c :: c in r <==> exists e :: e in walk && c.0 == e.path && c.1 in e.files
  {
    FlatMap(walk, (e: WalkEntry) => FlatMap(e.files, (f: string) => [(e.path, f)]))
  }

  /** The index of the first candidate whose file name matches. */
  function FirstMatch(cs: seq<(string, string)>, matches: string -> bool): (r: Option<nat>)
    ensures r.None? <==> forall k :: 0 <= k < |cs| ==> !matches(cs[k].1)
    ensures r.Some? ==> r.value < |cs| && matches(cs[r.value].1) &&
                        forall k :: 0 <= k < r.value ==> !matches(cs[k].1)
  {
    if cs == [] then None
    else if matches(cs[0].1) then Some(0)
    else
      var rest := FirstMatch(cs[1..], matches);
      if rest.None? then None else Some(rest.value + 1)
  }

  /**
   * The walk of _FOGLAMP_ROOT, stopped at the first file whose name
   * matches: its path, or None when no file matches.
   */
  function FindFile(fs: FileSystem, matches: string -> bool): (r: Option<string>)
    ensures var cs := Candidates(fs.walk(fs.root));
      (r.None? <==> forall k :: 0 <= k < |cs| ==> !matches(cs[k].1)) &&
      (r.Some? ==> exists k :: 0 <= k < |cs| && matches(cs[k].1) && (forall j :: 0 <= j < k ==> !matches(cs[j].1)) &&
                               r.value == PathJoin(cs[k].0, cs[k].1))
  {
    var cs := Candidates(fs.walk(fs.root));
    var i := FirstMatch(cs, matches);
    if i.None? then None else Some(PathJoin(cs[i.value].0, cs[i.value].1))
  }

  /** _find_c_lib(name): the first file whose name ends with name + ".so". */
  function FindCLib(fs: FileSystem, name: string): (r: Option<string>)
    ensures r.Some? <==> exists c :: c in Candidates(fs.walk(fs.root)) && EndsWith(c.1, name + ".so")
  {
    var r := FindFile(fs, (f: string) => EndsWith(f, name + ".so"));
    assert r.None? ==> forall c :: c in Candidates(fs.walk(fs.root)) ==> !EndsWith(c.1, name + ".so");
    r
  }

  /** _find_c_util(name): the first file named exactly name. */
  function FindCUtil(fs: FileSystem, name: string): (r: Option<string>)
    ensures r.Some? <==> exists c :: c in Candidates(fs.walk(fs.root)) && c.1 == name
  {
    var r := FindFile(fs, (f: string) => f == name);
    assert r.None? ==> forall c :: c in Candidates(fs.walk(fs.root)) ==> c.1 != name;
    r
  }

  /**
   * What running "<utility> <library> plugin_info" writes on stdout, decoded;
   * None when the process cannot be started or its output is not UTF-8.
   */
  type Runner = (string, string) -> Option<string>
  /** json.loads: None when the text is not JSON. */
  type Parser = string -> Option<Json>

  const EmptyDict := JObject([])

  /**
   * get_plugin_info(name): the parsed output of the get_plugin_info utility
   * run on the plugin's library; {} when the utility or the library is not
   * found, the process fails, or the output does not parse.
   */
  function GetPluginInfo(fs: FileSystem, run: Runner, parse: Parser, name: string): (r: Json)
    ensures FindCUtil(fs, "get_plugin_info").None? || FindCLib(fs, name).None? ==> r == EmptyDict
    ensures var util := FindCUtil(fs, "get_plugin_info");
      var lib := FindCLib(fs, name);
      util.Some? && lib.Some? ==>
        var out := run(util.value, lib.value);
        (out.None? ==> r == EmptyDict) &&
        (out.Some? && parse(out.value).None? ==> r == EmptyDict) &&
        (out.Some? && parse(out.value).Some? ==> r == parse(out.value).value)
    ensures r != EmptyDict ==>
      var util := FindCUtil(fs, "get_plugin_info");
      var lib := FindCLib(fs, name);
      util.Some? && lib.Some? && run(util.value, lib.value).Some? &&
      parse(run(util.value, lib.value).value) == Some(r)
  {
    var util := FindCUtil(fs, "get_plugin_info");
    var lib := FindCLib(fs, name);
    // Popen with None among its arguments raises TypeError, which is caught.
    if util.None? || lib.None? then EmptyDict
    else
      var out := run(util.value, lib.value);
      if out.None? then EmptyDict
      else
        var jdoc := parse(out.value);
        if jdoc.None? then EmptyDict else jdoc.value
  }

  /**
   * A library file "lib<stem>.so" gives the plugin name stem, when the stem
   * adds no further "lib" or ".so" (libdummy.so gives dummy).
   */
  lemma LibNameOfLibrary(stem: string)
    requires !Contains(stem + ".so", "lib") && !Contains(stem, ".so")
    ensures LibName("lib" + stem + ".so") == stem
  {
    var s := "lib" + stem + ".so";
    assert s[..3] == "lib" && s[3..] == stem + ".so";
    assert ReplaceAll(s, "lib", "") == ReplaceAll(stem + ".so", "lib", "");
    ContainsIffMatch(stem + ".so", "lib");
    ReplaceAllNoMatch(stem + ".so", "lib", "");
    ContainsIffMatch(stem, ".so");
    ReplaceAllSuffix(stem, ".so");
  }

  /** str.replace leaves a string without the pattern as it is. */
  lemma {:induction false} ReplaceAllNoMatch(s: string, pat: string, rep: string)
    requires pat != [] && forall i :: !MatchesAt(s, pat, i)
    ensures ReplaceAll(s, pat, rep) == s
    decreases |s|
  {
    if |s| >= |pat| {
      assert s[..|pat|] != pat by { assert !MatchesAt(s, pat, 0); }
      NoMatchInTail(s, pat);
      ReplaceAllNoMatch(s[1..], pat, rep);
      assert s == [s[0]] + s[1..];
    }
  }

  /** A text where the pattern never occurs keeps that property without its first character. */
  lemma NoMatchInTail(s: string, pat: string)
    requires s != [] && forall i :: !MatchesAt(s, pat, i)
    ensures forall i :: !MatchesAt(s[1..], pat, i)
  {
    forall i
      ensures !MatchesAt(s[1..], pat, i)
    {
      assert !MatchesAt(s, pat, i + 1);
      if 0 <= i && i + |pat| <= |s| - 1 {
        assert s[1..][i..i + |pat|] == s[i + 1..i + 1 + |pat|];
      }
    }
  }

  /** A stem without ".so", followed by ".so", does not start with ".so" unless the stem is empty. */
  lemma SuffixNotAtStart(stem: string, pat: string)
    requires pat == ".so" && stem != [] && forall i :: !MatchesAt(stem, pat, i)
    ensures (stem + pat)[..|pat|] != pat
  {
    var s := stem + pat;
    if |stem| >= |pat| {
      assert s[..|pat|] == stem[..|pat|];
      assert !MatchesAt(stem, pat, 0);
    } else {
      // The '.' that starts the suffix would have to match the 's' or the 'o' of the pattern.
      assert s[|stem|] == '.';
      assert s[..|pat|][|stem|] == '.';
      assert pat[|stem|] != '.';
    }
  }

  /** Removing ".so" from a stem without it, followed by ".so", gives the stem. */
  lemma {:induction false} ReplaceAllSuffix(stem: string, pat: string)
    requires pat == ".so" && forall i :: !MatchesAt(stem, pat, i)
    ensures ReplaceAll(stem + pat, pat, "") == stem
    decreases |stem|
  {
    var s := stem + pat;
    if stem == [] {
      assert s[..|pat|] == pat && s[|pat|..] == [];
    } else {
      SuffixNotAtStart(stem, pat);
      NoMatchInTail(stem, pat);
      ReplaceAllSuffix(stem[1..], pat);
      assert s[1..] == stem[1..] + pat;
      assert stem == [stem[0]] + stem[1..];
    }
  }
}
