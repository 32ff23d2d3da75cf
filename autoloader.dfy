/**
 * The class autoloader (includes/wc-taxify-autoloader.php). The file
 * system is the set of readable paths; `require_once` appends a path to the
 * list of loaded files the first time it is required.
 */
module Autoloader {
  import opened Php

  /** The class name lower-cased, `_` replaced by `-`, plus `.php`. */
  function FileNameFromClass(className: string): (r: string)
  {
    SlugChars(className) + ".php"
  }

  /** `str_replace( '_', '-', strtolower( $class ) )`. */
  function SlugChars(s: string): (r: string)
    ensures |r| == |s|
    ensures forall i :: 0 <= i < |s| ==> r[i] == (if s[i] == '_' then '-' else LowerChar(s[i]))
  {
    if |s| == 0 then "" else [if s[0] == '_' then '-' else LowerChar(s[0])] + SlugChars(s[1..])
  }

  /** The file name keeps one character per class-name character, with no `_` and no capital left. */
  lemma FileNameShape(className: string)
    ensures |FileNameFromClass(className)| == |className| + 4
    ensures FileNameFromClass(className)[|className|..] == ".php"
    ensures forall i :: 0 <= i < |className| ==>
      FileNameFromClass(className)[i] != '_' && !('A' <= FileNameFromClass(className)[i] <= 'Z')
  {
    var r := FileNameFromClass(className);
    forall i | 0 <= i < |className|
      ensures r[i] != '_' && !('A' <= r[i] <= 'Z')
    {
      assert r[i] == SlugChars(className)[i];
    }
  }

  /** `strpos( $class_name, 'WC_Taxify_' ) === 0`. */
  predicate OwnClass(className: string)
  {
    |className| >= 10 && className[..10] == "WC_Taxify_"
  }

  /** The three directories the autoloader tries, in order. */
  function CandidatePaths(pluginPath: string, file: string): (r: seq<string>)
    ensures |r| == 3
  {
    [pluginPath + "/includes/" + file, pluginPath + "/includes/admin/" + file,
     pluginPath + "/includes/data-stores/" + file]
  }

  /** `$path && is_readable( $path )`. */
  predicate Loadable(readable: set<string>, path: string)
  {
    !EmptyStr(path) && path in readable
  }

  /** The loaded-file list after `require_once` of each loadable path in turn. */
  function RequireAll(readable: set<string>, loaded: seq<string>, paths: seq<string>): (r: seq<string>)
    ensures forall p :: p in loaded ==> p in r
    ensures forall p :: p in r ==> p in loaded || (p in paths && Loadable(readable, p))
  {
    if |paths| == 0 then loaded
    else
      var rest := RequireAll(readable, loaded, paths[..|paths| - 1]);
      var p := paths[|paths| - 1];
      if Loadable(readable, p) && p !in rest then rest + [p] else rest
  }

  /** Every loadable candidate ends up loaded: the loop does not stop at the first. */
  lemma {:induction false} RequireAllLoadsEvery(readable: set<string>, loaded: seq<string>, paths: seq<string>, p: string)
    requires p in paths && Loadable(readable, p)
    ensures p in RequireAll(readable, loaded, paths)
  {
    var q := paths[|paths| - 1];
    if p != q {
      assert p in paths[..|paths| - 1] by {
        var i :| 0 <= i < |paths| && paths[i] == p;
        assert i < |paths| - 1;
        assert paths[..|paths| - 1][i] == p;
      }
      RequireAllLoadsEvery(readable, loaded, paths[..|paths| - 1], p);
    }
  }

  class Loader {
    const pluginPath: string
    const readable: set<string>
    var loaded: seq<string>

    constructor(pluginPath: string, readable: set<string>)
      ensures this.pluginPath == pluginPath && this.readable == readable && loaded == []
    {
      this.pluginPath := pluginPath;
      this.readable := readable;
      loaded := [];
    }

    /** load_file: requires a non-empty readable path and reports whether it could. */
    method LoadFile(path: string) returns (ok: bool)
      modifies this
      ensures ok <==> Loadable(readable, path)
      ensures loaded == RequireAll(readable, old(loaded), [path])
    {
      ok := false;
      if !EmptyStr(path) && path in readable {
        if path !in loaded {
          loaded := loaded + [path];
        }
        ok := true;
      }
    }

    /**
     * autoload: nothing for a class outside the plugin's prefix; otherwise
     * every loadable candidate path is required, in directory order.
     */
    method Autoload(className: string)
      modifies this
      ensures !OwnClass(className) ==> loaded == old(loaded)
      ensures OwnClass(className) ==>
        loaded == RequireAll(readable, old(loaded), CandidatePaths(pluginPath, FileNameFromClass(className)))
    {
      if !OwnClass(className) {
        return;
      }
      var file := FileNameFromClass(className);
      var paths := CandidatePaths(pluginPath, file);
      var i := 0;
      while i < |paths|
        invariant 0 <= i <= |paths|
        invariant loaded == RequireAll(readable, old(loaded), paths[..i])
      {
        var _ := LoadFile(paths[i]);
        assert paths[..i + 1][..i] == paths[..i];
        i := i + 1;
      }
      assert paths[..|paths|] == paths;
    }
  }
}
