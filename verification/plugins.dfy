/** The plugin registry and the plugin base classes of plugins/plugin_utils.py: which plugin
    directories are registered, and which family tag a plugin carries. */
module Plugins {
  import opened Common

  /** Where a plugin keeps its model files. */
  const ModelDir: string := "./src/meetingcam/models"

  /** A name hidden from the registry: it starts with "." or with "__". */
  predicate Hidden(name: string)
  {
    (|name| >= 1 && name[..1] == ".") || (|name| >= 2 && name[..2] == "__")
  }

  /** An entry of the plugin directory listing: its name and whether it is a directory. */
  datatype Entry = Entry(name: string, isDir: bool)

  /** The names of the directories among the entries, in listing order. */
  function DirNames(entries: seq<Entry>): (r: seq<string>)
    ensures |r| <= |entries|
    ensures forall x :: x in r <==> exists e :: e in entries && e.isDir && e.name == x
  {
    if entries == [] then []
    else if entries[0].isDir then [entries[0].name] + DirNames(entries[1..])
    else DirNames(entries[1..])
  }

  /** Listing order is kept: the names of two listings joined are those of the first, then
      those of the second, and one entry contributes its name iff it is a directory. */
  lemma {:induction false} DirNamesConcat(a: seq<Entry>, b: seq<Entry>)
    ensures DirNames(a + b) == DirNames(a) + DirNames(b)
    ensures forall e :: DirNames([e]) == if e.isDir then [e.name] else []
    decreases |a|
  {
    if a == [] {
      assert a + b == b;
    } else {
      assert (a + b)[0] == a[0] && (a + b)[1..] == a[1..] + b;
      DirNamesConcat(a[1..], b);
    }
    forall e
      ensures DirNames([e]) == if e.isDir then [e.name] else []
    {
      assert [e][1..] == [];
    }
  }

  /** `list.remove(x)`: delete the first occurrence of `x`, if any. */
  function RemoveFirst(s: seq<string>, x: string): (r: seq<string>)
    ensures x !in s ==> r == s
    ensures x in s ==> |r| == |s| - 1
  {
    if s == [] then []
    else
      assert s == [s[0]] + s[1..];
      if s[0] == x then s[1..] else [s[0]] + RemoveFirst(s[1..], x)
  }

  /** The `for d in dirs` loop of `_sortout` from list position `i` on. A `for` over a Python
      list reads `dirs[i]` and then moves to `i + 1`, so after a removal the element that slid
      into position `i` is never visited. */
  function Sweep(s: seq<string>, i: nat): seq<string>
    decreases |s| - i
  {
    if i >= |s| then s
    else if Hidden(s[i]) then Sweep(RemoveFirst(s, s[i]), i + 1)
    else Sweep(s, i + 1)
  }

  /** The names without hidden ones, order kept. */
  function Visible(s: seq<string>): (r: seq<string>)
    ensures forall x :: x in r <==> x in s && !Hidden(x)
  {
    if s == [] then []
    else if Hidden(s[0]) then Visible(s[1..])
    else [s[0]] + Visible(s[1..])
  }

  /** `a` is `b` with some elements deleted, order kept. */
  predicate Subsequence(a: seq<string>, b: seq<string>)
    decreases |b|
  {
    a == [] || (b != [] && ((a[0] == b[0] && Subsequence(a[1..], b[1..])) || Subsequence(a, b[1..])))
  }

  lemma {:induction false} SubsequenceRefl(a: seq<string>)
    ensures Subsequence(a, a)
    decreases |a|
  {
    if a != [] {
      SubsequenceRefl(a[1..]);
    }
  }

  lemma {:induction false} SubsequenceTrans(a: seq<string>, b: seq<string>, c: seq<string>)
    requires Subsequence(a, b) && Subsequence(b, c)
    ensures Subsequence(a, c)
    decreases |c|
  {
    if a != [] {
      assert b != [] && c != [];
      if b[0] == c[0] && Subsequence(b[1..], c[1..]) {
        if a[0] == b[0] && Subsequence(a[1..], b[1..]) {
          SubsequenceTrans(a[1..], b[1..], c[1..]);
        } else {
          SubsequenceTrans(a, b[1..], c[1..]);
        }
      } else {
        SubsequenceTrans(a, b, c[1..]);
      }
    }
  }

  lemma {:induction false} RemoveFirstSubsequence(s: seq<string>, x: string)
    ensures Subsequence(RemoveFirst(s, x), s)
    decreases |s|
  {
    if s != [] {
      if s[0] == x {
        SubsequenceRefl(s[1..]);
      } else {
        RemoveFirstSubsequence(s[1..], x);
      }
    }
  }

  /** Deleting a hidden name leaves the visible names as they were. */
  lemma {:induction false} RemoveFirstVisible(s: seq<string>, x: string)
    requires Hidden(x)
    ensures Visible(RemoveFirst(s, x)) == Visible(s)
    decreases |s|
  {
    if s != [] && s[0] != x {
      RemoveFirstVisible(s[1..], x);
      assert RemoveFirst(s, x)[1..] == RemoveFirst(s[1..], x);
    }
  }

  /** `_sortout` only deletes: what it keeps is a subsequence of what it was given. */
  lemma {:induction false} SweepSubsequence(s: seq<string>, i: nat)
    ensures Subsequence(Sweep(s, i), s)
    decreases |s| - i
  {
    if i >= |s| {
      SubsequenceRefl(s);
    } else if Hidden(s[i]) {
      SweepSubsequence(RemoveFirst(s, s[i]), i + 1);
      RemoveFirstSubsequence(s, s[i]);
      SubsequenceTrans(Sweep(s, i), RemoveFirst(s, s[i]), s);
    } else {
      SweepSubsequence(s, i + 1);
    }
  }

  /** `_sortout` keeps every visible name, in order, including names with one leading "_". */
  lemma {:induction false} SweepKeepsVisible(s: seq<string>, i: nat)
    ensures Visible(Sweep(s, i)) == Visible(s)
    decreases |s| - i
  {
    if i < |s| {
      if Hidden(s[i]) {
        SweepKeepsVisible(RemoveFirst(s, s[i]), i + 1);
        RemoveFirstVisible(s, s[i]);
      } else {
        SweepKeepsVisible(s, i + 1);
      }
    }
  }

  predicate Distinct(s: seq<string>)
  {
    forall a, b :: 0 <= a < b < |s| ==> s[a] != s[b]
  }

  /** The skip effect stated directly: a removed hidden name lets its successor through
      unexamined. */
  function Skipping(s: seq<string>): (r: seq<string>)
    decreases |s|
  {
    if s == [] then []
    else if !Hidden(s[0]) then [s[0]] + Skipping(s[1..])
    else if |s| == 1 then []
    else [s[1]] + Skipping(s[2..])
  }

  /** For a listing without repeated names (a directory listing), the sweep from position
      `i` keeps the visited prefix and skips as `Skipping` says on the rest. */
  lemma {:induction false} SweepIsSkipping(s: seq<string>, i: nat)
    requires Distinct(s) && i <= |s|
    ensures Sweep(s, i) == s[..i] + Skipping(s[i..])
    decreases |s| - i, 1
  {
    if i == |s| {
      assert s[..i] == s;
    } else if Hidden(s[i]) {
      SweepHiddenStep(s, i);
    } else {
      SweepVisibleStep(s, i);
    }
  }

  /** The step of `SweepIsSkipping` at a hidden name: it is deleted and its successor passed. */
  lemma {:induction false} SweepHiddenStep(s: seq<string>, i: nat)
    requires Distinct(s) && i < |s| && Hidden(s[i])
    ensures Sweep(s, i) == s[..i] + Skipping(s[i..])
    decreases |s| - i, 0
  {
    var t := s[..i] + s[i + 1..];
    assert Sweep(s, i) == Sweep(t, i + 1) by {
      SweepAtHidden(s, i);
      RemoveAtIndex(s, i);
    }
    if i + 1 < |s| {
      var skipped := Skipping(s[i + 2..]);
      assert Sweep(t, i + 1) == s[..i] + [s[i + 1]] + skipped by {
        DistinctWithout(s, i);
        SweepIsSkipping(t, i + 1);
        assert t[..i + 1] == s[..i] + [s[i + 1]];
        assert t[i + 1..] == s[i + 2..];
      }
      assert Skipping(s[i..]) == [s[i + 1]] + skipped by {
        HiddenSkip(s, i);
      }
      assert s[..i] + [s[i + 1]] + skipped == s[..i] + ([s[i + 1]] + skipped);
    } else {
      assert Skipping(s[i..]) == [] by {
        SkippingHidden(s[i..]);
      }
      assert t == s[..i];
    }
  }

  /** At a hidden name the sweep removes it and moves on. */
  lemma SweepAtHidden(s: seq<string>, i: nat)
    requires i < |s| && Hidden(s[i])
    ensures Sweep(s, i) == Sweep(RemoveFirst(s, s[i]), i + 1)
  {
  }

  /** From a hidden name at `i`, `Skipping` passes the name at `i + 1` unexamined. */
  lemma HiddenSkip(s: seq<string>, i: nat)
    requires i + 1 < |s| && Hidden(s[i])
    ensures Skipping(s[i..]) == [s[i + 1]] + Skipping(s[i + 2..])
  {
    SkippingHidden(s[i..]);
    assert s[i..][1] == s[i + 1] && s[i..][2..] == s[i + 2..];
  }

  /** The step of `SweepIsSkipping` at a visible name: it is kept. */
  lemma {:induction false} SweepVisibleStep(s: seq<string>, i: nat)
    requires Distinct(s) && i < |s| && !Hidden(s[i])
    ensures Sweep(s, i) == s[..i] + Skipping(s[i..])
    decreases |s| - i, 0
  {
    SweepIsSkipping(s, i + 1);
    assert s[..i + 1] == s[..i] + [s[i]];
    assert s[i..][1..] == s[i + 1..];
  }

  /** `Skipping` on a list that starts with a hidden name. */
  lemma SkippingHidden(s: seq<string>)
    requires s != [] && Hidden(s[0])
    ensures Skipping(s) == if |s| == 1 then [] else [s[1]] + Skipping(s[2..])
  {
  }

  lemma DistinctWithout(s: seq<string>, i: nat)
    requires Distinct(s) && i < |s|
    ensures Distinct(s[..i] + s[i + 1..])
  {
    var t := s[..i] + s[i + 1..];
    forall a, b | 0 <= a < b < |t|
      ensures t[a] != t[b]
    {
      var a', b' := if a < i then a else a + 1, if b < i then b else b + 1;
      assert t[a] == s[a'] && t[b] == s[b'];
    }
  }

  /** `list.remove(x)` deletes the first position holding `x`. */
  lemma {:induction false} RemoveFirstAt(s: seq<string>, x: string, i: nat)
    requires i < |s| && s[i] == x && x !in s[..i]
    ensures RemoveFirst(s, x) == s[..i] + s[i + 1..]
    decreases i
  {
    if i > 0 {
      var t := s[1..];
      assert s[0] != x by { assert s[0] == s[..i][0]; }
      assert t[..i - 1] == s[1..i];
      assert x !in t[..i - 1] by {
        forall k | 0 <= k < i - 1
          ensures t[k] != x
        {
          assert t[k] == s[..i][k + 1];
        }
      }
      RemoveFirstAt(t, x, i - 1);
      assert s[..i] == [s[0]] + t[..i - 1];
      assert s[i + 1..] == t[i..];
    }
  }

  /** In a listing without repeats, `list.remove(s[i])` deletes position `i`. */
  lemma RemoveAtIndex(s: seq<string>, i: nat)
    requires Distinct(s) && i < |s|
    ensures RemoveFirst(s, s[i]) == s[..i] + s[i + 1..]
  {
    assert s[i] !in s[..i] by {
      forall k | 0 <= k < i
        ensures s[..i][k] != s[i]
      {
        assert s[..i][k] == s[k];
      }
    }
    RemoveFirstAt(s, s[i], i);
  }

  /** No two hidden names next to each other. */
  predicate NoAdjacentHidden(s: seq<string>)
  {
    forall k :: 0 <= k < |s| - 1 ==> !(Hidden(s[k]) && Hidden(s[k + 1]))
  }

  /** Without adjacent hidden names the skip never lets a hidden name through: every hidden
      name is removed and exactly the visible ones stay. */
  lemma {:induction false} SkippingWithoutAdjacentHidden(s: seq<string>)
    requires NoAdjacentHidden(s)
    ensures Skipping(s) == Visible(s)
    decreases |s|
  {
    if s != [] {
      assert NoAdjacentHidden(s[1..]) by {
        forall k | 0 <= k < |s[1..]| - 1
          ensures !(Hidden(s[1..][k]) && Hidden(s[1..][k + 1]))
        {
          assert s[1..][k] == s[k + 1] && s[1..][k + 1] == s[k + 2];
        }
      }
      if Hidden(s[0]) && |s| > 1 {
        assert !Hidden(s[1]);
        assert NoAdjacentHidden(s[2..]) by {
          forall k | 0 <= k < |s[2..]| - 1
            ensures !(Hidden(s[2..][k]) && Hidden(s[2..][k + 1]))
          {
            assert s[2..][k] == s[k + 2] && s[2..][k + 1] == s[k + 3];
          }
        }
        SkippingWithoutAdjacentHidden(s[2..]);
        assert s[1..][1..] == s[2..];
      } else {
        SkippingWithoutAdjacentHidden(s[1..]);
      }
    }
  }

  /** Two hidden names in a row: the second one is skipped and registered. */
  lemma SortoutSkipsAfterRemoval()
    ensures Sweep([".cache", "__pycache__", "face_detection"], 0) == ["__pycache__", "face_detection"]
    ensures Visible([".cache", "__pycache__", "face_detection"]) == ["face_detection"]
  {
    var s := [".cache", "__pycache__", "face_detection"];
    assert s[0][..1] == "." && s[1][..2] == "__";
    assert s[2][..1] != "." && s[2][..2] != "__";
    assert RemoveFirst(s, s[0]) == s[1..];
    assert Sweep(s[1..], 1) == Sweep(s[1..], 2);
    assert s[1..][1..] == s[2..] && s[2..][1..] == [];
  }

  /** The intended filter only deletes: its result is a subsequence of the listing. */
  lemma {:induction false} VisibleSubsequence(s: seq<string>)
    ensures Subsequence(Visible(s), s)
    decreases |s|
  {
    if s != [] {
      VisibleSubsequence(s[1..]);
      if !Hidden(s[0]) {
        assert Visible(s)[0] == s[0] && Visible(s)[1..] == Visible(s[1..]);
      }
    }
  }

  /** The list object `_sortout` receives and changes in place. */
  class DirList {
    var names: seq<string>

    constructor(names: seq<string>)
      ensures this.names == names
    {
      this.names := names;
    }
  }

  /** `PluginRegistry`: the plugin names found at construction. */
  class PluginRegistry {
    var plugins: seq<string>

    /** `__init__`: registers the plugins of the given listing. */
    constructor(entries: seq<Entry>)
      ensures plugins == Sweep(DirNames(entries), 0)
      ensures Visible(plugins) == Visible(DirNames(entries))
      ensures Subsequence(plugins, DirNames(entries))
    {
      var names := RegisterPlugins(entries);
      plugins := names;
    }

    /** `_sortout`: removes hidden names from the list while iterating it, and returns the
        same list. */
    static method Sortout(dirs: DirList) returns (r: DirList)
      modifies dirs
      ensures r == dirs
      ensures dirs.names == Sweep(old(dirs.names), 0)
      ensures Subsequence(dirs.names, old(dirs.names))
      ensures Visible(dirs.names) == Visible(old(dirs.names))
    {
      var i := 0;
      while i < |dirs.names|
        invariant i <= |dirs.names| + 1
        invariant Sweep(dirs.names, i) == Sweep(old(dirs.names), 0)
        decreases |dirs.names| + 1 - i
      {
        var d := dirs.names[i];
        if Hidden(d) {
          assert d in dirs.names;
          dirs.names := RemoveFirst(dirs.names, d);
        }
        i := i + 1;
      }
      r := dirs;
      SweepSubsequence(old(dirs.names), 0);
      SweepKeepsVisible(old(dirs.names), 0);
    }

    /** `_check_plugin`: every directory is accepted. */
    static function CheckPlugin(name: string): bool
    {
      true
    }

    /** `register_plugins`: the directory names that survive `_sortout`, each checked and
        collected in order. */
    static method RegisterPlugins(entries: seq<Entry>) returns (plugins: seq<string>)
      ensures plugins == Sweep(DirNames(entries), 0)
      ensures Visible(plugins) == Visible(DirNames(entries))
      ensures Subsequence(plugins, DirNames(entries))
    {
      var dirs := new DirList(DirNames(entries));
      dirs := Sortout(dirs);
      plugins := [];
      var k := 0;
      while k < |dirs.names|
        invariant k <= |dirs.names|
        invariant plugins == dirs.names[..k]
      {
        var name := dirs.names[k];
        if CheckPlugin(name) {
          plugins := plugins + [name];
        }
        k := k + 1;
      }
      assert dirs.names[..k] == dirs.names;
    }
  }

  /** A plugin's fields set by the base constructors: its model directory and family. */
  class Plugin {
    var modelDir: string
    var kind: string

    /** `PluginBase.__init__`: the webcam family by default. */
    constructor Base()
      ensures modelDir == ModelDir && kind == Webcam
    {
      modelDir := ModelDir;
      kind := Webcam;
    }

    /** `PluginDepthai.__init__`: runs the base constructor, then overrides the family. */
    constructor OnDevice()
      ensures modelDir == ModelDir && kind == Depthai
    {
      modelDir := ModelDir;
      kind := Webcam;
      kind := Depthai;
    }
  }
}
