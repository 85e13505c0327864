/** `ArgumentHandler`: the extra command-line arguments handed to a plugin, which must come
    in `--name value` pairs. */
module Arguments {
  import opened Common

  /** `check`: raises InvalidArgumentError for a single argument and for any odd count. */
  function Check(args: seq<string>): (r: Option<Error>)
    ensures r.None? <==> |args| % 2 == 0
    ensures r.Some? ==> r.value == InvalidArgumentError
  {
    if |args| < 2 && |args| != 0 then Some(InvalidArgumentError)
    else if |args| % 2 == 1 then Some(InvalidArgumentError)
    else None
  }

  /** `list.index`: the position of the first occurrence. */
  function IndexOf(args: seq<string>, x: string): (i: nat)
    requires x in args
    ensures i < |args| && args[i] == x && x !in args[..i]
  {
    if args[0] == x then 0 else 1 + IndexOf(args[1..], x)
  }

  /** `get`: the element right after the first occurrence of `name`, None when `name` is
      absent, IndexError when that occurrence is the last element. */
  function Get(name: string, args: seq<string>): (r: Result<Option<string>>)
    ensures r == Ok(None) <==> name !in args
    ensures r.Err? <==> name in args && name !in args[..|args| - 1]
    ensures r.Err? ==> r.error == IndexError
    ensures r.Ok? && r.value.Some? ==>
      exists i :: 0 <= i < |args| - 1 && args[i] == name && name !in args[..i] && r.value.value == args[i + 1]
  {
    if name in args then
      var idx := IndexOf(args, name) + 1;
      if idx < |args| then Ok(Some(args[idx])) else Err(IndexError)
    else Ok(None)
  }

  /** Once `Check` accepts the list, a name found at a flag position (even index) always
      has its value; a name that only occurs at a value position may still be last. */
  lemma GetAfterCheck(name: string, args: seq<string>)
    requires Check(args).None?
    requires name in args && IndexOf(args, name) % 2 == 0
    ensures Get(name, args) == Ok(Some(args[IndexOf(args, name) + 1]))
  {
  }

  /** An accepted list where the name is the last element: `get` raises. */
  lemma GetRaisesAfterCheck()
    ensures Check(["--x", "--name"]).None?
    ensures Get("--name", ["--x", "--name"]) == Err(IndexError)
  {
    assert "--name" !in ["--x", "--name"][..1];
  }
}
