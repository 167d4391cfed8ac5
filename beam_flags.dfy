/**
 * How a list of Beam pipeline arguments is read: `--name=value` sets the
 * option `name` to `value` (everything after the first `=`, verbatim), a
 * bare `--name` is a switch, and when an option is set more than once the
 * last setting wins, as with Python's argparse on which Beam's pipeline
 * options are built. This is the reference against which the argument
 * builders are stated.
 */
module BeamFlags {
  import opened Wrappers

  /** `arg` sets the option `name`. */
  predicate Sets(arg: string, name: string) {
    "--" + name + "=" <= arg
  }

  /** The value `arg` gives to `name`: the text after `--name=`. */
  function ValueOf(arg: string, name: string): string
    requires Sets(arg, name)
  {
    arg[|name| + 3..]
  }

  /** The value of option `name` in `args`: that of its last setting, or None. */
  function Lookup(args: seq<string>, name: string): Option<string> {
    if args == [] then None
    else match Lookup(args[1..], name)
      case Some(v) => Some(v)
      case None => if Sets(args[0], name) then Some(ValueOf(args[0], name)) else None
  }

  /**
   * Lookup finds nothing exactly when no argument sets `name`; otherwise it
   * gives the value of a setting that no later argument overrides.
   */
  lemma {:induction false} LookupIsLastSetting(args: seq<string>, name: string)
    ensures Lookup(args, name).None? <==> forall i :: 0 <= i < |args| ==> !Sets(args[i], name)
    ensures Lookup(args, name).Some? ==>
              exists i :: 0 <= i < |args| && Sets(args[i], name) && Lookup(args, name).value == ValueOf(args[i], name)
                          && forall j :: i < j < |args| ==> !Sets(args[j], name)
  {
    if args != [] {
      var tail := args[1..];
      LookupIsLastSetting(tail, name);
      assert forall j :: 0 < j < |args| ==> args[j] == tail[j - 1];
      match Lookup(tail, name)
      case Some(v) =>
        var i :| 0 <= i < |tail| && Sets(tail[i], name) && v == ValueOf(tail[i], name)
                 && forall j :: i < j < |tail| ==> !Sets(tail[j], name);
        assert Sets(args[i + 1], name) && forall j :: i + 1 < j < |args| ==> !Sets(args[j], name);
      case None =>
    }
  }

  /** How many arguments of `args` set option `name`. */
  function Count(args: seq<string>, name: string): (n: nat)
    ensures n <= |args|
    ensures n == 0 <==> Lookup(args, name).None?
  {
    if args == [] then 0
    else (if Sets(args[0], name) then 1 else 0) + Count(args[1..], name)
  }

  /** `args` holds the bare switch `--name`. */
  predicate HasSwitch(args: seq<string>, name: string) {
    "--" + name in args
  }

  /** The argument `--own=value`. */
  function Setting(own: string, value: string): string {
    "--" + own + "=" + value
  }

  /** Reading `[a] + rest`: a later setting in `rest` wins over `a`. */
  lemma ReadCons(a: string, rest: seq<string>, name: string)
    ensures Lookup([a] + rest, name) == match Lookup(rest, name)
              case Some(v) => Some(v)
              case None => if Sets(a, name) then Some(ValueOf(a, name)) else None
    ensures Count([a] + rest, name) == (if Sets(a, name) then 1 else 0) + Count(rest, name)
  {
    assert ([a] + rest)[1..] == rest;
  }

  /** `--own=value` sets `own` to `value`, verbatim, and sets no other option with a name free of `=`. */
  lemma SettingSets(own: string, value: string, name: string)
    requires '=' !in own && '=' !in name
    ensures Sets(Setting(own, value), name) <==> name == own
    ensures name == own ==> ValueOf(Setting(own, value), name) == value
    ensures Setting(own, value) != "--" + name
  {
    var arg, flag := Setting(own, value), "--" + name + "=";
    assert arg[2 + |own|] == '=';
    if name == own {
      assert arg == flag + value;
    } else {
      // a position where the two differ
      var k;
      if |name| < |own| {
        k := 2 + |name|;
        assert arg[k] == own[|name|] && own[|name|] in own;
      } else if |own| < |name| {
        k := 2 + |own|;
        assert flag[k] == name[|own|] && name[|own|] in name;
      } else {
        var j :| 0 <= j < |name| && name[j] != own[j];
        k := 2 + j;
      }
      assert k < |flag| && k < |arg| && flag[k] != arg[k];
    }
  }

  /** An argument without `=` sets no option. */
  lemma SwitchSetsNothing(arg: string, name: string)
    requires '=' !in arg
    ensures !Sets(arg, name)
  {
    var flag := "--" + name + "=";
    if |flag| <= |arg| {
      assert arg[|flag| - 1] in arg && flag[|flag| - 1] != arg[|flag| - 1];
    }
  }

  /** The switch `--own` is `--name` only when the names agree. */
  lemma SwitchNamed(own: string, name: string)
    ensures "--" + own == "--" + name <==> own == name
  {
    if "--" + own == "--" + name {
      assert ("--" + own)[2..] == own && ("--" + name)[2..] == name;
    }
  }
}
