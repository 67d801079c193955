/**
 * Training arguments: the list of argument names a training-args object
 * exposes, the conversion of a parsed namespace back into a command line,
 * the three-source lookup every argument property goes through, the
 * `test_set` override, and the one-line text rendering of the parsed args.
 */
module Args {
  import opened Wrappers

  // ---------------------------------------------------------------------------
  // Values and namespaces
  // ---------------------------------------------------------------------------

  /** An argument value: a string or an integer.  Other Python values a
      namespace may hold are not modelled. */
  datatype Value = Str(s: string) | Int(n: int)

  /** An argparse namespace: its attribute dictionary in insertion order. */
  datatype Namespace = Namespace(entries: seq<(string, Value)>)

  /** A dictionary has each key once. */
  predicate DistinctKeys(ns: Namespace) {
    forall i, j :: 0 <= i < j < |ns.entries| ==> ns.entries[i].0 != ns.entries[j].0
  }

  /** `getattr(ns, name)`: the value of the attribute, or nothing when the
      namespace has no attribute of that name. */
  function Lookup(ns: Namespace, name: string): (r: Option<Value>)
    ensures r.None? <==> forall k :: 0 <= k < |ns.entries| ==> ns.entries[k].0 != name
    ensures r.Some? ==> exists k :: 0 <= k < |ns.entries| && ns.entries[k] == (name, r.value)
    decreases |ns.entries|
  {
    if |ns.entries| == 0 then None
    else if ns.entries[0].0 == name then Some(ns.entries[0].1)
    else
      var r := Lookup(Namespace(ns.entries[1..]), name);
      LookupShift(ns, name, r);
      r
  }

  /** A tail entry found by the lookup is an entry of the whole namespace. */
  lemma LookupShift(ns: Namespace, name: string, r: Option<Value>)
    requires |ns.entries| > 0
    requires r.Some? ==> exists k :: 0 <= k < |ns.entries| - 1 && ns.entries[1..][k] == (name, r.value)
    ensures r.Some? ==> exists k :: 0 <= k < |ns.entries| && ns.entries[k] == (name, r.value)
  {
    if r.Some? {
      var k :| 0 <= k < |ns.entries| - 1 && ns.entries[1..][k] == (name, r.value);
      assert ns.entries[k + 1] == (name, r.value);
    }
  }

  /** In a dictionary, looking up a key finds the value stored under it. */
  lemma LookupEntry(ns: Namespace, k: int)
    requires DistinctKeys(ns) && 0 <= k < |ns.entries|
    ensures Lookup(ns, ns.entries[k].0) == Some(ns.entries[k].1)
  {
    var name := ns.entries[k].0;
    var r := Lookup(ns, name);
    var k' :| 0 <= k' < |ns.entries| && ns.entries[k'] == (name, r.value);
    assert k' == k;
  }

  // ---------------------------------------------------------------------------
  // `'{}'.format(value)`
  // ---------------------------------------------------------------------------

  /** The decimal digits of a natural number, most significant first. */
  function Digits(n: nat): (r: string)
    ensures |r| > 0 && forall i :: 0 <= i < |r| ==> '0' <= r[i] <= '9'
    decreases n
  {
    var d := [(n % 10) as char + '0'];
    if n < 10 then d else Digits(n / 10) + d
  }

  /** Python's `str` of a value: a string as itself, an integer in decimal
      with a leading `-` when negative. */
  function Show(v: Value): string {
    match v
    case Str(s) => s
    case Int(n) => if n < 0 then "-" + Digits(-n) else Digits(n)
  }

  /** The number a string of decimal digits denotes. */
  function DigitsValue(s: string): int
    decreases |s|
  {
    if |s| == 0 then 0
    else DigitsValue(s[..|s| - 1]) * 10 + (s[|s| - 1] as int - '0' as int)
  }

  /** Reading an integer back from its text. */
  function ReadInt(s: string): int {
    if |s| > 0 && s[0] == '-' then -DigitsValue(s[1..]) else DigitsValue(s)
  }

  /** Decimal rendering loses nothing: the digits read back as the number. */
  lemma {:induction false} DigitsRoundTrip(n: nat)
    ensures DigitsValue(Digits(n)) == n
    decreases n
  {
    var d := [(n % 10) as char + '0'];
    if n >= 10 {
      DigitsRoundTrip(n / 10);
      var s := Digits(n / 10) + d;
      assert s[..|s| - 1] == Digits(n / 10);
    }
  }

  /** An integer argument survives the text rendering. */
  lemma ShowIntRoundTrip(n: int)
    ensures ReadInt(Show(Int(n))) == n
  {
    if n < 0 {
      DigitsRoundTrip(-n);
      var s := "-" + Digits(-n);
      assert s[1..] == Digits(-n);
    } else {
      DigitsRoundTrip(n);
    }
  }

  // ---------------------------------------------------------------------------
  // Namespace -> argv
  // ---------------------------------------------------------------------------

  /** The flag pairs `'--key', 'value'` for a run of namespace entries. */
  function Flags(entries: seq<(string, Value)>): (r: seq<string>)
    ensures |r| == 2 * |entries|
    decreases |entries|
  {
    if |entries| == 0 then []
    else ["--" + entries[0].0, Show(entries[0].1)] + Flags(entries[1..])
  }

  /** The command line a namespace stands for. */
  function Argv(ns: Namespace): (r: seq<string>)
    ensures |r| == 1 + 2 * |ns.entries| && r[0] == "main.py"
  {
    ["main.py"] + Flags(ns.entries)
  }

  /** The flags of a longer run extend those of its prefix by one pair. */
  lemma {:induction false} FlagsSnoc(entries: seq<(string, Value)>, e: (string, Value))
    ensures Flags(entries + [e]) == Flags(entries) + ["--" + e.0, Show(e.1)]
    decreases |entries|
  {
    if |entries| == 0 {
      assert entries + [e] == [e];
    } else {
      assert (entries + [e])[1..] == entries[1..] + [e];
      FlagsSnoc(entries[1..], e);
    }
  }

  /** Flag pairs occupy two slots per entry: key at the even slot, value at the odd. */
  lemma {:induction false} FlagsAt(entries: seq<(string, Value)>)
    ensures |Flags(entries)| == 2 * |entries|
    ensures forall k :: 0 <= k < |entries| ==>
      Flags(entries)[2 * k] == "--" + entries[k].0 && Flags(entries)[2 * k + 1] == Show(entries[k].1)
    decreases |entries|
  {
    if |entries| > 0 {
      FlagsAt(entries[1..]);
      var f := Flags(entries);
      forall k | 1 <= k < |entries|
        ensures f[2 * k] == "--" + entries[k].0 && f[2 * k + 1] == Show(entries[k].1)
      {
        assert f[2 * k] == Flags(entries[1..])[2 * (k - 1)];
        assert f[2 * k + 1] == Flags(entries[1..])[2 * (k - 1) + 1];
      }
    }
  }

  /** Reads `'--key', 'value'` pairs back off a flag list, dropping the `--`. */
  function Pairs(flags: seq<string>): seq<(string, string)>
    decreases |flags|
  {
    if |flags| < 2 then []
    else
      var key := if |flags[0]| >= 2 then flags[0][2..] else flags[0];
      [(key, flags[1])] + Pairs(flags[2..])
  }

  /** The argv a namespace becomes reads back as its keys with their values' text. */
  lemma {:induction false} ArgvRoundTrip(entries: seq<(string, Value)>)
    ensures Pairs(Flags(entries)) == seq(|entries|, k requires 0 <= k < |entries| => (entries[k].0, Show(entries[k].1)))
    decreases |entries|
  {
    if |entries| > 0 {
      ArgvRoundTrip(entries[1..]);
      var f := Flags(entries);
      assert f[2..] == Flags(entries[1..]);
      assert ("--" + entries[0].0)[2..] == entries[0].0;
    }
  }

  /** The conversion the constructor applies to a namespace argument. */
  method NamespaceToArgv(ns: Namespace) returns (argv: seq<string>)
    ensures argv == Argv(ns)
    ensures |argv| == 1 + 2 * |ns.entries| && argv[0] == "main.py"
    ensures forall k :: 0 <= k < |ns.entries| ==>
      argv[1 + 2 * k] == "--" + ns.entries[k].0 && argv[2 + 2 * k] == Show(ns.entries[k].1)
  {
    argv := ["main.py"];
    for i := 0 to |ns.entries|
      invariant argv == ["main.py"] + Flags(ns.entries[..i])
    {
      var (key, value) := ns.entries[i];
      argv := argv + ["--" + key];
      argv := argv + [Show(value)];
      FlagsSnoc(ns.entries[..i], ns.entries[i]);
      assert ns.entries[..i + 1] == ns.entries[..i] + [ns.entries[i]];
    }
    assert ns.entries[..|ns.entries|] == ns.entries;
    FlagsAt(ns.entries);
  }

  // ---------------------------------------------------------------------------
  // The argument-name list
  // ---------------------------------------------------------------------------

  /** A name the argument list skips: one starting with an underscore. */
  predicate Hidden(name: string) { |name| > 0 && name[0] == '_' }

  /** The names of `dir(self)` that do not start with `_`, in order. */
  function Public(names: seq<string>): seq<string>
    decreases |names|
  {
    if |names| == 0 then []
    else (if Hidden(names[0]) then [] else [names[0]]) + Public(names[1..])
  }

  /** A name is kept exactly when it is listed and not hidden. */
  lemma {:induction false} PublicElements(names: seq<string>, x: string)
    ensures x in Public(names) <==> x in names && !Hidden(x)
    decreases |names|
  {
    if |names| > 0 {
      PublicElements(names[1..], x);
      assert names == [names[0]] + names[1..];
    }
  }

  /** Python's string order: code point by code point, a prefix first. */
  predicate Le(a: string, b: string)
    decreases |a|
  {
    |a| == 0 || (|b| > 0 && (a[0] < b[0] || (a[0] == b[0] && Le(a[1..], b[1..]))))
  }

  lemma {:induction false} LeTotal(a: string, b: string)
    ensures Le(a, b) || Le(b, a)
    decreases |a|
  {
    if |a| > 0 && |b| > 0 && a[0] == b[0] {
      LeTotal(a[1..], b[1..]);
    }
  }

  lemma {:induction false} LeTrans(a: string, b: string, c: string)
    requires Le(a, b) && Le(b, c)
    ensures Le(a, c)
    decreases |a|
  {
    if |a| > 0 && a[0] == b[0] && b[0] == c[0] {
      LeTrans(a[1..], b[1..], c[1..]);
    }
  }

  predicate Sorted(s: seq<string>) {
    forall i, j :: 0 <= i < j < |s| ==> Le(s[i], s[j])
  }

  /** `x` put just before the first element it does not exceed. */
  function Insert(s: seq<string>, x: string): (r: seq<string>)
    requires Sorted(s)
    ensures multiset(r) == multiset(s) + multiset{x}
    ensures Sorted(r)
    decreases |s|
  {
    if |s| == 0 then [x]
    else if Le(x, s[0]) then
      SortedFront(x, s);
      [x] + s
    else
      LeTotal(x, s[0]);
      var t := Insert(s[1..], x);
      assert s == [s[0]] + s[1..];
      HeadBelow(s, x, t);
      SortedFront(s[0], t);
      [s[0]] + t
  }

  /** A sorted list stays sorted with an element in front that is at most
      its first element. */
  lemma SortedFront(a: string, t: seq<string>)
    requires Sorted(t) && (|t| > 0 ==> Le(a, t[0]))
    ensures Sorted([a] + t)
  {
    var r := [a] + t;
    forall i, j | 0 <= i < j < |r|
      ensures Le(r[i], r[j])
    {
      if i == 0 {
        if j > 1 {
          LeTrans(a, t[0], t[j - 1]);
        }
      } else {
        assert r[i] == t[i - 1] && r[j] == t[j - 1];
      }
    }
  }

  /** Every element of the insertion into the tail is at least the head. */
  lemma HeadBelow(s: seq<string>, x: string, t: seq<string>)
    requires Sorted(s) && |s| > 0 && Le(s[0], x)
    requires multiset(t) == multiset(s[1..]) + multiset{x}
    ensures |t| > 0 ==> Le(s[0], t[0])
  {
    if |t| > 0 {
      var y := t[0];
      assert y in multiset(t);
      if y != x {
        assert y in multiset(s[1..]);
        var j :| 0 <= j < |s[1..]| && s[1..][j] == y;
        assert s[j + 1] == y;
      }
    }
  }

  /** `list.sort()` on the argument names, by insertion. */
  method SortNames(names: seq<string>) returns (r: seq<string>)
    ensures Sorted(r) && multiset(r) == multiset(names)
  {
    r := [];
    for i := 0 to |names|
      invariant Sorted(r) && multiset(r) == multiset(names[..i])
    {
      assert names[..i + 1] == names[..i] + [names[i]];
      r := Insert(r, names[i]);
    }
    assert names[..|names|] == names;
  }

  /** The argument list: the public attribute names, sorted.  Every name of
      `dir(self)` that does not start with `_` occurs in it, and no other. */
  method ArgList(dirNames: seq<string>) returns (r: seq<string>)
    ensures Sorted(r) && multiset(r) == multiset(Public(dirNames))
    ensures forall x :: x in r <==> x in dirNames && !Hidden(x)
  {
    r := SortNames(Public(dirNames));
    forall x ensures x in r <==> x in dirNames && !Hidden(x) {
      assert x in r <==> x in multiset(r);
      PublicElements(dirNames, x);
    }
  }

  // ---------------------------------------------------------------------------
  // Lookup precedence
  // ---------------------------------------------------------------------------

  /** The three places an argument can come from: the args loaded from a
      saved run (if any), the caller's forced defaults (if any), and the
      args parsed from the command line. */
  datatype Sources = Sources(loaded: Option<Namespace>, force: Option<Namespace>, parsed: Namespace)

  /** The namespace `_get` consults: loaded args for a fixed argument,
      forced args for a changeable one, parsed args otherwise. */
  function Selected(src: Sources, changeable: bool): Namespace {
    if !changeable && src.loaded.Some? then src.loaded.value
    else if changeable && src.force.Some? then src.force.value
    else src.parsed
  }

  /** `_get(name, default, changeable)`: the attribute of the selected
      namespace, or `default` when that namespace lacks it.  A missing
      attribute never falls through to another namespace. */
  function Get(src: Sources, name: string, default: Value, changeable: bool): Value {
    Lookup(Selected(src, changeable), name).GetOr(default)
  }

  /** Every source case of `_get`, with the value it yields. */
  lemma GetPrecedence(src: Sources, name: string, default: Value, changeable: bool)
    ensures !changeable && src.loaded.Some? ==>
      Get(src, name, default, changeable) == Lookup(src.loaded.value, name).GetOr(default)
    ensures changeable && src.force.Some? ==>
      Get(src, name, default, changeable) == Lookup(src.force.value, name).GetOr(default)
    ensures (if changeable then src.force.None? else src.loaded.None?) ==>
      Get(src, name, default, changeable) == Lookup(src.parsed, name).GetOr(default)
  {
  }

  /** The value stored under a name in the selected dictionary is the one returned. */
  lemma GetStored(src: Sources, name: string, default: Value, changeable: bool, k: int)
    requires DistinctKeys(Selected(src, changeable))
    requires 0 <= k < |Selected(src, changeable).entries| && Selected(src, changeable).entries[k].0 == name
    ensures Get(src, name, default, changeable) == Selected(src, changeable).entries[k].1
  {
    LookupEntry(Selected(src, changeable), k);
  }

  /** No fall-through: a name missing from the selected namespace yields the
      default, whatever the other namespaces hold. */
  lemma GetMissing(src: Sources, name: string, default: Value, changeable: bool)
    requires forall k :: 0 <= k < |Selected(src, changeable).entries| ==> Selected(src, changeable).entries[k].0 != name
    ensures Get(src, name, default, changeable) == default
  {
  }

  /** A changeable argument never reads the loaded args, and a fixed one never
      reads the forced args. */
  lemma GetIgnores(src: Sources, name: string, default: Value, other: Option<Namespace>)
    ensures Get(src.(loaded := other), name, default, true) == Get(src, name, default, true)
    ensures Get(src.(force := other), name, default, false) == Get(src, name, default, false)
  {
  }

  // ---------------------------------------------------------------------------
  // Argument properties
  // ---------------------------------------------------------------------------

  /** A declared argument: its name, its default and whether a forced value
      may override it. */
  datatype Arg = Arg(name: string, default: Value, changeable: bool)

  const ForceSetArg := Arg("force_set", Str("null"), true)
  const LoadArg := Arg("load", Str("null"), true)
  const TestSetArg := Arg("test_set", Str("zara1"), false)

  /** The arguments the base training args declare through `_get`
      (`test_set` has its own rule, see `TestSet`). */
  const BaseArgs: seq<Arg> := [
    ForceSetArg,
    Arg("gpu", Str("0"), true),
    Arg("verbose", Int(1), true),
    Arg("save_base_dir", Str("./logs"), false),
    Arg("save_format", Str("tf"), false),
    Arg("log_dir", Str("null"), false),
    LoadArg,
    Arg("model", Str("none"), false),
    Arg("model_name", Str("model"), false),
    Arg("restore", Str("null"), true)
  ]

  /** The value of a declared argument. */
  function Property(src: Sources, a: Arg): Value {
    Get(src, a.name, a.default, a.changeable)
  }

  /** `test_set`: a forced test set wins; otherwise the fixed argument
      `test_set`, default `zara1`. */
  function TestSet(src: Sources): Value {
    var fs := Property(src, ForceSetArg);
    if fs != Str("null") then fs else Property(src, TestSetArg)
  }

  /** The two cases of `test_set`. */
  lemma TestSetCases(src: Sources)
    ensures Property(src, ForceSetArg) != Str("null") ==> TestSet(src) == Property(src, ForceSetArg)
    ensures Property(src, ForceSetArg) == Str("null") ==>
      TestSet(src) == Lookup(Selected(src, false), "test_set").GetOr(Str("zara1"))
  {
  }

  /** A forced `force_set` other than `null` is the test set, whatever the
      loaded or parsed args say about `test_set`. */
  lemma ForcedTestSet(src: Sources, k: int)
    requires src.force.Some? && DistinctKeys(src.force.value)
    requires 0 <= k < |src.force.value.entries| && src.force.value.entries[k].0 == "force_set"
    requires src.force.value.entries[k].1 != Str("null")
    ensures TestSet(src) == src.force.value.entries[k].1
  {
    GetStored(src, "force_set", Str("null"), true, k);
  }

  /** With nothing forced and nothing loaded, the test set is the parsed
      `test_set`, or `zara1` when there is none. */
  lemma DefaultTestSet(src: Sources)
    requires src.force.None? && src.loaded.None?
    requires forall k :: 0 <= k < |src.parsed.entries| ==> src.parsed.entries[k].0 != "force_set"
    ensures TestSet(src) == Lookup(src.parsed, "test_set").GetOr(Str("zara1"))
  {
  }

  // ---------------------------------------------------------------------------
  // `__str__`
  // ---------------------------------------------------------------------------

  /** `'{}: {}, '.format(key, value)`. */
  function Item(e: (string, Value)): string {
    e.0 + ": " + Show(e.1) + ", "
  }

  /** The text `key: value, ` for each entry in order. */
  function Describe(entries: seq<(string, Value)>): string
    decreases |entries|
  {
    if |entries| == 0 then "" else Item(entries[0]) + Describe(entries[1..])
  }

  /** Rendering distributes over concatenation of entry runs. */
  lemma {:induction false} DescribeAppend(a: seq<(string, Value)>, b: seq<(string, Value)>)
    ensures Describe(a + b) == Describe(a) + Describe(b)
    decreases |a|
  {
    if |a| == 0 {
      assert a + b == b;
    } else {
      assert (a + b)[1..] == a[1..] + b;
      DescribeAppend(a[1..], b);
    }
  }

  /** The text is empty exactly when there are no args, and otherwise ends in `, `. */
  lemma DescribeShape(entries: seq<(string, Value)>)
    ensures Describe(entries) == "" <==> |entries| == 0
    ensures |entries| > 0 ==> |Describe(entries)| >= 2 && Describe(entries)[|Describe(entries)| - 2..] == ", "
  {
    if |entries| > 0 {
      var n := |entries|;
      DescribeAppend(entries[..n - 1], [entries[n - 1]]);
      assert entries == entries[..n - 1] + [entries[n - 1]];
      assert Describe([entries[n - 1]]) == Item(entries[n - 1]);
    }
  }

  // ---------------------------------------------------------------------------
  // The training-args object
  // ---------------------------------------------------------------------------

  /** What the constructor is given: a namespace, or a command line. */
  datatype Input = FromNamespace(ns: Namespace) | FromArgv(argv: seq<string>)

  class TrainArgs {
    var argList: seq<string>
    var argsLoad: Option<Namespace>
    var forceArgs: Option<Namespace>
    var args: Namespace

    /** The three namespaces `_get` chooses from. */
    function Current(): Sources
      reads this
    {
      Sources(argsLoad, forceArgs, args)
    }

    /** Lists the public names, records the forced defaults, turns a
        namespace into a command line, parses it with `parse` against the
        name list, and, when the `load` argument is not `null`, takes the
        loaded args from `loadArgs`. */
    constructor(dirNames: seq<string>, input: Input, defaultArgs: Option<Namespace>,
                parse: (seq<string>, seq<string>) -> Namespace, loadArgs: Value -> Namespace)
      ensures Sorted(argList) && multiset(argList) == multiset(Public(dirNames))
      ensures forceArgs == defaultArgs
      ensures args == parse(if input.FromNamespace? then Argv(input.ns) else input.argv, argList)
      ensures var p := Property(Sources(None, defaultArgs, args), LoadArg);
        argsLoad == if p != Str("null") then Some(loadArgs(p)) else None
    {
      var names := ArgList(dirNames);
      var argv: seq<string>;
      if input.FromNamespace? {
        argv := NamespaceToArgv(input.ns);
      } else {
        argv := input.argv;
      }
      var parsed := parse(argv, names);
      var p := Property(Sources(None, defaultArgs, parsed), LoadArg);
      argList := names;
      forceArgs := defaultArgs;
      args := parsed;
      argsLoad := if p != Str("null") then Some(loadArgs(p)) else None;
    }

    /** `__str__`: `key: value, ` for every parsed argument, in order. */
    method ToString() returns (text: string)
      ensures text == Describe(args.entries)
    {
      text := "";
      for i := 0 to |args.entries|
        invariant text == Describe(args.entries[..i])
      {
        text := text + Item(args.entries[i]);
        DescribeAppend(args.entries[..i], [args.entries[i]]);
        assert args.entries[..i + 1] == args.entries[..i] + [args.entries[i]];
      }
      assert args.entries[..|args.entries|] == args.entries;
    }
  }
}
