/**
 * Command-line flag and parameter registry.
 *
 * The parser keeps two insertion-ordered lists: flags, keyed "-name", and
 * parameters, keyed "-name=". Registration ignores a name that is already
 * present, lookup is a linear search by name, and Parse scans every
 * argument after the program name once: an argument equal to a flag's key
 * sets that flag, and an argument that starts with a parameter's key sets
 * that parameter and keeps the rest of the argument as its raw value.
 */
module Clargs {
  import opened Wrappers

  /** The parameter types a parameter can be registered with. */
  datatype ParamType =
    | Int | Long | LongLong | UnsignedLong | UnsignedLongLong
    | Float | Double | LongDouble | StdString

  const FlagPrefix: string := "-"
  const ParamPrefix: string := "-"
  const ParamPostfix: string := "="

  /** The width of the `unsigned int` the list counts are returned as. */
  const UintModulus: nat := 0x1_0000_0000

  /** The key of a flag: its name behind a dash. */
  function FlagKey(name: string): (key: string)
    ensures |key| == |name| + 1 && key[0] == '-' && key[1..] == name
  {
    FlagPrefix + name
  }

  /** The key of a parameter: its name between a dash and an equals sign. */
  function ParamKey(name: string): (key: string)
    ensures |key| == |name| + 2 && key[0] == '-' && key[|key| - 1] == '='
    ensures key[1..|key| - 1] == name
  {
    ParamPrefix + name + ParamPostfix
  }

  /** Two names have the same key only if they are the same name. */
  lemma KeysDetermineNames(a: string, b: string)
    ensures FlagKey(a) == FlagKey(b) ==> a == b
    ensures ParamKey(a) == ParamKey(b) ==> a == b
  {
    if ParamKey(a) == ParamKey(b) {
      assert a == ParamKey(a)[1..|ParamKey(a)| - 1];
    }
  }

  /** A flag: its name, its key, and whether Parse has seen it. */
  datatype Flag = Flag(name: string, key: string, found: bool, value: bool)

  /** A parameter: its name, key and declared type, and what Parse found for it. */
  datatype Param = Param(name: string, key: string, found: bool, rawValue: string, paramType: ParamType)

  /** A freshly constructed flag is keyed by its name and is neither found nor set. */
  function NewFlag(name: string): (f: Flag)
    ensures f.name == name && f.key == FlagKey(name)
    ensures !f.found && !f.value
  {
    Flag(name, FlagKey(name), false, false)
  }

  /** A freshly constructed parameter is keyed by its name, keeps its type, is not found and has an empty raw value. */
  function NewParam(name: string, paramType: ParamType): (p: Param)
    ensures p.name == name && p.key == ParamKey(name) && p.paramType == paramType
    ensures !p.found && p.rawValue == ""
  {
    Param(name, ParamKey(name), false, "", paramType)
  }

  // ------------------------------------------------------------------
  // The search lists as values
  // ------------------------------------------------------------------

  predicate HasFlag(flags: seq<Flag>, name: string)
  {
    exists i | 0 <= i < |flags| :: flags[i].name == name
  }

  predicate HasParam(params: seq<Param>, name: string)
  {
    exists i | 0 <= i < |params| :: params[i].name == name
  }

  /** Every flag carries the key of its name, and no name occurs twice. */
  predicate FlagListValid(flags: seq<Flag>)
  {
    && (forall i | 0 <= i < |flags| :: flags[i].key == FlagKey(flags[i].name))
    && (forall i, j | 0 <= i < j < |flags| :: flags[i].name != flags[j].name)
  }

  /** Every parameter carries the key of its name, and no name occurs twice. */
  predicate ParamListValid(params: seq<Param>)
  {
    && (forall i | 0 <= i < |params| :: params[i].key == ParamKey(params[i].name))
    && (forall i, j | 0 <= i < j < |params| :: params[i].name != params[j].name)
  }

  /** AddFlagToSearchList: the list after registering `name`. */
  function WithFlag(flags: seq<Flag>, name: string): seq<Flag>
  {
    if HasFlag(flags, name) then flags else flags + [NewFlag(name)]
  }

  /** AddParamToSearchList: the list after registering `name` with type `paramType`. */
  function WithParam(params: seq<Param>, name: string, paramType: ParamType): seq<Param>
  {
    if HasParam(params, name) then params else params + [NewParam(name, paramType)]
  }

  /**
   * Registering a flag keeps the list valid and in order, grows it by one
   * exactly when the name is new, and leaves the name registered.
   */
  lemma WithFlagProperties(flags: seq<Flag>, name: string)
    requires FlagListValid(flags)
    ensures FlagListValid(WithFlag(flags, name))
    ensures WithFlag(flags, name)[..|flags|] == flags
    ensures |WithFlag(flags, name)| == if HasFlag(flags, name) then |flags| else |flags| + 1
    ensures HasFlag(WithFlag(flags, name), name)
  {
    var r := WithFlag(flags, name);
    if !HasFlag(flags, name) {
      assert r[|flags|].name == name;
      forall i, j | 0 <= i < j < |r| ensures r[i].name != r[j].name {
        if j == |flags| {
          assert flags[i].name != name;
        }
      }
    }
  }

  /**
   * Registering a parameter keeps the list valid and in order, grows it by
   * one exactly when the name is new, and the first registration's type wins.
   */
  lemma WithParamProperties(params: seq<Param>, name: string, paramType: ParamType)
    requires ParamListValid(params)
    ensures ParamListValid(WithParam(params, name, paramType))
    ensures WithParam(params, name, paramType)[..|params|] == params
    ensures |WithParam(params, name, paramType)| == if HasParam(params, name) then |params| else |params| + 1
    ensures HasParam(WithParam(params, name, paramType), name)
    ensures !HasParam(params, name) ==> WithParam(params, name, paramType)[|params|] == NewParam(name, paramType)
  {
    var r := WithParam(params, name, paramType);
    if !HasParam(params, name) {
      assert r[|params|].name == name;
      forall i, j | 0 <= i < j < |r| ensures r[i].name != r[j].name {
        if j == |params| {
          assert params[i].name != name;
        }
      }
    }
  }

  /** Registering the same name twice is the same as registering it once, whatever the second type. */
  lemma WithParamIdempotent(params: seq<Param>, name: string, t1: ParamType, t2: ParamType)
    ensures WithParam(WithParam(params, name, t1), name, t2) == WithParam(params, name, t1)
  {
    if !HasParam(params, name) {
      var r := WithParam(params, name, t1);
      assert r[|params|].name == name;
    }
  }

  lemma WithFlagIdempotent(flags: seq<Flag>, name: string)
    ensures WithFlag(WithFlag(flags, name), name) == WithFlag(flags, name)
  {
    if !HasFlag(flags, name) {
      var r := WithFlag(flags, name);
      assert r[|flags|].name == name;
    }
  }

  // ------------------------------------------------------------------
  // What Parse does to one entry
  // ------------------------------------------------------------------

  /** The arguments Parse looks at: everything after the program name. */
  function Tokens(argv: seq<string>): seq<string>
  {
    if |argv| <= 1 then [] else argv[1..]
  }

  /** One argument applied to a flag: an exact key match sets it. */
  function ScanFlag(f: Flag, arg: string): Flag
  {
    if f.key == arg then f.(found := true, value := true) else f
  }

  /** One argument applied to a parameter: a key prefix match sets it and keeps the rest. */
  function ScanParam(p: Param, arg: string): Param
  {
    if p.key <= arg then p.(found := true, rawValue := arg[|p.key|..]) else p
  }

  /** A flag after a whole argument list: set when some argument is its key. */
  function FlagAfter(f: Flag, toks: seq<string>): Flag
  {
    if f.key in toks then f.(found := true, value := true) else f
  }

  /** The remainder of the last argument that starts with `key`, if any. */
  function LastMatch(key: string, toks: seq<string>): Option<string>
  {
    if toks == [] then None
    else if key <= toks[|toks| - 1] then Some(toks[|toks| - 1][|key|..])
    else LastMatch(key, toks[..|toks| - 1])
  }

  /** A parameter after a whole argument list: the last argument with its key as prefix decides it. */
  function ParamAfter(p: Param, toks: seq<string>): Param
  {
    match LastMatch(p.key, toks)
    case None => p
    case Some(v) => p.(found := true, rawValue := v)
  }

  /** Some argument matches a parameter key exactly when LastMatch finds one. */
  lemma {:induction false} LastMatchFound(key: string, toks: seq<string>)
    ensures LastMatch(key, toks).Some? <==> exists i | 0 <= i < |toks| :: key <= toks[i]
  {
    if toks != [] && !(key <= toks[|toks| - 1]) {
      var init := toks[..|toks| - 1];
      LastMatchFound(key, init);
      if exists i | 0 <= i < |toks| :: key <= toks[i] {
        var i :| 0 <= i < |toks| && key <= toks[i];
        assert init[i] == toks[i];
      }
    }
  }

  /** The value LastMatch finds is the remainder of a matching argument that no later argument matches. */
  lemma {:induction false} LastMatchIsLast(key: string, toks: seq<string>)
    requires LastMatch(key, toks).Some?
    ensures exists i | 0 <= i < |toks| ::
              toks[i] == key + LastMatch(key, toks).value &&
              forall j | i < j < |toks| :: !(key <= toks[j])
  {
    var n := |toks| - 1;
    if key <= toks[n] {
      assert toks[n] == key + toks[n][|key|..];
    } else {
      var init := toks[..n];
      LastMatchIsLast(key, init);
      var i :| 0 <= i < |init| && init[i] == key + LastMatch(key, init).value &&
               forall j | i < j < |init| :: !(key <= init[j]);
      assert toks[i] == init[i];
      forall j | i < j < |toks| ensures !(key <= toks[j]) {
        if j < n { assert toks[j] == init[j]; }
      }
    }
  }

  /** Parse sets a flag exactly when some argument equals its key, and never clears it. */
  lemma FlagAfterFound(f: Flag, toks: seq<string>)
    ensures FlagAfter(f, toks).found <==> f.found || exists i | 0 <= i < |toks| :: toks[i] == f.key
    ensures FlagAfter(f, toks).value <==> f.value || exists i | 0 <= i < |toks| :: toks[i] == f.key
    ensures FlagAfter(f, toks).name == f.name && FlagAfter(f, toks).key == f.key
  {
    if exists i | 0 <= i < |toks| :: toks[i] == f.key {
      var i :| 0 <= i < |toks| && toks[i] == f.key;
      assert f.key in toks;
    }
  }

  /**
   * Parse marks a parameter found exactly when some argument starts with its
   * key, never clears it, keeps its name, key and type, and stores the
   * remainder of the last such argument.
   */
  lemma ParamAfterFound(p: Param, toks: seq<string>)
    ensures ParamAfter(p, toks).found <==> p.found || exists i | 0 <= i < |toks| :: p.key <= toks[i]
    ensures var q := ParamAfter(p, toks);
            q.name == p.name && q.key == p.key && q.paramType == p.paramType
    ensures (exists i | 0 <= i < |toks| :: p.key <= toks[i]) ==>
              exists i | 0 <= i < |toks| ::
                toks[i] == p.key + ParamAfter(p, toks).rawValue &&
                forall j | i < j < |toks| :: !(p.key <= toks[j])
    ensures (forall i | 0 <= i < |toks| :: !(p.key <= toks[i])) ==> ParamAfter(p, toks) == p
  {
    LastMatchFound(p.key, toks);
    if LastMatch(p.key, toks).Some? {
      LastMatchIsLast(p.key, toks);
    }
  }

  /** Scanning one more argument extends FlagAfter by one ScanFlag step. */
  lemma FlagAfterSnoc(f: Flag, toks: seq<string>, arg: string)
    ensures FlagAfter(f, toks + [arg]) == ScanFlag(FlagAfter(f, toks), arg)
  {
    assert f.key in toks + [arg] <==> f.key in toks || f.key == arg;
  }

  /** Scanning one more argument extends ParamAfter by one ScanParam step. */
  lemma ParamAfterSnoc(p: Param, toks: seq<string>, arg: string)
    ensures ParamAfter(p, toks + [arg]) == ScanParam(ParamAfter(p, toks), arg)
  {
    assert (toks + [arg])[..|toks|] == toks;
  }

  // ------------------------------------------------------------------
  // The parser object
  // ------------------------------------------------------------------

  /** The parser: the flag and parameter search lists, updated in place. */
  class ClargParser {
    var flags: seq<Flag>
    var params: seq<Param>

    ghost predicate Valid()
      reads this
    {
      FlagListValid(flags) && ParamListValid(params)
    }

    /** A new parser has empty search lists. */
    constructor ()
      ensures Valid() && flags == [] && params == []
    {
      flags := [];
      params := [];
    }

    /** Registers a flag unless one with that name is already present. */
    method AddFlagToSearchList(name: string)
      requires Valid()
      modifies this
      ensures Valid()
      ensures flags == WithFlag(old(flags), name) && params == old(params)
    {
      WithFlagProperties(flags, name);
      var k := 0;
      while k < |flags|
        invariant 0 <= k <= |flags|
        invariant forall q | 0 <= q < k :: flags[q].name != name
      {
        if flags[k].name == name {
          return;
        }
        k := k + 1;
      }
      flags := flags + [NewFlag(name)];
    }

    /** Registers a parameter with its type unless one with that name is already present. */
    method AddParamToSearchList(name: string, paramType: ParamType)
      requires Valid()
      modifies this
      ensures Valid()
      ensures params == WithParam(old(params), name, paramType) && flags == old(flags)
    {
      WithParamProperties(params, name, paramType);
      var k := 0;
      while k < |params|
        invariant 0 <= k <= |params|
        invariant forall q | 0 <= q < k :: params[q].name != name
      {
        if params[k].name == name {
          return;
        }
        k := k + 1;
      }
      params := params + [NewParam(name, paramType)];
    }

    /** The number of registered flags, as the 32-bit unsigned count the source returns. */
    method GetFlagSearchListCount() returns (count: nat)
      ensures count < UintModulus
      ensures |flags| < UintModulus ==> count == |flags|
      ensures (count - |flags|) % UintModulus == 0
    {
      count := |flags| % UintModulus;
    }

    /** The number of registered parameters, as the 32-bit unsigned count the source returns. */
    method GetParamSearchListCount() returns (count: nat)
      ensures count < UintModulus
      ensures |params| < UintModulus ==> count == |params|
      ensures (count - |params|) % UintModulus == 0
    {
      count := |params| % UintModulus;
    }

    /** The position of the flag named `name`, or None when no flag has that name. */
    method GetFlag(name: string) returns (r: Option<nat>)
      ensures r.Some? ==> r.value < |flags| && flags[r.value].name == name
      ensures r.Some? ==> forall q | 0 <= q < r.value :: flags[q].name != name
      ensures r.None? <==> !HasFlag(flags, name)
    {
      var k := 0;
      while k < |flags|
        invariant 0 <= k <= |flags|
        invariant forall q | 0 <= q < k :: flags[q].name != name
      {
        if flags[k].name == name {
          return Some(k);
        }
        k := k + 1;
      }
      return None;
    }

    /** The position of the parameter named `name`, or None when no parameter has that name. */
    method GetParam(name: string) returns (r: Option<nat>)
      ensures r.Some? ==> r.value < |params| && params[r.value].name == name
      ensures r.Some? ==> forall q | 0 <= q < r.value :: params[q].name != name
      ensures r.None? <==> !HasParam(params, name)
    {
      var k := 0;
      while k < |params|
        invariant 0 <= k <= |params|
        invariant forall q | 0 <= q < k :: params[q].name != name
      {
        if params[k].name == name {
          return Some(k);
        }
        k := k + 1;
      }
      return None;
    }

    /** One argument against every flag: ScanFlag applied entry by entry. */
    method ScanFlags(arg: string)
      modifies this
      ensures params == old(params) && |flags| == |old(flags)|
      ensures forall k | 0 <= k < |flags| :: flags[k] == ScanFlag(old(flags[k]), arg)
    {
      var k := 0;
      while k < |flags|
        invariant 0 <= k <= |flags| == |old(flags)| && params == old(params)
        invariant forall q | 0 <= q < k :: flags[q] == ScanFlag(old(flags[q]), arg)
        invariant forall q | k <= q < |flags| :: flags[q] == old(flags[q])
      {
        if flags[k].key == arg {
          flags := flags[k := flags[k].(found := true, value := true)];
        }
        k := k + 1;
      }
    }

    /** One argument against every parameter: ScanParam applied entry by entry. */
    method ScanParams(arg: string)
      modifies this
      ensures flags == old(flags) && |params| == |old(params)|
      ensures forall k | 0 <= k < |params| :: params[k] == ScanParam(old(params[k]), arg)
    {
      var k := 0;
      while k < |params|
        invariant 0 <= k <= |params| == |old(params)| && flags == old(flags)
        invariant forall q | 0 <= q < k :: params[q] == ScanParam(old(params[q]), arg)
        invariant forall q | k <= q < |params| :: params[q] == old(params[q])
      {
        if params[k].key <= arg {
          params := params[k := params[k].(found := true, rawValue := arg[|params[k].key|..])];
        }
        k := k + 1;
      }
    }

    /**
     * Scans argv[1..]: every flag and parameter ends as FlagAfter and
     * ParamAfter of the arguments say; no entry is added, removed or moved.
     */
    method Parse(argv: seq<string>)
      requires Valid()
      modifies this
      ensures Valid()
      ensures |flags| == |old(flags)| && forall k | 0 <= k < |flags| :: flags[k] == FlagAfter(old(flags[k]), Tokens(argv))
      ensures |params| == |old(params)| && forall k | 0 <= k < |params| :: params[k] == ParamAfter(old(params[k]), Tokens(argv))
    {
      ghost var flags0, params0 := flags, params;
      if |argv| > 1 {
        var i := 1;
        while i < |argv|
          invariant 1 <= i <= |argv|
          invariant |flags| == |flags0| && forall k | 0 <= k < |flags| :: flags[k] == FlagAfter(flags0[k], argv[1..i])
          invariant |params| == |params0| && forall k | 0 <= k < |params| :: params[k] == ParamAfter(params0[k], argv[1..i])
        {
          var arg := argv[i];
          assert argv[1..i + 1] == argv[1..i] + [arg];
          ScanFlags(arg);
          ScanParams(arg);
          forall k | 0 <= k < |flags| ensures flags[k] == FlagAfter(flags0[k], argv[1..i + 1]) {
            FlagAfterSnoc(flags0[k], argv[1..i], arg);
          }
          forall k | 0 <= k < |params| ensures params[k] == ParamAfter(params0[k], argv[1..i + 1]) {
            ParamAfterSnoc(params0[k], argv[1..i], arg);
          }
          i := i + 1;
        }
        assert argv[1..i] == Tokens(argv);
      } else {
        forall k | 0 <= k < |params| ensures params[k] == ParamAfter(params0[k], Tokens(argv)) {
          assert LastMatch(params[k].key, []) == None;
        }
      }
      forall k | 0 <= k < |flags| ensures flags[k].name == flags0[k].name && flags[k].key == flags0[k].key {
        FlagAfterFound(flags0[k], Tokens(argv));
      }
      forall k | 0 <= k < |params| ensures params[k].name == params0[k].name && params[k].key == params0[k].key {
        ParamAfterFound(params0[k], Tokens(argv));
      }
    }
  }
}
