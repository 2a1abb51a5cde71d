/**
 * The command encoder of both Dobot client revisions: the `send` decorator binds a stub's
 * arguments to its signature (`inspect.signature(...).bind` and `apply_defaults`) and renders
 * `Name(arg,arg,key=value)` from the bound values in declaration order. A stub's signature is
 * a table row (`OpSpec`) here; the 121 rows are in DobotCatalog.
 */
module DobotCommand {
  import opened Common
  import opened Text
  import opened Numbers

  /** An argument value: Python `None`, a number, or a string. */
  datatype Value = Null | Num(n: Number) | Str(s: string)

  /** One parameter of a stub: its name as declared and its default (None when required). */
  datatype ParamSpec = ParamSpec(name: string, default: Option<Value>)

  /** A stub: the command name (the method's `__name__`) and its parameters after `self`. */
  datatype OpSpec = OpSpec(name: string, params: seq<ParamSpec>)

  // ---------------------------------------------------------------------------------------------
  // Binding

  /** The value parameter `i` is bound to: positional, then keyword, then default; None if missing. */
  function ArgFor(params: seq<ParamSpec>, positional: seq<Value>, keywords: map<string, Value>, i: nat): Option<Value>
    requires i < |params|
  {
    if i < |positional| then Some(positional[i])
    else if params[i].name in keywords then Some(keywords[params[i].name])
    else params[i].default
  }

  /** A keyword argument binds when it names a parameter that no positional argument filled. */
  predicate KeywordBinds(params: seq<ParamSpec>, npos: nat, k: string)
  {
    exists i :: npos <= i < |params| && params[i].name == k
  }

  /**
   * `signature.bind(self, *positional, **keywords)` followed by `apply_defaults()`: the bound
   * values in declaration order, or TypeError for too many positional arguments, an unexpected
   * keyword, a keyword that repeats a positional argument, or a missing required argument.
   */
  function Bind(op: OpSpec, positional: seq<Value>, keywords: map<string, Value>): (r: Result<seq<Value>>)
    ensures r.Ok? ==> |r.value| == |op.params|
    ensures r.Ok? ==> forall i :: 0 <= i < |op.params| ==> ArgFor(op.params, positional, keywords, i) == Some(r.value[i])
    ensures r.Err? ==> r.error == TypeError
  {
    if |positional| > |op.params| then Err(TypeError)
    else if exists k :: k in keywords && !KeywordBinds(op.params, |positional|, k) then Err(TypeError)
    else if exists i :: 0 <= i < |op.params| && ArgFor(op.params, positional, keywords, i).None? then Err(TypeError)
    else Ok(seq(|op.params|, i requires 0 <= i < |op.params| => ArgFor(op.params, positional, keywords, i).value))
  }

  // ---------------------------------------------------------------------------------------------
  // Rendering

  /** `str(v)`. */
  function StrValue(v: Value): string
  {
    match v
    case Null => "None"
    case Num(n) => RenderNumber(n)
    case Str(s) => s
  }

  /** A parameter declared with a leading '_' is sent as `key=value`, without that underscore. */
  predicate IsKeyed(p: ParamSpec) { |p.name| > 0 && p.name[0] == '_' }

  /**
   * One bound argument: `f'{k.removeprefix("_")}={v}'` for a keyed parameter, else `str(v)`. A
   * keyed argument is one character longer than the value's text and the key together (the
   * '=' replacing the underscore); `RenderKeyed` says where each part sits.
   */
  function RenderArg(p: ParamSpec, v: Value): (arg: string)
    ensures IsKeyed(p) ==> |arg| == |p.name| + |StrValue(v)|
    ensures !IsKeyed(p) ==> arg == StrValue(v)
  {
    if IsKeyed(p) then p.name[1..] + "=" + StrValue(v) else StrValue(v)
  }

  /** The rendered arguments of parameters `i..`, in declaration order, leaving out those bound to None. */
  function RenderFrom(params: seq<ParamSpec>, values: seq<Value>, i: nat): (args: seq<string>)
    requires |params| == |values|
    decreases |values| - i
  {
    if i >= |values| then []
    else (if values[i] == Null then [] else [RenderArg(params[i], values[i])]) + RenderFrom(params, values, i + 1)
  }

  /** The rendered arguments of a call. */
  function RenderArgs(params: seq<ParamSpec>, values: seq<Value>): seq<string>
    requires |params| == |values|
  {
    RenderFrom(params, values, 0)
  }

  /** The command text `Name(a,b,key=v)`: the name, then the arguments in parentheses. */
  function Encode(op: OpSpec, values: seq<Value>): (cmd: string)
    requires |values| == |op.params|
    ensures |cmd| >= |op.name| + 2 && cmd[..|op.name| + 1] == op.name + "(" && cmd[|cmd| - 1] == ')'
  {
    op.name + "(" + Join(RenderArgs(op.params, values), ',') + ")"
  }

  /** A first argument that is given and not keyed comes right after the name and '('. */
  lemma EncodeLeads(op: OpSpec, values: seq<Value>)
    requires |values| == |op.params| > 0 && values[0] != Null && !IsKeyed(op.params[0])
    ensures op.name + "(" + StrValue(values[0]) <= Encode(op, values)
  {
    var args := RenderArgs(op.params, values);
    assert args[0] == StrValue(values[0]);
    JoinHead(args, ',');
    var head := op.name + "(";
    assert Encode(op, values) == head + (Join(args, ',') + ")");
  }

  // ---------------------------------------------------------------------------------------------
  // What binding promises

  /** Too many positional arguments: TypeError. */
  lemma BindTooMany(op: OpSpec, positional: seq<Value>, keywords: map<string, Value>)
    requires |positional| > |op.params|
    ensures Bind(op, positional, keywords) == Err(TypeError)
  {
  }

  /** A keyword that names no parameter, or one already filled positionally: TypeError. */
  lemma BindBadKeyword(op: OpSpec, positional: seq<Value>, keywords: map<string, Value>, k: string)
    requires k in keywords
    requires forall i :: 0 <= i < |op.params| && op.params[i].name == k ==> i < |positional|
    ensures Bind(op, positional, keywords) == Err(TypeError)
  {
  }

  /** A required parameter given neither positionally nor by keyword: TypeError. */
  lemma BindMissing(op: OpSpec, positional: seq<Value>, keywords: map<string, Value>, i: nat)
    requires |positional| <= i < |op.params|
    requires op.params[i].default.None? && op.params[i].name !in keywords
    ensures Bind(op, positional, keywords) == Err(TypeError)
  {
    assert ArgFor(op.params, positional, keywords, i).None?;
  }

  /**
   * A call binds when it has no more positional arguments than parameters, each keyword names a
   * parameter that no positional argument filled, and every parameter left without a value has a
   * default. Each keyword argument then lands on the parameter it names.
   */
  lemma BindOk(op: OpSpec, positional: seq<Value>, keywords: map<string, Value>)
    requires |positional| <= |op.params|
    requires forall k :: k in keywords ==> exists i :: |positional| <= i < |op.params| && op.params[i].name == k
    requires forall i :: |positional| <= i < |op.params| && op.params[i].name !in keywords ==> op.params[i].default.Some?
    ensures Bind(op, positional, keywords).Ok?
    ensures forall i :: |positional| <= i < |op.params| && op.params[i].name in keywords ==>
      Bind(op, positional, keywords).value[i] == keywords[op.params[i].name]
  {
    assert forall k :: k in keywords ==> KeywordBinds(op.params, |positional|, k);
    assert forall i :: 0 <= i < |op.params| ==> ArgFor(op.params, positional, keywords, i).Some?;
  }

  /**
   * A call that fills every required parameter, positionally in order and without keywords,
   * binds: the given values first, the defaults of the remaining parameters after them.
   */
  lemma BindPositional(op: OpSpec, positional: seq<Value>)
    requires |positional| <= |op.params|
    requires forall i :: |positional| <= i < |op.params| ==> op.params[i].default.Some?
    ensures Bind(op, positional, map[]).Ok?
    ensures var vs := Bind(op, positional, map[]).value;
      && vs[..|positional|] == positional
      && forall i :: |positional| <= i < |op.params| ==> vs[i] == op.params[i].default.value
  {
  }

  // ---------------------------------------------------------------------------------------------
  // What rendering promises

  /** The indices from `i` on whose values are not None, in increasing order. */
  function KeptFrom(values: seq<Value>, i: nat): (ks: seq<nat>)
    decreases |values| - i
  {
    if i >= |values| then []
    else (if values[i] == Null then [] else [i]) + KeptFrom(values, i + 1)
  }

  /** `KeptFrom` lists exactly the indices from `i` on whose values are not None, increasing. */
  lemma {:induction false} KeptFromExact(values: seq<Value>, i: nat)
    ensures var ks := KeptFrom(values, i);
      && (forall j :: 0 <= j < |ks| ==> i <= ks[j] < |values| && values[ks[j]] != Null)
      && (forall j, j' :: 0 <= j < j' < |ks| ==> ks[j] < ks[j'])
      && (forall m :: i <= m < |values| && values[m] != Null ==> m in ks)
    decreases |values| - i
  {
    if i < |values| {
      KeptFromExact(values, i + 1);
      var ks := KeptFrom(values, i);
      var rest := KeptFrom(values, i + 1);
      var head: seq<nat> := if values[i] == Null then [] else [i];
      assert ks == head + rest;
      forall j | 0 <= j < |ks| ensures i <= ks[j] < |values| && values[ks[j]] != Null {
        if j >= |head| { assert ks[j] == rest[j - |head|]; }
      }
      forall j, j' | 0 <= j < j' < |ks| ensures ks[j] < ks[j'] {
        assert ks[j'] == rest[j' - |head|];
        if j >= |head| { assert ks[j] == rest[j - |head|]; }
      }
      forall m | i <= m < |values| && values[m] != Null ensures m in ks {
        if m > i { assert m in rest; }
      }
    }
  }

  /**
   * The arguments sent for parameters `i..` are exactly their values that are not None, in
   * declaration order, each rendered by its own parameter's rule.
   */
  lemma {:induction false} RenderFromKept(params: seq<ParamSpec>, values: seq<Value>, i: nat)
    requires |params| == |values|
    ensures var args := RenderFrom(params, values, i); var ks := KeptFrom(values, i);
      && |args| == |ks|
      && forall j :: 0 <= j < |ks| ==> ks[j] < |values| && args[j] == RenderArg(params[ks[j]], values[ks[j]])
    decreases |values| - i
  {
    if i < |values| {
      RenderFromKept(params, values, i + 1);
      var args := RenderFrom(params, values, i);
      var ks := KeptFrom(values, i);
      var tail := RenderFrom(params, values, i + 1);
      var rest := KeptFrom(values, i + 1);
      var head := if values[i] == Null then [] else [RenderArg(params[i], values[i])];
      var hk: seq<nat> := if values[i] == Null then [] else [i];
      assert args == head + tail && ks == hk + rest;
      forall j | 0 <= j < |ks| ensures ks[j] < |values| && args[j] == RenderArg(params[ks[j]], values[ks[j]]) {
        if j >= |head| { assert ks[j] == rest[j - |head|] && args[j] == tail[j - |head|]; }
        else { assert ks[j] == i && args[j] == head[j]; }
      }
    }
  }

  /**
   * The arguments of a call are exactly its values that are not None, in declaration order,
   * each rendered by its own parameter's rule.
   */
  lemma RenderArgsKept(params: seq<ParamSpec>, values: seq<Value>)
    requires |params| == |values|
    ensures var args := RenderArgs(params, values); var ks := KeptFrom(values, 0);
      && |args| == |ks|
      && (forall j :: 0 <= j < |ks| ==>
            ks[j] < |values| && values[ks[j]] != Null && args[j] == RenderArg(params[ks[j]], values[ks[j]]))
      && (forall j, j' :: 0 <= j < j' < |ks| ==> ks[j] < ks[j'])
      && (forall m :: 0 <= m < |values| && values[m] != Null ==> m in ks)
  {
    KeptFromExact(values, 0);
    RenderFromKept(params, values, 0);
  }

  /** A keyed argument reads `key=value` with the underscore removed. */
  lemma RenderKeyed(p: ParamSpec, v: Value)
    requires IsKeyed(p)
    ensures var a := RenderArg(p, v); |a| >= |p.name| && a[..|p.name| - 1] == p.name[1..] && a[|p.name| - 1] == '='
    ensures var a := RenderArg(p, v); a[|p.name|..] == StrValue(v)
  {
  }

  // ---------------------------------------------------------------------------------------------
  // Reading a command back

  /** `Name(a,b,...)` read back as the name and the comma-separated arguments; None when malformed. */
  function DecodeCommand(cmd: string): (r: Option<(string, seq<string>)>)
  {
    if '(' !in cmd || |cmd| == 0 || cmd[|cmd| - 1] != ')' then None
    else
      var i := IndexOf(cmd, '(');
      var inner := cmd[i + 1..|cmd| - 1];
      Some((cmd[..i], if inner == "" then [] else Split(inner, ',')))
  }

  /**
   * Decoding an encoded command gives back its name and its rendered arguments, whenever the
   * name holds no '(' and no argument holds a ',' (and a lone argument is not empty).
   */
  lemma DecodeEncode(op: OpSpec, values: seq<Value>)
    requires |values| == |op.params|
    requires '(' !in op.name
    requires var args := RenderArgs(op.params, values);
      (forall j :: 0 <= j < |args| ==> ',' !in args[j]) && args != [""]
    ensures DecodeCommand(Encode(op, values)) == Some((op.name, RenderArgs(op.params, values)))
  {
    var args := RenderArgs(op.params, values);
    var inner := Join(args, ',');
    var cmd := Encode(op, values);
    assert cmd == op.name + ("(" + inner + ")");
    var p := "(" + inner + ")";
    assert cmd[|op.name|] == '(';
    var i := IndexOf(cmd, '(');
    assert i == |op.name| by {
      assert forall j :: 0 <= j < |op.name| ==> cmd[j] == op.name[j];
      assert cmd[..|op.name|] == op.name;
    }
    assert cmd[..i] == op.name;
    assert cmd[i + 1..|cmd| - 1] == inner;
    if args == [] {
      assert inner == "";
    } else {
      SplitJoin(args, ',');
      if |args| == 1 {
        assert inner == args[0];
      } else {
        assert |inner| > 0 by { assert inner == args[0] + [','] + Join(args[1..], ','); }
      }
    }
  }

  /** Every argument that is a number reads back as that number. */
  lemma NumberArgReadsBack(p: ParamSpec, n: Number)
    requires !IsKeyed(p) && Canonical(n)
    ensures ParseNumber(RenderArg(p, Num(n))) == Some(n)
  {
    ParseRender(n);
  }
}
