/**
 * The service revision of the Dobot client (service/dobot.py): commands are encoded by the
 * `send` decorator and written to a connection object whose `status` says whether it is
 * connected; a reply `code,{p1,...,pn},Cmd(...);` has its echo removed, is parsed, and is
 * classified by `handle`, which logs and, for the alarmed code, sends `ClearError()`.
 *
 * The transport is abstract: `sent` records every command written, in order, and `replies` is
 * the sequence of texts the connection will hand back to successive `recv` calls. The log holds
 * the reports of `handle` only; debug lines and the texts of other messages are not modelled.
 */
module ServiceDobot {
  import opened Common
  import opened Text
  import opened Numbers
  import opened DobotCommand
  import DobotCatalog
  import DobotErrors

  // ---------------------------------------------------------------------------------------------
  // Reading a reply

  /** The text between the braces: no parameters when it is empty, else its comma-separated tokens. */
  function ParseParams(text: string): (r: Result<seq<Number>>)
    ensures text == "" ==> r == Ok([])
  {
    if text == "" then Ok([]) else ParseTokens(Split(text, ','))
  }

  /**
   * `parse`: the code is the integer before the first comma; the rest loses its first and last
   * character (the braces) and is read as parameters. No comma: the assertion fails.
   */
  function ParseResponse(response: string): (r: Result<(int, seq<Number>)>)
    ensures ',' !in response ==> r == Err(AssertionError)
    ensures r.Err? ==> r.error in {AssertionError, ValueError}
  {
    var parts := SplitOnce(response, ',');
    if |parts| != 2 then Err(AssertionError)
    else
      match ParseInt(parts[0])
      case None => Err(ValueError)
      case Some(code) =>
        match ParseParams(Inner(parts[1]))
        case Err(e) => Err(e)
        case Ok(ns) => Ok((code, ns))
  }

  /**
   * What `send_cmd` parses: the received text, stripped, without the echo `,Cmd;` at its end; a
   * reply that does not end in the echo is kept whole.
   */
  function ReplyBody(received: string, cmd: string): (body: string)
    ensures body == Strip(received) || body + ("," + cmd + ";") == Strip(received)
  {
    RemoveSuffix(Strip(received), "," + cmd + ";")
  }

  // ---------------------------------------------------------------------------------------------
  // The client's behaviour as functions of its state

  /** The connection object: absent (after `disconnect` or a failed `connect`), or present with its status. */
  datatype Conn = Conn(status: bool)

  /** The transport and log state a command changes. */
  datatype Trace = Trace(sent: seq<string>, replies: seq<string>, log: seq<DobotErrors.Report>)

  /** `t` grows into `u`: more commands sent, replies consumed from the front, more log lines. */
  predicate Extends(t: Trace, u: Trace)
  {
    && |t.sent| <= |u.sent| && u.sent[..|t.sent|] == t.sent
    && |u.replies| <= |t.replies| && u.replies == t.replies[|t.replies| - |u.replies|..]
    && |t.log| <= |u.log| && u.log[..|t.log|] == t.log
  }

  lemma ExtendsTrans(t: Trace, u: Trace, w: Trace)
    requires Extends(t, u) && Extends(u, w)
    ensures Extends(t, w)
  {
    assert w.sent[..|t.sent|] == w.sent[..|u.sent|][..|t.sent|];
    assert w.log[..|t.log|] == w.log[..|u.log|][..|t.log|];
  }

  /** Sending one command: writes it, consumes one reply, and extends the trace. */
  lemma SentOne(t: Trace, cmd: string)
    requires t.replies != []
    ensures Extends(t, Trace(t.sent + [cmd], t.replies[1..], t.log))
  {
  }

  /**
   * `send_cmd(cmd)`: the connection check (AttributeError when there is no connection object,
   * ConnectionError when it is not connected), then one write, one read, `parse` and `handle`.
   */
  function SendCmdSpec(conn: Option<Conn>, t: Trace, cmd: string): (r: (Result<seq<Number>>, Trace))
    ensures Extends(t, r.1)
    decreases |t.replies|, 0
  {
    if conn.None? then (Err(AttributeError), t)
    else if !conn.value.status then (Err(ConnectionError), t)
    else if t.replies == [] then (Err(Timeout), t.(sent := t.sent + [cmd]))
    else
      var t1 := Trace(t.sent + [cmd], t.replies[1..], t.log);
      SentOne(t, cmd);
      match ParseResponse(ReplyBody(t.replies[0], cmd))
      case Err(e) => (Err(e), t1)
      case Ok((code, ps)) =>
        var r := HandleSpec(conn, t1, code, ps, cmd);
        ExtendsTrans(t, t1, r.1);
        r
  }

  /**
   * `handle(err, params, cmd)`: logs what `Diagnose` reports and returns the parameters it was
   * given; for the alarmed code it first calls `ClearError()`, whose failures propagate.
   */
  function HandleSpec(conn: Option<Conn>, t: Trace, code: int, params: seq<Number>, cmd: string): (r: (Result<seq<Number>>, Trace))
    ensures Extends(t, r.1)
    ensures r.0.Ok? ==> r.0.value == params
    decreases |t.replies|, 2
  {
    var t1 := t.(log := t.log + DobotErrors.Diagnose(code));
    assert t1.log[..|t.log|] == t.log;
    if DobotErrors.ClearsError(code) then
      var (c, t2) := CallSpec(conn, t1, DobotCatalog.ClearError, [], map[]);
      ExtendsTrans(t, t1, t2);
      (if c.Err? then Err(c.error) else Ok(params), t2)
    else (Ok(params), t1)
  }

  /** A generated command method: bind the arguments (TypeError), then `send_cmd` of the encoding. */
  function CallSpec(conn: Option<Conn>, t: Trace, op: OpSpec, positional: seq<Value>, keywords: map<string, Value>): (r: (Result<seq<Number>>, Trace))
    ensures Extends(t, r.1)
    decreases |t.replies|, 1
  {
    match Bind(op, positional, keywords)
    case Err(e) => (Err(e), t)
    case Ok(vs) => SendCmdSpec(conn, t, Encode(op, vs))
  }

  // ---------------------------------------------------------------------------------------------
  // The client

  class Dobot {
    var conn: Option<Conn>
    var sent: seq<string>
    var replies: seq<string>
    var log: seq<DobotErrors.Report>

    function State(): Trace
      reads this
    {
      Trace(sent, replies, log)
    }

    /** A new client holds a connection object that is not connected. */
    constructor (replies: seq<string>)
      ensures conn == Some(Conn(false)) && State() == Trace([], replies, [])
    {
      conn := Some(Conn(false));
      sent := [];
      this.replies := replies;
      log := [];
    }

    /**
     * `connect`: with a connection object, a successful open marks it connected; any exception
     * (the open failing, or no connection object at all) leaves the client without one.
     */
    method Connect(opens: bool)
      modifies this`conn
      ensures conn == if old(conn).Some? && opens then Some(Conn(true)) else None
    {
      if conn.Some? && opens {
        conn := Some(Conn(true));
      } else {
        conn := None;
      }
    }

    /**
     * `disconnect`: AttributeError without a connection object; nothing when not connected;
     * otherwise the connection is closed and the object dropped.
     */
    method Disconnect() returns (r: Result<Unit>)
      modifies this`conn
      ensures old(conn).None? ==> r == Err(AttributeError) && conn == None
      ensures old(conn) == Some(Conn(false)) ==> r == Ok(Unit) && conn == old(conn)
      ensures old(conn) == Some(Conn(true)) ==> r == Ok(Unit) && conn == None
    {
      if conn.None? {
        return Err(AttributeError);
      }
      if !conn.value.status {
        return Ok(Unit);
      }
      conn := None;
      r := Ok(Unit);
    }

    /** `send_cmd(cmd)`. */
    method SendCmd(cmd: string) returns (r: Result<seq<Number>>)
      modifies this`sent, this`replies, this`log
      ensures (r, State()) == SendCmdSpec(conn, old(State()), cmd)
      decreases |replies|, 0
    {
      if conn.None? {
        return Err(AttributeError);
      }
      if !conn.value.status {
        return Err(ConnectionError);
      }
      sent := sent + [cmd];
      if replies == [] {
        return Err(Timeout);
      }
      var received := replies[0];
      replies := replies[1..];
      match ParseResponse(ReplyBody(received, cmd))
      case Err(e) =>
        r := Err(e);
      case Ok((code, ps)) =>
        r := Handle(code, ps, cmd);
    }

    /** `handle(err, params, cmd)`. */
    method Handle(code: int, params: seq<Number>, cmd: string) returns (r: Result<seq<Number>>)
      modifies this`sent, this`replies, this`log
      ensures (r, State()) == HandleSpec(conn, old(State()), code, params, cmd)
      decreases |replies|, 2
    {
      log := log + DobotErrors.Diagnose(code);
      if DobotErrors.ClearsError(code) {
        var c := Call(DobotCatalog.ClearError, [], map[]);
        r := if c.Err? then Err(c.error) else Ok(params);
      } else {
        r := Ok(params);
      }
    }

    /** A generated command method, called with positional and keyword arguments. */
    method Call(op: OpSpec, positional: seq<Value>, keywords: map<string, Value>) returns (r: Result<seq<Number>>)
      modifies this`sent, this`replies, this`log
      ensures (r, State()) == CallSpec(conn, old(State()), op, positional, keywords)
      decreases |replies|, 1
    {
      var b := Bind(op, positional, keywords);
      if b.Err? {
        return Err(b.error);
      }
      r := SendCmd(Encode(op, b.value));
    }

    /** `Grab(close, length)`: sends the gripper command of `GripCommand` directly. */
    method Grab(close: bool, length: Value) returns (r: Result<seq<Number>>)
      modifies this`sent, this`replies, this`log
      ensures (r, State()) == SendCmdSpec(conn, old(State()), GripCommand(close, length))
    {
      r := SendCmd(GripCommand(close, length));
    }

    /** `MovJJoint` and `MovJPose`: a joint or pose point of exactly six values, moved to by `MovJ`. */
    method MovJPoint(kind: PointKind, point: seq<Value>, user: Value, tool: Value, a: Value, v: Value, cp: Value)
      returns (r: Result<seq<Number>>)
      modifies this`sent, this`replies, this`log
      ensures |point| != 6 ==> r == Err(AssertionError) && State() == old(State())
      ensures |point| == 6 ==> (r, State()) == SendCmdSpec(conn, old(State()), MovJCommand(kind, point, user, tool, a, v, cp))
    {
      if |point| != 6 {
        return Err(AssertionError);
      }
      MovJBinds(kind, point, user, tool, a, v, cp);
      r := Call(DobotCatalog.MovJ, [Str(PointArg(kind, point)), user, tool, a, v, cp], map[]);
    }

    /** `MovLJoint` and `MovLPose`: as `MovJPoint`, through `MovL`, which also takes speed and r. */
    method MovLPoint(kind: PointKind, point: seq<Value>, user: Value, tool: Value, a: Value, v: Value, speed: Value, cp: Value, radius: Value)
      returns (r: Result<seq<Number>>)
      modifies this`sent, this`replies, this`log
      ensures |point| != 6 ==> r == Err(AssertionError) && State() == old(State())
      ensures |point| == 6 ==> (r, State()) == SendCmdSpec(conn, old(State()), MovLCommand(kind, point, user, tool, a, v, speed, cp, radius))
    {
      if |point| != 6 {
        return Err(AssertionError);
      }
      MovLBinds(kind, point, user, tool, a, v, speed, cp, radius);
      r := Call(DobotCatalog.MovL, [Str(PointArg(kind, point)), user, tool, a, v, speed, cp, radius], map[]);
    }

    /** `RelPointUserJoint` and `RelPointUserPose`: a six-value point and a six-value offset. */
    method RelPointUserPoint(kind: PointKind, point: seq<Value>, offset: seq<Value>) returns (r: Result<seq<Number>>)
      modifies this`sent, this`replies, this`log
      ensures (|point| != 6 || |offset| != 6) ==> r == Err(AssertionError) && State() == old(State())
      ensures |point| == 6 && |offset| == 6 ==>
        (r, State()) == SendCmdSpec(conn, old(State()), RelPointUserCommand(kind, point, offset))
    {
      if |point| != 6 || |offset| != 6 {
        return Err(AssertionError);
      }
      RelPointUserBinds(kind, point, offset);
      r := Call(DobotCatalog.RelPointUser, [Str(PointArg(kind, point)), Str(ListArg(offset))], map[]);
    }

    /** `Home`, `Pack` and `Stay`: `MovJJoint` to a fixed joint point, with no options. */
    method GoTo(place: Place) returns (r: Result<seq<Number>>)
      modifies this`sent, this`replies, this`log
      ensures (r, State()) == SendCmdSpec(conn, old(State()), MovJCommand(Joint, PlaceJoints(place), Null, Null, Null, Null, Null))
    {
      r := MovJPoint(Joint, PlaceJoints(place), Null, Null, Null, Null, Null);
    }
  }

  // ---------------------------------------------------------------------------------------------
  // The helper commands

  /** Python truthiness of an argument value. */
  predicate Truthy(v: Value)
  {
    match v
    case Null => false
    case Num(n) => Numbers.Truthy(n)
    case Str(s) => s != ""
  }

  /**
   * `SetParallelGripper((length or 38) if close else 70)`: closing uses the given length unless
   * it is falsy, then 38; opening always uses 70.
   */
  function GripCommand(close: bool, length: Value): (cmd: string)
    ensures !close ==> cmd == "SetParallelGripper(70)"
    ensures close && !Truthy(length) ==> cmd == "SetParallelGripper(38)"
    ensures close && Truthy(length) ==> cmd == "SetParallelGripper(" + StrValue(length) + ")"
  {
    "SetParallelGripper(" + (if close then (if Truthy(length) then StrValue(length) else "38") else "70") + ")"
  }

  datatype PointKind = Joint | Pose

  /** The rendered values of a list, as `map(str, list)`. */
  function StrValues(vs: seq<Value>): (ss: seq<string>)
    ensures |ss| == |vs| && forall i :: 0 <= i < |vs| ==> ss[i] == StrValue(vs[i])
  {
    seq(|vs|, i requires 0 <= i < |vs| => StrValue(vs[i]))
  }

  /** `{v1,...,vn}`. */
  function ListArg(vs: seq<Value>): string
  {
    "{" + Join(StrValues(vs), ',') + "}"
  }

  /** `joint={...}` or `pose={...}`. */
  function PointArg(kind: PointKind, vs: seq<Value>): string
  {
    (if kind == Joint then "joint=" else "pose=") + ListArg(vs)
  }

  /** `key=v` for an option that is given, nothing for one that is None. */
  function Opt(key: string, v: Value): (r: seq<string>)
    ensures v == Null <==> r == []
  {
    if v == Null then [] else [key + "=" + StrValue(v)]
  }

  /** `MovJ` from a point helper: the command opens with `MovJ(` and the point. */
  function MovJCommand(kind: PointKind, point: seq<Value>, user: Value, tool: Value, a: Value, v: Value, cp: Value): (cmd: string)
    ensures "MovJ(" + PointArg(kind, point) <= cmd
  {
    var vs := [Str(PointArg(kind, point)), user, tool, a, v, cp];
    EncodeLeads(DobotCatalog.MovJ, vs);
    Encode(DobotCatalog.MovJ, vs)
  }

  /** `MovL` from a point helper: the command opens with `MovL(` and the point. */
  function MovLCommand(kind: PointKind, point: seq<Value>, user: Value, tool: Value, a: Value, v: Value, speed: Value, cp: Value, radius: Value): (cmd: string)
    ensures "MovL(" + PointArg(kind, point) <= cmd
  {
    var vs := [Str(PointArg(kind, point)), user, tool, a, v, speed, cp, radius];
    EncodeLeads(DobotCatalog.MovL, vs);
    Encode(DobotCatalog.MovL, vs)
  }

  /** `RelPointUser` from a point helper: the command opens with `RelPointUser(` and the point. */
  function RelPointUserCommand(kind: PointKind, point: seq<Value>, offset: seq<Value>): (cmd: string)
    ensures "RelPointUser(" + PointArg(kind, point) <= cmd
  {
    var vs := [Str(PointArg(kind, point)), Str(ListArg(offset))];
    EncodeLeads(DobotCatalog.RelPointUser, vs);
    Encode(DobotCatalog.RelPointUser, vs)
  }

  datatype Place = Home | Pack | Stay

  /** The joint points of `Home`, `Pack` and `Stay`. */
  function PlaceJoints(place: Place): (js: seq<Value>)
    ensures |js| == 6
  {
    match place
    case Home => [Num(Int(0)), Num(Int(0)), Num(Int(0)), Num(Int(0)), Num(Int(0)), Num(Int(0))]
    case Pack => [Num(Int(-90)), Num(Int(0)), Num(Int(-140)), Num(Int(-40)), Num(Int(0)), Num(Int(0))]
    case Stay => [Num(Int(0)), Num(Int(0)), Num(Int(90)), Num(Int(0)), Num(Int(90)), Num(Int(0))]
  }

  /** The helpers' calls always bind: the point and the five options fill `MovJ` positionally. */
  lemma MovJBinds(kind: PointKind, point: seq<Value>, user: Value, tool: Value, a: Value, v: Value, cp: Value)
    ensures var vs := [Str(PointArg(kind, point)), user, tool, a, v, cp];
      Bind(DobotCatalog.MovJ, vs, map[]) == Ok(vs)
  {
    var vs := [Str(PointArg(kind, point)), user, tool, a, v, cp];
    BindPositional(DobotCatalog.MovJ, vs);
    var b := Bind(DobotCatalog.MovJ, vs, map[]).value;
    assert b == b[..|vs|];
  }

  lemma MovLBinds(kind: PointKind, point: seq<Value>, user: Value, tool: Value, a: Value, v: Value, speed: Value, cp: Value, radius: Value)
    ensures var vs := [Str(PointArg(kind, point)), user, tool, a, v, speed, cp, radius];
      Bind(DobotCatalog.MovL, vs, map[]) == Ok(vs)
  {
    var vs := [Str(PointArg(kind, point)), user, tool, a, v, speed, cp, radius];
    BindPositional(DobotCatalog.MovL, vs);
    var b := Bind(DobotCatalog.MovL, vs, map[]).value;
    assert b == b[..|vs|];
  }

  lemma RelPointUserBinds(kind: PointKind, point: seq<Value>, offset: seq<Value>)
    ensures var vs := [Str(PointArg(kind, point)), Str(ListArg(offset))];
      Bind(DobotCatalog.RelPointUser, vs, map[]) == Ok(vs)
  {
    var vs := [Str(PointArg(kind, point)), Str(ListArg(offset))];
    BindPositional(DobotCatalog.RelPointUser, vs);
    var b := Bind(DobotCatalog.RelPointUser, vs, map[]).value;
    assert b == b[..|vs|];
  }

  // ---------------------------------------------------------------------------------------------
  // What the client promises

  /** The part of a well-formed reply that `parse` reads: `code,{p1,...,pn}`. */
  function ReplyFields(code: int, ns: seq<Number>): string
  {
    IntToString(code) + "," + ("{" + Join(RenderAll(ns), ',') + "}")
  }

  /** A well-formed reply to `cmd`: its fields followed by the echo `,cmd;`. */
  function ReplyText(code: int, ns: seq<Number>, cmd: string): string
  {
    ReplyFields(code, ns) + ("," + cmd + ";")
  }

  /** Joining pieces whose first is not empty gives a text that is not empty. */
  lemma JoinNotEmpty(parts: seq<string>, sep: char)
    requires |parts| >= 1 && parts[0] != ""
    ensures Join(parts, sep) != ""
  {
    if |parts| > 1 {
      assert Join(parts, sep) == parts[0] + [sep] + Join(parts[1..], sep);
    }
  }

  /** Rendered numbers split back apart at their commas. */
  lemma SplitRendered(ns: seq<Number>)
    requires ns != []
    ensures var j := Join(RenderAll(ns), ','); j != "" && Split(j, ',') == RenderAll(ns)
  {
    var ps := RenderAll(ns);
    forall k | 0 <= k < |ps| ensures ',' !in ps[k] { RenderedToken(ns[k]); }
    RenderedToken(ns[0]);
    JoinNotEmpty(ps, ',');
    SplitJoin(ps, ',');
  }

  /** The parameters between the braces of a well-formed reply read back as the numbers sent. */
  lemma ParseParamsRender(ns: seq<Number>)
    requires AllCanonical(ns)
    ensures ParseParams(Join(RenderAll(ns), ',')) == Ok(ns)
  {
    if ns != [] {
      SplitRendered(ns);
      ParseTokensRender(ns);
    }
  }

  /** `parse` reads the code and the parameters of a well-formed reply body. */
  lemma ParseResponseFields(code: int, ns: seq<Number>)
    requires AllCanonical(ns)
    ensures ParseResponse(ReplyFields(code, ns)) == Ok((code, ns))
  {
    var head := IntToString(code);
    var inner := Join(RenderAll(ns), ',');
    var rest := "{" + inner + "}";
    IntTextHasNoDot(code);
    var parts := SplitOnce(ReplyFields(code, ns), ',');
    assert ReplyFields(code, ns) == head + [','] + rest;
    SplitAtFirst(parts[0], parts[1], head, rest, ',');
    ParseIntToString(code);
    assert Inner(rest) == inner;
    ParseParamsRender(ns);
  }

  /** `send_cmd` hands `parse` exactly the fields of a well-formed reply: strip and echo removal undo themselves. */
  lemma ReplyBodyOf(code: int, ns: seq<Number>, cmd: string)
    ensures ReplyBody(ReplyText(code, ns, cmd), cmd) == ReplyFields(code, ns)
  {
    var text := ReplyText(code, ns, cmd);
    IntTextHead(code);
    assert text[0] == IntToString(code)[0];
    assert text[|text| - 1] == ';';
    StripUnchanged(text);
    RemoveSuffixOf(ReplyFields(code, ns), "," + cmd + ";");
  }

  /** A connected client sends the command, consumes one reply and hands what it parses to `handle`. */
  lemma SendCmdParsed(t: Trace, cmd: string, code: int, ns: seq<Number>)
    requires t.replies != [] && ParseResponse(ReplyBody(t.replies[0], cmd)) == Ok((code, ns))
    ensures SendCmdSpec(Some(Conn(true)), t, cmd) == HandleSpec(Some(Conn(true)), Trace(t.sent + [cmd], t.replies[1..], t.log), code, ns, cmd)
  {
  }

  /** A connected client whose next reply is well formed hands `handle` the code and numbers it carries. */
  lemma SendCmdWellFormed(t: Trace, cmd: string, code: int, ns: seq<Number>)
    requires AllCanonical(ns)
    requires t.replies != [] && t.replies[0] == ReplyText(code, ns, cmd)
    ensures SendCmdSpec(Some(Conn(true)), t, cmd) == HandleSpec(Some(Conn(true)), Trace(t.sent + [cmd], t.replies[1..], t.log), code, ns, cmd)
  {
    ReplyBodyOf(code, ns, cmd);
    ParseResponseFields(code, ns);
    SendCmdParsed(t, cmd, code, ns);
  }

  /**
   * A connected client whose next reply is the well-formed reply to `cmd` with a code other than
   * the alarmed one sends `cmd` once, consumes that reply, logs what `handle` reports for the
   * code, and returns the numbers the reply carries.
   */
  lemma SendCmdReply(t: Trace, cmd: string, code: int, ns: seq<Number>)
    requires AllCanonical(ns) && !DobotErrors.ClearsError(code)
    requires t.replies != [] && t.replies[0] == ReplyText(code, ns, cmd)
    ensures SendCmdSpec(Some(Conn(true)), t, cmd)
      == (Ok(ns), Trace(t.sent + [cmd], t.replies[1..], t.log + DobotErrors.Diagnose(code)))
  {
    SendCmdWellFormed(t, cmd, code, ns);
  }

  /** For the alarmed code, `handle` logs its reports and then sends `ClearError()`. */
  lemma HandleAlarmed(t: Trace, ns: seq<Number>, cmd: string)
    ensures var t1 := t.(log := t.log + DobotErrors.Diagnose(DobotErrors.Alarmed));
      var c := SendCmdSpec(Some(Conn(true)), t1, "ClearError()");
      HandleSpec(Some(Conn(true)), t, DobotErrors.Alarmed, ns, cmd) == (if c.0.Err? then Err(c.0.error) else Ok(ns), c.1)
  {
    assert Bind(DobotCatalog.ClearError, [], map[]) == Ok([]);
    assert Encode(DobotCatalog.ClearError, []) == "ClearError()";
  }

  /** `handle` of the alarmed code, when the reply to its `ClearError()` is well formed. */
  lemma HandleAlarmedReply(t: Trace, ns: seq<Number>, cmd: string, code: int, ms: seq<Number>)
    requires AllCanonical(ms) && !DobotErrors.ClearsError(code)
    requires t.replies != [] && t.replies[0] == ReplyText(code, ms, "ClearError()")
    ensures HandleSpec(Some(Conn(true)), t, DobotErrors.Alarmed, ns, cmd)
      == (Ok(ns), Trace(t.sent + ["ClearError()"], t.replies[1..],
                        t.log + DobotErrors.Diagnose(DobotErrors.Alarmed) + DobotErrors.Diagnose(code)))
  {
    HandleAlarmed(t, ns, cmd);
    var t1 := t.(log := t.log + DobotErrors.Diagnose(DobotErrors.Alarmed));
    SendCmdReply(t1, "ClearError()", code, ms);
  }

  /**
   * An alarmed reply makes `handle` send `ClearError()` before returning: with a well-formed reply
   * to that as well, both commands are sent, both reports logged, and the first reply's numbers
   * returned unchanged.
   */
  lemma SendCmdAlarmed(t: Trace, cmd: string, ns: seq<Number>, code: int, ms: seq<Number>)
    requires AllCanonical(ns) && AllCanonical(ms) && !DobotErrors.ClearsError(code)
    requires |t.replies| >= 2
    requires t.replies[0] == ReplyText(DobotErrors.Alarmed, ns, cmd)
    requires t.replies[1] == ReplyText(code, ms, "ClearError()")
    ensures SendCmdSpec(Some(Conn(true)), t, cmd)
      == (Ok(ns), Trace(t.sent + [cmd, "ClearError()"], t.replies[2..],
                        t.log + DobotErrors.Diagnose(DobotErrors.Alarmed) + DobotErrors.Diagnose(code)))
  {
    SendCmdWellFormed(t, cmd, DobotErrors.Alarmed, ns);
    var t0 := Trace(t.sent + [cmd], t.replies[1..], t.log);
    HandleAlarmedReply(t0, ns, cmd, code, ms);
    assert t.replies[1..][1..] == t.replies[2..];
    assert t.sent + [cmd] + ["ClearError()"] == t.sent + [cmd, "ClearError()"];
  }

  /** Without a connected connection object nothing is sent, nothing read and nothing logged. */
  lemma NotConnectedSendsNothing(conn: Option<Conn>, t: Trace, op: OpSpec, positional: seq<Value>, keywords: map<string, Value>)
    requires conn != Some(Conn(true))
    ensures CallSpec(conn, t, op, positional, keywords).1 == t
    ensures CallSpec(conn, t, op, positional, keywords).0
      == if Bind(op, positional, keywords).Err? then Err(TypeError)
         else if conn.None? then Err(AttributeError) else Err(ConnectionError)
  {
  }

  /** A reply without a comma fails the assertion; an empty brace pair reads as no parameters. */
  lemma ParseResponseExamples()
    ensures ParseResponse("0") == Err(AssertionError)
    ensures ParseResponse("0,{}") == Ok((0, []))
  {
    assert ReplyFields(0, []) == "0,{}";
    ParseResponseFields(0, []);
  }

  /** A parameter declared `_key` contributes `key=value` when given and nothing when None. */
  lemma KeyedStep(ps: seq<ParamSpec>, vs: seq<Value>, i: nat, key: string)
    requires |ps| == |vs| && i < |vs| && ps[i].name == "_" + key
    ensures RenderFrom(ps, vs, i) == Opt(key, vs[i]) + RenderFrom(ps, vs, i + 1)
  {
    assert ps[i].name[1..] == key;
  }

  /** Five parameters declared `_key`: each given option contributes `key=value`, in order. */
  lemma FiveKeyed(ps: seq<ParamSpec>, vs: seq<Value>, k1: string, k2: string, k3: string, k4: string, k5: string)
    requires |ps| == |vs| == 6
    requires ps[1].name == "_" + k1 && ps[2].name == "_" + k2 && ps[3].name == "_" + k3
    requires ps[4].name == "_" + k4 && ps[5].name == "_" + k5
    ensures RenderFrom(ps, vs, 1) == Opt(k1, vs[1]) + Opt(k2, vs[2]) + Opt(k3, vs[3]) + Opt(k4, vs[4]) + Opt(k5, vs[5])
  {
    KeyedStep(ps, vs, 5, k5);
    KeyedStep(ps, vs, 4, k4);
    KeyedStep(ps, vs, 3, k3);
    KeyedStep(ps, vs, 2, k2);
    KeyedStep(ps, vs, 1, k1);
    assert RenderFrom(ps, vs, 6) == [];
  }

  /**
   * The arguments of `MovJ` from a helper: the point first, then each option that is given, as
   * `key=value` without the underscore, in declaration order.
   */
  lemma MovJArgs(kind: PointKind, point: seq<Value>, user: Value, tool: Value, a: Value, v: Value, cp: Value)
    ensures RenderArgs(DobotCatalog.MovJ.params, [Str(PointArg(kind, point)), user, tool, a, v, cp])
      == [PointArg(kind, point)] + (Opt("user", user) + Opt("tool", tool) + Opt("a", a) + Opt("v", v) + Opt("cp", cp))
  {
    var ps := DobotCatalog.MovJ.params;
    var vs := [Str(PointArg(kind, point)), user, tool, a, v, cp];
    FiveKeyed(ps, vs, "user", "tool", "a", "v", "cp");
    assert RenderFrom(ps, vs, 0) == [PointArg(kind, point)] + RenderFrom(ps, vs, 1);
  }

  /** The joint values of `Home` as `map(str, ...)` renders them. */
  lemma HomeValues()
    ensures StrValues(PlaceJoints(Home)) == ["0", "0", "0", "0", "0", "0"]
  {
    var js := PlaceJoints(Home);
    var ss := StrValues(js);
    assert StrValue(Num(Int(0))) == "0";
    forall i | 0 <= i < 6 ensures ss[i] == "0" { assert js[i] == Num(Int(0)); }
  }

  /** The joint point of `Home` as it is sent: with `MovJPointOnly`, `Home()` sends `MovJ(joint={0,0,0,0,0,0})`. */
  lemma HomePoint()
    ensures PointArg(Joint, PlaceJoints(Home)) == "joint={0,0,0,0,0,0}"
  {
    HomeValues();
    assert Join(["0", "0", "0", "0", "0", "0"], ',') == "0,0,0,0,0,0";
  }

  /** `MovJ` from a helper with no options given carries the point alone. */
  lemma MovJPointOnly(kind: PointKind, point: seq<Value>)
    ensures MovJCommand(kind, point, Null, Null, Null, Null, Null) == "MovJ(" + PointArg(kind, point) + ")"
  {
    var p := PointArg(kind, point);
    MovJArgs(kind, point, Null, Null, Null, Null, Null);
    EncodeOne(DobotCatalog.MovJ, [Str(p), Null, Null, Null, Null, Null], p);
  }

  /** A command with a single argument is its name and that argument in parentheses. */
  lemma EncodeOne(op: OpSpec, vs: seq<Value>, p: string)
    requires |vs| == |op.params| && RenderArgs(op.params, vs) == [p]
    ensures Encode(op, vs) == op.name + "(" + p + ")"
  {
  }
}
