/**
 * The src revision of the Dobot client (src/dobot.py): a datagram socket that is either present
 * or absent; a generated command method refuses to run without it, and otherwise binds its
 * arguments, writes the encoded command and parses the flat reply `code,p1,...,pn,msg`, falling
 * back to `(-1, [], '')` when a token is not a number.
 *
 * As in the service revision, `sent` records every command written and `replies` is the sequence
 * of texts successive `recv` calls return.
 */
module SrcDobot {
  import opened Common
  import opened Text
  import opened Numbers
  import opened DobotCommand

  /** The parsed reply: the code, the number parameters and the trailing message. */
  datatype Reply = Reply(code: int, params: seq<Number>, msg: string)

  /** What `parse` returns when a token is not a number (`DobotErrorCode.EXECUTION_FAILED`). */
  const Fallback := Reply(-1, [], "")

  /**
   * `parse(data)`: split the stripped text at every comma; the first token is the code, the
   * tokens strictly between the first and the last are parameters, and the last token is the
   * message when there are at least two tokens.
   */
  function ParseReply(data: string): (r: Reply)
    ensures r != Fallback ==> ParseInt(Split(Strip(data), ',')[0]) == Some(r.code)
    ensures |Split(Strip(data), ',')| == 1 ==> r.params == [] && r.msg == ""
  {
    var parts := Split(Strip(data), ',');
    match ParseInt(parts[0])
    case None => Fallback
    case Some(code) =>
      match ParseTokens(if |parts| >= 2 then parts[1..|parts| - 1] else [])
      case Err(_) => Fallback
      case Ok(ns) => Reply(code, ns, if |parts| > 1 then parts[|parts| - 1] else "")
  }

  /** The socket: absent before `connect`, after a failed one, and after `disconnect`. */
  class Dobot {
    var socket: bool
    var sent: seq<string>
    var replies: seq<string>

    constructor (replies: seq<string>)
      ensures !socket && sent == [] && this.replies == replies
    {
      socket := false;
      sent := [];
      this.replies := replies;
    }

    /** `connect`: a new socket when it opens; any exception leaves none. */
    method Connect(opens: bool)
      modifies this`socket
      ensures socket == opens
    {
      socket := opens;
    }

    /** `disconnect`: closes and drops the socket if there is one; otherwise nothing. */
    method Disconnect()
      modifies this`socket
      ensures !socket
    {
      if socket {
        socket := false;
      }
    }

    /**
     * A generated command method: ConnectionError without a socket, before anything is bound;
     * then TypeError if the arguments do not bind; then the command is written and one reply
     * parsed.
     */
    method Call(op: OpSpec, positional: seq<Value>, keywords: map<string, Value>) returns (r: Result<Reply>)
      modifies this`sent, this`replies
      ensures !socket ==> r == Err(ConnectionError) && sent == old(sent) && replies == old(replies)
      ensures socket && Bind(op, positional, keywords).Err? ==>
        r == Err(TypeError) && sent == old(sent) && replies == old(replies)
      ensures socket && Bind(op, positional, keywords).Ok? ==>
        && sent == old(sent) + [Encode(op, Bind(op, positional, keywords).value)]
        && (old(replies) == [] ==> r == Err(Timeout) && replies == [])
        && (old(replies) != [] ==> r == Ok(ParseReply(old(replies)[0])) && replies == old(replies)[1..])
    {
      if !socket {
        return Err(ConnectionError);
      }
      var b := Bind(op, positional, keywords);
      if b.Err? {
        return Err(b.error);
      }
      sent := sent + [Encode(op, b.value)];
      if replies == [] {
        return Err(Timeout);
      }
      r := Ok(ParseReply(replies[0]));
      replies := replies[1..];
    }
  }

  // ---------------------------------------------------------------------------------------------
  // What `parse` promises

  /** A well-formed reply: the code, the rendered parameters and the message, joined by commas. */
  function ReplyLine(code: int, ns: seq<Number>, msg: string): string
  {
    Join([IntToString(code)] + RenderAll(ns) + [msg], ',')
  }

  /** The tokens of a well-formed reply hold no comma. */
  lemma ReplyTokensFree(code: int, ns: seq<Number>, msg: string)
    requires ',' !in msg
    ensures var parts := [IntToString(code)] + RenderAll(ns) + [msg];
      forall k :: 0 <= k < |parts| ==> ',' !in parts[k]
  {
    var parts := [IntToString(code)] + RenderAll(ns) + [msg];
    IntTextHasNoDot(code);
    forall k | 0 <= k < |parts| ensures ',' !in parts[k] {
      if 0 < k < |parts| - 1 {
        assert parts[k] == RenderNumber(ns[k - 1]);
        RenderedToken(ns[k - 1]);
      }
    }
  }

  /** A well-formed reply line is left alone by `strip`. */
  lemma ReplyLineStripped(code: int, ns: seq<Number>, msg: string)
    requires msg != "" ==> !IsSpace(msg[|msg| - 1])
    ensures Strip(ReplyLine(code, ns, msg)) == ReplyLine(code, ns, msg)
  {
    var parts := [IntToString(code)] + RenderAll(ns) + [msg];
    var line := ReplyLine(code, ns, msg);
    var head := IntToString(code);
    JoinEnds(parts, ',');
    IntTextHead(code);
    assert line[0] == head[0] by {
      assert parts[0] == head && line[..|head|] == head;
    }
    assert !IsSpace(line[|line| - 1]) by {
      var suffix := line[|line| - |msg| - 1..];
      assert parts[|parts| - 1] == msg && suffix == [','] + msg;
      assert line[|line| - 1] == suffix[|suffix| - 1];
    }
    StripUnchanged(line);
  }

  /** A join of two or more pieces starts with the first piece and ends with the separator and the last. */
  lemma {:induction false} JoinEnds(parts: seq<string>, sep: char)
    requires |parts| >= 2
    ensures var j := Join(parts, sep);
      && |j| >= |parts[0]| + 1 && j[..|parts[0]|] == parts[0]
      && |j| >= |parts[|parts| - 1]| + 1
      && j[|j| - |parts[|parts| - 1]| - 1..] == [sep] + parts[|parts| - 1]
  {
    var j := Join(parts, sep);
    var rest := Join(parts[1..], sep);
    assert j == parts[0] + [sep] + rest;
    if |parts| > 2 {
      JoinEnds(parts[1..], sep);
    }
  }

  /** `parse` reads back the code, the parameters and a comma-free message of a well-formed reply. */
  lemma ParseReplyLine(code: int, ns: seq<Number>, msg: string)
    requires AllCanonical(ns) && ',' !in msg
    requires msg != "" ==> !IsSpace(msg[|msg| - 1])
    ensures ParseReply(ReplyLine(code, ns, msg)) == Reply(code, ns, msg)
  {
    var parts := [IntToString(code)] + RenderAll(ns) + [msg];
    ReplyTokensFree(code, ns, msg);
    SplitJoin(parts, ',');
    ReplyLineStripped(code, ns, msg);
    assert Split(Strip(ReplyLine(code, ns, msg)), ',') == parts;
    ParseIntToString(code);
    assert parts[1..|parts| - 1] == RenderAll(ns);
    ParseTokensRender(ns);
  }

  /** Text whose first token is not an integer (the empty reply included) gives the fallback. */
  lemma ParseReplyBadCode(data: string)
    requires ParseInt(Split(Strip(data), ',')[0]).None?
    ensures ParseReply(data) == Fallback
  {
  }

  /** The empty reply: `int('')` raises, so the fallback is returned. */
  lemma ParseReplyEmpty()
    ensures ParseReply("") == Fallback
  {
    assert Strip("") == "";
    ParseIntEmpty();
  }

  /** A parameter token that is not a number gives the fallback. */
  lemma ParseReplyBadParam(data: string, k: nat)
    requires var parts := Split(Strip(data), ','); 1 <= k < |parts| - 1 && ParseNumber(parts[k]).None?
    ensures ParseReply(data) == Fallback
  {
    var parts := Split(Strip(data), ',');
    var mid := parts[1..|parts| - 1];
    assert ParseTokens(mid).Err? by {
      assert mid[k - 1] == parts[k];
      assert ParseNumber(mid[k - 1]).None?;
    }
  }

  /** A one-token reply has no parameters and an empty message. */
  lemma ParseReplyOneToken(d: string)
    requires AllDigits(d) && d != []
    ensures ParseReply(d) == Reply(DigitsValue(d), [], "")
  {
    UnsignedTextShape(d);
    assert ',' !in d;
    SplitPrefix(d, "", ',');
    assert d + "" == d;
    ParseIntDigits(d);
  }

  /** A two-token reply has no parameters; the second token is the message. */
  lemma ParseReplyTwoTokens(code: int, msg: string)
    requires ',' !in msg && (msg != "" ==> !IsSpace(msg[|msg| - 1]))
    ensures ParseReply(IntToString(code) + "," + msg) == Reply(code, [], msg)
  {
    assert ReplyLine(code, [], msg) == IntToString(code) + "," + msg by {
      assert [IntToString(code)] + RenderAll([]) + [msg] == [IntToString(code), msg];
      assert Join([IntToString(code), msg], ',') == IntToString(code) + [','] + Join([msg], ',');
    }
    ParseReplyLine(code, [], msg);
  }
}
