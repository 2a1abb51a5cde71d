/**
 * The ESP32 station's command loop (embeded/main.py): it reads one command at a time from the
 * UART, upper-cases it, answers START and DONE, runs the mixing cycle (stir, report the filtered
 * pH every 100 reads, five times) and the injection cycle (the syringe stepper 2000 steps up and
 * back down).
 *
 * What the UART delivers, and the filtered pH at each read, are inputs: the received data is
 * `None` when nothing was read, and `filtered(k)` is the filter's output at the station's `k`-th
 * read. The messages sent are kept in order in `sent`; the mixing motor's on/off calls in
 * `motorCalls`.
 */
module Esp32Main {
  import opened Common
  import Motor
  import opened Text

  /** A message sent over the UART: a fixed text, or a pH report carrying the filtered value. */
  datatype Msg = Text(text: string) | PhReport(ph: real)

  const MixStart := Text("MIX_START")
  const MixDone := Text("MIX_DONE")
  const InjectStart := Text("INJECT_START")
  const InjectDone := Text("INJECT_DONE")
  const Ready := Text("READY")
  const Done := Text("DONE")

  /** Reads between two pH reports, and reports per mixing cycle. */
  const ReadsPerReport := 100
  const ReportsPerMix := 5

  /** The steps the syringe travels each way, at 100 revolutions per minute. */
  const InjectSteps := 2000
  const InjectRpm := 100.0

  // ---------------------------------------------------------------------------------------------
  // Commands

  /** ASCII upper case of one character; other characters are left alone. */
  function UpperChar(c: char): char
  {
    if 'a' <= c <= 'z' then (c as int - 'a' as int + 'A' as int) as char else c
  }

  /** `str.upper` on the ASCII letters. */
  function Upper(s: string): (t: string)
    ensures |t| == |s|
  {
    seq(|s|, i requires 0 <= i < |s| => UpperChar(s[i]))
  }

  /** Upper-casing twice changes nothing more. */
  lemma UpperIdempotent(s: string)
    ensures Upper(Upper(s)) == Upper(s)
  {
  }

  /** What one received command makes the loop do. */
  datatype Command = Ignore | Greet | Mix | Inject | Finish

  /**
   * The chain of tests on the upper-cased data: exactly the four command words do something, and
   * empty data is skipped.
   */
  function Classify(data: string): (c: Command)
    ensures c != Ignore <==> data in {"START", "DO_MIX", "DO_INJECT", "DONE"}
    ensures c == Greet <==> data == "START"
  {
    if data == "" then Ignore
    else if data == "START" then Greet
    else if data == "DO_MIX" then Mix
    else if data == "DO_INJECT" then Inject
    else if data == "DONE" then Finish
    else Ignore
  }

  /**
   * One pass of the loop as written: the received data is upper-cased before any test, so an
   * idle UART, which delivers `None`, raises an AttributeError the loop does not catch.
   */
  function DispatchAsWritten(received: Option<string>): (r: Result<Command>)
    ensures received.None? <==> r == Err(AttributeError)
  {
    match received
    case None => Err(AttributeError)
    case Some(data) => Ok(Classify(Upper(data)))
  }

  /**
   * With the data the UART hands over, the empty-data test can never fire: an empty read comes
   * back as `None`, and non-empty text stays non-empty upper-cased.
   */
  lemma EmptyDataGuardUnreachable(data: string)
    requires data != ""
    ensures Upper(data) != ""
    ensures DispatchAsWritten(None) == Err(AttributeError)
  {
  }

  /**
   * The loop as evidently meant: no data, like empty data, is skipped; wherever the written pass
   * does not raise, the two agree.
   */
  function Dispatch(received: Option<string>): (c: Command)
    ensures received.None? ==> c == Ignore
    ensures DispatchAsWritten(received).Ok? ==> c == DispatchAsWritten(received).value
  {
    match received
    case None => Ignore
    case Some(data) => Classify(Upper(data))
  }

  /**
   * The intended pass agrees with the written one wherever that one does not raise, skips an idle
   * UART, and matches commands in any letter case but only exactly: a trailing newline is not
   * stripped, so "start\n" gets no answer.
   */
  lemma DispatchIntended(received: Option<string>, data: string)
    ensures DispatchAsWritten(received).Ok? ==> Dispatch(received) == DispatchAsWritten(received).value
    ensures Dispatch(None) == Ignore
    ensures Dispatch(Some(data)) == Dispatch(Some(Upper(data)))
    ensures Dispatch(Some("start")) == Greet && Dispatch(Some("Do_Mix")) == Mix
    ensures Dispatch(Some("start\n")) == Ignore
  {
    UpperIdempotent(data);
    assert Upper("start") == "START";
    assert Upper("Do_Mix") == "DO_MIX";
    assert Upper("start\n") == "START\n";
  }

  // ---------------------------------------------------------------------------------------------
  // The UART's send (embeded/uart.py)

  /** What `UARTWrapper.send` is handed: a `str`, or `bytes` (kept as their byte-valued characters). */
  datatype SendArg = StrArg(text: string) | BytesArg(bytes: string)

  /**
   * `send` as written: `buf + b'\n'` adds bytes to its argument, which Python refuses with
   * TypeError when the argument is a `str`; `bytes` go out followed by a newline.
   */
  function UartSendAsWritten(arg: SendArg): (r: Result<string>)
    ensures r.Err? <==> arg.StrArg?
    ensures r.Err? ==> r.error == TypeError
    ensures r.Ok? ==> |r.value| == |arg.bytes| + 1 && r.value[..|arg.bytes|] == arg.bytes && r.value[|arg.bytes|] == '\n'
  {
    match arg
    case StrArg(_) => Err(TypeError)
    case BytesArg(b) => Ok(b + "\n")
  }

  /** `send` as evidently meant: the message, as text or bytes, followed by a newline. */
  function UartSendIntended(arg: SendArg): string
  {
    match arg
    case StrArg(t) => t + "\n"
    case BytesArg(b) => b + "\n"
  }

  /**
   * The intended send agrees with the written one wherever that one does not raise, writes a
   * `str` as it writes the same characters as `bytes`, and always writes one line: the message,
   * then a newline, which a reader splitting on newlines gets back alone when the message has none.
   */
  lemma UartSendIntendedAgrees(arg: SendArg, t: string)
    ensures UartSendAsWritten(arg).Ok? ==> UartSendIntended(arg) == UartSendAsWritten(arg).value
    ensures UartSendIntended(StrArg(t)) == UartSendIntended(BytesArg(t))
    ensures '\n' !in t ==> Split(UartSendIntended(StrArg(t)), '\n') == [t, ""]
  {
    if '\n' !in t {
      SplitJoin([t, ""], '\n');
      assert Join([t, ""], '\n') == t + "\n";
    }
  }

  /**
   * As written, every command that sends anything raises TypeError at its first `send`, which is
   * handed the `str` of a fixed message: START and DONE get no answer, and DO_MIX and DO_INJECT
   * stop at their announcement, before the stirrer starts or the syringe moves.
   */
  lemma FirstSendRaisesAsWritten(filtered: nat -> real, command: Command, readCount: nat, stepsPerRev: int)
    requires Effect(filtered, command, readCount, stepsPerRev) != []
    ensures var first := Effect(filtered, command, readCount, stepsPerRev)[0];
      && first in {Ready, Done, MixStart, InjectStart}
      && UartSendAsWritten(StrArg(first.text)) == Err(TypeError)
  {
  }

  // ---------------------------------------------------------------------------------------------
  // The cycles

  /** The pH reports of a mixing cycle starting at read `start`: each carries every 100th value. */
  function PhReports(filtered: nat -> real, start: nat, count: nat): (rs: seq<Msg>)
    ensures |rs| == count
    decreases count
  {
    if count == 0 then []
    else PhReports(filtered, start, count - 1) + [PhReport(filtered(start + ReadsPerReport * count - 1))]
  }

  /** Report `k` (from 0) carries the value of the last of the `k+1`-th hundred reads. */
  lemma {:induction false} PhReportsAt(filtered: nat -> real, start: nat, count: nat, k: nat)
    requires k < count
    ensures PhReports(filtered, start, count)[k] == PhReport(filtered(start + ReadsPerReport * (k + 1) - 1))
    decreases count
  {
    if k < count - 1 {
      PhReportsAt(filtered, start, count - 1, k);
    }
  }

  /** Everything one mixing cycle sends. */
  function MixMessages(filtered: nat -> real, start: nat): seq<Msg>
  {
    [MixStart] + PhReports(filtered, start, ReportsPerMix) + [MixDone]
  }

  /** How many pH reports a list of messages holds. */
  function CountReports(ms: seq<Msg>): nat
    decreases |ms|
  {
    if ms == [] then 0 else CountReports(ms[..|ms| - 1]) + (if ms[|ms| - 1].PhReport? then 1 else 0)
  }

  lemma {:induction false} CountReportsAppend(a: seq<Msg>, b: seq<Msg>)
    ensures CountReports(a + b) == CountReports(a) + CountReports(b)
    decreases |b|
  {
    if b == [] {
      assert a + b == a;
    } else {
      var n := |b| - 1;
      assert (a + b)[..|a + b| - 1] == a + b[..n];
      CountReportsAppend(a, b[..n]);
    }
  }

  lemma {:induction false} CountAllReports(filtered: nat -> real, start: nat, count: nat)
    ensures CountReports(PhReports(filtered, start, count)) == count
    decreases count
  {
    if count > 0 {
      var rs := PhReports(filtered, start, count);
      assert rs[..count - 1] == PhReports(filtered, start, count - 1);
      CountAllReports(filtered, start, count - 1);
    }
  }

  /**
   * A mixing cycle sends MIX_START first and MIX_DONE last, and exactly five pH reports between
   * them, the k-th carrying the value of read 100(k+1) of the cycle.
   */
  lemma MixTranscript(filtered: nat -> real, start: nat)
    ensures var ms := MixMessages(filtered, start);
      |ms| == 7 && ms[0] == MixStart && ms[6] == MixDone && CountReports(ms) == 5
      && forall k :: 1 <= k <= 5 ==> ms[k] == PhReport(filtered(start + 100 * k - 1))
  {
    var rs := PhReports(filtered, start, ReportsPerMix);
    CountAllReports(filtered, start, ReportsPerMix);
    CountReportsAppend([MixStart], rs);
    CountReportsAppend([MixStart] + rs, [MixDone]);
    assert CountReports([MixStart]) == 0 by {
      assert [MixStart][..0] == [];
    }
    assert CountReports([MixDone]) == 0 by {
      assert [MixDone][..0] == [];
    }
    var ms := MixMessages(filtered, start);
    forall k | 1 <= k <= 5
      ensures ms[k] == PhReport(filtered(start + 100 * k - 1))
    {
      PhReportsAt(filtered, start, ReportsPerMix, k - 1);
      assert ms[k] == rs[k - 1];
    }
  }

  /** Everything one injection cycle sends: only the start when `set_rpm` divides by zero. */
  function InjectMessages(stepsPerRev: int): seq<Msg>
  {
    if stepsPerRev == 0 then [InjectStart] else [InjectStart, InjectDone]
  }

  /** What one command sends, the filter having been read `readCount` times before. */
  function Effect(filtered: nat -> real, command: Command, readCount: nat, stepsPerRev: int): seq<Msg>
  {
    match command
    case Ignore => []
    case Greet => [Ready]
    case Finish => [Done]
    case Mix => MixMessages(filtered, readCount)
    case Inject => InjectMessages(stepsPerRev)
  }

  /** Whether a command raises: an injection whose `set_rpm` divides by zero. */
  predicate Raises(command: Command, stepsPerRev: int)
  {
    command == Inject && stepsPerRev == 0
  }

  /** The filter reads one command makes. */
  function ReadsOf(command: Command): nat
  {
    if command == Mix then ReadsPerReport * ReportsPerMix else 0
  }

  /** The commands a run of received data stands for. */
  function Commands(inbox: seq<Option<string>>): (cs: seq<Command>)
    ensures |cs| == |inbox|
  {
    seq(|inbox|, i requires 0 <= i < |inbox| => Dispatch(inbox[i]))
  }

  /**
   * Everything the loop sends for a run of commands, the filter having been read `readCount`
   * times before; a command that raises ends the loop.
   */
  function Transcript(filtered: nat -> real, commands: seq<Command>, readCount: nat, stepsPerRev: int): seq<Msg>
    decreases |commands|
  {
    if commands == [] then []
    else
      var command := commands[0];
      Effect(filtered, command, readCount, stepsPerRev)
      + if Raises(command, stepsPerRev) then []
        else Transcript(filtered, commands[1..], readCount + ReadsOf(command), stepsPerRev)
  }

  /** The first command's effect, then the rest unless it raised. */
  lemma TranscriptCons(filtered: nat -> real, commands: seq<Command>, readCount: nat, stepsPerRev: int)
    requires commands != []
    ensures Raises(commands[0], stepsPerRev) ==>
      Transcript(filtered, commands, readCount, stepsPerRev) == Effect(filtered, commands[0], readCount, stepsPerRev)
    ensures !Raises(commands[0], stepsPerRev) ==>
      Transcript(filtered, commands, readCount, stepsPerRev)
      == Effect(filtered, commands[0], readCount, stepsPerRev)
         + Transcript(filtered, commands[1..], readCount + ReadsOf(commands[0]), stepsPerRev)
  {
  }

  /** Sending `effect` out of `todo == effect + later` leaves `later` to send. */
  lemma AppendStep(before: seq<Msg>, todo: seq<Msg>, effect: seq<Msg>, later: seq<Msg>, after: seq<Msg>)
    requires todo == effect + later && after == before + effect
    ensures before + todo == after + later
  {
  }

  /** MIX_START sent first, then the reports and MIX_DONE, makes up a mixing cycle's messages. */
  lemma MixFramed(before: seq<Msg>, filtered: nat -> real, start: nat)
    ensures before + MixMessages(filtered, start)
      == (before + [MixStart]) + PhReports(filtered, start, ReportsPerMix) + [MixDone]
  {
  }

  /** A START in any letter case is answered with READY and nothing else. */
  lemma {:induction false} GreetingAnswered(filtered: nat -> real, data: string, rest: seq<Option<string>>, readCount: nat, stepsPerRev: int)
    requires Upper(data) == "START"
    ensures Transcript(filtered, Commands([Some(data)] + rest), readCount, stepsPerRev)
      == [Ready] + Transcript(filtered, Commands(rest), readCount, stepsPerRev)
  {
    assert Commands([Some(data)] + rest)[1..] == Commands(rest);
  }

  class Station {
    const stepper: Motor.StepperMotor
    const filtered: nat -> real
    var sent: seq<Msg>
    var motorCalls: seq<bool>
    var readCount: nat

    /** `main`'s set-up: the syringe stepper on pins 2 and 4, without an enable pin, 200 steps per revolution. */
    constructor (filtered: nat -> real)
      ensures fresh(stepper) && stepper.stepsPerRev == 200 && stepper.position == 0
      ensures this.filtered == filtered && sent == [] && motorCalls == [] && readCount == 0
    {
      stepper := new Motor.StepperMotor(None, 200);
      this.filtered := filtered;
      sent := [];
      motorCalls := [];
      readCount := 0;
    }

    /** `uart.send` as evidently meant (`UartSendIntended`): the message goes out as one line. */
    method Send(m: Msg)
      modifies this`sent
      ensures sent == old(sent) + [m]
    {
      sent := sent + [m];
    }

    /**
     * `do_mixing`: announce, start the stirrer, read and filter the pH, report every 100th value,
     * and after the fifth report announce the end and stop the stirrer.
     */
    method DoMixing()
      modifies this`sent, this`motorCalls, this`readCount
      ensures sent == old(sent) + MixMessages(filtered, old(readCount))
      ensures readCount == old(readCount) + ReadsPerReport * ReportsPerMix
      ensures motorCalls == old(motorCalls) + [true, false]
    {
      Send(MixStart);
      motorCalls := motorCalls + [true];
      ReportUntilDone();
      motorCalls := motorCalls + [false];
      MixFramed(old(sent), filtered, old(readCount));
    }

    /**
     * `do_mixing`'s loop: read the filter, report every hundredth reading, and after the fifth
     * report send MIX_DONE and stop.
     */
    method ReportUntilDone()
      modifies this`sent, this`readCount
      ensures sent == old(sent) + PhReports(filtered, old(readCount), ReportsPerMix) + [MixDone]
      ensures readCount == old(readCount) + ReadsPerReport * ReportsPerMix
    {
      ghost var start, before := readCount, sent;
      var counter := 0;
      var times := 0;
      while true
        invariant 0 <= counter < ReadsPerReport && 0 <= times < ReportsPerMix
        invariant readCount == start + ReadsPerReport * times + counter
        invariant sent == before + PhReports(filtered, start, times)
        decreases ReadsPerReport * ReportsPerMix - ReadsPerReport * times - counter
      {
        var ph := filtered(readCount);
        readCount := readCount + 1;
        counter := counter + 1;
        if counter == ReadsPerReport {
          assert PhReports(filtered, start, times + 1) == PhReports(filtered, start, times) + [PhReport(ph)];
          Send(PhReport(ph));
          counter := 0;
          times := times + 1;
        }
        if times >= ReportsPerMix {
          Send(MixDone);
          break;
        }
      }
    }

    /**
     * `do_injection`: announce, drive the syringe 2000 steps up and 2000 back down at 100 rpm,
     * announce the end. A stepper with no steps per revolution makes `set_rpm` raise after the
     * announcement, before anything moves.
     */
    method DoInjection() returns (r: Result<Unit>)
      modifies this`sent, stepper
      ensures sent == old(sent) + InjectMessages(stepper.stepsPerRev)
      ensures r.Err? <==> stepper.stepsPerRev == 0
      ensures r.Err? ==> r.error == ZeroDivisionError && stepper.pulses == old(stepper.pulses)
      ensures r.Ok? ==> stepper.pulses == old(stepper.pulses) + 2 * InjectSteps && stepper.dir == Motor.Down
      ensures stepper.position == old(stepper.position)
    {
      Send(InjectStart);
      var delayUp := stepper.SetRpm(InjectRpm);
      if delayUp.Err? {
        return Err(delayUp.error);
      }
      stepper.Step(InjectSteps, Some(Motor.Up));
      var delayDown := stepper.SetRpm(InjectRpm);
      stepper.Step(InjectSteps, Some(Motor.Down));
      Send(InjectDone);
      return Ok(Unit);
    }

    /** What one command makes the loop do: answer, run a cycle, or nothing. */
    method Execute(command: Command) returns (r: Result<Unit>)
      modifies this`sent, this`motorCalls, this`readCount, stepper
      ensures stepper.position == old(stepper.position)
      ensures r.Err? <==> Raises(command, stepper.stepsPerRev)
      ensures r.Err? ==> r.error == ZeroDivisionError
      ensures readCount == old(readCount) + ReadsOf(command)
      ensures sent == old(sent) + Effect(filtered, command, old(readCount), stepper.stepsPerRev)
    {
      r := Ok(Unit);
      if command == Greet {
        Send(Ready);
      } else if command == Mix {
        DoMixing();
      } else if command == Inject {
        r := DoInjection();
      } else if command == Finish {
        Send(Done);
      }
    }

    /** One pass of `main`'s loop, with the empty-read fix. */
    method Handle(received: Option<string>) returns (r: Result<Unit>)
      modifies this`sent, this`motorCalls, this`readCount, stepper
      ensures stepper.position == old(stepper.position)
      ensures r.Err? <==> Raises(Dispatch(received), stepper.stepsPerRev)
      ensures r.Err? ==> r.error == ZeroDivisionError
      ensures readCount == old(readCount) + ReadsOf(Dispatch(received))
      ensures sent == old(sent) + Effect(filtered, Dispatch(received), old(readCount), stepper.stepsPerRev)
    {
      r := Execute(Dispatch(received));
    }

    /**
     * `main`'s loop over the data received: everything sent is the transcript of the commands, and
     * however many injections ran, the syringe ends where it started.
     */
    method Run(inbox: seq<Option<string>>) returns (r: Result<Unit>)
      modifies this`sent, this`motorCalls, this`readCount, stepper
      ensures sent == old(sent) + Transcript(filtered, Commands(inbox), old(readCount), stepper.stepsPerRev)
      ensures stepper.position == old(stepper.position)
      ensures r.Err? ==> r.error == ZeroDivisionError && stepper.stepsPerRev == 0
    {
      r := Ok(Unit);
      var pending := Commands(inbox);
      while pending != []
        invariant old(sent) + Transcript(filtered, Commands(inbox), old(readCount), stepper.stepsPerRev)
          == sent + Transcript(filtered, pending, readCount, stepper.stepsPerRev)
        invariant stepper.position == old(stepper.position)
        invariant r.Ok?
        decreases |pending|
      {
        r := Advance(pending);
        if r.Err? {
          return;
        }
        pending := pending[1..];
      }
    }

    /** One pass of the loop over the pending commands: run the first, leave the rest. */
    method Advance(pending: seq<Command>) returns (r: Result<Unit>)
      requires pending != []
      modifies this`sent, this`motorCalls, this`readCount, stepper
      ensures stepper.position == old(stepper.position)
      ensures r.Err? ==> r.error == ZeroDivisionError && stepper.stepsPerRev == 0
      ensures r.Err? ==> sent == old(sent) + Transcript(filtered, pending, old(readCount), stepper.stepsPerRev)
      ensures r.Ok? ==>
        old(sent) + Transcript(filtered, pending, old(readCount), stepper.stepsPerRev)
        == sent + Transcript(filtered, pending[1..], readCount, stepper.stepsPerRev)
    {
      ghost var effect := Effect(filtered, pending[0], readCount, stepper.stepsPerRev);
      TranscriptCons(filtered, pending, readCount, stepper.stepsPerRev);
      r := Execute(pending[0]);
      if r.Ok? {
        AppendStep(old(sent), Transcript(filtered, pending, old(readCount), stepper.stepsPerRev), effect,
          Transcript(filtered, pending[1..], readCount, stepper.stepsPerRev), sent);
      }
    }
  }
}
