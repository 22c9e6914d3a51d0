/**
 * One run of go-smtp-send (main.go:36-108 with Connect, main.go:120-159) as a reference
 * definition: the run's outcome, the transcript of external calls and the DATA stream, computed
 * from the command-line arguments and the answers of the environment.
 */
module Pipeline {
  import opened Wrappers
  import opened Config
  import opened Protocol
  import opened Message

  /** The parsed command line: -h, -config, -to, -subject. */
  datatype Args = Args(help: bool, configFile: string, to: string, subject: string)

  /** The flag defaults: no help, the default configuration file, empty recipient and subject. */
  const DefaultArgs: Args := Args(false, DefaultConfigurationFile, "", "")

  /**
   * What the program cannot compute itself.
   * loadConfig: reading and decoding the configuration file (None: "could not read config").
   * splitHostPort: host part of "host:port" as net.SplitHostPort finds it (None: a parse error).
   * respond: success or failure of each network step.
   * toRendering: the text fmt.Sprintf("%s", to) produces for the pointer `to`.
   * stdin: the message body on standard input.
   */
  datatype Environment = Environment(
    loadConfig: string -> Option<Configuration>,
    splitHostPort: string -> Option<string>,
    respond: Responder,
    toRendering: string,
    stdin: string)

  /** The errors Connect returns. */
  datatype ConnectError = HostUnparsable | DialFailed | ClientInitFailed | AuthFailed

  /** Why a run stopped, one case per log.Fatalln in main. */
  datatype Abort =
    | MissingRecipient                        // "must specify to (-to)"
    | ConfigUnreadable                        // "could not read config" (read or decode)
    | ConfigInvalid(configError: ConfigError) // "could not read config" (CheckConfig)
    | ConnectFailed(connectError: ConnectError) // "could not connect"
    | MailFailed                              // "could not MAIL"
    | RcptFailed                              // "could not RCPT"
    | DataFailed                              // "could not DATA"
    | SendBodyFailed                          // "could not send body"

  datatype Outcome = HelpShown | Sent | Aborted(reason: Abort)

  /** tls.Dial with the extracted host as server name, or net.Dial, on the configured address. */
  function DialStep(c: Configuration, host: string): Step
  {
    if c.server.tls then DialTls(c.server.host, host, !c.server.verifyTls)
    else DialTcp(c.server.host)
  }

  /** The steps of Connect once the host is known; PLAIN authentication only with a username. */
  function ConnectPlan(c: Configuration, host: string): seq<Step>
  {
    [DialStep(c, host), NewClient(host)]
    + (if c.auth.username != "" then [Auth(c.auth.username, c.auth.password, host)] else [])
  }

  /** The envelope: MAIL with the configured sender, RCPT with the recipient, then DATA. */
  function EnvelopePlan(from: string, to: string): seq<Step>
  {
    [Mail(from), Rcpt(to), Data]
  }

  /** Every step whose failure aborts the run, in the order main issues them. */
  function CorePlan(c: Configuration, host: string, args: Args, env: Environment): (plan: seq<Step>)
    ensures QuitFree(plan)
    ensures forall i :: 0 <= i < |plan| ==> !plan[i].ReadConfig?
  {
    ConnectPlan(c, host) + EnvelopePlan(c.from, args.to)
    + MessagePlan(c.from, env.toRendering, args.subject, env.stdin)
  }

  /** The abort a failing step causes. */
  function StageOf(s: Step): Abort
    requires !s.Quit?
  {
    match s
    case ReadConfig(_) => ConfigUnreadable
    case DialTls(_, _, _) => ConnectFailed(DialFailed)
    case DialTcp(_) => ConnectFailed(DialFailed)
    case NewClient(_) => ConnectFailed(ClientInitFailed)
    case Auth(_, _, _) => ConnectFailed(AuthFailed)
    case Mail(_) => MailFailed
    case Rcpt(_) => RcptFailed
    case Data => DataFailed
    case Write(_) => SendBodyFailed
    case CopyBody(_) => SendBodyFailed
    case Close => SendBodyFailed
  }

  /** What a run produces. */
  datatype Run = Run(outcome: Outcome, transcript: seq<Step>, stream: string)

  /**
   * One run of main: the checks before any I/O, the configuration read and its validation,
   * then the delivery.
   */
  function Spec(env: Environment, args: Args): Run
  {
    if args.help then Run(HelpShown, [], "")
    else if args.to == "" then Run(Aborted(MissingRecipient), [], "")
    else
      var read := [ReadConfig(args.configFile)];
      match env.loadConfig(args.configFile)
      case None => Run(Aborted(ConfigUnreadable), read, "")
      case Some(c) =>
        match CheckConfig(c)
        case Some(e) => Run(Aborted(ConfigInvalid(e)), read, "")
        case None =>
          var d := Delivery(env, args, c);
          Run(d.outcome, read + d.transcript, d.stream)
  }

  /**
   * Everything from Connect on: host parsing, then the core plan run to its conclusion.
   */
  function Delivery(env: Environment, args: Args, c: Configuration): Run
  {
    match env.splitHostPort(c.server.host)
    case None => Run(Aborted(ConnectFailed(HostUnparsable)), [], "")
    case Some(host) => Conclude(CorePlan(c, host, args, env), env.respond)
  }

  /** No step of the plan is Quit, so the failure of any of them names an abort. */
  predicate QuitFree(plan: seq<Step>)
  {
    Quit !in plan
  }

  /**
   * A plan of aborting steps issued up to its first failure, which names the abort, and Quit
   * (whose answer is ignored) once every step has succeeded.
   */
  function Conclude(plan: seq<Step>, respond: Responder): Run
    requires QuitFree(plan)
  {
    var k := Leading(plan, respond);
    if k == |plan| then Run(Sent, plan + [Quit], StreamOf(plan))
    else Run(Aborted(StageOf(plan[k])), plan[..k + 1], StreamOf(plan[..k]))
  }

  /** Both parts of a plan without Quit are without Quit. */
  lemma QuitFreeSplit(a: seq<Step>, b: seq<Step>)
    requires QuitFree(a + b)
    ensures QuitFree(a) && QuitFree(b)
  {
    forall i | 0 <= i < |a| ensures !a[i].Quit? {
      assert a[i] == (a + b)[i];
    }
    forall i | 0 <= i < |b| ensures !b[i].Quit? {
      assert b[i] == (a + b)[|a| + i];
    }
  }

  /** The data-writer steps contain no Quit. */
  lemma DataPlanQuitFree(headers: seq<string>, body: string)
    ensures QuitFree(DataPlan(headers, body))
  {
    DataPlanSteps(headers, body);
  }

  /** Whichever data-writer step fails, main reports "could not send body". */
  lemma DataPlanAborts(headers: seq<string>, body: string, k: nat)
    requires k < |DataPlan(headers, body)|
    ensures !DataPlan(headers, body)[k].Quit?
    ensures StageOf(DataPlan(headers, body)[k]) == SendBodyFailed
  {
    DataPlanSteps(headers, body);
  }

  /** Joining two plans without Quit gives a plan without Quit. */
  lemma QuitFreeJoin(a: seq<Step>, b: seq<Step>)
    requires QuitFree(a) && QuitFree(b)
    ensures QuitFree(a + b)
  {
    forall i | 0 <= i < |a + b| ensures !(a + b)[i].Quit? {
      if i < |a| {
        assert (a + b)[i] == a[i];
      } else {
        assert (a + b)[i] == b[i - |a|];
      }
    }
  }

  /** A plan that fails concludes the same way whatever is planned after it. */
  lemma ConcludeFails(a: seq<Step>, b: seq<Step>, respond: Responder)
    requires QuitFree(a + b)
    requires Leading(a, respond) < |a|
    ensures QuitFree(a)
    ensures Conclude(a + b, respond) == Conclude(a, respond)
  {
    QuitFreeSplit(a, b);
    var k := Leading(a, respond);
    LeadingAppend(a, b, respond);
    TakeWithin(a, b, k + 1);
    TakeWithin(a, b, k);
    assert (a + b)[k] == a[k];
  }

  /** After a plan that succeeds in full, the run concludes as the rest of the plan does. */
  lemma ConcludeAfter(a: seq<Step>, b: seq<Step>, respond: Responder)
    requires QuitFree(a + b)
    requires Leading(a, respond) == |a|
    ensures QuitFree(b)
    ensures Conclude(a + b, respond).outcome == Conclude(b, respond).outcome
    ensures Conclude(a + b, respond).transcript == a + Conclude(b, respond).transcript
    ensures Conclude(a + b, respond).stream == StreamOf(a) + Conclude(b, respond).stream
  {
    assert b <= (a + b)[|a|..];
    if Leading(b, respond) == |b| {
      SentAfter(a, b, respond);
    } else {
      AbortedAfter(a, b, respond);
    }
  }

  lemma SentAfter(a: seq<Step>, b: seq<Step>, respond: Responder)
    requires QuitFree(a + b) && QuitFree(b)
    requires Leading(a, respond) == |a| && Leading(b, respond) == |b|
    ensures Conclude(a + b, respond) == Run(Sent, a + (b + [Quit]), StreamOf(a) + StreamOf(b))
    ensures Conclude(b, respond) == Run(Sent, b + [Quit], StreamOf(b))
  {
    LeadingAppend(a, b, respond);
    StreamOfAppend(a, b);
    AppendAssoc(a, b, [Quit]);
  }

  lemma AbortedAfter(a: seq<Step>, b: seq<Step>, respond: Responder)
    requires QuitFree(a + b) && QuitFree(b)
    requires Leading(a, respond) == |a| && Leading(b, respond) < |b|
    ensures Conclude(a + b, respond).outcome == Conclude(b, respond).outcome
    ensures Conclude(a + b, respond).transcript == a + Conclude(b, respond).transcript
    ensures Conclude(a + b, respond).stream == StreamOf(a) + Conclude(b, respond).stream
  {
    LeadingAppend(a, b, respond);
    AbortedOutcome(a, b, respond);
    AbortedTranscript(a, b, respond);
    AbortedStream(a, b, respond);
  }

  lemma AbortedOutcome(a: seq<Step>, b: seq<Step>, respond: Responder)
    requires QuitFree(a + b) && QuitFree(b)
    requires Leading(b, respond) < |b| && Leading(a + b, respond) == |a| + Leading(b, respond)
    ensures Conclude(a + b, respond).outcome == Conclude(b, respond).outcome
  {
    var kb := Leading(b, respond);
    assert (a + b)[|a| + kb] == b[kb];
  }

  lemma AbortedTranscript(a: seq<Step>, b: seq<Step>, respond: Responder)
    requires QuitFree(a + b) && QuitFree(b)
    requires Leading(b, respond) < |b| && Leading(a + b, respond) == |a| + Leading(b, respond)
    ensures Conclude(a + b, respond).transcript == a + Conclude(b, respond).transcript
  {
    TakeAppend(a, b, Leading(b, respond) + 1);
  }

  lemma AbortedStream(a: seq<Step>, b: seq<Step>, respond: Responder)
    requires QuitFree(a + b) && QuitFree(b)
    requires Leading(b, respond) < |b| && Leading(a + b, respond) == |a| + Leading(b, respond)
    ensures Conclude(a + b, respond).stream == StreamOf(a) + Conclude(b, respond).stream
  {
    StreamAfter(a, b, Leading(b, respond));
  }

  /** A plan cut short leaves behind the transcript and stream of its conclusion. */
  lemma FinishedConcludes(t: seq<Step>, st: string, t0: seq<Step>, s0: string, plan: seq<Step>, respond: Responder)
    requires QuitFree(plan)
    requires Finished(t, st, t0, s0, plan, respond, false)
    ensures t == t0 + Conclude(plan, respond).transcript
    ensures st == s0 + Conclude(plan, respond).stream
  {
  }
}
