/**
 * What one run of go-smtp-send guarantees, stated about the reference run Spec: the order of the
 * external calls, fail-fast behaviour, authentication, and the text of the message.
 */
module Properties {
  import opened Wrappers
  import opened Config
  import opened Protocol
  import opened Message
  import opened Pipeline

  /** The run gets past the configuration checks and host parsing, with configuration c and host. */
  ghost predicate Reaches(env: Environment, args: Args, c: Configuration, host: string)
  {
    && !args.help
    && args.to != ""
    && env.loadConfig(args.configFile) == Some(c)
    && CheckConfig(c) == None
    && env.splitHostPort(c.server.host) == Some(host)
  }

  /** Every call main would make if nothing failed, in order. */
  function FullPlan(env: Environment, args: Args, c: Configuration, host: string): seq<Step>
  {
    [ReadConfig(args.configFile)] + CorePlan(c, host, args, env) + [Quit]
  }

  /**
   * A concluded plan is issued fail-fast: a prefix of the plan and Quit, every step but the last
   * succeeded, and the run is Sent exactly when everything was issued; otherwise the last step
   * failed and names the abort.
   */
  lemma ConcludeFailFast(plan: seq<Step>, respond: Responder)
    requires QuitFree(plan)
    ensures var r := Conclude(plan, respond);
            var t := r.transcript;
            && |t| > 0
            && t <= plan + [Quit]
            && (r.outcome == Sent <==> t == plan + [Quit])
            && (r.outcome == Sent ==> forall i :: 0 <= i < |plan| ==> respond(plan[i]))
            && (forall i :: 0 <= i < |t| - 1 ==> respond(t[i]))
            && (r.outcome != Sent ==>
                  && !t[|t| - 1].Quit?
                  && !respond(t[|t| - 1])
                  && r.outcome == Aborted(StageOf(t[|t| - 1])))
  {
    var k := Leading(plan, respond);
    forall i | 0 <= i < k ensures respond(plan[i]) {
      LeadingSucceeds(plan, respond, i);
    }
    if k == |plan| {
      assert Conclude(plan, respond).transcript == plan + [Quit];
      forall i | 0 <= i < |plan| ensures (plan + [Quit])[i] == plan[i] {
      }
    } else {
      var t := plan[..k + 1];
      assert Conclude(plan, respond).transcript == t;
      assert |t| < |plan + [Quit]|;
      assert t == (plan + [Quit])[..k + 1];
      assert t[k] == plan[k];
      forall i | 0 <= i < k ensures t[i] == plan[i] {
      }
    }
  }

  /** Asking for help shows it and does nothing else. */
  lemma HelpDoesNothingElse(env: Environment, args: Args)
    requires args.help
    ensures Spec(env, args) == Run(HelpShown, [], "")
  {
  }

  /** Without a recipient the run stops before touching the configuration or the network. */
  lemma MissingRecipientBeforeAnyCall(env: Environment, args: Args)
    requires !args.help && args.to == ""
    ensures Spec(env, args) == Run(Aborted(MissingRecipient), [], "")
  {
  }

  /**
   * A configuration that cannot be read or fails CheckConfig ends the run right after the read:
   * the only call is the configuration read and nothing is dialled.
   */
  lemma BadConfigNeverConnects(env: Environment, args: Args)
    requires !args.help && args.to != ""
    requires env.loadConfig(args.configFile).None? || CheckConfig(env.loadConfig(args.configFile).value).Some?
    ensures Spec(env, args).transcript == [ReadConfig(args.configFile)]
    ensures Spec(env, args).stream == ""
    ensures env.loadConfig(args.configFile).None? ==> Spec(env, args).outcome == Aborted(ConfigUnreadable)
    ensures env.loadConfig(args.configFile).Some? ==>
              Spec(env, args).outcome == Aborted(ConfigInvalid(CheckConfig(env.loadConfig(args.configFile).value).value))
  {
  }

  /** The run of a reached configuration is the read followed by the conclusion of the core plan. */
  lemma ReachedRun(env: Environment, args: Args, c: Configuration, host: string)
    requires Reaches(env, args, c, host)
    ensures QuitFree(CorePlan(c, host, args, env))
    ensures var r := Conclude(CorePlan(c, host, args, env), env.respond);
            Spec(env, args) == Run(r.outcome, [ReadConfig(args.configFile)] + r.transcript, r.stream)
  {
  }

  /**
   * The calls made are always a prefix of the planned calls, in the planned order, and the run
   * is Sent exactly when all of them, Quit included, were made.
   */
  lemma RunFollowsPlan(env: Environment, args: Args, c: Configuration, host: string)
    requires Reaches(env, args, c, host)
    ensures var r := Spec(env, args);
            && r.transcript <= FullPlan(env, args, c, host)
            && (r.outcome == Sent <==> r.transcript == FullPlan(env, args, c, host))
  {
    var core := CorePlan(c, host, args, env);
    ReachedRun(env, args, c, host);
    ConcludeFailFast(core, env.respond);
    var read := [ReadConfig(args.configFile)];
    var t := Conclude(core, env.respond).transcript;
    AppendAssoc(read, core, [Quit]);
    PrefixAfter(read, t, core + [Quit]);
  }

  /** Prefixes survive putting the same sequence in front. */
  lemma PrefixAfter(p: seq<Step>, a: seq<Step>, b: seq<Step>)
    requires a <= b
    ensures p + a <= p + b
    ensures p + a == p + b <==> a == b
  {
    assert (p + b)[..|p + a|] == p + a;
    if p + a == p + b {
      assert a == (p + a)[|p|..] == (p + b)[|p|..] == b;
    }
  }

  /**
   * Nothing follows a failure: a network step that failed is the last call of the run and the run
   * is aborted with that step's error.
   */
  lemma NothingFollowsAFailure(env: Environment, args: Args, c: Configuration, host: string, i: nat)
    requires Reaches(env, args, c, host)
    requires 1 <= i < |Spec(env, args).transcript|
    requires !Spec(env, args).transcript[i].Quit? && !env.respond(Spec(env, args).transcript[i])
    ensures i == |Spec(env, args).transcript| - 1
    ensures Spec(env, args).outcome == Aborted(StageOf(Spec(env, args).transcript[i]))
  {
    var core := CorePlan(c, host, args, env);
    ReachedRun(env, args, c, host);
    ConcludeFailFast(core, env.respond);
    var t := Conclude(core, env.respond).transcript;
    assert Spec(env, args).transcript[i] == t[i - 1];
  }

  /** Every step of the core plan owned by Connect is a dial, NewClient or Auth. */
  lemma CoreSteps(c: Configuration, host: string, args: Args, env: Environment, i: nat)
    requires i < |CorePlan(c, host, args, env)|
    ensures var s := CorePlan(c, host, args, env)[i];
            var n := |ConnectPlan(c, host)|;
            && n == (if c.auth.username != "" then 3 else 2)
            && (i == 0 ==> s == DialStep(c, host))
            && (i == 1 ==> s == NewClient(host))
            && (s.Auth? ==> i == 2 && c.auth.username != "" && s == Auth(c.auth.username, c.auth.password, host))
            && (i == n ==> s == Mail(c.from))
            && (s.Mail? ==> i == n)
            && (i > n + 2 ==> s.Write? || s.CopyBody? || s.Close?)
  {
    var cp := ConnectPlan(c, host);
    var ep := EnvelopePlan(c.from, args.to);
    var headers := Headers(c.from, env.toRendering, args.subject);
    var mp := DataPlan(headers, env.stdin);
    var core := CorePlan(c, host, args, env);
    assert core == cp + ep + mp;
    if i >= |cp| + |ep| {
      assert core[i] == mp[i - |cp| - |ep|];
      DataPlanSteps(headers, env.stdin);
    } else if i >= |cp| {
      assert core[i] == ep[i - |cp|];
    } else {
      assert core[i] == cp[i];
    }
  }

  /**
   * PLAIN authentication happens exactly when a username is configured: once the client is up,
   * the next call is Auth with the configured credentials and the parsed host if the username is
   * non-empty and MAIL otherwise; no Auth call is ever made without a username.
   */
  lemma AuthIffUsername(env: Environment, args: Args, c: Configuration, host: string)
    requires Reaches(env, args, c, host)
    ensures var t := Spec(env, args).transcript;
            && (|t| > 3 ==> t[3] == if c.auth.username != "" then Auth(c.auth.username, c.auth.password, host) else Mail(c.from))
            && (forall i :: 0 <= i < |t| && t[i].Auth? ==> c.auth.username != "" && i == 3)
            && (env.respond(DialStep(c, host)) && env.respond(NewClient(host)) ==> |t| > 3)
  {
    if env.respond(DialStep(c, host)) && env.respond(NewClient(host)) {
      ClientUpGoesOn(env, args, c, host);
    }
    var core := CorePlan(c, host, args, env);
    var t := Spec(env, args).transcript;
    RunFollowsPlan(env, args, c, host);
    var full := FullPlan(env, args, c, host);
    assert |full| == |core| + 2;
    forall i | 0 <= i < |t| && t[i].Auth? ensures c.auth.username != "" && i == 3 {
      assert t[i] == full[i];
      if 1 <= i <= |core| {
        assert full[i] == core[i - 1];
        CoreSteps(c, host, args, env, i - 1);
      }
    }
    if |t| > 3 {
      assert t[3] == full[3] == core[2];
      CoreSteps(c, host, args, env, 2);
    }
  }

  /** Once the dial and NewClient succeed, the run makes a fourth call. */
  lemma ClientUpGoesOn(env: Environment, args: Args, c: Configuration, host: string)
    requires Reaches(env, args, c, host)
    requires env.respond(DialStep(c, host)) && env.respond(NewClient(host))
    ensures |Spec(env, args).transcript| > 3
  {
    var core := CorePlan(c, host, args, env);
    ReachedRun(env, args, c, host);
    CoreSteps(c, host, args, env, 0);
    CoreSteps(c, host, args, env, 1);
    LeadingAtLeast(core, env.respond, 2);
  }

  /**
   * A failed authentication stops the run inside Connect: the calls are the read, the dial,
   * NewClient and Auth, no MAIL is sent and nothing is written.
   */
  lemma AuthFailureMeansNoMail(env: Environment, args: Args, c: Configuration, host: string)
    requires Reaches(env, args, c, host)
    requires Spec(env, args).outcome == Aborted(ConnectFailed(AuthFailed))
    ensures c.auth.username != ""
    ensures Spec(env, args).transcript ==
              [ReadConfig(args.configFile), DialStep(c, host), NewClient(host), Auth(c.auth.username, c.auth.password, host)]
    ensures !env.respond(Auth(c.auth.username, c.auth.password, host))
    ensures forall i :: 0 <= i < |Spec(env, args).transcript| ==> !Spec(env, args).transcript[i].Mail?
    ensures Spec(env, args).stream == ""
  {
    ReachedRun(env, args, c, host);
    CoreAuthFailure(c, host, args, env);
  }

  /** The core plan concluded by a failed Auth: the dial, NewClient and Auth, nothing written. */
  lemma CoreAuthFailure(c: Configuration, host: string, args: Args, env: Environment)
    requires QuitFree(CorePlan(c, host, args, env))
    requires Conclude(CorePlan(c, host, args, env), env.respond).outcome == Aborted(ConnectFailed(AuthFailed))
    ensures c.auth.username != ""
    ensures Conclude(CorePlan(c, host, args, env), env.respond).transcript ==
              [DialStep(c, host), NewClient(host), Auth(c.auth.username, c.auth.password, host)]
    ensures Conclude(CorePlan(c, host, args, env), env.respond).stream == ""
    ensures !env.respond(Auth(c.auth.username, c.auth.password, host))
  {
    var core := CorePlan(c, host, args, env);
    var k := Leading(core, env.respond);
    assert k < |core| && StageOf(core[k]) == ConnectFailed(AuthFailed);
    CoreAuthIndex(c, host, args, env, k);
    CoreSteps(c, host, args, env, 0);
    CoreSteps(c, host, args, env, 1);
    assert core[..3] == [core[0], core[1], core[2]];
    CoreStream(c, host, args, env, 2);
  }

  /** The only core step whose failure is an authentication failure is the third, Auth. */
  lemma CoreAuthIndex(c: Configuration, host: string, args: Args, env: Environment, k: nat)
    requires k < |CorePlan(c, host, args, env)|
    requires StageOf(CorePlan(c, host, args, env)[k]) == ConnectFailed(AuthFailed)
    ensures k == 2 && c.auth.username != ""
    ensures CorePlan(c, host, args, env)[k] == Auth(c.auth.username, c.auth.password, host)
  {
    CoreSteps(c, host, args, env, k);
  }

  /** Steps that write nothing leave the stream empty. */
  lemma {:induction false} NoPayloadStream(steps: seq<Step>)
    requires forall i :: 0 <= i < |steps| ==> !steps[i].Write? && !steps[i].CopyBody?
    ensures StreamOf(steps) == ""
    decreases |steps|
  {
    if steps != [] {
      var p := steps[..|steps| - 1];
      forall i | 0 <= i < |p| ensures !p[i].Write? && !p[i].CopyBody? {
        assert p[i] == steps[i];
      }
      NoPayloadStream(p);
    }
  }

  /**
   * The stream of the core plan cut after k steps: nothing before the data writer, then a prefix
   * of the message steps' stream.
   */
  lemma CoreStream(c: Configuration, host: string, args: Args, env: Environment, k: nat)
    requires k <= |CorePlan(c, host, args, env)|
    ensures var n := |ConnectPlan(c, host) + EnvelopePlan(c.from, args.to)|;
            var mp := MessagePlan(c.from, env.toRendering, args.subject, env.stdin);
            StreamOf(CorePlan(c, host, args, env)[..k]) == if k <= n then "" else StreamOf(mp[..k - n])
  {
    var front := ConnectPlan(c, host) + EnvelopePlan(c.from, args.to);
    var mp := MessagePlan(c.from, env.toRendering, args.subject, env.stdin);
    var core := CorePlan(c, host, args, env);
    var n := |front|;
    assert core == front + mp;
    forall i | 0 <= i < |front| ensures !front[i].Write? && !front[i].CopyBody? {
    }
    if k <= n {
      assert core[..k] == front[..k];
      NoPayloadStream(front[..k]);
    } else {
      assert core[..k] == front + mp[..k - n];
      StreamOfAppend(front, mp[..k - n]);
      NoPayloadStream(front);
    }
  }

  /**
   * What reaches the data stream is always a prefix of the intended message - From, To and
   * Subject lines, the blank line, the body - and the whole of it when the run is Sent.
   */
  lemma StreamIsMessagePrefix(env: Environment, args: Args, c: Configuration, host: string)
    requires Reaches(env, args, c, host)
    ensures Spec(env, args).stream <= ExpectedPayload(c.from, env.toRendering, args.subject, env.stdin)
    ensures Spec(env, args).outcome == Sent ==>
              Spec(env, args).stream == ExpectedPayload(c.from, env.toRendering, args.subject, env.stdin)
  {
    var core := CorePlan(c, host, args, env);
    var mp := MessagePlan(c.from, env.toRendering, args.subject, env.stdin);
    var n := |ConnectPlan(c, host) + EnvelopePlan(c.from, args.to)|;
    ReachedRun(env, args, c, host);
    var k := Leading(core, env.respond);
    var kk := if k == |core| then |core| else k;
    assert Spec(env, args).stream == StreamOf(core[..kk]) by {
      if k == |core| {
        assert core[..|core|] == core;
      }
    }
    CoreStream(c, host, args, env, kk);
    assert |core| == n + |mp|;
    if kk > n {
      MessagePrefixStream(c.from, env.toRendering, args.subject, env.stdin, kk - n);
      if k == |core| {
        assert mp[..|mp|] == mp;
        MessagePlanStream(c.from, env.toRendering, args.subject, env.stdin);
      }
    }
  }

  /** Nothing is written to the data stream unless DATA succeeded. */
  lemma NothingWrittenBeforeData(env: Environment, args: Args)
    requires Spec(env, args).outcome.Aborted? && Spec(env, args).outcome.reason != SendBodyFailed
    ensures Spec(env, args).stream == ""
  {
    if !args.help && args.to != "" && env.loadConfig(args.configFile).Some? {
      var c := env.loadConfig(args.configFile).value;
      if CheckConfig(c).None? && env.splitHostPort(c.server.host).Some? {
        var host := env.splitHostPort(c.server.host).value;
        ReachedRun(env, args, c, host);
        CoreAbortBeforeData(c, host, args, env);
      }
    }
  }

  /** A core plan stopped before the data writer leaves the stream empty. */
  lemma CoreAbortBeforeData(c: Configuration, host: string, args: Args, env: Environment)
    requires QuitFree(CorePlan(c, host, args, env))
    requires Conclude(CorePlan(c, host, args, env), env.respond).outcome.Aborted?
    requires Conclude(CorePlan(c, host, args, env), env.respond).outcome.reason != SendBodyFailed
    ensures Conclude(CorePlan(c, host, args, env), env.respond).stream == ""
  {
    var core := CorePlan(c, host, args, env);
    var k := Leading(core, env.respond);
    assert k < |core| && Conclude(core, env.respond).stream == StreamOf(core[..k]);
    CoreAbortIndex(c, host, args, env, k);
    CoreStream(c, host, args, env, k);
  }

  /** A core step whose failure is not "could not send body" comes before the data writer. */
  lemma CoreAbortIndex(c: Configuration, host: string, args: Args, env: Environment, k: nat)
    requires k < |CorePlan(c, host, args, env)|
    requires StageOf(CorePlan(c, host, args, env)[k]) != SendBodyFailed
    ensures k <= |ConnectPlan(c, host) + EnvelopePlan(c.from, args.to)|
  {
    if k > |ConnectPlan(c, host)| + 2 {
      CoreSteps(c, host, args, env, k);
    }
  }

  /** The Subject header line is written even when the subject is empty. */
  lemma EmptySubjectStillWritten(env: Environment, args: Args, c: Configuration, host: string)
    requires Reaches(env, args, c, host) && args.subject == ""
    requires Spec(env, args).outcome == Sent
    ensures Spec(env, args).stream ==
              HeaderLine("From", c.from) + HeaderLine("To", env.toRendering) + "Subject: \r\n" + CRLF + env.stdin
  {
    StreamIsMessagePrefix(env, args, c, host);
    ExpectedPayloadSplits(c.from, env.toRendering, args.subject, env.stdin);
  }

  /**
   * The recipient never reaches the message: two successful runs that differ only in the -to
   * flag write the same stream (the To header carries the rendering of the pointer instead).
   */
  lemma RecipientNeverInMessage(env: Environment, args1: Args, args2: Args, c: Configuration, host: string)
    requires args1.help == args2.help && args1.configFile == args2.configFile && args1.subject == args2.subject
    requires Reaches(env, args1, c, host) && Reaches(env, args2, c, host)
    requires Spec(env, args1).outcome == Sent && Spec(env, args2).outcome == Sent
    ensures Spec(env, args1).stream == Spec(env, args2).stream
  {
    StreamIsMessagePrefix(env, args1, c, host);
    StreamIsMessagePrefix(env, args2, c, host);
  }

  /**
   * The To header as evidently intended: when the header text is the recipient itself, a run
   * that is Sent writes the From line, the line "To: " + recipient, the Subject line, the blank
   * line and the body.
   */
  lemma IntendedRecipientInMessage(env: Environment, args: Args, c: Configuration, host: string)
    requires Reaches(env, args, c, host) && env.toRendering == args.to
    requires Spec(env, args).outcome == Sent
    ensures Spec(env, args).stream == ExpectedPayload(c.from, args.to, args.subject, env.stdin)
    ensures HeaderLine("From", c.from) + HeaderLine("To", args.to) <= Spec(env, args).stream
  {
    StreamIsMessagePrefix(env, args, c, host);
    ExpectedPayloadSplits(c.from, args.to, args.subject, env.stdin);
    var hs := Headers(c.from, args.to, args.subject);
    AppendAssoc(hs[0] + hs[1], hs[2], CRLF + env.stdin);
  }

  /** Run with no flags at all, the program stops for the missing recipient before any call. */
  lemma NoFlagsStopsForRecipient(env: Environment)
    ensures Spec(env, DefaultArgs) == Run(Aborted(MissingRecipient), [], "")
  {
  }

  /**
   * The position of a step in main's order of calls; the three header writes and the blank line
   * are told apart by their first character.
   */
  function Rank(s: Step): nat
  {
    match s
    case ReadConfig(_) => 0
    case DialTls(_, _, _) => 1
    case DialTcp(_) => 1
    case NewClient(_) => 2
    case Auth(_, _, _) => 3
    case Mail(_) => 4
    case Rcpt(_) => 5
    case Data => 6
    case Write(chunk) =>
      if |chunk| > 0 && chunk[0] == 'F' then 7
      else if |chunk| > 0 && chunk[0] == 'T' then 8
      else if |chunk| > 0 && chunk[0] == 'S' then 9
      else 10
    case CopyBody(_) => 11
    case Close => 12
    case Quit => 13
  }

  /** Ranks strictly increase along the plan. */
  ghost predicate Ascending(plan: seq<Step>)
  {
    forall i, j :: 0 <= i < j < |plan| ==> Rank(plan[i]) < Rank(plan[j])
  }

  /** Every rank of the plan lies in [lo, hi). */
  ghost predicate RanksWithin(plan: seq<Step>, lo: nat, hi: nat)
  {
    forall i :: 0 <= i < |plan| ==> lo <= Rank(plan[i]) < hi
  }

  /** Two ascending runs of ranks, the second above the first, join into one. */
  lemma AscendingJoin(a: seq<Step>, b: seq<Step>, lo: nat, m: nat, hi: nat)
    requires lo <= m <= hi
    requires Ascending(a) && RanksWithin(a, lo, m)
    requires Ascending(b) && RanksWithin(b, m, hi)
    ensures Ascending(a + b) && RanksWithin(a + b, lo, hi)
  {
    forall i | 0 <= i < |a + b| ensures lo <= Rank((a + b)[i]) < hi {
      if i < |a| {
        assert (a + b)[i] == a[i];
      } else {
        assert (a + b)[i] == b[i - |a|];
      }
    }
    forall i, j | 0 <= i < j < |a + b| ensures Rank((a + b)[i]) < Rank((a + b)[j]) {
      if j < |a| {
        assert (a + b)[i] == a[i] && (a + b)[j] == a[j];
      } else if i >= |a| {
        assert (a + b)[i] == b[i - |a|] && (a + b)[j] == b[j - |a|];
      } else {
        assert (a + b)[i] == a[i] && (a + b)[j] == b[j - |a|];
      }
    }
  }

  lemma ConnectPlanAscending(c: Configuration, host: string)
    ensures Ascending(ConnectPlan(c, host)) && RanksWithin(ConnectPlan(c, host), 1, 4)
  {
  }

  lemma EnvelopePlanAscending(from: string, to: string)
    ensures Ascending(EnvelopePlan(from, to)) && RanksWithin(EnvelopePlan(from, to), 4, 7)
  {
  }

  lemma MessagePlanAscending(from: string, toRendering: string, subject: string, body: string)
    ensures var mp := MessagePlan(from, toRendering, subject, body);
            Ascending(mp) && RanksWithin(mp, 7, 13)
  {
    var h := Headers(from, toRendering, subject);
    assert h[0][0] == 'F' && h[1][0] == 'T' && h[2][0] == 'S';
    DataPlanAscending(h, body);
  }

  /** Writes of From, To and Subject lines, the blank line, the body copy and Close ascend. */
  lemma DataPlanAscending(h: seq<string>, body: string)
    requires |h| == 3 && |h[0]| > 0 && |h[1]| > 0 && |h[2]| > 0
    requires h[0][0] == 'F' && h[1][0] == 'T' && h[2][0] == 'S'
    ensures Ascending(DataPlan(h, body)) && RanksWithin(DataPlan(h, body), 7, 13)
  {
    var mp := DataPlan(h, body);
    assert mp == [Write(h[0]), Write(h[1]), Write(h[2]), Write(CRLF), CopyBody(body), Close];
  }

  /** The calls of FullPlan, in ascending rank. */
  lemma FullPlanAscending(env: Environment, args: Args, c: Configuration, host: string)
    ensures Ascending(FullPlan(env, args, c, host))
  {
    var read := [ReadConfig(args.configFile)];
    var cp := ConnectPlan(c, host);
    var ep := EnvelopePlan(c.from, args.to);
    var mp := MessagePlan(c.from, env.toRendering, args.subject, env.stdin);
    ConnectPlanAscending(c, host);
    EnvelopePlanAscending(c.from, args.to);
    MessagePlanAscending(c.from, env.toRendering, args.subject, env.stdin);
    AscendingJoin(ep, mp, 4, 7, 13);
    AscendingJoin(cp, ep + mp, 1, 4, 13);
    AscendingJoin(read, cp + (ep + mp), 0, 1, 13);
    AscendingJoin(read + (cp + (ep + mp)), [Quit], 0, 13, 14);
    AppendAssoc(cp, ep, mp);
  }

  /**
   * A run never issues the same call twice, which is why an environment answering each step
   * alone (a Responder) is as general as one answering by position.
   */
  lemma StepsDistinct(env: Environment, args: Args)
    ensures var t := Spec(env, args).transcript;
            forall i, j :: 0 <= i < j < |t| ==> t[i] != t[j]
  {
    if !args.help && args.to != "" && env.loadConfig(args.configFile).Some? {
      var c := env.loadConfig(args.configFile).value;
      if CheckConfig(c).None? && env.splitHostPort(c.server.host).Some? {
        var host := env.splitHostPort(c.server.host).value;
        RunFollowsPlan(env, args, c, host);
        FullPlanAscending(env, args, c, host);
        var t := Spec(env, args).transcript;
        var full := FullPlan(env, args, c, host);
        forall i, j | 0 <= i < j < |t| ensures t[i] != t[j] {
          assert t[i] == full[i] && t[j] == full[j];
        }
      }
    }
  }
}
