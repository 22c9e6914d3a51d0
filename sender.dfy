/**
 * The imperative core of main.go: a sender that issues the external calls one by one, records
 * them in a transcript and collects what the data writer accepts, stopping at the first failure.
 */
module Sending {
  import opened Wrappers
  import opened Config
  import opened Protocol
  import opened Message
  import opened Pipeline

  class Sender {
    /** The answers of the outside world. */
    const env: Environment
    /** Every external call issued so far, in order. */
    var transcript: seq<Step>
    /** Everything written to the SMTP data stream so far. */
    var stream: string

    constructor (env: Environment)
      ensures this.env == env && transcript == [] && stream == []
    {
      this.env := env;
      transcript := [];
      stream := [];
    }

    /** Issues one network call; a successful write adds its text to the data stream. */
    method Perform(s: Step) returns (ok: bool)
      modifies this
      ensures ok == env.respond(s)
      ensures transcript == old(transcript) + [s]
      ensures stream == if ok then old(stream) + Payload(s) else old(stream)
    {
      ok := env.respond(s);
      transcript := transcript + [s];
      if ok {
        stream := stream + Payload(s);
      }
    }

    /**
     * Issues step i of a plan whose first i steps have succeeded: the run either goes on or is
     * finished by the failure of this step.
     */
    method Issue(s: Step, ghost plan: seq<Step>, ghost i: nat, ghost t0: seq<Step>, ghost s0: string) returns (ok: bool)
      requires Partial(transcript, stream, t0, s0, plan, env.respond, i) && i < |plan| && plan[i] == s
      modifies this
      ensures ok == env.respond(s)
      ensures ok ==> Partial(transcript, stream, t0, s0, plan, env.respond, i + 1)
      ensures !ok ==> Finished(transcript, stream, t0, s0, plan, env.respond, false) && Leading(plan, env.respond) == i
    {
      PartialStep(transcript, stream, t0, s0, plan, env.respond, i);
      ok := Perform(s);
    }

    /** ioutil.ReadFile followed by yaml.Unmarshal (main.go:55-62). */
    method LoadConfig(path: string) returns (config: Option<Configuration>)
      modifies this
      ensures config == env.loadConfig(path)
      ensures transcript == old(transcript) + [ReadConfig(path)] && stream == old(stream)
    {
      config := env.loadConfig(path);
      transcript := transcript + [ReadConfig(path)];
    }

    /**
     * Opens the connection, the first step of a connect plan: tls.Dial when TLS is configured,
     * net.Dial otherwise (main.go:126-139).
     */
    method Dial(config: Configuration, host: string, ghost plan: seq<Step>, ghost t0: seq<Step>, ghost s0: string) returns (ok: bool)
      requires Partial(transcript, stream, t0, s0, plan, env.respond, 0) && 0 < |plan| && plan[0] == DialStep(config, host)
      modifies this
      ensures ok == env.respond(DialStep(config, host))
      ensures ok ==> Partial(transcript, stream, t0, s0, plan, env.respond, 1)
      ensures !ok ==> Finished(transcript, stream, t0, s0, plan, env.respond, false) && Leading(plan, env.respond) == 0
    {
      if config.server.tls {
        ok := Issue(DialTls(config.server.host, host, !config.server.verifyTls), plan, 0, t0, s0);
      } else {
        ok := Issue(DialTcp(config.server.host), plan, 0, t0, s0);
      }
    }

    /**
     * Connect (main.go:120-159): parse the host, dial, start the client, authenticate when a
     * username is configured. Stops at the first failure and names it.
     */
    method Connect(config: Configuration) returns (err: Option<ConnectError>)
      modifies this
      ensures env.splitHostPort(config.server.host).None? ==>
                err == Some(HostUnparsable) && transcript == old(transcript) && stream == old(stream)
      ensures env.splitHostPort(config.server.host).Some? ==>
                var plan := ConnectPlan(config, env.splitHostPort(config.server.host).value);
                && Finished(transcript, stream, old(transcript), old(stream), plan, env.respond, err.None?)
                && (err.Some? ==> StageOf(plan[Leading(plan, env.respond)]) == ConnectFailed(err.value))
    {
      var parsed := env.splitHostPort(config.server.host);
      if parsed.None? {
        return Some(HostUnparsable);
      }
      var host := parsed.value;
      ghost var plan := ConnectPlan(config, host);
      ghost var t0, s0 := transcript, stream;
      PartialStart(t0, s0, plan, env.respond);
      var ok := Dial(config, host, plan, t0, s0);
      if !ok {
        return Some(DialFailed);
      }
      ok := Issue(NewClient(host), plan, 1, t0, s0);
      if !ok {
        return Some(ClientInitFailed);
      }
      if config.auth.username != "" {
        ok := Issue(Auth(config.auth.username, config.auth.password, host), plan, 2, t0, s0);
        if !ok {
          return Some(AuthFailed);
        }
      }
      PartialEnd(transcript, stream, t0, s0, plan, env.respond);
      return None;
    }

    /**
     * The data-writer part of main (main.go:90-105): one write per header, in order, the blank
     * line, the body copy and Close. Returns false as soon as one of them fails.
     */
    method WriteMessage(headers: seq<string>, body: string) returns (ok: bool)
      modifies this
      ensures Finished(transcript, stream, old(transcript), old(stream), DataPlan(headers, body), env.respond, ok)
    {
      ghost var plan := DataPlan(headers, body);
      ghost var t0, s0 := transcript, stream;
      ghost var n := |headers|;
      PartialStart(t0, s0, plan, env.respond);
      var i := 0;
      while i < |headers|
        invariant 0 <= i <= n
        invariant Partial(transcript, stream, t0, s0, plan, env.respond, i)
      {
        assert plan[i] == Write(headers[i]);
        var written := Issue(Write(headers[i]), plan, i, t0, s0);
        if !written {
          return false;
        }
        i := i + 1;
      }
      assert plan[n] == Write(CRLF) && plan[n + 1] == CopyBody(body) && plan[n + 2] == Close;
      ok := Issue(Write(CRLF), plan, n, t0, s0);
      if !ok {
        return false;
      }
      ok := Issue(CopyBody(body), plan, n + 1, t0, s0);
      if !ok {
        return false;
      }
      ok := Issue(Close, plan, n + 2, t0, s0);
      if !ok {
        return false;
      }
      PartialEnd(transcript, stream, t0, s0, plan, env.respond);
    }

    /**
     * The envelope part of main (main.go:73-83): MAIL with the configured sender, RCPT with the
     * recipient, DATA. Returns the abort of the first command that fails.
     */
    method Envelope(from: string, to: string) returns (failed: Option<Abort>)
      modifies this
      ensures Finished(transcript, stream, old(transcript), old(stream), EnvelopePlan(from, to), env.respond, failed.None?)
      ensures failed.Some? ==> failed.value == StageOf(EnvelopePlan(from, to)[Leading(EnvelopePlan(from, to), env.respond)])
    {
      ghost var plan := EnvelopePlan(from, to);
      ghost var t0, s0 := transcript, stream;
      PartialStart(t0, s0, plan, env.respond);
      var ok := Issue(Mail(from), plan, 0, t0, s0);
      if !ok {
        return Some(MailFailed);
      }
      ok := Issue(Rcpt(to), plan, 1, t0, s0);
      if !ok {
        return Some(RcptFailed);
      }
      ok := Issue(Data, plan, 2, t0, s0);
      if !ok {
        return Some(DataFailed);
      }
      PartialEnd(transcript, stream, t0, s0, plan, env.respond);
      return None;
    }

    /**
     * main (main.go:36-108): the help and recipient checks, reading and checking the
     * configuration, then the delivery. Each log.Fatalln ends the run with the corresponding
     * abort.
     */
    method Send(args: Args) returns (outcome: Outcome)
      modifies this
      ensures var r := Spec(env, args);
              && outcome == r.outcome
              && transcript == old(transcript) + r.transcript
              && stream == old(stream) + r.stream
    {
      ghost var t0, s0 := transcript, stream;
      assert t0 + [] == t0 && s0 + "" == s0;
      if args.help {
        return HelpShown;
      }
      if args.to == "" {
        return Aborted(MissingRecipient);
      }
      var loaded := LoadConfig(args.configFile);
      if loaded.None? {
        return Aborted(ConfigUnreadable);
      }
      var config := loaded.value;
      var invalid := CheckConfig(config);
      if invalid.Some? {
        return Aborted(ConfigInvalid(invalid.value));
      }
      outcome := Deliver(args, config);
      AppendAssoc(t0, [ReadConfig(args.configFile)], Delivery(env, args, config).transcript);
    }

    /** main from Connect on (main.go:68-107): connect, then the transfer. */
    method Deliver(args: Args, config: Configuration) returns (outcome: Outcome)
      modifies this
      ensures var r := Delivery(env, args, config);
              && outcome == r.outcome
              && transcript == old(transcript) + r.transcript
              && stream == old(stream) + r.stream
    {
      ghost var t1, s1 := transcript, stream;
      assert t1 + [] == t1 && s1 + "" == s1;
      var err := Connect(config);
      ghost var parsed := env.splitHostPort(config.server.host);
      ghost var host := if parsed.Some? then parsed.value else "";
      ghost var cp := ConnectPlan(config, host);
      ghost var rest := EnvelopePlan(config.from, args.to) + MessagePlan(config.from, env.toRendering, args.subject, env.stdin);
      ghost var core := CorePlan(config, host, args, env);
      AppendAssoc(cp, EnvelopePlan(config.from, args.to), MessagePlan(config.from, env.toRendering, args.subject, env.stdin));
      assert core == cp + rest;
      if err.Some? {
        if parsed.Some? {
          ConcludeFails(cp, rest, env.respond);
          FinishedConcludes(transcript, stream, t1, s1, cp, env.respond);
        }
        return Aborted(ConnectFailed(err.value));
      }
      assert cp[..|cp|] == cp;
      outcome := Transfer(args, config);
      ConcludeAfter(cp, rest, env.respond);
      AppendAssoc(t1, cp, Conclude(rest, env.respond).transcript);
      AppendAssoc(s1, StreamOf(cp), Conclude(rest, env.respond).stream);
    }

    /** main once connected (main.go:73-107): the envelope, then the message. */
    method Transfer(args: Args, config: Configuration) returns (outcome: Outcome)
      modifies this
      ensures var ep := EnvelopePlan(config.from, args.to);
              var mp := MessagePlan(config.from, env.toRendering, args.subject, env.stdin);
              && QuitFree(ep + mp)
              && var r := Conclude(ep + mp, env.respond);
              && outcome == r.outcome
              && transcript == old(transcript) + r.transcript
              && stream == old(stream) + r.stream
    {
      ghost var ep := EnvelopePlan(config.from, args.to);
      var headers := Headers(config.from, env.toRendering, args.subject);
      ghost var mp := DataPlan(headers, env.stdin);
      ghost var t1, s1 := transcript, stream;
      DataPlanQuitFree(headers, env.stdin);
      QuitFreeJoin(ep, mp);
      var failed := Envelope(config.from, args.to);
      if failed.Some? {
        ConcludeFails(ep, mp, env.respond);
        FinishedConcludes(transcript, stream, t1, s1, ep, env.respond);
        return Aborted(failed.value);
      }
      assert ep[..|ep|] == ep;
      outcome := SendMessage(headers, env.stdin);
      ConcludeAfter(ep, mp, env.respond);
      AppendAssoc(t1, ep, Conclude(mp, env.respond).transcript);
      AppendAssoc(s1, StreamOf(ep), Conclude(mp, env.respond).stream);
    }

    /**
     * The message and Quit (main.go:90-107): the header lines, the blank line and the body on
     * the data writer, then Quit, whose answer is ignored.
     */
    method SendMessage(headers: seq<string>, body: string) returns (outcome: Outcome)
      modifies this
      ensures var mp := DataPlan(headers, body);
              && QuitFree(mp)
              && var r := Conclude(mp, env.respond);
              && outcome == r.outcome
              && transcript == old(transcript) + r.transcript
              && stream == old(stream) + r.stream
    {
      ghost var mp := DataPlan(headers, body);
      ghost var t1, s1 := transcript, stream;
      DataPlanQuitFree(headers, body);
      var written := WriteMessage(headers, body);
      if !written {
        DataPlanAborts(headers, body, Leading(mp, env.respond));
        FinishedConcludes(transcript, stream, t1, s1, mp, env.respond);
        return Aborted(SendBodyFailed);
      }
      assert mp[..|mp|] == mp;
      ghost var s2 := stream;
      assert s2 + Payload(Quit) == s2;
      var _ := Perform(Quit);
      AppendAssoc(t1, mp, [Quit]);
      return Sent;
    }
  }
}
