/**
 * The external calls main.go makes, as steps of a transcript, and what it means to issue a
 * fixed list of such calls, in order, stopping at the first one that fails.
 */
module Protocol {

  /** One call into the file system, the network or the SMTP client. */
  datatype Step =
    | ReadConfig(path: string)                                        // ioutil.ReadFile + yaml.Unmarshal
    | DialTls(address: string, serverName: string, insecureSkipVerify: bool)  // tls.Dial
    | DialTcp(address: string)                                        // net.Dial
    | NewClient(host: string)                                         // smtp.NewClient
    | Auth(username: string, password: string, host: string)          // cl.Auth(smtp.PlainAuth(...))
    | Mail(from: string)                                              // cl.Mail
    | Rcpt(to: string)                                                // cl.Rcpt
    | Data                                                            // cl.Data
    | Write(chunk: string)                                            // w.Write
    | CopyBody(body: string)                                          // io.Copy(w, os.Stdin)
    | Close                                                           // w.Close
    | Quit                                                            // cl.Quit

  /**
   * The environment's answer to a step: respond(s) tells whether step s succeeds. A run issues
   * no step twice (see Properties.StepsDistinct), so this is as general as an answer that
   * depends on the position or on the steps before it.
   */
  type Responder = Step -> bool

  /** The text a successful step adds to the DATA stream. */
  function Payload(s: Step): string
  {
    match s
    case Write(chunk) => chunk
    case CopyBody(body) => body
    case _ => ""
  }

  /** The DATA stream produced by a sequence of successful steps. */
  function StreamOf(steps: seq<Step>): string
    decreases |steps|
  {
    if steps == [] then "" else StreamOf(steps[..|steps| - 1]) + Payload(steps[|steps| - 1])
  }

  /**
   * The number of steps of `plan` that succeed before the first failure.
   */
  function Leading(plan: seq<Step>, respond: Responder): (k: nat)
    ensures k <= |plan|
    ensures k < |plan| ==> !respond(plan[k])
    decreases |plan|
  {
    if plan == [] || !respond(plan[0]) then 0
    else 1 + Leading(plan[1..], respond)
  }

  /** Every step before the first failure succeeds. */
  lemma {:induction false} LeadingSucceeds(plan: seq<Step>, respond: Responder, i: nat)
    requires i < Leading(plan, respond)
    ensures respond(plan[i])
    decreases i
  {
    if i > 0 {
      LeadingSucceeds(plan[1..], respond, i - 1);
    }
  }

  /** A plan whose first j steps succeed is issued at least that far. */
  lemma {:induction false} LeadingAtLeast(plan: seq<Step>, respond: Responder, j: nat)
    requires j <= |plan|
    requires forall i :: 0 <= i < j ==> respond(plan[i])
    ensures j <= Leading(plan, respond)
    decreases j
  {
    if j > 0 {
      assert respond(plan[0]);
      forall i | 0 <= i < j - 1 ensures respond(plan[1..][i]) {
        assert respond(plan[i + 1]);
      }
      LeadingAtLeast(plan[1..], respond, j - 1);
    }
  }

  /** The steps actually issued: all of the plan up to and including its first failing step. */
  function Issued(plan: seq<Step>, respond: Responder): seq<Step>
  {
    var k := Leading(plan, respond);
    if k < |plan| then plan[..k + 1] else plan
  }

  /**
   * What is issued is a prefix of the plan; every issued step but the last succeeded; when the
   * plan is cut short, the last issued step is the one that failed.
   */
  lemma IssuedIsFailFast(plan: seq<Step>, respond: Responder)
    ensures var t := Issued(plan, respond);
            && t <= plan
            && (forall i :: 0 <= i < |t| - 1 ==> respond(t[i]))
            && (|t| < |plan| ==> |t| > 0 && !respond(t[|t| - 1]))
            && (Leading(plan, respond) == |plan| <==> t == plan && forall i :: 0 <= i < |t| ==> respond(t[i]))
  {
    var t := Issued(plan, respond);
    var k := Leading(plan, respond);
    forall i | 0 <= i < k ensures respond(plan[i]) {
      LeadingSucceeds(plan, respond, i);
    }
  }

  /** Issuing a + b: if a fails the run stops inside a, otherwise b is issued right after a. */
  lemma {:induction false} LeadingAppend(a: seq<Step>, b: seq<Step>, respond: Responder)
    ensures Leading(a + b, respond) ==
            if Leading(a, respond) < |a| then Leading(a, respond)
            else |a| + Leading(b, respond)
    decreases |a|
  {
    if a == [] {
      assert a + b == b;
    } else {
      assert (a + b)[0] == a[0];
      assert (a + b)[1..] == a[1..] + b;
      if respond(a[0]) {
        LeadingAppend(a[1..], b, respond);
      }
    }
  }

  /**
   * Midway through issuing `plan` after transcript t0 and stream s0: its first i steps have been
   * issued and have succeeded, giving transcript t and stream st.
   */
  ghost predicate Partial(t: seq<Step>, st: string, t0: seq<Step>, s0: string, plan: seq<Step>, respond: Responder, i: nat)
  {
    && i <= Leading(plan, respond)
    && t == t0 + plan[..i]
    && st == s0 + StreamOf(plan[..i])
  }

  /**
   * Done issuing `plan` after transcript t0 and stream s0: ok tells whether every step succeeded,
   * t holds the steps issued up to the first failure, st what the successful steps wrote.
   */
  ghost predicate Finished(t: seq<Step>, st: string, t0: seq<Step>, s0: string, plan: seq<Step>, respond: Responder, ok: bool)
  {
    var k := Leading(plan, respond);
    && (ok <==> k == |plan|)
    && t == t0 + Issued(plan, respond)
    && st == s0 + StreamOf(plan[..k])
  }

  lemma PartialStart(t0: seq<Step>, s0: string, plan: seq<Step>, respond: Responder)
    ensures Partial(t0, s0, t0, s0, plan, respond, 0)
  {
    assert plan[..0] == [];
  }

  /** Issuing the next step with success keeps the run going. */
  lemma PartialNext(t: seq<Step>, st: string, t0: seq<Step>, s0: string, plan: seq<Step>, respond: Responder, i: nat)
    requires Partial(t, st, t0, s0, plan, respond, i) && i < |plan|
    ensures respond(plan[i]) ==> Partial(t + [plan[i]], st + Payload(plan[i]), t0, s0, plan, respond, i + 1)
  {
    ExtendStream(s0, plan, i);
    ExtendTranscript(t0, plan, i);
  }

  /** A failing next step finishes the run, with that step as the last one issued. */
  lemma PartialFails(t: seq<Step>, st: string, t0: seq<Step>, s0: string, plan: seq<Step>, respond: Responder, i: nat)
    requires Partial(t, st, t0, s0, plan, respond, i) && i < |plan|
    ensures !respond(plan[i]) ==>
              Finished(t + [plan[i]], st, t0, s0, plan, respond, false) && Leading(plan, respond) == i
  {
    if !respond(plan[i]) {
      ExtendTranscript(t0, plan, i);
      if i < Leading(plan, respond) {
        LeadingSucceeds(plan, respond, i);
      }
    }
  }

  /** Issuing the next step either keeps the run going or finishes it with that step's failure. */
  lemma PartialStep(t: seq<Step>, st: string, t0: seq<Step>, s0: string, plan: seq<Step>, respond: Responder, i: nat)
    requires Partial(t, st, t0, s0, plan, respond, i) && i < |plan|
    ensures respond(plan[i]) ==> Partial(t + [plan[i]], st + Payload(plan[i]), t0, s0, plan, respond, i + 1)
    ensures !respond(plan[i]) ==>
              Finished(t + [plan[i]], st, t0, s0, plan, respond, false) && Leading(plan, respond) == i
  {
    PartialNext(t, st, t0, s0, plan, respond, i);
    PartialFails(t, st, t0, s0, plan, respond, i);
  }

  /** Once every step has been issued the run is finished with success. */
  lemma PartialEnd(t: seq<Step>, st: string, t0: seq<Step>, s0: string, plan: seq<Step>, respond: Responder)
    requires Partial(t, st, t0, s0, plan, respond, |plan|)
    ensures Finished(t, st, t0, s0, plan, respond, true)
  {
    assert plan[..|plan|] == plan;
  }

  /** The stream of a plan cut inside its second part. */
  lemma StreamAfter(a: seq<Step>, b: seq<Step>, kb: nat)
    requires kb <= |b|
    ensures StreamOf((a + b)[..|a| + kb]) == StreamOf(a) + StreamOf(b[..kb])
  {
    TakeAppend(a, b, kb);
    StreamOfAppend(a, b[..kb]);
  }

  lemma TakeAppend<T>(a: seq<T>, b: seq<T>, n: nat)
    requires n <= |b|
    ensures (a + b)[..|a| + n] == a + b[..n]
  {
  }

  lemma TakeWithin<T>(a: seq<T>, b: seq<T>, n: nat)
    requires n <= |a|
    ensures (a + b)[..n] == a[..n]
  {
  }

  lemma AppendAssoc<T>(x: seq<T>, y: seq<T>, z: seq<T>)
    ensures x + y + z == x + (y + z)
  {
  }

  /** A transcript that already holds `prefix` grows by the next step of the plan. */
  lemma ExtendTranscript(prefix: seq<Step>, steps: seq<Step>, i: nat)
    requires i < |steps|
    ensures prefix + steps[..i] + [steps[i]] == prefix + steps[..i + 1]
  {
    assert steps[..i + 1] == steps[..i] + [steps[i]];
  }

  /** A stream that already holds `prefix` grows by the payload of the next step of the plan. */
  lemma ExtendStream(prefix: string, steps: seq<Step>, i: nat)
    requires i < |steps|
    ensures prefix + StreamOf(steps[..i + 1]) == prefix + StreamOf(steps[..i]) + Payload(steps[i])
  {
    assert steps[..i + 1][..i] == steps[..i];
  }

  /** The stream of a concatenation is the concatenation of the streams. */
  lemma {:induction false} StreamOfAppend(a: seq<Step>, b: seq<Step>)
    ensures StreamOf(a + b) == StreamOf(a) + StreamOf(b)
    decreases |b|
  {
    if b == [] {
      AppendEmpty(a);
      AppendEmpty(StreamOf(a));
    } else {
      var b', x := b[..|b| - 1], b[|b| - 1];
      SnocSplit(a, b);
      StreamOfAppend(a, b');
      AppendAssoc(StreamOf(a), StreamOf(b'), Payload(x));
    }
  }

  lemma AppendEmpty<T>(a: seq<T>)
    ensures a + [] == a
  {
  }

  /** Removing the last element of b from a + b. */
  lemma SnocSplit<T>(a: seq<T>, b: seq<T>)
    requires b != []
    ensures (a + b)[..|a + b| - 1] == a + b[..|b| - 1]
    ensures (a + b)[|a + b| - 1] == b[|b| - 1]
  {
  }

  /** Taking a prefix of the steps takes a prefix of the stream. */
  lemma {:induction false} StreamOfPrefix(steps: seq<Step>, k: nat)
    requires k <= |steps|
    ensures StreamOf(steps[..k]) <= StreamOf(steps)
    decreases |steps| - k
  {
    if k < |steps| {
      var p := steps[..|steps| - 1];
      assert p[..k] == steps[..k];
      StreamOfPrefix(p, k);
    } else {
      assert steps[..k] == steps;
    }
  }
}
