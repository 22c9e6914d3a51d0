# go-smtp-send in Dafny

go-smtp-send is a command-line tool that sends the text on standard input as one e-mail to a
single recipient. main parses the flags `-h`, `-config`, `-to` and `-subject`. It reads a YAML
configuration (server address, TLS and certificate-verification switches, sender address,
optional PLAIN credentials) and validates it with CheckConfig. Connect then parses the host out
of the address, dials over TCP or TLS, wraps the connection in an SMTP client and authenticates
when a username is configured. After that main issues MAIL, RCPT and DATA, writes the From, To
and Subject header lines, a blank line and the body to the data writer, closes it, and sends
QUIT. Any failure before QUIT writes a diagnostic and ends the process (`log.Fatalln`); the
answer to QUIT is ignored. Nothing is retried.

The model has seven modules:

- `Wrappers`: the `Option` type.
- `Config`: the configuration record, the default configuration path and CheckConfig.
- `Protocol`: the external calls (`Step`), the characters each adds to the DATA stream, and the
  fail-fast issuing of a plan of steps (`Leading`, `Issued`, and the ghost predicates `Partial`
  and `Finished` that the imperative code is proved against).
- `Message`: the header lines, the data-writer plan and the expected DATA payload.
- `Pipeline`: the command-line arguments, the environment, the abort reasons and `Spec`, a
  reference definition of one whole run. A run yields its outcome, its transcript of external
  calls and the characters written to the DATA stream.
- `Sending`: class `Sender`, the imperative counterpart of `main` and `Connect`. Its fields are
  the transcript and the stream, and its methods issue the calls one by one and stop at the
  first failure. Each method is proved to leave exactly the state `Spec` (or the part of it that
  the method covers) describes.
- `Properties`: lemmas about `Spec`. They cover call order, nothing after a failure, invalid
  configurations never connecting, Auth exactly when a username is set, the text of the
  message, and distinctness of the calls.

The outside world is the `Environment`:

- `loadConfig` stands for the file read plus the YAML decode.
- `splitHostPort` stands for `net.SplitHostPort`.
- `respond(step)` says whether a network step succeeds.
- `stdin` is the body.
- `toRendering` is the text that `fmt.Sprintf` produces for the To header (see below).

A run never issues the same step twice (`Properties.StepsDistinct`). So an answer that depends
only on the step is as general as one that depends on the step's position in the run.

main.go:87 formats the pointer `to` (the `*string` that `flag.String` returns) instead of the
recipient `*to`. So the To header carries Go's text for a pointer and cannot name the recipient,
which is evidently what was meant. The model follows the code: the header value is the opaque
`env.toRendering`, never equated with the recipient. `Properties.RecipientNeverInMessage` proves
that two runs that are both Sent and differ only in the recipient write the same stream. The
intended behaviour is stated beside it (see "## Findings").

## Model

| member | source | states |
|---|---|---|
| Config.CheckConfig | main.go:110-118 | no error exactly when both the sender and the server host are non-empty; an empty sender reports "from field empty" first, otherwise an empty host reports "no host specified" |
| Config.CheckConfigReadsFromAndHostOnly | main.go:110-118 | validation depends only on the sender and the host; the TLS flags and credentials play no part |
| Properties.NoFlagsStopsForRecipient | main.go:40-53 | run with no flags (no help, the configuration path /etc/go-smtp-send.yaml, empty recipient and subject), the program aborts for the missing recipient before any call and writes nothing |
| Pipeline.CorePlan | main.go:68-105 | none of the network steps after the configuration read is Quit or a configuration read |
| Protocol.Leading | main.go:68-105 | the count of successful leading steps is at most the plan's length, and the step at that count failed |
| Protocol.LeadingSucceeds | main.go:68-105 | every step before the first failure succeeded |
| Protocol.IssuedIsFailFast | main.go:68-105 | the issued calls are a prefix of the plan; all but the last succeeded; when cut short, the last one failed; the whole plan is issued exactly when every step succeeds |
| Protocol.LeadingAppend | main.go:68-105 | issuing a + b stops inside a when a fails, and otherwise continues into b right after a |
| Protocol.StreamOfAppend | main.go:90-105 | the stream of consecutive steps is the concatenation of the streams of each part |
| Message.MessagePlanStream | main.go:85-105 | when every data-writer step succeeds, the stream is the From, To and Subject lines, CRLF, then the body |
| Message.HeaderWritesStream | main.go:90-94 | the header writes, in slice order, put exactly the concatenation of the headers on the stream |
| Message.DataPlanSteps | main.go:90-105 | every step on the data writer is a Write, the body copy or Close |
| Message.MessagePrefixStream | main.go:90-105 | after any number of successful data-writer steps, the stream is a prefix of the expected payload |
| Message.ExpectedPayloadSplits | main.go:85-97 | the expected payload is the three header lines, the blank line and the body |
| Pipeline.ConcludeAfter | main.go:68-107 | after a fully successful first part, the run's outcome is the second part's, and its transcript and stream are the first part's followed by the second part's |
| Pipeline.ConcludeFails | main.go:68-107 | when the first part fails, the second part is never issued and the run ends with the first part's abort |
| Pipeline.DataPlanAborts | main.go:90-105 | any failure on the data writer aborts with "could not send body" |
| Sending.Sender.Perform | main.go:68-107 | one call is appended to the transcript; what it writes reaches the stream only if it succeeds |
| Sending.Sender.LoadConfig | main.go:55-62 | the read is recorded and the configuration is what reading and decoding give |
| Sending.Sender.Dial | main.go:126-139 | tls.Dial with the parsed host as server name and verification turned off unless configured, or net.Dial on the configured address |
| Sending.Sender.Connect | main.go:120-159 | an unparsable host makes no call; otherwise the dial, NewClient and (with a username only) Auth are issued fail-fast, and the returned error names the failed step |
| Sending.Sender.Envelope | main.go:73-83 | MAIL with the sender, RCPT with the recipient, DATA, issued fail-fast; the returned abort names the failed command |
| Sending.Sender.WriteMessage | main.go:90-105 | each header, the blank line, the body copy and Close, issued fail-fast |
| Sending.Sender.SendMessage | main.go:90-107 | the data-writer steps, then Quit only if all succeeded; Quit's answer is ignored |
| Sending.Sender.Transfer | main.go:73-107 | the envelope and then the message, as the reference run concludes them |
| Sending.Sender.Deliver | main.go:68-107 | Connect and then the transfer; the outcome, transcript and stream are those of the reference delivery |
| Sending.Sender.Send | main.go:36-108 | the whole program: outcome, transcript and stream equal those of the reference run Spec |
| Properties.ConcludeFailFast | main.go:68-107 | the transcript is a prefix of the plan plus Quit; Sent exactly when all of it was issued; every call but the last succeeded; when aborted, the last call failed, is not Quit, and names the abort |
| Properties.HelpDoesNothingElse | main.go:46-49 | -h shows help and makes no call at all |
| Properties.MissingRecipientBeforeAnyCall | main.go:51-53 | an empty -to aborts before any file or network access |
| Properties.BadConfigNeverConnects | main.go:55-66 | an unreadable or invalid configuration aborts right after the read, with the matching error, and nothing is dialled or written |
| Properties.ReachedRun | main.go:64-107 | a valid configuration with a parsable host runs the read, then the core plan to its conclusion |
| Properties.RunFollowsPlan | main.go:36-108 | the calls are a prefix of the planned calls in the planned order, and Sent exactly when all of them, Quit included, were made |
| Properties.NothingFollowsAFailure | main.go:68-105 | a failed network call is the last call of the run, and the run aborts with that call's error |
| Properties.CoreSteps | main.go:120-159 | a dial is first and NewClient second; Auth can only be third and only with a username; MAIL follows right after Connect's steps |
| Properties.AuthIffUsername | main.go:146-156 | once the dial and NewClient succeed a fourth call follows, and it is Auth with the configured credentials and the parsed host if the username is non-empty and MAIL otherwise; no Auth without a username |
| Properties.AuthFailureMeansNoMail | main.go:146-156 | a failed Auth leaves exactly the read, dial, NewClient and Auth calls; no MAIL is sent and nothing is written |
| Properties.StreamIsMessagePrefix | main.go:85-105 | the stream is always a prefix of the From/To/Subject lines, CRLF and the body, and all of it when the run is Sent |
| Properties.NothingWrittenBeforeData | main.go:68-83 | nothing is written unless the failure happened on the data writer or the run got past DATA |
| Properties.EmptySubjectStillWritten | main.go:88 | an empty subject still writes the line "Subject: " followed by CRLF |
| Properties.RecipientNeverInMessage | main.go:85-89 | two runs that are both Sent and differ only in the recipient write the same stream |
| Properties.IntendedRecipientInMessage | main.go:85-89 | when the header text is the recipient itself, a Sent run writes the From line, then "To: " with the recipient and CRLF, then the Subject line, the blank line and the body |
| Properties.StepsDistinct | main.go:36-108 | no call is issued twice in one run |

## Left out

- TLS, TCP and the SMTP client are not modelled. Each network call is one `Step` whose success
  `env.respond` decides. Server replies, certificate checks and the wire format are out of scope.
- `net.SplitHostPort` is the opaque `env.splitHostPort`. Its parsing rules are not modelled.
- Reading the configuration with `ioutil.ReadFile` plus `yaml.Unmarshal` is one `ReadConfig` step
  whose result is `env.loadConfig`. The YAML format and field mapping are not modelled. A failure
  of either part is `ConfigUnreadable`.
- Flag parsing (`flag.Parse`) is not modelled: the model starts from the parsed `Args`. The help
  text that `flag.PrintDefaults` prints and the process exit codes are not modelled; `os.Exit(0)`
  is the `HelpShown` outcome and each `log.Fatalln` is an `Aborted` outcome naming its stage.
- Diagnostic texts and the wrapped error values are reduced to the `Abort` and `ConnectError`
  cases.
- `io.Copy` from standard input is one `CopyBody` step carrying the whole body. Partial writes,
  short copies and a failing write that still delivered some bytes are not modelled: a failed
  step adds nothing to the stream. Dot-stuffing inside the SMTP data writer is not modelled.
- The text Go produces for the To header from the pointer `to` is the opaque `env.toRendering`.
- Quit's answer is ignored, as in the code, and nothing after Quit is modelled.
- The DATA payload is modelled as a string of characters, not bytes. Go writes `[]byte(h)` and
  `io.Copy` copies raw bytes from standard input, which need not be valid UTF-8; nothing is
  claimed about encoding.

## Findings

| source | as written | input that shows it | evidently intended | confidence | as-written member | corrected member |
|---|---|---|---|---|---|---|
| main.go:87 | the To header is `fmt.Sprintf("To: %s\r\n", to)` with `to` the `*string` from `flag.String`, so it carries Go's text for a pointer (`%!s(*string=0x…)`) | `-to b@y.com`: the header is not `To: b@y.com`, and two Sent runs with `-to a@x.com` and `-to b@y.com` write the same stream | the header names the recipient, `To: ` followed by `*to` | not executed | Properties.RecipientNeverInMessage | Properties.IntendedRecipientInMessage |
