/** The DATA payload main.go writes: three header lines, a blank line, the body (main.go:85-101). */
module Message {
  import opened Protocol

  const CRLF: string := "\r\n"

  /** fmt.Sprintf("<name>: %s\r\n", value) for a string value. */
  function HeaderLine(name: string, value: string): string
  {
    name + ": " + value + CRLF
  }

  /**
   * The `headers` slice, in order. `toRendering` is the text fmt produces for the To operand,
   * which in main.go:87 is the pointer `to`, not the recipient `*to`.
   */
  function Headers(from: string, toRendering: string, subject: string): seq<string>
  {
    [HeaderLine("From", from), HeaderLine("To", toRendering), HeaderLine("Subject", subject)]
  }

  /** One w.Write per header, in the order of the slice. */
  function HeaderWrites(headers: seq<string>): seq<Step>
  {
    seq(|headers|, i requires 0 <= i < |headers| => Write(headers[i]))
  }

  /** Every step issued on the data writer: header writes, the blank line, the body copy, Close. */
  function DataPlan(headers: seq<string>, body: string): seq<Step>
  {
    HeaderWrites(headers) + [Write(CRLF), CopyBody(body), Close]
  }

  /** The data-writer steps of the message main.go builds. */
  function MessagePlan(from: string, toRendering: string, subject: string, body: string): seq<Step>
  {
    DataPlan(Headers(from, toRendering, subject), body)
  }

  /** The payload the message is meant to consist of, spelled out. */
  function ExpectedPayload(from: string, toRendering: string, subject: string, body: string): string
  {
    "From: " + from + "\r\n" + "To: " + toRendering + "\r\n" + "Subject: " + subject + "\r\n" + "\r\n" + body
  }

  /** The expected payload is the three header lines, the blank line and the body, in order. */
  lemma ExpectedPayloadSplits(from: string, toRendering: string, subject: string, body: string)
    ensures var hs := Headers(from, toRendering, subject);
            ExpectedPayload(from, toRendering, subject, body) == hs[0] + hs[1] + hs[2] + CRLF + body
  {
    var hs := Headers(from, toRendering, subject);
    assert hs[0] == "From: " + from + "\r\n";
    assert hs[1] == "To: " + toRendering + "\r\n";
    assert hs[2] == "Subject: " + subject + "\r\n";
  }

  /** The header lines joined in order. */
  function Concat(parts: seq<string>): string
    decreases |parts|
  {
    if parts == [] then "" else Concat(parts[..|parts| - 1]) + parts[|parts| - 1]
  }

  /** Writing the headers one by one streams them joined in order. */
  lemma {:induction false} HeaderWritesStream(headers: seq<string>)
    ensures StreamOf(HeaderWrites(headers)) == Concat(headers)
    decreases |headers|
  {
    if headers != [] {
      var init := headers[..|headers| - 1];
      assert HeaderWrites(headers)[..|headers| - 1] == HeaderWrites(init);
      HeaderWritesStream(init);
    }
  }

  /** The blank line, the body copy and Close stream the blank line and the body. */
  lemma TailStream(body: string)
    ensures StreamOf([Write(CRLF), CopyBody(body), Close]) == CRLF + body
  {
    var tail := [Write(CRLF), CopyBody(body), Close];
    assert tail[..2][..1] == [Write(CRLF)];
    assert [Write(CRLF)][..0] == [];
    assert StreamOf([Write(CRLF)]) == CRLF;
    assert StreamOf(tail[..2]) == CRLF + body;
    assert StreamOf(tail) == CRLF + body + "";
  }

  /**
   * With every step successful, the data writer receives the header lines joined in order, the
   * blank line and the body.
   */
  lemma DataPlanStream(headers: seq<string>, body: string)
    ensures StreamOf(DataPlan(headers, body)) == Concat(headers) + CRLF + body
  {
    StreamOfAppend(HeaderWrites(headers), [Write(CRLF), CopyBody(body), Close]);
    HeaderWritesStream(headers);
    TailStream(body);
    AppendAssoc(Concat(headers), CRLF, body);
  }

  /** Three parts joined. */
  lemma ConcatThree(x: string, y: string, z: string)
    ensures Concat([x, y, z]) == x + y + z
  {
    assert [x, y, z][..2] == [x, y];
    assert [x, y][..1] == [x];
    assert [x][..0] == [];
    assert "" + x == x;
    assert Concat([x]) == x;
    assert Concat([x, y]) == x + y;
  }

  /** Every step on the data writer is a write, the body copy or Close. */
  lemma DataPlanSteps(headers: seq<string>, body: string)
    ensures var plan := DataPlan(headers, body);
            forall i :: 0 <= i < |plan| ==> plan[i].Write? || plan[i].CopyBody? || plan[i].Close?
  {
    var plan := DataPlan(headers, body);
    forall i | 0 <= i < |plan| ensures plan[i].Write? || plan[i].CopyBody? || plan[i].Close? {
      if i < |headers| {
        assert plan[i] == HeaderWrites(headers)[i];
      }
    }
  }

  /** When every step of the message succeeds, the stream is exactly the expected payload. */
  lemma MessagePlanStream(from: string, toRendering: string, subject: string, body: string)
    ensures StreamOf(MessagePlan(from, toRendering, subject, body)) == ExpectedPayload(from, toRendering, subject, body)
  {
    var hs := Headers(from, toRendering, subject);
    DataPlanStream(hs, body);
    ConcatThree(hs[0], hs[1], hs[2]);
    ExpectedPayloadSplits(from, toRendering, subject, body);
  }

  /** Whatever step fails, what reached the stream is a prefix of the expected payload. */
  lemma MessagePrefixStream(from: string, toRendering: string, subject: string, body: string, k: nat)
    requires k <= |MessagePlan(from, toRendering, subject, body)|
    ensures StreamOf(MessagePlan(from, toRendering, subject, body)[..k]) <= ExpectedPayload(from, toRendering, subject, body)
  {
    StreamOfPrefix(MessagePlan(from, toRendering, subject, body), k);
    MessagePlanStream(from, toRendering, subject, body);
  }
}
