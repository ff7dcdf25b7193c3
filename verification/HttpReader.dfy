/**
 * Backend HTTP responses read back as a byte stream (proxy/backend_http_reader.go): the goroutine
 * that forwards message bodies, and `Read` with its carry-over buffer. JSON decoding is a parameter.
 */
module HttpReader {
  import opened Prelude
  import opened Envelope

  datatype HttpMessage = HttpMessage(headers: map<string, seq<string>>, code: int, body: string, eof: bool)

  type Decoder = string -> Option<HttpMessage>

  // ----- start: from messages to the data channel -----

  /** The messages before the first Close. */
  function BeforeClose(messages: seq<Message>): seq<Message> {
    if messages == [] || messages[0].kind == CLOSE then [] else [messages[0]] + BeforeClose(messages[1..])
  }

  function BodyTexts(messages: seq<Message>): seq<string> {
    if messages == [] then []
    else BodyTexts(messages[..|messages| - 1]) + if messages[|messages| - 1].kind == BODY
      then [messages[|messages| - 1].body] else []
  }

  lemma {:induction false} BeforeCloseOfPrefix(messages: seq<Message>, n: nat)
    requires n <= |messages| && forall i :: 0 <= i < n ==> messages[i].kind != CLOSE
    ensures BeforeClose(messages) == messages[..n] + BeforeClose(messages[n..])
    decreases n
  {
    if n == 0 {
    } else {
      BeforeCloseOfPrefix(messages[1..], n - 1);
      assert messages[1..][..n - 1] == messages[1..n] && messages[1..][n - 1..] == messages[n..];
      assert messages[..n] == [messages[0]] + messages[1..n];
      assert BeforeClose(messages) == [messages[0]] + (messages[1..n] + BeforeClose(messages[n..]));
    }
  }

  /** Bodies in order, other messages left out: these three equations settle it. */
  lemma {:induction false} BodyTextsExactly(a: seq<Message>, b: seq<Message>, m: Message)
    ensures BodyTexts([]) == [] && BodyTexts([m]) == if m.kind == "1" then [m.body] else []
    ensures BodyTexts(a + b) == BodyTexts(a) + BodyTexts(b)
    decreases |b|
  {
    assert [m][..0] == [];
    if b == [] {
      assert a + b == a;
    } else {
      assert (a + b)[..|a + b| - 1] == a + b[..|b| - 1];
      BodyTextsExactly(a, b[..|b| - 1], m);
    }
  }

  /** What comes before the first Close: a prefix without one, up to a Close or the end. */
  lemma {:induction false} BeforeCloseExactly(messages: seq<Message>)
    ensures BeforeClose(messages) <= messages
    ensures forall i :: 0 <= i < |BeforeClose(messages)| ==> messages[i].kind != "2"
    ensures |BeforeClose(messages)| < |messages| ==> messages[|BeforeClose(messages)|].kind == "2"
    decreases |messages|
  {
    if messages == [] {
    } else {
      BeforeCloseExactly(messages[1..]);
    }
  }

  /** Forwards bodies until a Close, asks once for the connection to be closed, then only drains. */
  method Start(messages: seq<Message>) returns (data: seq<string>, closeRequests: nat)
    ensures data == BodyTexts(BeforeClose(messages))
    ensures closeRequests == if exists i :: 0 <= i < |messages| && messages[i].kind == CLOSE then 1 else 0
  {
    data, closeRequests := [], 0;
    var closed := false;
    ghost var open := 0;
    for n := 0 to |messages|
      invariant open <= n && forall i :: 0 <= i < open ==> messages[i].kind != CLOSE
      invariant !closed ==> open == n && closeRequests == 0
      invariant closed ==> open < n && messages[open].kind == CLOSE && closeRequests == 1
      invariant data == BodyTexts(messages[..open])
    {
      if !closed {
        if messages[n].kind == BODY {
          data := data + [messages[n].body];
        } else if messages[n].kind == CLOSE {
          closed := true;
          closeRequests := closeRequests + 1;
        }
        if !closed {
          open := open + 1;
          assert messages[..open][..n] == messages[..n];
        }
      }
    }
    BeforeCloseOfPrefix(messages, open);
    assert messages[..open] + [] == messages[..open];
  }

  // ----- Read -----

  datatype Outcome = Bytes(bytes: string) | Eof | Failed

  /** What the client's response writer was given: its header map and the status codes written. */
  datatype Head = Head(headers: map<string, seq<string>>, codes: seq<int>)

  const NoHead := Head(map[], [])

  /** The buffer, what the data channel still holds before it is closed, and the response's head. */
  datatype State = State(buffer: string, data: seq<string>, head: Head)

  function Headed(h: Head, m: HttpMessage): Head {
    Head(h.headers + m.headers, if m.code > 0 then h.codes + [m.code] else h.codes)
  }

  function Min(a: nat, b: nat): nat {
    if a < b then a else b
  }

  /** A response that `Read` takes into its buffer. */
  function Response(text: string, decode: Decoder): Option<HttpMessage> {
    match decode(text)
    case None => None
    case Some(m) => if m.eof || (m.code != 0 && (m.code < 100 || m.code > 999)) then None else Some(m)
  }

  function Copied(s: State, size: nat): (State, Outcome) {
    var c := Min(size, |s.buffer|);
    (s.(buffer := s.buffer[c..]), Bytes(s.buffer[..c]))
  }

  function ReadOnce(s: State, size: nat, decode: Decoder): (State, Outcome) {
    if s.buffer != [] then Copied(s, size)
    else if s.data == [] then (s, Eof)
    else
      var text, s' := s.data[0], s.(data := s.data[1..]);
      match Response(text, decode)
      case Some(m) => Copied(s'.(buffer := m.body, head := Headed(s.head, m)), size)
      case None => (s', if decode(text).Some? && decode(text).value.eof then Eof else Failed)
  }

  /** A response whose body is read: decoded, not the end, its status absent or of three digits. */
  predicate Readable(text: string, decode: Decoder) {
    decode(text).Some? && !decode(text).value.eof &&
      (decode(text).value.code == 0 || 100 <= decode(text).value.code <= 999)
  }

  lemma ResponseExactly(text: string, decode: Decoder)
    ensures Response(text, decode) == if Readable(text, decode) then decode(text) else None
  {
  }

  /**
   * What one read answers, exactly. It copies as many bytes as fit, from the front of what is
   * buffered or, with nothing buffered, of the next readable body; otherwise it is the end of file
   * when the channel is closed or the response says so, and a failure for every other response.
   */
  lemma ReadExactly(s: State, size: nat, decode: Decoder)
    ensures var (s', outcome) := ReadOnce(s, size, decode);
      var fetches := s.buffer == [] && s.data != [];
      var source := if fetches && Readable(s.data[0], decode) then decode(s.data[0]).value.body else s.buffer;
      && s'.data == (if fetches then s.data[1..] else s.data)
      && (outcome.Bytes? <==> s.buffer != [] || (fetches && Readable(s.data[0], decode)))
      && (outcome.Bytes? ==>
            && |outcome.bytes| == (if size < |source| then size else |source|)
            && outcome.bytes + s'.buffer == source)
      && (outcome.Eof? <==>
            s.buffer == [] && (s.data == [] || (decode(s.data[0]).Some? && decode(s.data[0]).value.eof)))
  {
    if s.data != [] {
      ResponseExactly(s.data[0], decode);
    }
  }

  /** The bytes handed out by a series of reads, and the state they leave. */
  function ReadAll(s: State, sizes: seq<nat>, decode: Decoder): (State, string) {
    if sizes == [] then (s, "")
    else
      var (before, got) := ReadAll(s, sizes[..|sizes| - 1], decode);
      var (after, outcome) := ReadOnce(before, sizes[|sizes| - 1], decode);
      (after, if outcome.Bytes? then got + outcome.bytes else got)
  }

  function Concat(data: seq<string>, decode: Decoder): string {
    if data == [] then ""
    else Concat(data[..|data| - 1], decode) + match Response(data[|data| - 1], decode) case Some(m) =>
      m.body case None => ""
  }

  /** The head that the accepted messages make up, later headers replacing earlier ones. */
  function HeadOf(data: seq<string>, decode: Decoder): Head {
    if data == [] then NoHead
    else
      var before := HeadOf(data[..|data| - 1], decode);
      match Response(data[|data| - 1], decode) case Some(m) => Headed(before, m) case None => before
  }

  /** One more message: a readable one sets its headers, the rest staying, and writes its status if it has one. */
  lemma HeadExactly(data: seq<string>, text: string, decode: Decoder)
    ensures var h, h' := HeadOf(data, decode), HeadOf(data + [text], decode);
      && (!Readable(text, decode) ==> h' == h)
      && (Readable(text, decode) ==>
            var m := decode(text).value;
            && h'.codes == h.codes + (if m.code == 0 then [] else [m.code])
            && h'.headers.Keys == h.headers.Keys + m.headers.Keys
            && (forall k :: k in h'.headers ==> h'.headers[k] == if k in m.headers then m.headers[k] else h.headers[k]))
  {
    assert (data + [text])[..|data|] == data;
    ResponseExactly(text, decode);
  }

  /** What is left in the channel is a tail of what was there. */
  ghost predicate Left(data: seq<string>, rest: seq<string>) {
    |rest| <= |data| && rest == data[|data| - |rest|..]
  }

  ghost function Consumed(data: seq<string>, rest: seq<string>): seq<string>
    requires Left(data, rest)
  {
    data[..|data| - |rest|]
  }

  ghost predicate Accounted(data: seq<string>, s: State, got: string, decode: Decoder) {
    && Left(data, s.data) && got + s.buffer == Concat(Consumed(data, s.data), decode)
    && s.head == HeadOf(Consumed(data, s.data), decode)
  }

  /** Taking one message off the channel adds its body, if it has one, to what is accounted for. */
  lemma ConsumeOne(data: seq<string>, rest: seq<string>, decode: Decoder)
    requires Left(data, rest) && rest != []
    ensures Left(data, rest[1..])
    ensures Concat(Consumed(data, rest[1..]), decode)
         == Concat(Consumed(data, rest), decode)
          + match Response(rest[0], decode) case Some(m) => m.body case None => ""
    ensures HeadOf(Consumed(data, rest[1..]), decode)
         == var before := HeadOf(Consumed(data, rest), decode);
           match Response(rest[0], decode) case Some(m) => Headed(before, m) case None => before
  {
    var consumed, more := Consumed(data, rest), Consumed(data, rest[1..]);
    assert more[..|more| - 1] == consumed && more[|more| - 1] == rest[0];
  }

  lemma CopyKeeps(data: seq<string>, s: State, got: string, size: nat, decode: Decoder)
    requires Accounted(data, s, got, decode)
    ensures var (s', outcome) := Copied(s, size); outcome.Bytes? && Accounted(data, s', got + outcome.bytes, decode)
  {
    var c := Min(size, |s.buffer|);
    assert got + s.buffer[..c] + s.buffer[c..] == got + s.buffer;
  }

  lemma ReadOnceKeeps(data: seq<string>, s: State, got: string, size: nat, decode: Decoder)
    requires Accounted(data, s, got, decode)
    ensures var (s', outcome) := ReadOnce(s, size, decode);
      Accounted(data, s', if outcome.Bytes? then got + outcome.bytes else got, decode)
  {
    if s.buffer != [] {
      CopyKeeps(data, s, got, size, decode);
    } else if s.data != [] {
      ConsumeOne(data, s.data, decode);
      assert got + "" == got;
      var m := Response(s.data[0], decode);
      if m.Some? {
        CopyKeeps(data, State(m.value.body, s.data[1..], Headed(s.head, m.value)), got, size, decode);
      } else {
        assert Concat(Consumed(data, s.data), decode) + "" == Concat(Consumed(data, s.data), decode);
      }
    }
  }

  /**
   * For every stream of messages and every series of read sizes, zero included: the bytes handed
   * out followed by the buffer are the bodies of the messages consumed so far, in order, and the
   * client was written their headers and status codes.
   */
  lemma {:induction false} ReadLosesNothing(data: seq<string>, sizes: seq<nat>, decode: Decoder)
    ensures var (s, got) := ReadAll(State("", data, NoHead), sizes, decode);
      && Left(data, s.data) && got + s.buffer == Concat(Consumed(data, s.data), decode)
      && s.head == HeadOf(Consumed(data, s.data), decode)
    decreases |sizes|
  {
    if sizes == [] {
    } else {
      ReadLosesNothing(data, sizes[..|sizes| - 1], decode);
      var (s, got) := ReadAll(State("", data, NoHead), sizes[..|sizes| - 1], decode);
      ReadOnceKeeps(data, s, got, sizes[|sizes| - 1], decode);
    }
  }

  /** At end of file every byte of the messages before it has been handed out exactly once. */
  lemma NothingLeftAtEof(data: seq<string>, sizes: seq<nat>, size: nat, decode: Decoder)
    requires var (s, _) := ReadAll(State("", data, NoHead), sizes, decode); ReadOnce(s, size, decode).1 == Eof
    ensures var (s, got) := ReadAll(State("", data, NoHead), sizes, decode);
      && Left(data, s.data)
      && got == Concat(Consumed(data, s.data), decode)
      && (s.data == [] || (decode(s.data[0]).Some? && decode(s.data[0]).value.eof))
  {
    ReadLosesNothing(data, sizes, decode);
    var (s, got) := ReadAll(State("", data, NoHead), sizes, decode);
    assert s.buffer == [] && got + "" == got;
  }

  class BackendHTTPReader {
    var buffer: string
    var data: seq<string>
    var headers: map<string, seq<string>>
    var codes: seq<int>

    function Current(): State
      reads this
    {
      State(buffer, data, Head(headers, codes))
    }

    constructor (data: seq<string>)
      ensures Current() == State("", data, NoHead)
    {
      buffer, this.data, headers, codes := "", data, map[], [];
    }

    /** Fills `out` from the buffer, fetching the next message first when the buffer is empty. */
    method Read(out: array<char>, decode: Decoder) returns (c: nat, outcome: Outcome)
      modifies this, out
      ensures (Current(), outcome) == ReadOnce(old(Current()), out.Length, decode)
      ensures c <= out.Length && out[c..] == old(out[c..])
      ensures if outcome.Bytes? then outcome.bytes == out[..c] else c == 0
    {
      if |buffer| == 0 {
        if |data| == 0 {
          return 0, Eof;
        }
        var response := decode(data[0]);
        data := data[1..];
        if response.None? {
          return 0, Failed;
        }
        if response.value.eof {
          return 0, Eof;
        }
        if response.value.code != 0 && (response.value.code < 100 || response.value.code > 999) {
          return 0, Failed;
        }
        buffer := response.value.body;
        headers := headers + response.value.headers;
        if response.value.code > 0 {
          codes := codes + [response.value.code];
        }
      }
      c := Min(out.Length, |buffer|);
      for i := 0 to c
        invariant out[..i] == buffer[..i] && out[c..] == old(out[c..])
        modifies out
      {
        out[i] := buffer[i];
      }
      outcome := Bytes(buffer[..c]);
      buffer := buffer[c..];
    }
  }
}
