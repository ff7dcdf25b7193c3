/**
 * The text envelope `key||type||body` that the proxy and a backend exchange
 * (common/common.go). A `char` stands for one byte of a Go string.
 */
module Envelope {
  import opened Prelude

  const MAX_WIRE_MESSAGE_BYTES := 16777216
  const MAX_MESSAGE_KEY_BYTES := 256

  const SEPARATOR := "||"

  // The three message types, as the one-byte strings they are on the wire.
  const CONNECT := "0"
  const BODY := "1"
  const CLOSE := "2"

  datatype Message = Message(key: string, kind: string, body: string)

  datatype ParseError = TooLong | BadEnvelope | BadType

  function FormatMessage(key: string, kind: string, body: string): string {
    key + SEPARATOR + (kind + SEPARATOR + body)
  }

  function Format(m: Message): string {
    FormatMessage(m.key, m.kind, m.body)
  }

  predicate ValidType(kind: string) {
    kind == CONNECT || kind == BODY || kind == CLOSE
  }

  /** A separator starts at position i. */
  predicate SeparatorAt(s: string, i: nat) {
    i + 1 < |s| && s[i] == '|' && s[i + 1] == '|'
  }

  /** The position of the leftmost separator. */
  function FirstSeparator(s: string): (r: Option<nat>)
    ensures r.Some? ==> SeparatorAt(s, r.value) && forall j: nat :: j < r.value ==> !SeparatorAt(s, j)
    ensures r.None? ==> forall j: nat :: !SeparatorAt(s, j)
  {
    if |s| < 2 then None
    else if SeparatorAt(s, 0) then Some(0)
    else
      assert forall j: nat :: j > 0 ==> (SeparatorAt(s, j) <==> SeparatorAt(s[1..], j - 1));
      match FirstSeparator(s[1..])
      case None => None
      case Some(i) => Some(i + 1)
  }

  /** `strings.SplitN(s, "||", 3)`: at most two cuts, each at the leftmost separator left. */
  function SplitThree(s: string): seq<string> {
    match FirstSeparator(s)
    case None => [s]
    case Some(i) =>
      var rest := s[i + 2..];
      match FirstSeparator(rest)
      case None => [s[..i], rest]
      case Some(j) => [s[..i], rest[..j], rest[j + 2..]]
  }

  function ParseMessageSafe(raw: string): Result<Message, ParseError> {
    if |raw| > MAX_WIRE_MESSAGE_BYTES then Err(TooLong)
    else
      var parts := SplitThree(raw);
      if |parts| != 3 || |parts[0]| == 0 || |parts[0]| > MAX_MESSAGE_KEY_BYTES then Err(BadEnvelope)
      else if !ValidType(parts[1]) then Err(BadType)
      else Ok(Message(parts[0], parts[1], parts[2]))
  }

  /** The keys that survive the wire. */
  ghost predicate CleanKey(key: string) {
    && 1 <= |key| <= 256
    && (forall i: nat :: !SeparatorAt(key, i))
    && key[|key| - 1] != '|'
  }

  /** In `key || ...` the leftmost separator is the one that ends a clean key, and cutting there gives both parts. */
  lemma CutAfter(key: string, rest: string)
    requires forall i: nat :: !SeparatorAt(key, i)
    requires key != [] ==> key[|key| - 1] != '|'
    ensures var s := key + SEPARATOR + rest;
      FirstSeparator(s) == Some(|key|) && s[..|key|] == key && s[|key| + 2..] == rest
  {
    var s := key + SEPARATOR + rest;
    assert SeparatorAt(s, |key|);
    forall j: nat | j < |key| ensures !SeparatorAt(s, j) {
      if j + 1 < |key| {
        assert !SeparatorAt(key, j);
      }
    }
  }

  /** Formatting after parsing gives back the very bytes that were parsed, and the parsed key is clean. */
  lemma FormatInvertsParse(raw: string)
    requires ParseMessageSafe(raw).Ok?
    ensures Format(ParseMessageSafe(raw).value) == raw
    ensures CleanKey(ParseMessageSafe(raw).value.key) && ValidType(ParseMessageSafe(raw).value.kind)
  {
    var m := ParseMessageSafe(raw).value;
    var i := FirstSeparator(raw).value;
    var rest := raw[i + 2..];
    var j := FirstSeparator(rest).value;
    assert rest == rest[..j] + SEPARATOR + rest[j + 2..];
    assert raw == raw[..i] + SEPARATOR + rest;
    forall p: nat ensures !SeparatorAt(m.key, p) {
      if SeparatorAt(m.key, p) {
        assert SeparatorAt(raw, p);
      }
    }
    assert m.key[|m.key| - 1] != '|' by {
      assert !SeparatorAt(raw, i - 1);
    }
  }

  lemma ParseInvertsFormat(m: Message)
    requires CleanKey(m.key) && ValidType(m.kind) && |Format(m)| <= MAX_WIRE_MESSAGE_BYTES
    ensures ParseMessageSafe(Format(m)) == Ok(m)
  {
    CutAfter(m.key, m.kind + SEPARATOR + m.body);
    CutAfter(m.kind, m.body);
  }

  /**
   * The exact domain of the round trip: a message comes back unchanged if and only if its key
   * is clean, its type is one of the three and the whole envelope fits. The body is arbitrary.
   */
  lemma RoundTripExactly(m: Message)
    ensures ParseMessageSafe(Format(m)) == Ok(m)
       <==> CleanKey(m.key) && (m.kind == "0" || m.kind == "1" || m.kind == "2") && |Format(m)| <= 16777216
  {
    if ParseMessageSafe(Format(m)) == Ok(m) {
      FormatInvertsParse(Format(m));
    } else if CleanKey(m.key) && ValidType(m.kind) && |Format(m)| <= MAX_WIRE_MESSAGE_BYTES {
      ParseInvertsFormat(m);
      assert false;
    }
  }

  /** The layout: key, type and body with two bars between them. */
  lemma FormatExactly(m: Message)
    ensures Format(m) == m.key + "||" + m.kind + "||" + m.body
  {
    assert m.key + "||" + (m.kind + "||" + m.body) == m.key + "||" + m.kind + "||" + m.body;
  }

  /** Which complaint a refused frame draws: too long first, then a bad envelope, then a bad type. */
  lemma ErrorsExactly(raw: string)
    ensures ParseMessageSafe(raw) == Err(TooLong) <==> |raw| > 16777216
    ensures ParseMessageSafe(raw) == Err(BadType) ==>
      |SplitThree(raw)| == 3 && 1 <= |SplitThree(raw)[0]| <= 256 && SplitThree(raw)[1] !in {"0", "1", "2"}
    ensures |raw| <= 16777216 && (FirstSeparator(raw).None? || FirstSeparator(raw) == Some(0)) ==>
      ParseMessageSafe(raw) == Err(BadEnvelope)
  {
  }

  /** A key that ends in a bar is cut short: the round trip really needs that clause. */
  lemma TrailingBarIsLost()
    ensures ParseMessageSafe(FormatMessage("k|", BODY, "x")) == Err(BadType)
  {
    var raw := FormatMessage("k|", BODY, "x");
    assert raw == "k|||1||x";
    assert SeparatorAt(raw, 1) && !SeparatorAt(raw, 0);
    assert raw[3..] == "|1||x";
    assert SeparatorAt(raw[3..], 2) && !SeparatorAt(raw[3..], 0) && !SeparatorAt(raw[3..], 1);
  }
}
