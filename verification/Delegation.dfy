/** Decoded JSON as Go sees it behind `interface{}`. */
module Json {
  import opened Prelude

  type int64 = x: int | -0x8000_0000_0000_0000 <= x < 0x8000_0000_0000_0000

  datatype Float64 = NaN | Inf | Finite(r: real)

  /** `Text` is a json.Number: its literal, and the answer of its Int64 method. */
  datatype Number = Text(literal: string, value: Option<int64>) | Int64(n: int64) | Float(f: Float64)

  datatype Value =
    | Null
    | Bool(b: bool)
    | Num(num: Number)
    | Str(s: string)
    | Arr(items: seq<Value>)
    | Obj(fields: map<string, Value>)

  type Object = map<string, Value>

  /** A missing field reads as nil. */
  function Field(o: Object, name: string): Value {
    if name in o then o[name] else Null
  }

  /** `delegation.Integer`: a whole number that fits 64 bits, however it was decoded. */
  function Integer(v: Value): Option<int64> {
    match v
    case Num(Text(_, value)) => value
    case Num(Int64(n)) => Some(n)
    case Num(Float(Finite(r))) =>
      if r.Floor as real == r && -9223372036854775808.0 <= r < 9223372036854775808.0 then Some(r.Floor) else None
    case _ => None
  }

  /** A float reads as an integer exactly when it is that integer; other values never do. */
  lemma IntegerExactly(v: Value, n: int64)
    ensures v.Num? && v.num.Float? ==> (Integer(v) == Some(n) <==> v.num.f == Finite(n as real))
    ensures v.Num? && v.num.Int64? ==> (Integer(v) == Some(n) <==> v.num.n == n)
    ensures v.Num? && v.num.Text? ==> Integer(v) == v.num.value
    ensures !v.Num? ==> Integer(v).None?
  {
    if v.Num? && v.num.Float? && v.num.f.Finite? {
      assert (n as real).Floor == n;
    }
  }
}

/**
 * Target-bound stream tickets (delegation/delegation.go): parsing the claim, binding it to a path,
 * the live check against the Engine's answer, and the watch that denies once. Signatures, the
 * digest and the transport are parameters; time is an integer number of seconds.
 */
module Delegation {
  import opened Prelude
  import opened Json

  const CLAIM := "apiKeyDelegation"
  const MAX_TOKEN_BYTES := 16384

  datatype Grant = Grant(
    keyId: int64, revision: int64, targetType: string, targetId: string,
    operation: string, expiresAt: int64, payload: Object)

  datatype Parsed = Legacy | Denied | Granted(grant: Grant)

  const LEGACY_CLAIMS := {"hostUuid", "exec", "logs", "resourceId", "containerIds", "project", "service"}

  predicate Name(v: Value) {
    v.Str? && 1 <= |v.s| <= 256
  }

  predicate Operation(v: Value) {
    v == Str("read") || v == Str("exec") || v == Str("logs")
  }

  function Parse(claims: Object): Parsed {
    if CLAIM !in claims then Legacy
    else if exists name :: name in LEGACY_CLAIMS && name in claims then Denied
    else if !claims[CLAIM].Obj? then Denied
    else
      var data := claims[CLAIM].fields;
      var key, revision := Integer(Field(data, "keyId")), Integer(Field(data, "revision"));
      var expiry, jwtExpiry := Integer(Field(data, "expiresAt")), Integer(Field(claims, "exp"));
      var payload := Field(data, "payload");
      if Integer(Field(data, "version")) != Some(1) then Denied
      else if key.None? || key.value <= 0 || revision.None? || revision.value <= 0 then Denied
      else if expiry.None? || jwtExpiry.None? || expiry != jwtExpiry then Denied
      else if !Name(Field(data, "targetType")) || !Name(Field(data, "targetId")) then Denied
      else if !payload.Obj? || |payload.fields| == 0 || |payload.fields| > 256 then Denied
      else if !Operation(Field(data, "operation")) then Denied
      else Granted(Grant(key.value, revision.value, data["targetType"].s, data["targetId"].s,
                         data["operation"].s, expiry.value, payload.fields))
  }

  /** What every parsed grant satisfies. */
  ghost predicate WellFormed(g: Grant) {
    && g.keyId > 0 && g.revision > 0
    && Name(Str(g.targetType)) && Name(Str(g.targetId)) && Operation(Str(g.operation))
    && 1 <= |g.payload| <= 256
  }

  /** The claims an issuer writes for a grant. */
  function Encode(g: Grant): Object {
    map[CLAIM := Obj(map[
          "version" := Num(Int64(1)), "keyId" := Num(Int64(g.keyId)), "revision" := Num(Int64(g.revision)),
          "targetType" := Str(g.targetType), "targetId" := Str(g.targetId), "operation" := Str(g.operation),
          "expiresAt" := Num(Int64(g.expiresAt)), "payload" := Obj(g.payload)]),
        "exp" := Num(Int64(g.expiresAt))]
  }

  /** Parsing inverts issuing on exactly the well-formed grants, and yields nothing else. */
  lemma ParseInvertsEncode(g: Grant)
    ensures Parse(Encode(g)) == (if WellFormed(g) then Granted(g) else Denied)
  {
    var claims := Encode(g);
    assert forall name :: name in LEGACY_CLAIMS ==> name !in claims;
  }

  /**
   * A ticket with the claim is never taken for a legacy one; a legacy field beside the claim, or an
   * expiry that differs from the signed one, denies it; and a grant that comes out is well formed.
   */
  lemma ParseSound(claims: Object)
    ensures Parse(claims).Legacy? <==> CLAIM !in claims
    ensures CLAIM in claims && claims.Keys * LEGACY_CLAIMS != {} ==> Parse(claims).Denied?
    ensures Parse(claims).Granted? ==>
      && WellFormed(Parse(claims).grant)
      && Integer(Field(claims, "exp")) == Some(Parse(claims).grant.expiresAt)
      && claims[CLAIM].Obj? && Obj(Parse(claims).grant.payload) == Field(claims[CLAIM].fields, "payload")
  {
    if CLAIM in claims && claims.Keys * LEGACY_CLAIMS != {} {
      var name :| name in claims.Keys * LEGACY_CLAIMS;
      assert name in LEGACY_CLAIMS && name in claims;
    }
  }

  /** What the claims say, field by field. */
  ghost predicate Reads(claims: Object, g: Grant) {
    && CLAIM in claims && claims[CLAIM].Obj?
    && (var data := claims[CLAIM].fields;
        && Integer(Field(data, "version")) == Some(1)
        && Integer(Field(data, "keyId")) == Some(g.keyId) && Integer(Field(data, "revision")) == Some(g.revision)
        && Integer(Field(data, "expiresAt")) == Some(g.expiresAt)
        && Field(data, "targetType") == Str(g.targetType) && Field(data, "targetId") == Str(g.targetId)
        && Field(data, "operation") == Str(g.operation) && Field(data, "payload") == Obj(g.payload))
  }

  /**
   * A ticket yields this grant exactly if its claim says so field by field, the signed expiry is the
   * same, no field of a legacy ticket stands beside the claim, and the grant is well formed.
   */
  lemma ParseExactly(claims: Object, g: Grant)
    ensures Parse(claims) == Granted(g) <==>
      && Reads(claims, g) && WellFormed(g) && Integer(Field(claims, "exp")) == Some(g.expiresAt)
      && (forall name :: name in LEGACY_CLAIMS ==> name !in claims)
  {
  }

  // ----- the live check -----

  /** The Engine answered for exactly this ticket. */
  predicate Confirms(answer: Object, g: Grant, digest: string) {
    && Field(answer, "allowed") == Bool(true)
    && Integer(Field(answer, "keyId")) == Some(g.keyId)
    && Integer(Field(answer, "revision")) == Some(g.revision)
    && Integer(Field(answer, "expiresAt")) == Some(g.expiresAt)
    && Field(answer, "targetType") == Str(g.targetType)
    && Field(answer, "targetId") == Str(g.targetId)
    && Field(answer, "operation") == Str(g.operation)
    && Field(answer, "tokenDigest") == Str(digest)
  }

  /** One round trip to the Engine: the clock before it, the decoded answer if there was one, the clock after it. */
  datatype Probe = Probe(configured: bool, before: int, answer: Option<Object>, after: int)

  /** The decision of `Check`; true stands for a nil error. */
  predicate Check(token: string, g: Option<Grant>, probe: Probe, digest: string -> string) {
    g.None? ||
    (&& probe.configured && 1 <= |token| <= MAX_TOKEN_BYTES
     && probe.before < g.value.expiresAt
     && probe.answer.Some? && Confirms(probe.answer.value, g.value, digest(token))
     && probe.after < g.value.expiresAt)
  }

  /** The answer of an Engine that allows a ticket. */
  function AnswerFor(g: Grant, digest: string): Object {
    map["allowed" := Bool(true), "keyId" := Num(Int64(g.keyId)), "revision" := Num(Int64(g.revision)),
        "expiresAt" := Num(Int64(g.expiresAt)), "targetType" := Str(g.targetType), "targetId" := Str(g.targetId),
        "operation" := Str(g.operation), "tokenDigest" := Str(digest)]
  }

  /**
   * With that answer a check passes exactly if it is configured, the token is of a proper size and
   * the clock is before the expiry both times; without a grant it always passes, without an answer never.
   */
  lemma CheckExactly(token: string, g: Grant, configured: bool, before: int, after: int, digest: string -> string)
    ensures Check(token, Some(g), Probe(configured, before, Some(AnswerFor(g, digest(token))), after), digest) <==>
      configured && 1 <= |token| <= 16384 && before < g.expiresAt && after < g.expiresAt
    ensures !Check(token, Some(g), Probe(configured, before, None, after), digest)
    ensures forall probe :: Check(token, None, probe, digest)
  {
  }

  /** The two values read alike where this field of an answer is read. */
  predicate ReadAlike(field: string, v: Value, w: Value) {
    if field == "keyId" || field == "revision" || field == "expiresAt" then Integer(v) == Integer(w) else v == w
  }

  /** Any one field that is missing or reads differently makes the check fail: `allowed` no less than the others. */
  lemma WrongFieldDenies(token: string, g: Grant, probe: Probe, digest: string -> string, field: string, v: Value)
    requires field in AnswerFor(g, digest(token))
    requires
      || probe.answer == Some(AnswerFor(g, digest(token)) - {field})
      || (probe.answer == Some(AnswerFor(g, digest(token))[field := v])
          && !ReadAlike(field, v, AnswerFor(g, digest(token))[field]))
    ensures !Check(token, Some(g), probe, digest)
  {
  }

  /** One answer serves one ticket: whatever two tickets it confirms agree in every bound field and in digest. */
  lemma AnswerBindsOneTicket(t1: string, t2: string, g1: Grant, g2: Grant, p1: Probe, p2: Probe,
      digest: string -> string)
    requires Check(t1, Some(g1), p1, digest) && Check(t2, Some(g2), p2, digest) && p1.answer == p2.answer
    ensures digest(t1) == digest(t2)
    ensures g1 == g2.(payload := g1.payload)
  {
    var answer := p1.answer.value;
    assert Field(answer, "tokenDigest") == Str(digest(t1)) && Field(answer, "tokenDigest") == Str(digest(t2));
    assert Str(g1.targetType) == Str(g2.targetType) && Str(g1.targetId) == Str(g2.targetId) &&
      Str(g1.operation) == Str(g2.operation);
  }

  // ----- paths -----

  function TrimLeft(s: string): string {
    if s != "" && s[0] == '/' then TrimLeft(s[1..]) else s
  }

  function TrimRight(s: string): string {
    if s != "" && s[|s| - 1] == '/' then TrimRight(s[..|s| - 1]) else s
  }

  /** `strings.Trim(path, "/")`. */
  function Trim(s: string): string {
    TrimRight(TrimLeft(s))
  }

  /** `strings.Split(s, "/")`. */
  function Split(s: string): (parts: seq<string>)
    ensures |parts| > 0
  {
    if s == "" then [""]
    else
      var rest := Split(s[1..]);
      if s[0] == '/' then [""] + rest else [[s[0]] + rest[0]] + rest[1..]
  }

  function JoinParts(parts: seq<string>): string
    requires |parts| > 0
  {
    if |parts| == 1 then parts[0] else parts[0] + "/" + JoinParts(parts[1..])
  }

  lemma {:induction false} JoinInvertsSplit(s: string)
    ensures JoinParts(Split(s)) == s
    decreases |s|
  {
    if s == "" {
    } else {
      JoinInvertsSplit(s[1..]);
      var rest := Split(s[1..]);
      if s[0] == '/' {
        assert ([""] + rest)[1..] == rest;
      } else {
        var parts := [[s[0]] + rest[0]] + rest[1..];
        assert parts[1..] == rest[1..];
        if |rest| > 1 {
          assert [s[0]] + (rest[0] + "/" + JoinParts(rest[1..])) == [s[0]] + rest[0] + "/" + JoinParts(rest[1..]);
        }
      }
      assert [s[0]] + s[1..] == s;
    }
  }

  predicate Version(part: string) {
    part == "v1" || part == "v2-beta" || part == "v2"
  }

  predicate AllowsPath(g: Grant, path: string) {
    var parts := Split(Trim(path));
    if |parts| < 2 || !Version(parts[0]) then false
    else if g.operation == "exec" then "exec" in g.payload && parts[1] == "exec" && |parts| == 2
    else if g.operation == "logs" then "logs" in g.payload && parts[1] == "logs" && |parts| == 2
    else if g.operation == "read" then
      if "resourceId" in g.payload then (parts[1] == "hoststats" || parts[1] == "stats") && |parts| == 2
      else if "containerIds" in g.payload
        then (parts[1] == "containerstats" || parts[1] == "stats") && 2 <= |parts| <= 3
      else if "project" in g.payload then parts[1] == "hoststats" && |parts| == 3 && parts[2] == "project"
      else if "service" in g.payload then parts[1] == "containerstats" && |parts| == 3 && parts[2] == "service"
      else false
    else false
  }

  predicate NoSlash(s: string) {
    '/' !in s
  }

  /** No part holds a slash, so together with joining this is the only way to split. */
  lemma {:induction false} PartsHaveNoSlash(s: string)
    ensures forall p :: p in Split(s) ==> NoSlash(p)
    decreases |s|
  {
    if s == "" {
    } else {
      PartsHaveNoSlash(s[1..]);
      var rest := Split(s[1..]);
      assert rest[0] in rest && forall p :: p in rest[1..] ==> p in rest;
    }
  }

  predicate AllSlashes(s: string) {
    forall i :: 0 <= i < |s| ==> s[i] == '/'
  }

  lemma {:induction false} TrimLeftExactly(s: string)
    ensures |TrimLeft(s)| <= |s| && s[|s| - |TrimLeft(s)|..] == TrimLeft(s) && AllSlashes(s[..|s| - |TrimLeft(s)|])
    ensures TrimLeft(s) != "" ==> TrimLeft(s)[0] != '/'
    decreases |s|
  {
    if s == "" {
    } else if s[0] == '/' {
      TrimLeftExactly(s[1..]);
      var n := |s| - |TrimLeft(s)|;
      assert s[1..][n - 1..] == s[n..] && s[1..][..n - 1] == s[1..n];
    }
  }

  lemma {:induction false} TrimRightExactly(s: string)
    ensures TrimRight(s) <= s && AllSlashes(s[|TrimRight(s)|..])
    ensures TrimRight(s) != "" ==> TrimRight(s)[|TrimRight(s)| - 1] != '/'
    decreases |s|
  {
    if s == "" {
    } else if s[|s| - 1] == '/' {
      var front, t := s[..|s| - 1], TrimRight(s);
      TrimRightExactly(front);
      assert t <= front && t == s[..|t|];
      forall i | 0 <= i < |s[|t|..]| ensures s[|t|..][i] == '/' {
        if i < |front| - |t| {
          assert s[|t|..][i] == front[|t|..][i];
        }
      }
    }
  }

  /** Trimming takes slashes off both ends, all of them, and nothing else. */
  lemma TrimExactly(s: string) returns (left: string, right: string)
    ensures s == left + Trim(s) + right && AllSlashes(left) && AllSlashes(right)
    ensures Trim(s) != "" ==> Trim(s)[0] != '/' && Trim(s)[|Trim(s)| - 1] != '/'
  {
    TrimLeftExactly(s);
    TrimRightExactly(TrimLeft(s));
    var t := TrimLeft(s);
    left, right := s[..|s| - |t|], t[|Trim(s)|..];
    assert s == left + t && t == Trim(s) + right;
  }

  /** The parts after the version that a grant opens. */
  ghost predicate Unlocks(g: Grant, rest: seq<string>) {
    || (g.operation == "exec" && "exec" in g.payload && rest == ["exec"])
    || (g.operation == "logs" && "logs" in g.payload && rest == ["logs"])
    || (g.operation == "read" && "resourceId" in g.payload && (rest == ["hoststats"] || rest == ["stats"]))
    || (g.operation == "read" && "resourceId" !in g.payload && "containerIds" in g.payload
        && 1 <= |rest| <= 2 && (rest[0] == "containerstats" || rest[0] == "stats"))
    || (g.operation == "read" && "resourceId" !in g.payload && "containerIds" !in g.payload && "project" in g.payload
        && rest == ["hoststats", "project"])
    || (g.operation == "read" && "resourceId" !in g.payload && "containerIds" !in g.payload && "project" !in g.payload
        && "service" in g.payload && rest == ["containerstats", "service"])
  }

  /** A path is allowed exactly if its parts are a version followed by parts the grant opens. */
  lemma AllowsExactly(g: Grant, path: string)
    ensures var parts := Split(Trim(path));
      AllowsPath(g, path) <==> parts[0] in {"v1", "v2-beta", "v2"} && Unlocks(g, parts[1..])
  {
    var parts := Split(Trim(path));
    assert |parts| == 2 ==> parts[1..] == [parts[1]];
    assert |parts| == 3 ==> parts[1..] == [parts[1], parts[2]];
  }

  lemma JoinThree(parts: seq<string>)
    requires |parts| == 3
    ensures JoinParts(parts) == parts[0] + "/" + (parts[1] + "/" + parts[2])
  {
    assert parts[1..][1..] == [parts[2]];
    assert JoinParts(parts[1..]) == parts[1] + "/" + parts[2];
  }

  /** A path serves one operation only, and the paths of exec and logs are spelled out. */
  lemma PathBindsOperation(g1: Grant, g2: Grant, path: string)
    requires AllowsPath(g1, path)
    ensures AllowsPath(g2, path) ==> g1.operation == g2.operation
    ensures g1.operation == "exec" || g1.operation == "logs" ==>
      Trim(path) in {"v1/" + g1.operation, "v2-beta/" + g1.operation, "v2/" + g1.operation}
  {
    var parts := Split(Trim(path));
    JoinInvertsSplit(Trim(path));
    if |parts| == 2 {
      assert Trim(path) == parts[0] + "/" + parts[1];
      assert "v1" + "/" == "v1/" && "v2-beta" + "/" == "v2-beta/" && "v2" + "/" == "v2/";
    }
  }

  /** An aggregate ticket opens its aggregate's path and no other. */
  lemma AggregatePath(g: Grant, path: string)
    requires AllowsPath(g, path) && g.operation == "read"
    ensures g.payload.Keys == {"project"} ==> exists v :: Version(v) && Trim(path) == v + "/" + "hoststats/project"
    ensures g.payload.Keys == {"service"} ==> exists v :: Version(v) && Trim(path) == v + "/" + "containerstats/service"
  {
    var parts := Split(Trim(path));
    JoinInvertsSplit(Trim(path));
    assert "project" in {"project"} && "service" in {"service"};
    if |parts| == 3 {
      JoinThree(parts);
      assert "hoststats" + "/" + "project" == "hoststats/project";
      assert "containerstats" + "/" + "service" == "containerstats/service";
    }
  }

  // ----- the watch -----

  datatype Event = Cancelled | Expiry | Tick(passes: bool)

  predicate Stops(e: Event) {
    e != Tick(true)
  }

  /** `Run`: the first event that is not a passed check ends the watch; anything but a cancellation denies, once. */
  method Watch(events: seq<Event>) returns (denials: nat, seen: nat)
    ensures seen <= |events|
    ensures forall i :: 0 <= i < seen - 1 ==> !Stops(events[i])
    ensures denials == 0 ==> (seen > 0 && events[seen - 1] == Cancelled) || forall i :: 0 <= i < |events| ==>
      !Stops(events[i])
    ensures denials != 0 ==> denials == 1 && seen > 0 && Stops(events[seen - 1]) && events[seen - 1] != Cancelled
  {
    denials, seen := 0, 0;
    while seen < |events|
      invariant 0 <= seen <= |events| && denials == 0
      invariant forall i :: 0 <= i < seen ==> !Stops(events[i])
    {
      var e := events[seen];
      seen := seen + 1;
      match e {
        case Cancelled => return;
        case Expiry =>
          denials := denials + 1;
          return;
        case Tick(passes) =>
          if !passes {
            denials := denials + 1;
            return;
          }
      }
    }
  }
}
