/**
 The telemetry middleware in its own form: one request from its identifier to its metrics
 (internal/telemetry/http.go, lines 86-188, and metrics.go, lines 81-96).
 */
module Middleware {
  import opened Wrappers
  import opened Recorder
  import opened Requests

  // ----- Request identifiers

  const MAX_REQUEST_ID_LENGTH := 64

  predicate AlphaNumeric(c: char) { 'a' <= c <= 'z' || 'A' <= c <= 'Z' || '0' <= c <= '9' }

  predicate IdentifierChar(c: char) { AlphaNumeric(c) || c in "-_.:" }

  predicate ValidRequestId(value: string) {
    0 < |value| <= MAX_REQUEST_ID_LENGTH && forall i | 0 <= i < |value| :: IdentifierChar(value[i])
  }

  /** validRequestID, with its loop. */
  method CheckRequestId(value: string) returns (valid: bool)
    ensures valid == ValidRequestId(value)
  {
    if value == "" || |value| > MAX_REQUEST_ID_LENGTH {
      return false;
    }
    for i := 0 to |value|
      invariant forall j | 0 <= j < i :: IdentifierChar(value[j])
    {
      if !AlphaNumeric(value[i]) && value[i] !in "-_.:" {
        return false;
      }
    }
    return true;
  }

  newtype Byte = x: int | 0 <= x < 256

  function Hex(bytes: seq<Byte>): string {
    if bytes == [] then ""
    else Hex(bytes[..|bytes| - 1]) + [Digit(bytes[|bytes| - 1] as int / 16), Digit(bytes[|bytes| - 1] as int % 16)]
  }

  function Digit(n: int): (c: char)
    requires 0 <= n < 16
    ensures '0' <= c <= '9' || 'a' <= c <= 'f'
  {
    if n < 10 then n as char + '0' else (n - 10) as char + 'a'
  }

  lemma {:induction false} HexChars(bytes: seq<Byte>)
    ensures |Hex(bytes)| == 2 * |bytes| && forall i | 0 <= i < |Hex(bytes)| :: IdentifierChar(Hex(bytes)[i])
  {
    if bytes != [] { HexChars(bytes[..|bytes| - 1]); }
  }

  /** Each byte is its two digits to base 16, the high one first. */
  lemma {:induction false} HexAt(bytes: seq<Byte>, i: nat)
    requires i < |bytes|
    ensures |Hex(bytes)| == 2 * |bytes|
    ensures Hex(bytes)[2 * i] == "0123456789abcdef"[bytes[i] as int / 16]
    ensures Hex(bytes)[2 * i + 1] == "0123456789abcdef"[bytes[i] as int % 16]
    decreases |bytes|
  {
    var n := |bytes| - 1;
    HexChars(bytes[..n]);
    if i < n {
      HexAt(bytes[..n], i);
    } else {
      DigitSpelled(bytes[i] as int / 16);
      DigitSpelled(bytes[i] as int % 16);
    }
  }

  lemma DigitSpelled(n: int)
    requires 0 <= n < 16
    ensures Digit(n) == "0123456789abcdef"[n]
  {
  }

  /** Different bytes have different identifiers. */
  lemma {:induction false} HexInjective(a: seq<Byte>, b: seq<Byte>)
    requires |a| == |b| && Hex(a) == Hex(b)
    ensures a == b
    decreases |a|
  {
    if a != [] {
      var n := |a| - 1;
      var x, y := a[n] as int, b[n] as int;
      HexChars(a[..n]);
      HexChars(b[..n]);
      var p, q := [Digit(x / 16), Digit(x % 16)], [Digit(y / 16), Digit(y % 16)];
      assert Hex(a) == Hex(a[..n]) + p && Hex(b) == Hex(b[..n]) + q;
      assert Hex(a)[..2 * n] == Hex(a[..n]) && Hex(b)[..2 * n] == Hex(b[..n]);
      assert Hex(a)[2 * n..] == p && Hex(b)[2 * n..] == q;
      assert p[0] == q[0] && p[1] == q[1];
      HexInjective(a[..n], b[..n]);
      assert a == a[..n] + [a[n]] && b == b[..n] + [b[n]];
    }
  }

  const LETTERS := "abcdefghijklmnopqrstuvwxyz"
  const CAPITALS := "ABCDEFGHIJKLMNOPQRSTUVWXYZ"

  lemma LetterIff(c: char)
    ensures 'a' <= c <= 'z' <==> c in LETTERS
  {
    if 'a' <= c <= 'z' { assert LETTERS[c as int - 'a' as int] == c; }
  }

  lemma CapitalIff(c: char)
    ensures 'A' <= c <= 'Z' <==> c in CAPITALS
  {
    if 'A' <= c <= 'Z' { assert CAPITALS[c as int - 'A' as int] == c; }
  }

  lemma NumeralIff(c: char)
    ensures '0' <= c <= '9' <==> c in "0123456789"
  {
    if '0' <= c <= '9' { assert "0123456789"[c as int - '0' as int] == c; }
  }

  /** Exactly the words of 1 to 64 letters, digits and the four marks are kept. */
  lemma IdentifierLanguage(value: string)
    ensures ValidRequestId(value) <==>
      1 <= |value| <= 64 && forall c | c in value :: c in LETTERS || c in CAPITALS || c in "0123456789" || c in "-_.:"
  {
    forall c: char ensures IdentifierChar(c) <==> c in LETTERS || c in CAPITALS || c in "0123456789" || c in "-_.:" {
      LetterIff(c);
      CapitalIff(c);
      NumeralIff(c);
    }
  }

  /** The identifier of a request: the one valid header value, or 16 random bytes; none if there are none to be had. */
  function RequestId(values: seq<string>, random: Option<seq<Byte>>): Option<string> {
    if |values| == 1 && ValidRequestId(values[0]) then Some(values[0])
    else if random.None? then None
    else Some(Hex(random.value))
  }

  /** Whatever the headers hold, the identifier sent back is valid, and a valid one is kept. */
  lemma IdentifierSafe(values: seq<string>, random: Option<seq<Byte>>)
    requires random.Some? ==> |random.value| == 16
    ensures RequestId(values, random).Some? ==> ValidRequestId(RequestId(values, random).value)
    ensures RequestId(values, random).None? <==> random.None? && !(|values| == 1 && ValidRequestId(values[0]))
    ensures |values| == 1 && ValidRequestId(values[0]) ==> RequestId(values, random) == Some(values[0])
  {
    if random.Some? { HexChars(random.value); }
  }

  // ----- Metrics

  class HTTPMetrics {
    var requestsInFlight: map<Pair, int>
    var requestsTotal: multiset<Triple>
    var requestDuration: multiset<Triple>

    constructor ()
      ensures requestsInFlight == map[] && requestsTotal == multiset{} && requestDuration == multiset{}
    {
      requestsInFlight, requestsTotal, requestDuration := map[], multiset{}, multiset{};
    }

    method RequestStarted(p: Pair)
      modifies this`requestsInFlight
      ensures requestsInFlight == Bump(old(requestsInFlight), p, 1)
    {
      requestsInFlight := Bump(requestsInFlight, p, 1);
    }

    method RequestFinished(p: Pair, recorder: ResponseRecorder)
      requires 0 <= recorder.StatusCode() <= 999
      modifies this
      ensures requestsInFlight == Bump(old(requestsInFlight), p, -1)
      ensures var t := Triple(p, StatusClass(recorder.StatusCode()));
        requestsTotal == old(requestsTotal) + multiset{t} && requestDuration == old(requestDuration) + multiset{t}
    {
      var t := Triple(p, StatusClass(recorder.StatusCode()));
      requestsInFlight := Bump(requestsInFlight, p, -1);
      requestsTotal := requestsTotal + multiset{t};
      requestDuration := requestDuration + multiset{t};
    }

    /**
     One request, whose handler makes `calls` and then returns or panics. Without an identifier it is answered
     500 and no metric moves. Otherwise the handler's calls reach the wire, the deferred function runs on either
     way out, and a panic goes on to the server: the gauge is back where it was, and the request is counted and
     timed once, under the status of its first call.
     */
    method ServeHTTP(
      writer: ResponseWriter, verb: string, path: string, identifiers: seq<string>, random: Option<seq<Byte>>,
      calls: seq<Call>, panics: bool)
      returns (panicking: bool)
      requires writer.OnTheWire() == UNWRITTEN && forall c | c in calls :: Final(c)
      modifies this, writer
      ensures panicking == (panics && RequestId(identifiers, random).Some?)
      ensures RequestId(identifiers, random).None? ==>
        && writer.committed == Some(500)
        && requestsInFlight == old(requestsInFlight) && requestsTotal == old(requestsTotal)
        && requestDuration == old(requestDuration)
      ensures RequestId(identifiers, random).Some? ==>
        var code := if calls == [] || calls[0].Write? then 200 else calls[0].code;
        var t := Triple(PairOf(verb, path), if 0 <= code <= 999 then StatusClass(code) else "");
        && writer.OnTheWire() == Played(calls)
        && 200 <= code <= 999 && LabelsCode(t.class_, code)
        && (forall p: Pair :: GaugeOf(requestsInFlight, p) == GaugeOf(old(requestsInFlight), p))
        && requestsTotal == old(requestsTotal) + multiset{t} && requestDuration == old(requestDuration) + multiset{t}
    {
      if RequestId(identifiers, random).None? {
        writer.WriteHeader(500);
        var body := "{\"error\":\"internal server error\"}\n";
        var _ := writer.Write(|body|);
        return false;
      }
      var p := PairOf(verb, path);
      var recorder := new ResponseRecorder(writer);
      RequestStarted(p);
      recorder.Play(calls);
      assert calls != [] ==> calls[0] in calls;
      ClassLabels(recorder.StatusCode());
      if panics {
        RequestFinished(p, recorder);
        return true;
      }
      RequestFinished(p, recorder);
      return false;
    }
  }
}
