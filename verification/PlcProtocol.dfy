/** Response codes (src/config/plcProtocol.js) and the responses a step accepts
    (`matchesExpectedResponse` in src/core/connection/ConnectionService.js). */
module PlcProtocol {
  import opened Sequences

  datatype Decoded = Ok | CarPresent | CarAbsent | Level(level: nat) | ErrorCode(code: nat) | Unknown

  /** `decodeResponse`; an empty read is null, which converts to 0. */
  function DecodeResponse(reading: Option<int>): Decoded {
    var code := if reading.Some? then reading.value else 0;
    if code == 100 then Ok
    else if code == 300 then CarPresent
    else if code == 301 then CarAbsent
    else if 200 <= code <= 299 then Level(code - 200)
    else if 101 <= code <= 199 then ErrorCode(code - 100)
    else Unknown
  }

  /** A code, "1##" or "2##". */
  datatype Expected = Code(code: int) | Hundreds | TwoHundreds

  predicate MatchesOne(code: int, e: Expected) {
    match e
    case Code(c) => code == c
    case Hundreds => 100 <= code <= 199
    case TwoHundreds => 200 <= code <= 299
  }

  predicate MatchesExpected(reading: Option<int>, expected: seq<Expected>) {
    var code := if reading.Some? then reading.value else 0;
    exists i :: 0 <= i < |expected| && MatchesOne(code, expected[i])
  }

  /** What the orchestrator expects of every step. */
  const StepExpects: seq<Expected> := [Code(100)]

  /** The response codes and what they stand for; no data reads as code 0, which stands for nothing. */
  lemma DecodedExactly(reading: Option<int>)
    ensures var d := DecodeResponse(reading);
            && (d == Ok <==> reading == Some(100))
            && (d == CarPresent <==> reading == Some(300)) && (d == CarAbsent <==> reading == Some(301))
            && (forall n: nat :: d == Level(n) <==> n <= 99 && reading == Some(200 + n))
            && (forall n: nat :: d == ErrorCode(n) <==> 1 <= n <= 99 && reading == Some(100 + n))
  {
  }

  /** A value is accepted exactly when it is one of the expected codes, or in an expected hundred. */
  lemma MatchedExactly(reading: Option<int>, expected: seq<Expected>)
    ensures var code := if reading == None then 0 else reading.value;
            MatchesExpected(reading, expected) <==>
              || Code(code) in expected
              || (Hundreds in expected && 100 <= code < 200)
              || (TwoHundreds in expected && 200 <= code < 300)
  {
    var code := if reading == None then 0 else reading.value;
    if Code(code) in expected {
      var i :| 0 <= i < |expected| && expected[i] == Code(code);
      assert MatchesOne(code, expected[i]);
    }
    if Hundreds in expected && 100 <= code < 200 {
      var i :| 0 <= i < |expected| && expected[i] == Hundreds;
      assert MatchesOne(code, expected[i]);
    }
    if TwoHundreds in expected && 200 <= code < 300 {
      var i :| 0 <= i < |expected| && expected[i] == TwoHundreds;
      assert MatchesOne(code, expected[i]);
    }
  }

  lemma OnlyHundredConfirms(reading: Option<int>)
    ensures MatchesExpected(reading, StepExpects) <==> DecodeResponse(reading) == Ok
  {
    assert StepExpects[0] == Code(100);
  }
}
