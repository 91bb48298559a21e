/** `callculate`: the quality `Q` and the signal-to-noise difference `SN`
    derived from a probe result that carries a link quality `Q10`. */
module Metrics {

  import opened Wrappers
  import opened PyValues
  import opened Text

  /** `int(d[key])`: the KeyError of a missing key, or the conversion. */
  function IntField(d: Fields, key: string): Result<int, Error> {
    var v :- Index(d, Str(key));
    IntOf(v)
  }

  /** The dict returned by `callculate(d)`, or the exception it raises.
      What it means is stated by `CalculateMeaning`. */
  function Calculate(d: Fields): Result<Fields, Error>
  {
    if !Truthy(Get(d, "Q10")) then Ok(d)
    else
      match IntField(d, "Q10")
      case Err(e) => Err(e)
      case Ok(q10) =>
        var withQ := d["Q" := Int(q10 / 10)];
        match IntField(withQ, "signal")
        case Err(e) => Err(e)
        case Ok(signal) =>
          match IntField(withQ, "noise")
          case Err(e) => Err(e)
          case Ok(noise) => Ok(withQ["SN" := Int(signal - noise)])
  }

  /** What `callculate` does with a dict. */
  lemma CalculateMeaning(d: Fields)
    // without a usable Q10 the dict comes back untouched
    ensures !Truthy(Get(d, "Q10")) ==> Calculate(d) == Ok(d)
    // otherwise it raises exactly when one of the three conversions fails,
    // and with the exception of the first one that fails
    ensures Truthy(Get(d, "Q10")) ==>
              (Calculate(d).Ok? <==> IntField(d, "Q10").Ok? && IntField(d, "signal").Ok? && IntField(d, "noise").Ok?)
    ensures Truthy(Get(d, "Q10")) && Calculate(d).Err? ==>
              Calculate(d).error == (if IntField(d, "Q10").Err? then IntField(d, "Q10").error
                                     else if IntField(d, "signal").Err? then IntField(d, "signal").error
                                     else IntField(d, "noise").error)
    // and on success Q is Q10 rounded down to tens, SN + noise == signal,
    // and nothing else changes
    ensures Truthy(Get(d, "Q10")) && Calculate(d).Ok? ==>
              var r := Calculate(d).value;
              && r.Keys == d.Keys + {"Q", "SN"}
              && r["Q"].Int? && r["SN"].Int?
              && 10 * r["Q"].i <= IntField(d, "Q10").value < 10 * r["Q"].i + 10
              && r["SN"].i + IntField(d, "noise").value == IntField(d, "signal").value
              && forall k :: k in d && k != "Q" && k != "SN" ==> r[k] == d[k]
  {
    if Truthy(Get(d, "Q10")) && IntField(d, "Q10").Ok? {
      var withQ := d["Q" := Int(IntField(d, "Q10").value / 10)];
      assert IntField(withQ, "signal") == IntField(d, "signal");
      assert IntField(withQ, "noise") == IntField(d, "noise");
    }
  }

  /** The dict `d` after `callculate(d)` has run, whether or not it raised:
      the method writes `Q` before it converts `signal` and `noise`. */
  function AfterCallculate(d: Fields): (r: Fields)
    // a success leaves the returned dict
    ensures Calculate(d).Ok? ==> r == Calculate(d).value
    // nothing is written without a usable Q10, or when Q10 does not convert
    ensures !Truthy(Get(d, "Q10")) || IntField(d, "Q10").Err? ==> r == d
    // a failure on signal or noise leaves exactly Q added, Q10 rounded down to tens
    ensures Truthy(Get(d, "Q10")) && IntField(d, "Q10").Ok? && Calculate(d).Err? ==>
              && r.Keys == d.Keys + {"Q"}
              && r["Q"].Int? && 10 * r["Q"].i <= IntField(d, "Q10").value < 10 * r["Q"].i + 10
              && forall k :: k in d && k != "Q" ==> r[k] == d[k]
    ensures d.Keys <= r.Keys <= d.Keys + {"Q", "SN"}
    ensures forall k :: k in d && k != "Q" && k != "SN" ==> r[k] == d[k]
  {
    if !Truthy(Get(d, "Q10")) then d
    else
      match IntField(d, "Q10")
      case Err(_) => d
      case Ok(q10) =>
        var withQ := d["Q" := Int(q10 / 10)];
        match Calculate(d)
        case Ok(done) => done
        case Err(_) => withQ
  }

  /** Running `callculate` again on the dict it has updated gives the same
      outcome: a replayed diagnostic entry, updated in place by an earlier
      call, resolves as it did the first time. */
  lemma CalculateAgain(d: Fields)
    ensures Calculate(AfterCallculate(d)) == Calculate(d)
  {
    if Truthy(Get(d, "Q10")) && IntField(d, "Q10").Ok? {
      if IntField(d, "signal").Ok? && IntField(d, "noise").Ok? {
        AgainAfterSuccess(d);
      } else {
        AgainAfterFailure(d);
      }
    }
  }

  /** `CalculateAgain` when the three conversions succeed. */
  lemma AgainAfterSuccess(d: Fields)
    requires Truthy(Get(d, "Q10")) && IntField(d, "Q10").Ok?
    requires IntField(d, "signal").Ok? && IntField(d, "noise").Ok?
    ensures Calculate(AfterCallculate(d)) == Calculate(d)
  {
    var q10, signal, noise := IntField(d, "Q10").value, IntField(d, "signal").value, IntField(d, "noise").value;
    var withQ := d["Q" := Int(q10 / 10)];
    OtherField(d, "Q", Int(q10 / 10), "Q10");
    OtherField(d, "Q", Int(q10 / 10), "signal");
    OtherField(d, "Q", Int(q10 / 10), "noise");
    CalculateConverted(d, q10, signal, noise);
    SuccessIsFixed(withQ, q10, signal, noise);
  }

  /** `CalculateAgain` when `Q10` converts but `signal` or `noise` does not:
      the dict has gained `Q`, and the same conversion fails again. */
  lemma AgainAfterFailure(d: Fields)
    requires Truthy(Get(d, "Q10")) && IntField(d, "Q10").Ok?
    requires !(IntField(d, "signal").Ok? && IntField(d, "noise").Ok?)
    ensures Calculate(AfterCallculate(d)) == Calculate(d)
  {
    var q10 := IntField(d, "Q10").value;
    var withQ := d["Q" := Int(q10 / 10)];
    OtherField(d, "Q", Int(q10 / 10), "Q10");
    OtherField(d, "Q", Int(q10 / 10), "signal");
    OtherField(d, "Q", Int(q10 / 10), "noise");
    assert Calculate(d).Err?;
    assert AfterCallculate(d) == withQ;
    assert withQ["Q" := Int(q10 / 10)] == withQ;
  }

  /** Writing one key leaves every other key, and its conversion, as it was. */
  lemma OtherField(d: Fields, k: string, v: Value, key: string)
    requires key != k
    ensures Get(d[k := v], key) == Get(d, key) && IntField(d[k := v], key) == IntField(d, key)
  {
  }

  /** The dict that already holds `Q` gains `SN` and is then left alone. */
  lemma SuccessIsFixed(withQ: Fields, q10: int, signal: int, noise: int)
    requires Truthy(Get(withQ, "Q10")) && IntField(withQ, "Q10") == Ok(q10)
    requires IntField(withQ, "signal") == Ok(signal) && IntField(withQ, "noise") == Ok(noise)
    requires "Q" in withQ && withQ["Q"] == Int(q10 / 10)
    ensures var done := withQ["SN" := Int(signal - noise)];
            Calculate(done) == Ok(done)
  {
    var done := withQ["SN" := Int(signal - noise)];
    OtherField(withQ, "SN", Int(signal - noise), "Q10");
    OtherField(withQ, "SN", Int(signal - noise), "signal");
    OtherField(withQ, "SN", Int(signal - noise), "noise");
    CalculateConverted(done, q10, signal, noise);
    assert done["Q" := Int(q10 / 10)]["SN" := Int(signal - noise)] == done;
  }

  /** A success leaves the dict a fixed point of `callculate`. */
  lemma CalculateIdempotent(d: Fields)
    requires Calculate(d).Ok?
    ensures Calculate(Calculate(d).value) == Calculate(d)
  {
    CalculateAgain(d);
  }

  /** When the three conversions succeed, `callculate` adds exactly `Q` and `SN`. */
  lemma CalculateConverted(d: Fields, q10: int, signal: int, noise: int)
    requires Truthy(Get(d, "Q10")) && IntField(d, "Q10") == Ok(q10)
    requires IntField(d, "signal") == Ok(signal) && IntField(d, "noise") == Ok(noise)
    ensures Calculate(d) == Ok(d["Q" := Int(q10 / 10)]["SN" := Int(signal - noise)])
  {
    var withQ := d["Q" := Int(q10 / 10)];
    OtherField(d, "Q", Int(q10 / 10), "signal");
    OtherField(d, "Q", Int(q10 / 10), "noise");
    assert IntField(withQ, "signal") == Ok(signal) && IntField(withQ, "noise") == Ok(noise);
  }

  /** A dict whose `Q10`, `signal` and `noise` are decimal numerals (as the
      status page and the diagnostic entries give them) gains
      `Q = Q10 // 10` and `SN = signal - noise`. */
  lemma CalculateOnDecimals(d: Fields, q10: int, signal: int, noise: int)
    requires Get(d, "Q10") == Str(FormatInt(q10))
    requires Get(d, "signal") == Str(FormatInt(signal)) && Get(d, "noise") == Str(FormatInt(noise))
    ensures Calculate(d) == Ok(d["Q" := Int(q10 / 10)]["SN" := Int(signal - noise)])
  {
    IntOfFormatted(q10);
    IntOfFormatted(signal);
    IntOfFormatted(noise);
    CalculateConverted(d, q10, signal, noise);
  }
}
