/** The decision part of `update`: from one result dict to the band whose
    icon the tray shows and the tooltip text. */
module Resolver {

  import opened Wrappers
  import opened Text
  import opened PyValues
  import opened Bands
  import opened Metrics
  import opened Probe

  /** The table entry whose icon is shown, and the tooltip. */
  datatype Resolution = Resolution(band: Entry, tooltip: string)

  /** `res[self.device[keyName]]` as a classification level: the key named
      by the device config, looked up in the derived dict. Anything but an
      int raises TypeError, at the `%d` of the classifier's debug line (and,
      under Python 3, already at its `<`). */
  function Level(derived: Fields, device: Fields, keyName: string): (r: Result<int, Error>)
    ensures r.Ok? <==> keyName in device && device[keyName].Str? && device[keyName].s in derived
                       && derived[device[keyName].s].Int?
    ensures r.Ok? ==> r.value == derived[device[keyName].s].i
    // `self.device[keyName]` and then `res[...]` raise KeyError
    ensures keyName !in device ==> r == Err(KeyError(Str(keyName)))
    ensures keyName in device && !(device[keyName].Str? && device[keyName].s in derived) ==>
              r == Err(KeyError(device[keyName]))
    // a level that is not an int raises TypeError
    ensures keyName in device && device[keyName].Str? && device[keyName].s in derived
            && !derived[device[keyName].s].Int? ==>
              r == Err(TypeError)
  {
    var key :- Index(device, Str(keyName));
    var level :- Index(derived, key);
    if level.Int? then Ok(level.i) else Err(TypeError)
  }

  /** The branch taken when `res` carries a usable `Q10`. */
  function ByLevel(res: Fields, device: Fields, keyName: string, table: seq<Entry>, format: Formatter): Result<Resolution, Error> {
    var derived :- Calculate(res);
    var template :- Template(device, "tooltip");
    var tooltip := format(template, derived);
    var level :- Level(derived, device, keyName);
    match EntryForLevel(table, level)
    case None => Err(TypeError)   // `entry['icon']` on None
    case Some(entry) => Ok(Resolution(entry, tooltip))
  }

  /** The branch taken otherwise: the band named by `res['signal']`. */
  function ByName(res: Fields, device: Fields, table: seq<Entry>, format: Formatter): Result<Resolution, Error> {
    var signal :- Index(res, Str("signal"));
    var k :- if signal.Str? && FirstNamed(table, signal.s).Some? then Ok(FirstNamed(table, signal.s).value)
             else Err(IndexError);
    var template :- Template(device, "tooltip_error");
    Ok(Resolution(table[k], format(template, res)))
  }

  /** `update()` from the result dict on: the band and tooltip it sets, or
      the exception it raises. `keyName` is the config key naming the
      classification key (`signal_key` or `tab_key`). */
  function Resolve(res: Fields, device: Fields, keyName: string, table: seq<Entry>, format: Formatter): (r: Result<Resolution, Error>)
    // with a usable Q10, in the order the script runs: `callculate`, the
    // `tooltip` template, the level under the configured key, its band
    ensures Truthy(Get(res, "Q10")) && Calculate(res).Err? ==> r == Err(Calculate(res).error)
    ensures Truthy(Get(res, "Q10")) && Calculate(res).Ok? && Template(device, "tooltip").Err? ==>
              r == Err(Template(device, "tooltip").error)
    ensures Truthy(Get(res, "Q10")) && Calculate(res).Ok? && Template(device, "tooltip").Ok?
            && Level(Calculate(res).value, device, keyName).Err? ==>
              r == Err(Level(Calculate(res).value, device, keyName).error)
    // the band the classifier gives, and the `tooltip` template filled
    // from the derived dict
    ensures Truthy(Get(res, "Q10")) && Calculate(res).Ok? && Template(device, "tooltip").Ok?
            && Level(Calculate(res).value, device, keyName).Ok?
            && EntryForLevel(table, Level(Calculate(res).value, device, keyName).value).Some? ==>
              r == Ok(Resolution(EntryForLevel(table, Level(Calculate(res).value, device, keyName).value).value,
                                 format(Template(device, "tooltip").value, Calculate(res).value)))
    // a level below the first threshold has no band, and that raises
    ensures Truthy(Get(res, "Q10")) && Calculate(res).Ok? && Template(device, "tooltip").Ok?
            && Level(Calculate(res).value, device, keyName).Ok?
            && EntryForLevel(table, Level(Calculate(res).value, device, keyName).value).None? ==>
              r == Err(TypeError)
    // otherwise: `res['signal']` must be there and name a band
    ensures !Truthy(Get(res, "Q10")) && "signal" !in res ==> r == Err(KeyError(Str("signal")))
    ensures !Truthy(Get(res, "Q10")) && "signal" in res
            && !(res["signal"].Str? && FirstNamed(table, res["signal"].s).Some?) ==>
              r == Err(IndexError)
    // then the first band so named, and the `tooltip_error` template
    // filled from `res`
    ensures !Truthy(Get(res, "Q10")) && "signal" in res
            && res["signal"].Str? && FirstNamed(table, res["signal"].s).Some? ==>
              r == (if Template(device, "tooltip_error").Err? then Err(Template(device, "tooltip_error").error)
                    else Ok(Resolution(table[FirstNamed(table, res["signal"].s).value],
                                       format(Template(device, "tooltip_error").value, res))))
  {
    if Truthy(Get(res, "Q10")) then ByLevel(res, device, keyName, table, format)
    else ByName(res, device, table, format)
  }

  /** On a table written in ascending order, a resolved level lands in the
      band with the greatest threshold not above it. */
  lemma ResolveAscending(res: Fields, device: Fields, keyName: string, table: seq<Entry>, format: Formatter)
    requires Ascending(table) && Truthy(Get(res, "Q10"))
    requires Resolve(res, device, keyName, table, format).Ok?
    ensures var level := Level(Calculate(res).value, device, keyName).value;
            var band := Resolve(res, device, keyName, table, format).value.band;
            && band in table && band.level <= level
            && forall i :: 0 <= i < |table| && table[i].level <= level ==> table[i].level <= band.level
  {
    ClassifySorted(table, Level(Calculate(res).value, device, keyName).value);
  }

  /** A key whose value is a captured string — `Q10` or `SNR` from the
      status page — cannot be classified: `update` raises TypeError. */
  lemma StringKeyRaises(res: Fields, device: Fields, keyName: string, table: seq<Entry>, format: Formatter)
    requires Truthy(Get(res, "Q10")) && Calculate(res).Ok? && Template(device, "tooltip").Ok?
    requires keyName in device && device[keyName].Str?
    requires device[keyName].s in res && device[keyName].s != "Q" && device[keyName].s != "SN"
    requires res[device[keyName].s].Str?
    ensures Resolve(res, device, keyName, table, format) == Err(TypeError)
  {
    var key := device[keyName].s;
    CalculateMeaning(res);
    assert Calculate(res).value[key] == res[key];
  }

  /** The in-place update of a replayed diagnostic entry does not change how
      it resolves the next time round. */
  lemma ResolveAfterCallculate(res: Fields, device: Fields, keyName: string, table: seq<Entry>, format: Formatter)
    ensures Resolve(AfterCallculate(res), device, keyName, table, format) == Resolve(res, device, keyName, table, format)
  {
    CalculateAgain(res);
    assert Get(AfterCallculate(res), "Q10") == Get(res, "Q10");
    if !Truthy(Get(res, "Q10")) {
      assert AfterCallculate(res) == res;
    }
  }

  /** A page without a station line resolves to the first band named
      `nocon`, with the `no_wifi` message in the error tooltip. */
  lemma NoConnectionResolves(device: Fields, keyName: string, table: seq<Entry>, format: Formatter)
    requires NoConnection(device).Ok? && FirstNamed(table, "nocon").Some?
    requires Template(device, "tooltip_error").Ok?
    ensures var res := NoConnection(device).value;
            Resolve(res, device, keyName, table, format)
              == Ok(Resolution(table[FirstNamed(table, "nocon").value], format(device["tooltip_error"].s, res)))
  {
    var res := NoConnection(device).value;
    assert Get(res, "Q10") == NoneValue;
  }

  /** A device that cannot be reached resolves to the first band named
      `error`, whichever of the HTTP and URL errors it was. */
  lemma FetchFailureResolves(device: Fields, outcome: FetchOutcome, matcher: Matcher, keyName: string,
                             table: seq<Entry>, format: Formatter)
    requires !outcome.Lines? && ShapeOutcome(device, outcome, matcher, format).Ok?
    requires FirstNamed(table, "error").Some? && Template(device, "tooltip_error").Ok?
    ensures var res := ShapeOutcome(device, outcome, matcher, format).value;
            Resolve(res, device, keyName, table, format)
              == Ok(Resolution(table[FirstNamed(table, "error").value], format(device["tooltip_error"].s, res)))
  {
    var res := ShapeOutcome(device, outcome, matcher, format).value;
    assert res.Keys == {"signal", "desc"} && res["signal"] == Str("error");
    assert Get(res, "Q10") == NoneValue;
  }

  /** A diagnostic entry with decimal `Q10`, `signal` and `noise`, classified
      by `Q` on the default table, lands in the default band of `Q10 // 10`.
      Every `Q10` from -20 up has such a band; below -20 `Resolve` raises TypeError. */
  lemma DecimalEntryResolves(res: Fields, q10: int, signal: int, noise: int, device: Fields, keyName: string,
                             loadIcon: IconLoader, loadSound: SoundLoader, format: Formatter)
    requires Get(res, "Q10") == Str(FormatInt(q10)) && q10 >= -20
    requires Get(res, "signal") == Str(FormatInt(signal)) && Get(res, "noise") == Str(FormatInt(noise))
    requires Template(device, "tooltip").Ok? && Get(device, keyName) == Str("Q")
    ensures var derived := res["Q" := Int(q10 / 10)]["SN" := Int(signal - noise)];
            Resolve(res, device, keyName, DefaultTable(loadIcon, loadSound), format)
              == Ok(Resolution(DefaultBand(q10 / 10, loadIcon, loadSound).value,
                               format(device["tooltip"].s, derived)))
  {
    var derived := res["Q" := Int(q10 / 10)]["SN" := Int(signal - noise)];
    CalculateOnDecimals(res, q10, signal, noise);
    IntOfFormatted(q10);
    assert Level(derived, device, keyName) == Ok(q10 / 10);
    DefaultTableClassifies(q10 / 10, loadIcon, loadSound);
    assert DefaultBand(q10 / 10, loadIcon, loadSound).Some?;
    assert Resolve(res, device, keyName, DefaultTable(loadIcon, loadSound), format)
             == ByLevel(res, device, keyName, DefaultTable(loadIcon, loadSound), format);
  }

  /** A diagnostic entry for a station that reports no level: `signal`
      names the band, `desc` is the message. */
  function Report(signal: string, desc: string): Fields {
    map["signal" := Str(signal), "desc" := Str(desc)]
  }

  /** A diagnostic entry as the status page would give it: the link
      quality, SNR, signal and noise as decimal strings. */
  function Reading(q10: string, snr: string, signal: string, noise: string): Fields {
    map["Q10" := Str(q10), "SNR" := Str(snr), "signal" := Str(signal), "noise" := Str(noise)]
  }

  /** `res` resolves, on the default table, to the default band `k`. */
  predicate ShowsBand(res: Fields, device: Fields, keyName: string, k: nat,
                      loadIcon: IconLoader, loadSound: SoundLoader, format: Formatter)
  {
    var r := Resolve(res, device, keyName, DefaultTable(loadIcon, loadSound), format);
    k < 5 && r.Ok? && r.value.band == DefaultTable(loadIcon, loadSound)[k]
  }

  /** A reading whose link quality, signal and noise are the decimal
      numerals of `q10`, `signal` and `noise`, classified by `Q` on the
      default table, shows the icon of the default band `k` its `Q` falls in. */
  lemma ReadingShowsBand(q10: int, snr: string, signal: int, noise: int, k: nat,
                         device: Fields, keyName: string, loadIcon: IconLoader, loadSound: SoundLoader, format: Formatter)
    requires q10 >= -20 && Template(device, "tooltip").Ok? && Get(device, keyName) == Str("Q")
    requires k < 5 && DefaultBand(q10 / 10, loadIcon, loadSound) == Some(DefaultTable(loadIcon, loadSound)[k])
    ensures ShowsBand(Reading(FormatInt(q10), snr, FormatInt(signal), FormatInt(noise)), device, keyName, k,
                      loadIcon, loadSound, format)
  {
    var res := Reading(FormatInt(q10), snr, FormatInt(signal), FormatInt(noise));
    DecimalEntryResolves(res, q10, signal, noise, device, keyName, loadIcon, loadSound, format);
  }

  /** A report naming the default band `k` shows that band's icon. */
  lemma ReportShowsBand(k: nat, desc: string, device: Fields, keyName: string,
                        loadIcon: IconLoader, loadSound: SoundLoader, format: Formatter)
    requires k < 5 && Template(device, "tooltip_error").Ok?
    ensures ShowsBand(Report(DefaultTable(loadIcon, loadSound)[k].name, desc), device, keyName, k,
                      loadIcon, loadSound, format)
  {
    var t := DefaultTable(loadIcon, loadSound);
    var res := Report(t[k].name, desc);
    assert Get(res, "Q10") == NoneValue;
    DefaultNamesDistinct(loadIcon, loadSound);
    assert FirstNamed(t, t[k].name) == Some(k);
  }
}
