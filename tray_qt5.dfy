/** `SystemTrayIcon` of the Qt5 script: the band table, the monitored
    device's config, the diagnostic replay state and the icon and tooltip
    it shows, with the methods that update them. */
module TrayQt5 {

  import opened Wrappers
  import opened Text
  import opened PyValues
  import opened Bands
  import opened Metrics
  import opened Probe
  import opened Resolver
  import opened Replay

  /** The config key naming the classification key (`Q`, `Q10`, `SNR` or `SN`). */
  const KeyName: string := "tab_key"

  class SystemTrayIcon {
    /** `self.signal`: the band table, in the order written. */
    var signal: seq<Entry>
    /** `self.device`: the monitored device's config. */
    var device: Fields
    /** `self.data`, `self.data_idx`: the diagnostic rows and the replay
        cursor; `hasData` is `hasattr(self, 'data')`. */
    var data: seq<Fields>
    var hasData: bool
    var dataIdx: nat
    /** What `setIcon` and `setToolTip` were last given. */
    var icon: Option<Icon>
    var toolTip: string

    /** The replay cursor always points at a row. */
    predicate Valid()
      reads this
    {
      hasData ==> dataIdx < |data|
    }

    /** A tray icon showing `initial`, not yet configured and without
        diagnostic data. */
    constructor (initial: Option<Icon>)
      ensures Valid() && !hasData
      ensures signal == [] && device == map[] && icon == initial && toolTip == ""
    {
      signal := [];
      device := map[];
      data := [];
      hasData := false;
      dataIdx := 0;
      icon := initial;
      toolTip := "";
    }

    /** `cfg_signal_table(levelstr, dir)`: rebuilds the table piece by
        piece, icons and sounds both loaded from `dir`. When a piece raises, the table holds the pieces
        before it. */
    method CfgSignalTable(levelstr: string, loadIcon: IconLoader, loadSound: SoundLoader) returns (raised: Option<Error>)
      modifies this`signal
      ensures ParseTable(levelstr, loadIcon, loadSound).Ok? ==>
                raised == None && signal == ParseTable(levelstr, loadIcon, loadSound).value
      ensures ParseTable(levelstr, loadIcon, loadSound).Err? ==>
                && raised == Some(ParseTable(levelstr, loadIcon, loadSound).error)
                && |signal| < |Pieces(levelstr)|
                && ParsedPrefix(Pieces(levelstr), signal, loadIcon, loadSound)
                && ParsePiece(Pieces(levelstr)[|signal|], loadIcon, loadSound) == Err(raised.value)
    {
      var pieces := Pieces(levelstr);
      signal := [];
      var i := 0;
      while i < |pieces|
        invariant |signal| == i
        invariant ParsedPrefix(pieces, signal, loadIcon, loadSound)
      {
        var item := ParsePiece(pieces[i], loadIcon, loadSound);
        if item.Err? {
          ParsePiecesFirstError(pieces, i, loadIcon, loadSound);
          return Some(item.error);
        }
        ParsedPrefixExtend(pieces, signal, loadIcon, loadSound);
        signal := signal + [item.value];
        i := i + 1;
      }
      ParsePiecesAll(pieces, signal, loadIcon, loadSound);
      return None;
    }

    /** `cfg_device(device)`: keeps the config; the table is configured
        separately. */
    method CfgDevice(config: Fields)
      modifies this`device
      ensures device == config
    {
      device := config;
    }

    /** `get_entry_for_level(level)`: the scan with its early `break`. */
    method GetEntryForLevel(level: Value) returns (r: Result<Option<Entry>, Error>)
      ensures level.Int? ==> r == Ok(EntryForLevel(signal, level.i))
      ensures !level.Int? ==> r == Err(TypeError)
    {
      if !level.Int? {
        return Err(TypeError);
      }
      var entry: Option<Entry> := None;
      var i := 0;
      while i < |signal|
        invariant 0 <= i <= |signal|
        invariant forall j :: 0 <= j < i ==> signal[j].level <= level.i
        invariant entry == if i == 0 then None else Some(signal[i - 1])
      {
        if level.i < signal[i].level {
          break;
        }
        entry := Some(signal[i]);
        i := i + 1;
      }
      ScanStopsAt(signal, level.i, i);
      return Ok(entry);
    }

    /** `get_icon_for_signal(txt)`: the icon of the first band named `txt`. */
    function GetIconForSignal(txt: Value): (r: Result<Option<Icon>, Error>)
      reads this
      ensures r.Ok? <==> txt.Str? && FirstNamed(signal, txt.s).Some?
      ensures r.Ok? ==> r.value == signal[FirstNamed(signal, txt.s).value].icon
      ensures r.Err? ==> r.error == IndexError
    {
      IconForSignalIsFirstNamed(signal, txt);
      IconForSignal(signal, txt)
    }

    /** `check_device(device)`: reads the page line by line, each line
        decoded from UTF-8, and returns the captures of the first line the
        `regex` matches. */
    method CheckDevice(config: Fields, fetch: Fetcher, matcher: Matcher, format: Formatter) returns (r: Result<Fields, Error>)
      ensures r == ShapeProbe(config, fetch, matcher, format)
    {
      if "url" !in config {
        return Err(KeyError(Str("url")));
      }
      if "timeout" !in config {
        return Err(KeyError(Str("timeout")));
      }
      var outcome := fetch(config["url"], config["timeout"]);
      match outcome {
        case Lines(lines) =>
          var i := 0;
          while i < |lines|
            invariant 0 <= i <= |lines|
            invariant i > 0 ==> Template(config, "regex").Ok?
            invariant forall j :: 0 <= j < i ==> matcher(Template(config, "regex").value, lines[j]).None?
          {
            var pattern := Template(config, "regex");
            if pattern.Err? {
              return Err(pattern.error);
            }
            var m := matcher(pattern.value, lines[i]);
            if m.Some? {
              FirstMatchFound(lines, pattern.value, matcher, i);
              return Ok(m.value);
            }
            i := i + 1;
          }
          if lines != [] {
            FirstMatchMeaning(lines, Template(config, "regex").value, matcher);
          }
          r := NoConnection(config);
        case HttpError(code, message) =>
          var template := Template(config, "http_error");
          if template.Err? {
            return Err(template.error);
          }
          r := Ok(Failure(format(template.value, map["errno" := Int(code), "strerror" := Str(message)])));
        case UrlError(cause) =>
          if "url_error" !in config {
            return Err(KeyError(Str("url_error")));
          }
          var template := config["url_error"];
          // the reason's attributes are read before `%` is applied
          var args := UrlErrorArgs(cause);
          if args.Err? {
            return Err(args.error);
          }
          if !template.Str? {
            return Err(TypeError);
          }
          r := Ok(Failure(format(template.s, args.value)));
      }
    }

    /** `callculate(d)`: writes `Q` and then `SN` into the dict. Returns
        the outcome — the dict or the exception raised — and the dict as the
        caller sees it afterwards, which holds `Q` even when a later
        conversion raised. */
    method Callculate(d: Fields) returns (r: Result<Fields, Error>, dict: Fields)
      ensures r == Calculate(d) && dict == AfterCallculate(d)
    {
      dict := d;
      if !Truthy(Get(dict, "Q10")) {
        return Ok(dict), dict;
      }
      var q10 := IntField(dict, "Q10");
      if q10.Err? {
        return Err(q10.error), dict;
      }
      dict := dict["Q" := Int(q10.value / 10)];
      var signal := IntField(dict, "signal");
      if signal.Err? {
        return Err(signal.error), dict;
      }
      var noise := IntField(dict, "noise");
      if noise.Err? {
        return Err(noise.error), dict;
      }
      dict := dict["SN" := Int(signal.value - noise.value)];
      return Ok(dict), dict;
    }

    /** `test_data(data)`: loads the rows when given some, otherwise serves
        the row under the cursor and advances it round-robin. */
    method TestData(rows: seq<Fields>) returns (r: Result<Option<Fields>, Error>)
      requires Valid()
      modifies this`data, this`hasData, this`dataIdx
      ensures Valid()
      ensures |rows| > 0 ==> r == Ok(None) && hasData && data == rows && dataIdx == 0
      ensures rows == [] && !old(hasData) ==>
                r == Err(AttributeError) && !hasData && data == old(data) && dataIdx == old(dataIdx)
      ensures rows == [] && old(hasData) ==>
                && r == Ok(Some(old(data)[old(dataIdx)]))
                && hasData && data == old(data) && dataIdx == Next(old(dataIdx), |data|)
    {
      if |rows| > 0 {
        data, dataIdx, hasData := rows, 0, true;
        return Ok(None);
      }
      if !hasData {
        // `self.data` was never set
        return Err(AttributeError);
      }
      var d := data[dataIdx];
      dataIdx := (dataIdx + 1) % |data|;
      return Ok(Some(d));
    }

    /** `update()`: takes the next diagnostic row or probes the device,
        resolves the result and shows the band's icon and the tooltip. A
        replayed row is the very dict `callculate` updates, so the row in
        `data` is updated with it. */
    method Update(fetch: Fetcher, matcher: Matcher, format: Formatter) returns (raised: Option<Error>)
      requires Valid()
      modifies this`data, this`hasData, this`dataIdx, this`icon, this`toolTip
      ensures Valid() && hasData == old(hasData)
      ensures old(hasData) ==>
                && dataIdx == Next(old(dataIdx), |old(data)|)
                && data == old(data)[old(dataIdx) := AfterCallculate(old(data)[old(dataIdx)])]
      ensures !old(hasData) ==> data == old(data) && dataIdx == old(dataIdx)
      ensures var res := if old(hasData) then Ok(old(data)[old(dataIdx)]) else ShapeProbe(device, fetch, matcher, format);
              var out := if res.Err? then Err(res.error) else Resolve(res.value, device, KeyName, signal, format);
              && (out.Ok? ==> raised == None && icon == out.value.band.icon && toolTip == out.value.tooltip)
              && (out.Err? ==> raised == Some(out.error) && icon == old(icon) && toolTip == old(toolTip))
    {
      var res: Fields;
      if hasData {
        var at := dataIdx;
        var served := TestData([]);
        res := served.value.value;
        // `callculate` updates the served row itself, not a copy
        var derived, updated := Callculate(res);
        data := data[at := updated];
      } else {
        var probe := CheckDevice(device, fetch, matcher, format);
        if probe.Err? {
          return Some(probe.error);
        }
        res := probe.value;
      }
      var out := Resolve(res, device, KeyName, signal, format);
      if out.Err? {
        return Some(out.error);
      }
      icon, toolTip := out.value.band.icon, out.value.tooltip;
      return None;
    }
  }

  /** The link qualities `Q10` of the diagnostic entries in `main()`. */
  const DiagnosticQualities: seq<int> := [0, 150, 160, 350, 360, 1000]

  /** The default band each of them is meant to hit: the lower and upper
      limits of `low`, the lower limit of `medium`, the lower limit of
      `high` and two more highs. */
  const DiagnosticBands: seq<nat> := [2, 2, 3, 4, 4, 4]

  /** A reading with one of the diagnostic link qualities, on the default
      table and classified by `Q`, shows the icon of the band it is meant
      to hit, whatever its SNR, signal and noise. */
  lemma DiagnosticReadingHits(i: nat, snr: string, signal: int, noise: int,
                              device: Fields, loadIcon: IconLoader, loadSound: SoundLoader, format: Formatter)
    requires i < |DiagnosticQualities|
    requires Get(device, KeyName) == Str("Q") && Template(device, "tooltip").Ok?
    ensures ShowsBand(Reading(FormatInt(DiagnosticQualities[i]), snr, FormatInt(signal), FormatInt(noise)),
                      device, KeyName, DiagnosticBands[i], loadIcon, loadSound, format)
  {
    var q10 := DiagnosticQualities[i];
    assert i == 0 || i == 1 || i == 2 || i == 3 || i == 4 || i == 5;
    ReadingShowsBand(q10, snr, signal, noise, DiagnosticBands[i], device, KeyName, loadIcon, loadSound, format);
  }

  /** The diagnostic reports of a timeout and of a lost connection show the
      `error` and `nocon` icons. */
  lemma DiagnosticReportsHit(desc: string, device: Fields, loadIcon: IconLoader, loadSound: SoundLoader, format: Formatter)
    requires Template(device, "tooltip_error").Ok?
    ensures ShowsBand(Report("error", desc), device, KeyName, 0, loadIcon, loadSound, format)
    ensures ShowsBand(Report("nocon", desc), device, KeyName, 1, loadIcon, loadSound, format)
  {
    assert DefaultTable(loadIcon, loadSound)[0].name == "error";
    ReportShowsBand(0, desc, device, KeyName, loadIcon, loadSound, format);
    assert DefaultTable(loadIcon, loadSound)[1].name == "nocon";
    ReportShowsBand(1, desc, device, KeyName, loadIcon, loadSound, format);
  }
}
