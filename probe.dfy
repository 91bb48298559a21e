/** `check_device`: the result dict built from one query of the device's
    status page — the captures of the first matching line, or a
    `{'signal': ..., 'desc': ...}` dict describing why there are none. */
module Probe {

  import opened Wrappers
  import opened PyValues

  /** The `reason` of a URLError: an OS error carrying `errno` and
      `strerror` (either may be None), or a plain message, which has neither. */
  datatype UrlReason = OsReason(errno: Option<int>, strerror: Option<string>) | TextReason(text: string)

  /** What opening and reading the status page gives: its lines, an HTTP
      error status (`e.code` and the message `e.reason`), or a URL error
      with its `e.reason`. */
  datatype FetchOutcome =
    | Lines(lines: seq<string>)
    | HttpError(code: int, message: string)
    | UrlError(cause: UrlReason)

  /** `urlopen(url, timeout=timeout).readlines()`, with the network left out. */
  type Fetcher = (Value, Value) -> FetchOutcome

  /** `re.search(pattern, line)` followed by `m.groupdict()`: the named
      captures when the line matches. */
  type Matcher = (string, string) -> Option<Fields>

  /** Line `i` is the first line the pattern matches. */
  predicate FirstMatchAt(lines: seq<string>, pattern: string, matcher: Matcher, i: int) {
    && 0 <= i < |lines|
    && matcher(pattern, lines[i]).Some?
    && forall j :: 0 <= j < i ==> matcher(pattern, lines[j]).None?
  }

  /** The captures of the first line that matches, if any line does
      (`FirstMatchMeaning` states what it finds). */
  function FirstMatch(lines: seq<string>, pattern: string, matcher: Matcher): Option<Fields> {
    if lines == [] then None
    else if matcher(pattern, lines[0]).Some? then matcher(pattern, lines[0])
    else FirstMatch(lines[1..], pattern, matcher)
  }

  /** No captures exactly when no line matches; otherwise the captures of
      the first line that does. */
  lemma {:induction false} FirstMatchMeaning(lines: seq<string>, pattern: string, matcher: Matcher)
    ensures FirstMatch(lines, pattern, matcher).None? <==>
              forall i :: 0 <= i < |lines| ==> matcher(pattern, lines[i]).None?
    ensures FirstMatch(lines, pattern, matcher).Some? ==>
              exists i :: FirstMatchAt(lines, pattern, matcher, i) && FirstMatch(lines, pattern, matcher) == matcher(pattern, lines[i])
  {
    if lines == [] {
    } else if matcher(pattern, lines[0]).Some? {
      assert FirstMatchAt(lines, pattern, matcher, 0);
    } else {
      var rest := lines[1..];
      FirstMatchMeaning(rest, pattern, matcher);
      if FirstMatch(rest, pattern, matcher).Some? {
        var i :| FirstMatchAt(rest, pattern, matcher, i) && FirstMatch(rest, pattern, matcher) == matcher(pattern, rest[i]);
        assert FirstMatchAt(lines, pattern, matcher, i + 1);
      } else {
        forall i | 0 <= i < |lines|
          ensures matcher(pattern, lines[i]).None?
        {
          if i > 0 {
            assert lines[i] == rest[i - 1];
          }
        }
      }
    }
  }

  /** Whatever line is the first to match, its captures are the result. */
  lemma {:induction false} FirstMatchFound(lines: seq<string>, pattern: string, matcher: Matcher, i: int)
    requires FirstMatchAt(lines, pattern, matcher, i)
    ensures FirstMatch(lines, pattern, matcher) == matcher(pattern, lines[i])
  {
    if i > 0 {
      var rest := lines[1..];
      assert matcher(pattern, lines[0]).None?;
      forall j | 0 <= j < i - 1
        ensures matcher(pattern, rest[j]).None?
      {
        assert rest[j] == lines[j + 1];
      }
      assert rest[i - 1] == lines[i];
      FirstMatchFound(rest, pattern, matcher, i - 1);
    }
  }

  /** Once a line has matched, what follows it is never looked at. */
  lemma {:induction false} FirstMatchIgnoresLater(lines: seq<string>, more: seq<string>, pattern: string, matcher: Matcher)
    requires FirstMatch(lines, pattern, matcher).Some?
    ensures FirstMatch(lines + more, pattern, matcher) == FirstMatch(lines, pattern, matcher)
  {
    assert (lines + more)[0] == lines[0];
    if matcher(pattern, lines[0]).None? {
      assert (lines + more)[1..] == lines[1..] + more;
      FirstMatchIgnoresLater(lines[1..], more, pattern, matcher);
    }
  }

  /** `{'signal': 'nocon', 'desc': device['no_wifi']}`. */
  function NoConnection(device: Fields): (r: Result<Fields, Error>)
    ensures r.Ok? <==> "no_wifi" in device
    ensures r.Err? ==> r.error == KeyError(Str("no_wifi"))
    ensures r.Ok? ==> r.value.Keys == {"signal", "desc"} && r.value["signal"] == Str("nocon")
                      && r.value["desc"] == device["no_wifi"]
  {
    var desc :- Index(device, Str("no_wifi"));
    Ok(map["signal" := Str("nocon"), "desc" := desc])
  }

  /** The initial `{'signal': 'error', 'desc': '?'}` with `desc` replaced. */
  function Failure(desc: string): Fields {
    map["signal" := Str("error"), "desc" := Str("?")]["desc" := Str(desc)]
  }

  /** The arguments `{'errno': ..., 'strerror': ...}` of the URL error
      template, or the AttributeError of a reason that is a plain message. */
  function UrlErrorArgs(reason: UrlReason): (r: Result<Fields, Error>)
    ensures r.Err? <==> reason.TextReason?
    ensures r.Err? ==> r.error == AttributeError
    ensures r.Ok? ==> r.value.Keys == {"errno", "strerror"}
    // an attribute the OS error leaves unset is None
    ensures r.Ok? ==> r.value["errno"] == (if reason.errno.Some? then Int(reason.errno.value) else NoneValue)
    ensures r.Ok? ==> r.value["strerror"] == (if reason.strerror.Some? then Str(reason.strerror.value) else NoneValue)
  {
    match reason
    case TextReason(_) => Err(AttributeError)
    case OsReason(errno, strerror) =>
      Ok(map["errno" := (if errno.Some? then Int(errno.value) else NoneValue),
             "strerror" := (if strerror.Some? then Str(strerror.value) else NoneValue)])
  }

  /** What `check_device` returns (or raises) once the page has been fetched
      with the outcome `outcome`. */
  function ShapeOutcome(device: Fields, outcome: FetchOutcome, matcher: Matcher, format: Formatter): (r: Result<Fields, Error>)
    // an empty page: the no-connection dict, without looking at `regex`
    ensures outcome.Lines? && outcome.lines == [] ==> r == NoConnection(device)
    // a nonempty page needs `regex`, which must be a string
    ensures outcome.Lines? && outcome.lines != [] && Template(device, "regex").Err? ==>
              r == Err(Template(device, "regex").error)
    // the captures of the first line that matches, unchanged
    ensures outcome.Lines? && Template(device, "regex").Ok? ==>
              forall i :: FirstMatchAt(outcome.lines, device["regex"].s, matcher, i) ==>
                r == Ok(matcher(device["regex"].s, outcome.lines[i]).value)
    // no line matches: exactly the no-connection dict
    ensures outcome.Lines? && Template(device, "regex").Ok?
            && (forall i :: 0 <= i < |outcome.lines| ==> matcher(device["regex"].s, outcome.lines[i]).None?) ==>
              r == NoConnection(device)
    // an HTTP error: the `http_error` template filled with the code and reason
    ensures outcome.HttpError? ==>
              r == (if Template(device, "http_error").Err? then Err(Template(device, "http_error").error)
                    else Ok(Failure(format(device["http_error"].s,
                                           map["errno" := Int(outcome.code), "strerror" := Str(outcome.message)]))))
    // a URL error: `url_error` is looked up, then the reason's attributes
    // are read, and only then is `%` applied to the template
    ensures outcome.UrlError? && "url_error" !in device ==> r == Err(KeyError(Str("url_error")))
    ensures outcome.UrlError? && "url_error" in device && outcome.cause.TextReason? ==> r == Err(AttributeError)
    ensures outcome.UrlError? && "url_error" in device && outcome.cause.OsReason? ==>
              r == (if device["url_error"].Str?
                    then Ok(Failure(format(device["url_error"].s, UrlErrorArgs(outcome.cause).value)))
                    else Err(TypeError))
  {
    match outcome
    case Lines(lines) =>
      if lines == [] then NoConnection(device)
      else
        var pattern :- Template(device, "regex");
        FirstMatchMeaning(lines, pattern, matcher);
        assert forall i :: FirstMatchAt(lines, pattern, matcher, i) ==> FirstMatch(lines, pattern, matcher) == matcher(pattern, lines[i]) by {
          forall i | FirstMatchAt(lines, pattern, matcher, i)
            ensures FirstMatch(lines, pattern, matcher) == matcher(pattern, lines[i])
          {
            FirstMatchFound(lines, pattern, matcher, i);
          }
        }
        (match FirstMatch(lines, pattern, matcher)
         case Some(captures) => Ok(captures)
         case None => NoConnection(device))
    case HttpError(code, reason) =>
      var template :- Template(device, "http_error");
      Ok(Failure(format(template, map["errno" := Int(code), "strerror" := Str(reason)])))
    case UrlError(reason) =>
      var template :- Index(device, Str("url_error"));
      var args :- UrlErrorArgs(reason);
      if template.Str? then Ok(Failure(format(template.s, args))) else Err(TypeError)
  }

  /** `check_device(device)`: look up `url` and `timeout`, fetch, and shape
      the outcome. */
  function ShapeProbe(device: Fields, fetch: Fetcher, matcher: Matcher, format: Formatter): (r: Result<Fields, Error>)
    ensures "url" !in device ==> r == Err(KeyError(Str("url")))
    ensures "url" in device && "timeout" !in device ==> r == Err(KeyError(Str("timeout")))
    ensures "url" in device && "timeout" in device ==>
              r == ShapeOutcome(device, fetch(device["url"], device["timeout"]), matcher, format)
  {
    var url :- Index(device, Str("url"));
    var timeout :- Index(device, Str("timeout"));
    ShapeOutcome(device, fetch(url, timeout), matcher, format)
  }
}
