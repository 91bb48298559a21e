# Wifi signal tray icon — the decision pipeline, in Dafny

`systray-wifi-qt4.py` and `systray-wifi-qt5.py` put an icon in the system
tray that shows how well a dd-wrt wifi client is connected. Each one reads
the device's status page and picks out the line of the associated station.
From that line it works out a quality level. It then picks a band
(`error`, `nocon`, `low`, `medium`, `high`) from a table written in the
configuration, and shows the band's icon with a tooltip.

This project models the part of both scripts that makes that decision.
It leaves out the Qt shell around it.

- **`Text`** covers the string primitives the scripts rely on: Python's
  `strip` and `split` with a one-character separator, and `int()` on
  strings. It also defines `join` and `str()` on integers, which the
  scripts do not call, as the inverses that the round-trip lemmas about
  `split` and `int()` are stated with.
- **`PyValues`** covers Python's dynamic values (`str`, `int`, `None`) and
  dicts with string keys. It also covers truthiness, `d.get`, `d[k]` and
  the exceptions these raise.
- **`Bands`** covers the band table: parsing the specification
  (`cfg_signal_table`), classifying a level (`get_entry_for_level`) and
  looking a band up by name (`get_icon_for_signal`).
- **`Metrics`** covers `callculate`, which adds `Q = Q10 // 10` and
  `SN = signal - noise` to a result dict.
- **`Probe`** covers `check_device` from the fetched page on. The result is
  the captures of the first matching line, the no-connection dict, or the
  HTTP or URL error dict.
- **`Resolver`** covers the decision in `update`. It gives the band whose
  icon is shown and the tooltip text, or the exception raised.
- **`Replay`** covers the round-robin cursor of `test_data`.
- **`Settings`** covers the settings store that `save_config` writes to
  (Qt4 only).
- **`TrayQt4`** and **`TrayQt5`** each hold a `SystemTrayIcon` class. Its
  fields are the script's own: `signal`, `device`, `data`, `data_idx`, and
  the icon and tooltip on show. Its methods are the loops of the script,
  each proved against the functions above.

The network fetch, the regular expression engine, `%`-formatting and the
resource loaders are parameters:
- `Fetcher` gives the lines of the page, an HTTP error or a URL error.
- `Matcher` gives the named captures of one line.
- `Formatter` fills in a template.
- `IconLoader` and `SoundLoader` give a handle for a band name.

## Model

| member | source | states |
|---|---|---|
| Text.StripLeft | systray-wifi-qt4.py:145-147 | the result is a suffix of the input, everything dropped is whitespace, and it does not start with whitespace |
| Text.StripRight | systray-wifi-qt4.py:145-147 | the result is a prefix of the input, everything dropped is whitespace, and it does not end with whitespace |
| Text.Strip | systray-wifi-qt4.py:145-147 | `strip()` leaves no whitespace at either end |
| Text.StripBothEnds | systray-wifi-qt4.py:145-147 | `strip()` is stripping the leading whitespace and then the trailing whitespace |
| Text.StripKeepsOut | systray-wifi-qt4.py:146-147 | stripping never introduces a character, so a name split off at `:` holds no `:` |
| Text.StripTrimmed | systray-wifi-qt4.py:147 | stripping a string without outer whitespace changes nothing |
| Text.StripLeadingSpace | systray-wifi-qt4.py:146 | a blank before a piece does not change what `strip()` gives |
| Text.Split | systray-wifi-qt4.py:145-146 | `split(c)` gives at least one piece, and no piece contains `c` |
| Text.JoinSplit | systray-wifi-qt4.py:145 | joining the pieces of `split(c)` with `c` gives the string back |
| Text.SplitAfterPrefix | systray-wifi-qt4.py:145 | text without the separator joins the first piece of what follows it |
| Text.SplitJoin | systray-wifi-qt4.py:145 | `split(c)` undoes `join` when no piece contains `c` |
| Text.Digit | systray-wifi-qt4.py:150 | a digit character has the value it stands for |
| Text.FormatNat | systray-wifi-qt4.py:150 | `str(n)` of a natural number is a nonempty string of digits |
| Text.FormatInt | systray-wifi-qt4.py:150 | `str(n)` is nonempty, has no outer whitespace, and is made of digits and `-` |
| Text.FormatNatValue | systray-wifi-qt4.py:150 | the digits of `str(n)` have the value `n` |
| Text.ParseFormatNat | systray-wifi-qt4.py:150 | `int(str(n)) == n` for natural `n` |
| Text.ParseFormatNegative | systray-wifi-qt4.py:150 | `int(str(n)) == n` for negative `n` |
| Text.ParseFormatInt | systray-wifi-qt4.py:150 | the sign-and-digits reading of `str(n)` is `n` |
| Text.FormatIntParses | systray-wifi-qt4.py:150 | `int(str(n)) == n`, surrounding whitespace allowed |
| PyValues.IntOfFormatted | systray-wifi-qt4.py:207-209 | a dict value `str(n)` is truthy and converts back to `n` |
| Bands.ParsePiece | systray-wifi-qt4.py:146-157 | the stripped piece must split at `:` into exactly two halves, or the unpacking ValueError is raised. The stripped level must be an `int()` literal, or the int ValueError is raised. Otherwise the entry has that level, the stripped name (trimmed, without `:`), and the icon and sound loaded for that name |
| Bands.Collect | systray-wifi-qt4.py:145-158 | a run of calls succeeds iff every call does, keeping order; otherwise it raises the error of the first call that fails |
| Bands.ParsePieces | systray-wifi-qt4.py:145-158 | the meaning of `ParsePieces`, and so of `ParseTable`, which applies it to the pieces of the stripped specification: the table has one entry per piece, in written order, iff every piece parses; otherwise it is the error of the first piece that fails |
| Bands.ParsePiecesFirstError | systray-wifi-qt4.py:145-158 | the first piece that fails decides the exception |
| Bands.ParsePiecesAll | systray-wifi-qt4.py:145-158 | when every piece parses, the table is exactly those entries in order |
| Bands.EmptySpecFails | systray-wifi-qt4.py:145-146 | an empty specification raises the unpacking ValueError of one part |
| Bands.RenderPieces | systray-wifi-qt4.py:145 | a table renders to one piece per entry |
| Bands.RenderEntryShape | systray-wifi-qt4.py:146-147 | a rendered entry is nonempty, trimmed and comma-free |
| Bands.SplitRenderedEntry | systray-wifi-qt4.py:146 | a rendered entry splits at `:` into its level and its name |
| Bands.ParseRenderedEntry | systray-wifi-qt4.py:145-157 | a rendered entry parses back to the same entry |
| Bands.ParseLeadingBlank | systray-wifi-qt4.py:146 | the blank after a comma does not change how a piece parses |
| Bands.ParseRenderedPiece | systray-wifi-qt4.py:145-157 | a rendered piece, with or without the blank, parses back to its entry |
| Bands.JoinLast | systray-wifi-qt4.py:145 | a join ends with the end of its last piece |
| Bands.RenderTableTrimmed | systray-wifi-qt4.py:145 | a rendered table has no outer whitespace |
| Bands.ParsedPrefixExtend | systray-wifi-qt4.py:158 | appending the entry of the next piece keeps the table a parse of the leading pieces |
| Bands.ParseRenderedTable | systray-wifi-qt4.py:142-160 | parsing a rendered table gives the same table back: order, levels, names and handles all survive |
| Bands.DefaultPiecesJoin | systray-wifi-qt4.py:69 | the default specification is its five pieces joined by commas |
| Bands.DefaultPieceRenders | systray-wifi-qt4.py:69 | each default entry renders as its piece of the default specification |
| Bands.DefaultTableRenders | systray-wifi-qt4.py:69 | the default table renders as the pieces of the default specification |
| Bands.DefaultTableRenderable | systray-wifi-qt4.py:69 | the default names are trimmed and hold no separators |
| Bands.DefaultSpecParses | systray-wifi-qt4.py:69 | `'-2:error, -1:nocon, 0:low, 16:medium, 35:high'` parses to five entries in the order written, with levels -2, -1, 0, 16, 35 and trimmed names |
| Bands.LeadingAtMost | systray-wifi-qt4.py:165-167 | the scan passes exactly the leading entries at most the level, and stops at the first entry above it |
| Bands.ScanStopsAt | systray-wifi-qt4.py:165-167 | a scan that breaks at the first greater entry has passed `LeadingAtMost` entries |
| Bands.EntryForLevel | systray-wifi-qt4.py:162-169 | the result is None iff the table is empty or the level is below the first entry; otherwise it is the last entry before the first greater one |
| Bands.AboveScanAreGreater | systray-wifi-qt4.py:165-167 | on an ascending table, every entry after the scan is above the level |
| Bands.ClassifySorted | systray-wifi-qt4.py:162-169 | on an ascending table, the result is the entry with the greatest threshold at most the level, or None when all thresholds are above it |
| Bands.ClassifyMonotone | systray-wifi-qt4.py:162-169 | on an ascending table, a higher level never lands in a band with a lower threshold |
| Bands.ClassifyFollowsWrittenOrder | systray-wifi-qt4.py:158 | the table is not sorted, so a table written high-before-low classifies differently from the same table written low-before-high |
| Bands.DefaultNamesDistinct | systray-wifi-qt4.py:69 | the five default bands have distinct names |
| Bands.DefaultTableClassifies | systray-wifi-qt4.py:162-169 | the default table gives None below -2, then error, nocon, low, medium and high from -2, -1, 0, 16 and 35 on |
| Bands.FirstNamed | systray-wifi-qt4.py:173 | the index of the first entry with the name, with no earlier entry of that name; None iff no entry has it |
| Bands.IconForSignalIsFirstNamed | systray-wifi-qt4.py:171-173 | the meaning of `IconForSignal`: the comprehension's first element is the icon of the first entry with the name; IndexError when none has it or the name is not a string |
| Metrics.CalculateMeaning | systray-wifi-qt4.py:205-210 | the meaning of `Calculate`: without a truthy `Q10` the dict is unchanged. Otherwise it fails iff one of the three conversions fails, with the first failure. On success it adds exactly `Q` (with `10*Q <= Q10 < 10*Q+10`) and `SN` (with `SN + noise == signal`), and every other key is unchanged |
| Metrics.AfterCallculate | systray-wifi-qt4.py:205-210 | after a success the dict is the result. Without a truthy `Q10`, or when `Q10` does not convert, nothing is written. When `signal` or `noise` fails, exactly `Q` has been added (`10*Q <= Q10 < 10*Q+10`) and every other key, a stale `SN` included, is unchanged |
| Metrics.CalculateAgain | systray-wifi-qt4.py:205-210 | calling again on the dict as updated gives the same outcome as the first call |
| Metrics.AgainAfterSuccess | systray-wifi-qt4.py:205-210 | after a successful call the updated dict converts the same way again and comes back unchanged |
| Metrics.AgainAfterFailure | systray-wifi-qt4.py:205-210 | after a call that wrote `Q` and then failed on `signal` or `noise`, a second call fails with the same exception |
| Metrics.CalculateIdempotent | systray-wifi-qt4.py:205-210 | a successful result is a fixed point |
| Metrics.CalculateConverted | systray-wifi-qt4.py:207-209 | with the three conversions succeeding, the result is the dict plus `Q = Q10 // 10` and `SN = signal - noise` |
| Metrics.CalculateOnDecimals | systray-wifi-qt4.py:207-209 | decimal strings for `Q10`, `signal` and `noise` give `Q = Q10 // 10` and `SN = signal - noise` |
| Probe.FirstMatchMeaning | systray-wifi-qt4.py:191-194 | the meaning of `FirstMatch`: None iff no line matches; otherwise the captures of the first matching line |
| Probe.FirstMatchFound | systray-wifi-qt4.py:191-194 | the captures of whichever line is the first to match are the result |
| Probe.FirstMatchIgnoresLater | systray-wifi-qt4.py:193-194 | once a line has matched, later lines are never looked at |
| Probe.NoConnection | systray-wifi-qt4.py:195-198 | exactly `{signal: 'nocon', desc: no_wifi}`, or KeyError(`no_wifi`) when `no_wifi` is missing |
| Probe.UrlErrorArgs | systray-wifi-qt4.py:202 | the template arguments are `errno` and `strerror`, each the reason's attribute or None when unset; a reason that is a plain message raises AttributeError |
| Probe.ShapeOutcome | systray-wifi-qt4.py:189-203 | an empty page gives the no-connection dict. A nonempty page raises the KeyError or TypeError of a missing or non-string `regex`. Otherwise it gives the captures of whichever line is the first to match, and exactly the no-connection dict when none matches. An HTTP error (handled first) gives the `http_error` text or its lookup error. A URL error looks `url_error` up (KeyError), then reads the reason's attributes (AttributeError), then applies `%` (TypeError for a non-string template), and otherwise gives the filled template |
| Probe.ShapeProbe | systray-wifi-qt4.py:182-203 | KeyError for a missing `url` or `timeout`; otherwise the shaped outcome of fetching with them |
| Resolver.Level | systray-wifi-qt4.py:221 | the level is `res[device[key]]` when that is an int. A missing config key or result key raises KeyError of that key. A value that is not an int raises TypeError |
| Resolver.Resolve | systray-wifi-qt4.py:212-229 | `ByLevel` and `ByName` unfolded into one exhaustive case split: with a truthy `Q10`: the error of `callculate`, then of the `tooltip` template, then of the level lookup, in that order; otherwise the classifier's band with the filled `tooltip` template, or TypeError when the table is empty or the level is below its first entry (in written order). Without one: KeyError when `signal` is missing, IndexError when no band has that name, otherwise the first band so named with the filled `tooltip_error` template, or that template's lookup error |
| Resolver.ResolveAscending | systray-wifi-qt4.py:217-223 | on an ascending table, the band shown is the one with the greatest threshold at most the level |
| Resolver.StringKeyRaises | systray-wifi-qt4.py:221 | classifying by a key whose value is a captured string (`Q10`, `SNR`) raises TypeError |
| Resolver.ResolveAfterCallculate | systray-wifi-qt4.py:214-222 | a replayed entry updated in place by an earlier call resolves as it did the first time |
| Resolver.NoConnectionResolves | systray-wifi-qt4.py:224-227 | the no-connection dict shows the first `nocon` band with the `no_wifi` message |
| Resolver.FetchFailureResolves | systray-wifi-qt4.py:224-227 | an HTTP or URL error shows the first `error` band |
| Resolver.DecimalEntryResolves | systray-wifi-qt4.py:217-223 | on the default table, classified by `Q`, a decimal `Q10` of at least -20 shows the default band of `Q10 // 10` |
| Resolver.ReadingShowsBand | systray-wifi-qt4.py:217-223 | a reading with `Q10` of at least -20 on the default table shows the band its `Q` falls in |
| Resolver.ReportShowsBand | systray-wifi-qt4.py:224-227 | a report naming a default band shows that band |
| Replay.Next | systray-wifi-qt4.py:248 | the cursor stays below `len(data)`, moves one on, and wraps from the last row to 0 |
| Replay.After | systray-wifi-qt4.py:248 | after any number of calls the cursor still points at a row |
| Replay.AfterNoWrap | systray-wifi-qt4.py:248 | before wrapping, `k` calls move the cursor `k` rows on |
| Replay.AfterAfter | systray-wifi-qt4.py:248 | `j` calls and then `k` calls are `j + k` calls |
| Replay.FullCycle | systray-wifi-qt4.py:246-248 | `len(data)` calls bring the cursor back to where it started |
| Replay.Periodic | systray-wifi-qt4.py:246-248 | the replay has period `len(data)` |
| Replay.ServedInOrder | systray-wifi-qt4.py:241-248 | from a fresh start, the first `len(data)` calls serve the rows in order |
| Settings.Store.constructor | systray-wifi-qt4.py:296 | a store opened on a file holds its values |
| Settings.Store.SetValue | systray-wifi-qt4.py:271 | `setValue` sets one key, and only in memory |
| Settings.Store.Sync | systray-wifi-qt4.py:272 | `sync` writes out exactly the values held |
| Settings.NonDefaultOnAdd | systray-wifi-qt4.py:267-271 | taking one more default key into account writes its device value over what was written before exactly when it differs from the default |
| Settings.NonDefaultOn | systray-wifi-qt4.py:267-271 | the meaning of `NonDefault` (which is `NonDefaultOn` over every default key): a key of the defaults is written iff the device's value (None when missing) differs from the default, and the device's value is what is written |
| Settings.ReadBack | systray-wifi-qt4.py:258-261 | `settings.value(key, default)`: a stored key reads as its stored value, a key the store lacks as its default |
| Settings.SaveThenRead | systray-wifi-qt4.py:265-272 | reading every default key back after saving gives the device's values, when the store held no non-default value for a default key |
| Settings.SaveKeepsStale | systray-wifi-qt4.py:265-272 | a key whose device value equals its default is not written, so a different value already in the store survives the save and reads back instead of the device's |
| Settings.DefaultsWriteNothing | systray-wifi-qt4.py:267-269 | a device equal to the defaults writes nothing |
| TrayQt4.SystemTrayIcon.constructor | systray-wifi-qt4.py:98-112 | a new tray icon shows the initial icon, with no table, no config and no diagnostic data |
| TrayQt4.SystemTrayIcon.CfgSignalTable | systray-wifi-qt4.py:142-160 | when the specification parses, the table is its entries in written order. Otherwise the method raises the error of the first bad piece, and the table holds the entries of the pieces before it |
| TrayQt4.SystemTrayIcon.CfgDevice | systray-wifi-qt4.py:142-180 | keeps the config. A missing `signal_icon` raises KeyError and leaves the table alone. A value that is not a string raises AttributeError after the table has been emptied. Otherwise the table is the parsed specification, or, on the first piece that fails, the entries of the pieces before it and that piece's error |
| TrayQt4.SystemTrayIcon.GetEntryForLevel | systray-wifi-qt4.py:162-169 | the loop with its `break` returns the classifier's entry; a level that is not an int raises TypeError |
| TrayQt4.SystemTrayIcon.GetIconForSignal | systray-wifi-qt4.py:171-173 | succeeds iff an entry has the name, giving the icon of the first such entry; otherwise raises IndexError |
| TrayQt4.SystemTrayIcon.CheckDevice | systray-wifi-qt4.py:182-203 | the line loop with its early return, and the two error handlers in the order Python evaluates them, give the shaped probe result |
| TrayQt4.SystemTrayIcon.Callculate | systray-wifi-qt4.py:205-210 | the two writes into the dict give the outcome of `Calculate` and leave the dict as `AfterCallculate` describes |
| TrayQt4.SystemTrayIcon.TestData | systray-wifi-qt4.py:239-250 | rows load with the cursor at 0. Otherwise the call serves the row under the cursor and moves the cursor on round-robin. AttributeError when no rows were ever loaded. The cursor always points at a row |
| TrayQt4.SystemTrayIcon.Update | systray-wifi-qt4.py:212-232 | takes the next replayed row (updated in place) or probes the device, and resolves it by `signal_key`. It shows the band's icon and the tooltip, or raises and leaves both as they were |
| TrayQt4.SystemTrayIcon.SaveConfig | systray-wifi-qt4.py:265-272 | the store gains exactly the non-default values of the device, and is synced |
| TrayQt4.DiagnosticReadingHits | systray-wifi-qt4.py:309-319 | with the default table and key `Q`, `Q10` 0 and 150 show `low`, 160 and 340 show `medium`, and 350, 360 and 1000 show `high` |
| TrayQt4.DiagnosticReportsHit | systray-wifi-qt4.py:310-311 | the timeout and no-connection reports show the `error` and `nocon` icons |
| TrayQt5.SystemTrayIcon.constructor | systray-wifi-qt5.py:45-62 | a new tray icon shows the initial icon, with no table, no config and no diagnostic data |
| TrayQt5.SystemTrayIcon.CfgSignalTable | systray-wifi-qt5.py:88-106 | when the specification parses, the table is its entries in written order. Otherwise the method raises the error of the first bad piece, and the table holds the entries of the pieces before it |
| TrayQt5.SystemTrayIcon.CfgDevice | systray-wifi-qt5.py:121-123 | keeps the config and nothing else |
| TrayQt5.SystemTrayIcon.GetEntryForLevel | systray-wifi-qt5.py:108-115 | the loop with its `break` returns the classifier's entry; a level that is not an int raises TypeError |
| TrayQt5.SystemTrayIcon.GetIconForSignal | systray-wifi-qt5.py:117-119 | succeeds iff an entry has the name, giving the icon of the first such entry; otherwise raises IndexError |
| TrayQt5.SystemTrayIcon.CheckDevice | systray-wifi-qt5.py:125-146 | the loop over the decoded lines, with its early return, and the two error handlers in the order Python evaluates them, give the shaped probe result |
| TrayQt5.SystemTrayIcon.Callculate | systray-wifi-qt5.py:148-153 | the two writes into the dict give the outcome of `Calculate` and leave the dict as `AfterCallculate` describes |
| TrayQt5.SystemTrayIcon.TestData | systray-wifi-qt5.py:181-192 | rows load with the cursor at 0. Otherwise the call serves the row under the cursor and moves the cursor on round-robin. AttributeError when no rows were ever loaded |
| TrayQt5.SystemTrayIcon.Update | systray-wifi-qt5.py:155-175 | takes the next replayed row (updated in place) or probes the device, and resolves it by `tab_key`. It shows the band's icon and the tooltip, or raises and leaves both as they were |
| TrayQt5.DiagnosticReadingHits | systray-wifi-qt5.py:245-254 | with the default table and key `Q`, `Q10` 0 and 150 show `low`, 160 shows `medium`, and 350, 360 and 1000 show `high` |
| TrayQt5.DiagnosticReportsHit | systray-wifi-qt5.py:246-247 | the timeout and no-connection reports show the `error` and `nocon` icons |

## Left out

- The Qt shell is not part of this model: `__init__`'s menu and timer, `exit`, `autoupdate`, `play_sound` and `main`. `setIcon` and `setToolTip` are modelled only as the two fields they set.
- `_load_icon` and `_load_sound` probe the filesystem, so they are the `IconLoader` and `SoundLoader` parameters. The joining of `app_dir` with `dir_icon` and `dir_sound` in the Qt4 `cfg_device` is not modelled, and neither are the errors that joining could raise.
- `urlopen` is the `Fetcher` parameter. The network, the timeout value's meaning, `socket.timeout` and other exceptions besides HTTPError and URLError are not modelled.
- TrayQt5.SystemTrayIcon.CheckDevice: the lines are taken as already decoded. The UnicodeDecodeError that `line.decode('utf-8')` can raise is not modelled.
- The `re` engine and the dd-wrt pattern are the `Matcher` parameter. A malformed pattern's `re.error` is not modelled.
- `%`-formatting is the `Formatter` parameter. The model covers which template is used, the TypeError of a template that is not a string, and which dict fills it. It does not model formatting errors such as a missing key or `%d` of a string.
- `read_config` (systray-wifi-qt4.py:252-263) depends on QSettings' `toString`/`toInt` conversions, and is not part of this model.
- Debug output (`dbg_print`, the `DBG` prints) is not modelled. Its one observable effect is kept: `%d` of a level that is not an int raises TypeError.
- Text.IsSpace: `strip()` is modelled with Python 2's ASCII whitespace set (space, TAB, LF, VT, FF, CR). The Qt5 script runs under Python 3, whose `str.strip()` also removes `\x1c`-`\x1f`, `\x85`, `\xa0` and the other Unicode whitespace; a Qt5 band name, level or table specification carrying such characters is stripped by the script and not by the model.
- `int()` accepts what Python 2 and Python 3 both accept on ASCII text: surrounding ASCII whitespace, an optional sign directly followed by ASCII digits. Python 3's Unicode whitespace and digits and its `_` separators are not modelled. Neither is Python 2's tolerance of whitespace between the sign and the digits (`int("- 5") == -5` under Python 2), so for the Qt4 script such a table level, `Q10`, `signal` or `noise` is modelled as a ValueError.
- The table, the config and the dicts start empty in the constructors. Calling `update` before `cfg_device` would raise AttributeError in the scripts, because the attributes do not exist yet; the model does not distinguish that state.
- `setIcon(None)` for a band without an icon file is modelled as showing `None`. What Qt then draws is not modelled.
- Three behaviours of the scripts are modelled as the code has them, with no attempt to correct them:
  - The table is used in the order written and never sorted (see `Bands.ClassifyFollowsWrittenOrder`).
  - Without a truthy `Q10`, `callculate` returns the dict unchanged. Once `Q10` is truthy, it raises when `int()` rejects `Q10`, or when `signal` or `noise` is missing or malformed; it does not skip the field.
  - A classification key whose value is a captured string (`Q10`, `SNR`) raises TypeError (see `Resolver.StringKeyRaises`).
