/** The band table: its textual configuration `'level:name, level:name, ...'`,
    the entries built from it, the classification of a numeric level and the
    lookup of an entry by name. */
module Bands {

  import opened Wrappers
  import opened Text
  import opened PyValues

  /** Opaque presentation handles, named after the resource file they load. */
  datatype Icon = Icon(path: string)
  datatype Sound = Sound(path: string)

  /** `_load_icon(dir, name)` and `_load_sound(dir, name)` with the resource
      directory fixed: a handle when a resource file for `name` exists. */
  type IconLoader = string -> Option<Icon>
  type SoundLoader = string -> Option<Sound>

  /** One row of the table: the dict {'level', 'signal', 'icon', 'sound'}. */
  datatype Entry = Entry(level: int, name: string, icon: Option<Icon>, sound: Option<Sound>)

  // ---------------------------------------------------------------------
  // Parsing the table specification
  // ---------------------------------------------------------------------

  predicate NoColon(s: string) {
    ':' !in s
  }

  /** One comma-separated piece `level:name`: both halves trimmed, the level
      converted with `int()`, the handles loaded by name. */
  function ParsePiece(piece: string, loadIcon: IconLoader, loadSound: SoundLoader): (r: Result<Entry, Error>)
    // the stripped piece must unpack into exactly two halves at ':'
    ensures var parts := Split(Strip(piece), ':');
            |parts| != 2 ==> r == Err(UnpackValueError(|parts|))
    // the stripped level must be an int() literal
    ensures var parts := Split(Strip(piece), ':');
            |parts| == 2 && PyInt(Strip(parts[0])).None? ==> r == Err(IntValueError(Strip(parts[0])))
    // and then the entry has that level and the stripped name
    ensures var parts := Split(Strip(piece), ':');
            |parts| == 2 && PyInt(Strip(parts[0])).Some? ==>
              r.Ok? && r.value.level == PyInt(Strip(parts[0])).value && r.value.name == Strip(parts[1])
    ensures r.Ok? ==> Trimmed(r.value.name) && NoColon(r.value.name)
    ensures r.Ok? ==> r.value.icon == loadIcon(r.value.name) && r.value.sound == loadSound(r.value.name)
  {
    var parts := Split(Strip(piece), ':');
    if |parts| != 2 then Err(UnpackValueError(|parts|))
    else
      var level := Strip(parts[0]);
      var txt := Strip(parts[1]);
      assert ':' !in parts[1];
      StripKeepsOut(parts[1], ':');
      match PyInt(level)
      case None => Err(IntValueError(level))
      case Some(n) => Ok(Entry(n, txt, loadIcon(txt), loadSound(txt)))
  }

  /** The values of a run of Python calls made one after another, or the
      exception of the first call that raises. */
  function Collect<T>(rs: seq<Result<T, Error>>): (r: Result<seq<T>, Error>)
    ensures r.Ok? <==> forall i :: 0 <= i < |rs| ==> rs[i].Ok?
    ensures r.Ok? ==> |r.value| == |rs| && forall i :: 0 <= i < |rs| ==> r.value[i] == rs[i].value
    ensures r.Err? ==> exists i :: 0 <= i < |rs| && rs[i] == Err(r.error) && forall j :: 0 <= j < i ==> rs[j].Ok?
  {
    if rs == [] then Ok([])
    else
      var init := rs[..|rs| - 1];
      assert forall i :: 0 <= i < |init| ==> init[i] == rs[i];
      var done :- Collect(init);
      var last :- rs[|rs| - 1];
      Ok(done + [last])
  }

  /** The entries of the pieces, in the order written, or the error of the
      first piece that does not parse. */
  function ParsePieces(ps: seq<string>, loadIcon: IconLoader, loadSound: SoundLoader): (r: Result<seq<Entry>, Error>)
    ensures r.Ok? <==> forall i :: 0 <= i < |ps| ==> ParsePiece(ps[i], loadIcon, loadSound).Ok?
    ensures r.Ok? ==> |r.value| == |ps|
    ensures r.Ok? ==> forall i :: 0 <= i < |ps| ==> r.value[i] == ParsePiece(ps[i], loadIcon, loadSound).value
    ensures r.Err? ==> exists i :: 0 <= i < |ps| && ParsePiece(ps[i], loadIcon, loadSound) == Err(r.error)
                                   && forall j :: 0 <= j < i ==> ParsePiece(ps[j], loadIcon, loadSound).Ok?
  {
    var rs := seq(|ps|, i requires 0 <= i < |ps| => ParsePiece(ps[i], loadIcon, loadSound));
    assert forall i :: 0 <= i < |ps| ==> rs[i] == ParsePiece(ps[i], loadIcon, loadSound);
    Collect(rs)
  }

  /** The first piece that does not parse decides the exception. */
  lemma ParsePiecesFirstError(ps: seq<string>, i: nat, loadIcon: IconLoader, loadSound: SoundLoader)
    requires i < |ps| && ParsePiece(ps[i], loadIcon, loadSound).Err?
    requires forall j :: 0 <= j < i ==> ParsePiece(ps[j], loadIcon, loadSound).Ok?
    ensures ParsePieces(ps, loadIcon, loadSound) == Err(ParsePiece(ps[i], loadIcon, loadSound).error)
  {
    var r := ParsePieces(ps, loadIcon, loadSound);
    var k :| 0 <= k < |ps| && ParsePiece(ps[k], loadIcon, loadSound) == Err(r.error)
             && forall j :: 0 <= j < k ==> ParsePiece(ps[j], loadIcon, loadSound).Ok?;
    assert k == i;
  }

  /** The pieces of a table specification: `levelstr.strip().split(',')`. */
  function Pieces(levelstr: string): seq<string> {
    Split(Strip(levelstr), ',')
  }

  /** The table `cfg_signal_table` builds from `levelstr`, or the exception it raises. */
  function ParseTable(levelstr: string, loadIcon: IconLoader, loadSound: SoundLoader): Result<seq<Entry>, Error> {
    ParsePieces(Pieces(levelstr), loadIcon, loadSound)
  }

  /** An empty specification is one piece `''`, which does not unpack into two halves. */
  lemma EmptySpecFails(loadIcon: IconLoader, loadSound: SoundLoader)
    ensures ParseTable("", loadIcon, loadSound) == Err(UnpackValueError(1))
  {
    assert Strip("") == "";
    assert Pieces("") == [""];
    assert ParsePiece("", loadIcon, loadSound) == Err(UnpackValueError(1));
  }

  // ---------------------------------------------------------------------
  // Writing a table back as a specification
  // ---------------------------------------------------------------------

  function RenderEntry(e: Entry): string {
    FormatInt(e.level) + ":" + e.name
  }

  /** The pieces of `', '.join(...)` split at the commas: every piece after
      the first starts with the blank that followed a comma. */
  function RenderPieces(t: seq<Entry>): (ps: seq<string>)
    ensures |ps| == |t|
  {
    seq(|t|, i requires 0 <= i < |t| => if i == 0 then RenderEntry(t[0]) else " " + RenderEntry(t[i]))
  }

  function RenderTable(t: seq<Entry>): string
    requires |t| >= 1
  {
    Join(RenderPieces(t), ',')
  }

  /** Entries that a specification can describe: names without separators
      or surrounding blanks, and the handles the loaders give for them. */
  predicate Renderable(t: seq<Entry>, loadIcon: IconLoader, loadSound: SoundLoader) {
    forall i :: 0 <= i < |t| ==>
      && Trimmed(t[i].name) && ':' !in t[i].name && ',' !in t[i].name
      && t[i].icon == loadIcon(t[i].name) && t[i].sound == loadSound(t[i].name)
  }

  lemma RenderEntryShape(e: Entry)
    requires Trimmed(e.name) && ',' !in e.name
    ensures Trimmed(RenderEntry(e)) && |RenderEntry(e)| >= 1 && ',' !in RenderEntry(e)
  {
    var f := FormatInt(e.level);
    var s := RenderEntry(e);
    assert s[0] == f[0];
    assert e.name != [] ==> s[|s| - 1] == e.name[|e.name| - 1];
    assert ',' !in f by {
      forall i | 0 <= i < |f| ensures f[i] != ',' {
      }
    }
  }

  lemma SplitRenderedEntry(e: Entry)
    requires ':' !in e.name
    ensures Split(RenderEntry(e), ':') == [FormatInt(e.level), e.name]
  {
    var f := FormatInt(e.level);
    assert ':' !in f by {
      forall i | 0 <= i < |f| ensures f[i] != ':' {
      }
    }
    assert Join([f, e.name], ':') == RenderEntry(e);
    SplitJoin([f, e.name], ':');
  }

  /** A rendered entry, without surrounding blanks, parses back to itself. */
  lemma ParseRenderedEntry(e: Entry, loadIcon: IconLoader, loadSound: SoundLoader)
    requires Trimmed(e.name) && ':' !in e.name && ',' !in e.name
    requires e.icon == loadIcon(e.name) && e.sound == loadSound(e.name)
    ensures ParsePiece(RenderEntry(e), loadIcon, loadSound) == Ok(e)
  {
    var f := FormatInt(e.level);
    var s := RenderEntry(e);
    RenderEntryShape(e);
    StripTrimmed(s);
    SplitRenderedEntry(e);
    var parts := Split(Strip(s), ':');
    assert parts == [f, e.name];
    StripTrimmed(f);
    StripTrimmed(e.name);
    FormatIntParses(e.level);
    assert PyInt(Strip(parts[0])) == Some(e.level);
  }

  /** A piece is parsed after stripping, so the blank after a comma is ignored. */
  lemma ParseLeadingBlank(s: string, loadIcon: IconLoader, loadSound: SoundLoader)
    ensures ParsePiece(" " + s, loadIcon, loadSound) == ParsePiece(s, loadIcon, loadSound)
  {
    assert " " + s == [' '] + s;
    StripLeadingSpace(s);
  }

  lemma ParseRenderedPiece(e: Entry, piece: string, loadIcon: IconLoader, loadSound: SoundLoader)
    requires Trimmed(e.name) && ':' !in e.name && ',' !in e.name
    requires e.icon == loadIcon(e.name) && e.sound == loadSound(e.name)
    requires piece == RenderEntry(e) || piece == " " + RenderEntry(e)
    ensures ParsePiece(piece, loadIcon, loadSound) == Ok(e)
  {
    ParseRenderedEntry(e, loadIcon, loadSound);
    ParseLeadingBlank(RenderEntry(e), loadIcon, loadSound);
  }

  lemma {:induction false} JoinLast(ps: seq<string>, c: char)
    requires |ps| >= 1 && ps[|ps| - 1] != []
    ensures Join(ps, c) != [] && Last(Join(ps, c)) == Last(ps[|ps| - 1])
  {
    if |ps| > 1 {
      var rest := ps[1..];
      assert rest[|rest| - 1] == ps[|ps| - 1];
      JoinLast(rest, c);
      var j := Join(ps, c);
      assert j == (ps[0] + [c]) + Join(rest, c);
    }
  }

  lemma RenderTableTrimmed(t: seq<Entry>)
    requires |t| >= 1
    requires forall i :: 0 <= i < |t| ==> Trimmed(t[i].name) && ',' !in t[i].name
    ensures Trimmed(RenderTable(t))
  {
    var ps := RenderPieces(t);
    var n := |t| - 1;
    var first, last := RenderEntry(t[0]), RenderEntry(t[n]);
    RenderEntryShape(t[0]);
    RenderEntryShape(t[n]);
    assert ps[0] == first;
    assert ps[n] != [] && Last(ps[n]) == Last(last);
    JoinLast(ps, ',');
    var r := Join(ps, ',');
    assert r[0] == first[0];
  }

  lemma ParsePiecesAll(ps: seq<string>, t: seq<Entry>, loadIcon: IconLoader, loadSound: SoundLoader)
    requires |ps| == |t|
    requires forall i :: 0 <= i < |ps| ==> ParsePiece(ps[i], loadIcon, loadSound) == Ok(t[i])
    ensures ParsePieces(ps, loadIcon, loadSound) == Ok(t)
  {
    var r := ParsePieces(ps, loadIcon, loadSound);
    assert r.Ok?;
    assert r.value == t;
  }

  /** The first `|signal|` pieces parse, into `signal`. */
  predicate ParsedPrefix(ps: seq<string>, signal: seq<Entry>, loadIcon: IconLoader, loadSound: SoundLoader) {
    |signal| <= |ps| && forall j :: 0 <= j < |signal| ==> ParsePiece(ps[j], loadIcon, loadSound) == Ok(signal[j])
  }

  /** One more piece that parses extends the parsed prefix by its entry. */
  lemma ParsedPrefixExtend(ps: seq<string>, signal: seq<Entry>, loadIcon: IconLoader, loadSound: SoundLoader)
    requires ParsedPrefix(ps, signal, loadIcon, loadSound) && |signal| < |ps|
    requires ParsePiece(ps[|signal|], loadIcon, loadSound).Ok?
    ensures ParsedPrefix(ps, signal + [ParsePiece(ps[|signal|], loadIcon, loadSound).value], loadIcon, loadSound)
  {
    var longer := signal + [ParsePiece(ps[|signal|], loadIcon, loadSound).value];
    forall j | 0 <= j < |longer|
      ensures ParsePiece(ps[j], loadIcon, loadSound) == Ok(longer[j])
    {
      if j < |signal| {
        assert longer[j] == signal[j];
      }
    }
  }

  /** Parsing a rendered table gives the table back: order, levels, names
      and handles survive the round trip. */
  lemma ParseRenderedTable(t: seq<Entry>, loadIcon: IconLoader, loadSound: SoundLoader)
    requires |t| >= 1 && Renderable(t, loadIcon, loadSound)
    ensures ParseTable(RenderTable(t), loadIcon, loadSound) == Ok(t)
  {
    var ps := RenderPieces(t);
    forall i | 0 <= i < |t|
      ensures ',' !in ps[i]
      ensures ParsePiece(ps[i], loadIcon, loadSound) == Ok(t[i])
    {
      RenderEntryShape(t[i]);
      ParseRenderedPiece(t[i], ps[i], loadIcon, loadSound);
    }
    RenderTableTrimmed(t);
    StripTrimmed(RenderTable(t));
    SplitJoin(ps, ',');
    assert Pieces(RenderTable(t)) == ps;
    ParsePiecesAll(ps, t, loadIcon, loadSound);
  }

  /** The table both scripts configure, `"-2:error, -1:nocon, 0:low, 16:medium, 35:high"`,
      written here piece by piece so that its pieces can be read off. */
  const DefaultSpec: string := "-2:error," + (" -1:nocon," + (" 0:low," + (" 16:medium," + " 35:high")))

  /** The entry `cfg_signal_table` builds for a piece naming `level` and `name`. */
  function Band(level: int, name: string, loadIcon: IconLoader, loadSound: SoundLoader): Entry {
    Entry(level, name, loadIcon(name), loadSound(name))
  }

  function DefaultTable(loadIcon: IconLoader, loadSound: SoundLoader): seq<Entry> {
    [ Band(-2, "error", loadIcon, loadSound), Band(-1, "nocon", loadIcon, loadSound),
      Band(0, "low", loadIcon, loadSound), Band(16, "medium", loadIcon, loadSound),
      Band(35, "high", loadIcon, loadSound) ]
  }

  /** The pieces of the default specification, each with the blank after its comma. */
  const DefaultPieces: seq<string> := ["-2:error", " -1:nocon", " 0:low", " 16:medium", " 35:high"]

  lemma DefaultPiecesJoin()
    ensures Join(DefaultPieces, ',') == DefaultSpec
  {
    var ps := DefaultPieces;
    assert Join(ps[3..], ',') == " 16:medium," + " 35:high" by {
      assert " 16:medium" + [','] == " 16:medium,";
    }
    assert Join(ps[2..], ',') == " 0:low," + Join(ps[3..], ',') by {
      assert " 0:low" + [','] == " 0:low,";
    }
    assert Join(ps[1..], ',') == " -1:nocon," + Join(ps[2..], ',') by {
      assert " -1:nocon" + [','] == " -1:nocon,";
    }
    assert Join(ps, ',') == "-2:error," + Join(ps[1..], ',') by {
      assert "-2:error" + [','] == "-2:error,";
    }
  }

  /** Proof helper for the default-table lemmas: how an entry renders,
      once its level has been formatted. */
  lemma RenderedPieceIs(t: seq<Entry>, i: nat, f: string, expected: string)
    requires i < |t| && FormatInt(t[i].level) == f
    requires expected == if i == 0 then f + ":" + t[i].name else " " + (f + ":" + t[i].name)
    ensures RenderPieces(t)[i] == expected
  {
  }

  lemma DefaultPieceRenders(loadIcon: IconLoader, loadSound: SoundLoader, i: nat)
    requires i < |DefaultPieces|
    ensures RenderPieces(DefaultTable(loadIcon, loadSound))[i] == DefaultPieces[i]
  {
    if i < 2 {
      StatusPieceRenders(loadIcon, loadSound, i);
    } else {
      BandPieceRenders(loadIcon, loadSound, i);
    }
  }

  /** `DefaultPieceRenders` for the `error` and `nocon` entries. */
  lemma StatusPieceRenders(loadIcon: IconLoader, loadSound: SoundLoader, i: nat)
    requires i < 2
    ensures RenderPieces(DefaultTable(loadIcon, loadSound))[i] == DefaultPieces[i]
  {
    var t := DefaultTable(loadIcon, loadSound);
    if i == 0 {
      assert FormatInt(-2) == "-2";
      RenderedPieceIs(t, 0, "-2", "-2:error");
    } else {
      assert FormatInt(-1) == "-1";
      RenderedPieceIs(t, 1, "-1", " -1:nocon");
    }
  }

  /** `DefaultPieceRenders` for the three signal bands. */
  lemma BandPieceRenders(loadIcon: IconLoader, loadSound: SoundLoader, i: nat)
    requires 2 <= i < 5
    ensures RenderPieces(DefaultTable(loadIcon, loadSound))[i] == DefaultPieces[i]
  {
    var t := DefaultTable(loadIcon, loadSound);
    if i == 2 {
      assert FormatInt(0) == "0";
      RenderedPieceIs(t, 2, "0", " 0:low");
    } else if i == 3 {
      assert FormatNat(16) == "16";
      RenderedPieceIs(t, 3, "16", " 16:medium");
    } else {
      assert FormatNat(35) == "35";
      RenderedPieceIs(t, 4, "35", " 35:high");
    }
  }


  lemma DefaultTableRenders(loadIcon: IconLoader, loadSound: SoundLoader)
    ensures RenderPieces(DefaultTable(loadIcon, loadSound)) == DefaultPieces
  {
    var ps := RenderPieces(DefaultTable(loadIcon, loadSound));
    forall i | 0 <= i < |ps| ensures ps[i] == DefaultPieces[i] {
      DefaultPieceRenders(loadIcon, loadSound, i);
    }
  }

  lemma DefaultTableRenderable(loadIcon: IconLoader, loadSound: SoundLoader)
    ensures Renderable(DefaultTable(loadIcon, loadSound), loadIcon, loadSound)
  {
    var t := DefaultTable(loadIcon, loadSound);
    forall i | 0 <= i < |t|
      ensures Trimmed(t[i].name) && ':' !in t[i].name && ',' !in t[i].name
    {
      var n := t[i].name;
      assert n in ["error", "nocon", "low", "medium", "high"];
      forall j | 0 <= j < |n| ensures n[j] != ':' && n[j] != ',' && !IsSpace(n[j]) {
      }
    }
  }

  /** The default specification parses to five entries in the order written. */
  lemma DefaultSpecParses(loadIcon: IconLoader, loadSound: SoundLoader)
    ensures ParseTable(DefaultSpec, loadIcon, loadSound) == Ok(DefaultTable(loadIcon, loadSound))
  {
    var t := DefaultTable(loadIcon, loadSound);
    DefaultTableRenders(loadIcon, loadSound);
    DefaultPiecesJoin();
    DefaultTableRenderable(loadIcon, loadSound);
    ParseRenderedTable(t, loadIcon, loadSound);
  }

  // ---------------------------------------------------------------------
  // Classification by level
  // ---------------------------------------------------------------------

  /** How many entries, from the start, have a level at most `level`: the
      scan stops at the first entry whose level is greater. */
  function LeadingAtMost(t: seq<Entry>, level: int): (n: nat)
    ensures n <= |t|
    ensures forall i :: 0 <= i < n ==> t[i].level <= level
    ensures n < |t| ==> level < t[n].level
  {
    if t == [] || level < t[0].level then 0 else 1 + LeadingAtMost(t[1..], level)
  }

  /** A scan that has passed `i` entries at most `level` and then reaches
      the end or an entry above `level` has counted `LeadingAtMost`. */
  lemma {:induction false} ScanStopsAt(t: seq<Entry>, level: int, i: nat)
    requires i <= |t| && forall j :: 0 <= j < i ==> t[j].level <= level
    requires i < |t| ==> level < t[i].level
    ensures LeadingAtMost(t, level) == i
  {
    if i > 0 {
      ScanStopsAt(t[1..], level, i - 1);
    }
  }

  /** Entry `k` is where the scan for `level` stops: it and every entry
      before it are at most `level`, and the next one (if any) is above it. */
  predicate LastBeforeGreater(t: seq<Entry>, level: int, k: int) {
    && 0 <= k < |t|
    && (forall i :: 0 <= i <= k ==> t[i].level <= level)
    && (k + 1 < |t| ==> level < t[k + 1].level)
  }

  /** `get_entry_for_level(level)`: the last entry before the first one whose
      level exceeds `level`; None when `level` is below the first entry. */
  function EntryForLevel(t: seq<Entry>, level: int): (r: Option<Entry>)
    ensures r.None? <==> t == [] || level < t[0].level
    ensures r.Some? ==> exists k :: LastBeforeGreater(t, level, k) && r.value == t[k]
  {
    var n := LeadingAtMost(t, level);
    if n == 0 then None
    else
      assert LastBeforeGreater(t, level, n - 1);
      Some(t[n - 1])
  }

  /** Thresholds strictly increasing in the order written. */
  predicate Ascending(t: seq<Entry>) {
    forall i, j :: 0 <= i < j < |t| ==> t[i].level < t[j].level
  }

  lemma AboveScanAreGreater(t: seq<Entry>, level: int)
    requires Ascending(t)
    ensures forall i :: LeadingAtMost(t, level) <= i < |t| ==> level < t[i].level
  {
    var n := LeadingAtMost(t, level);
    forall i | n <= i < |t| ensures level < t[i].level {
      if i > n {
        assert t[n].level < t[i].level;
      }
    }
  }

  /** On an ascending table the scan finds the entry with the greatest
      threshold not above `level`, and nothing when every threshold is above it. */
  lemma ClassifySorted(t: seq<Entry>, level: int)
    requires Ascending(t)
    ensures EntryForLevel(t, level).None? <==> forall i :: 0 <= i < |t| ==> level < t[i].level
    ensures EntryForLevel(t, level).Some? ==>
              var e := EntryForLevel(t, level).value;
              && e in t && e.level <= level
              && forall i :: 0 <= i < |t| && t[i].level <= level ==> t[i].level <= e.level
  {
    var n := LeadingAtMost(t, level);
    AboveScanAreGreater(t, level);
    if n > 0 {
      forall i | 0 <= i < |t| && t[i].level <= level ensures t[i].level <= t[n - 1].level {
        if i < n - 1 {
          assert t[i].level < t[n - 1].level;
        }
      }
    }
  }

  /** On an ascending table a higher level never lands in a lower band. */
  lemma ClassifyMonotone(t: seq<Entry>, level1: int, level2: int)
    requires Ascending(t) && level1 <= level2
    requires EntryForLevel(t, level1).Some?
    ensures EntryForLevel(t, level2).Some?
    ensures EntryForLevel(t, level1).value.level <= EntryForLevel(t, level2).value.level
  {
    var n1, n2 := LeadingAtMost(t, level1), LeadingAtMost(t, level2);
    if n1 < n2 {
      assert t[n1 - 1].level < t[n2 - 1].level;
    }
  }

  /** The table is used in the order written and never sorted: written
      high-before-low, a level above both thresholds lands in the later,
      lower band, not in the band with the greatest threshold. */
  lemma ClassifyFollowsWrittenOrder(loadIcon: IconLoader, loadSound: SoundLoader)
    ensures var low := Entry(0, "low", loadIcon("low"), loadSound("low"));
            var high := Entry(35, "high", loadIcon("high"), loadSound("high"));
            && EntryForLevel([high, low], 40) == Some(low)
            && EntryForLevel([low, high], 40) == Some(high)
  {
  }

  /** The band of `level` in the default table, read off the thresholds. */
  function DefaultBand(level: int, loadIcon: IconLoader, loadSound: SoundLoader): Option<Entry> {
    if level < -2 then None
    else if level < -1 then Some(Band(-2, "error", loadIcon, loadSound))
    else if level < 0 then Some(Band(-1, "nocon", loadIcon, loadSound))
    else if level < 16 then Some(Band(0, "low", loadIcon, loadSound))
    else if level < 35 then Some(Band(16, "medium", loadIcon, loadSound))
    else Some(Band(35, "high", loadIcon, loadSound))
  }

  /** The bands of the default table have distinct names. */
  lemma DefaultNamesDistinct(loadIcon: IconLoader, loadSound: SoundLoader)
    ensures forall i, j :: 0 <= i < j < |DefaultTable(loadIcon, loadSound)| ==>
              DefaultTable(loadIcon, loadSound)[i].name != DefaultTable(loadIcon, loadSound)[j].name
  {
    var t := DefaultTable(loadIcon, loadSound);
    assert t[0].name[0] == 'e' && t[1].name[0] == 'n' && t[2].name[0] == 'l';
    assert t[3].name[0] == 'm' && t[4].name[0] == 'h';
  }

  /** The default table classifies every level by its thresholds -2, -1, 0, 16 and 35. */
  lemma DefaultTableClassifies(level: int, loadIcon: IconLoader, loadSound: SoundLoader)
    ensures EntryForLevel(DefaultTable(loadIcon, loadSound), level) == DefaultBand(level, loadIcon, loadSound)
  {
    var t := DefaultTable(loadIcon, loadSound);
    var t1 := t[1..];
    var t2 := t1[1..];
    var t3 := t2[1..];
    var t4 := t3[1..];
    assert t4[1..] == [];
    assert LeadingAtMost(t4, level) == if level < 35 then 0 else 1;
    assert LeadingAtMost(t3, level) == if level < 16 then 0 else 1 + LeadingAtMost(t4, level);
    assert LeadingAtMost(t2, level) == if level < 0 then 0 else 1 + LeadingAtMost(t3, level);
    assert LeadingAtMost(t1, level) == if level < -1 then 0 else 1 + LeadingAtMost(t2, level);
    assert LeadingAtMost(t, level) == if level < -2 then 0 else 1 + LeadingAtMost(t1, level);
  }

  // ---------------------------------------------------------------------
  // Lookup by name
  // ---------------------------------------------------------------------

  /** The index of the first entry named `name`, if any. */
  function FirstNamed(t: seq<Entry>, name: string): (r: Option<nat>)
    ensures r.Some? ==> r.value < |t| && t[r.value].name == name
                        && forall j :: 0 <= j < r.value ==> t[j].name != name
    ensures r.None? ==> forall j :: 0 <= j < |t| ==> t[j].name != name
  {
    if t == [] then None
    else if t[0].name == name then Some(0)
    else
      match FirstNamed(t[1..], name)
      case None => None
      case Some(k) => Some(k + 1)
  }

  /** `[i['icon'] for i in self.signal if i['signal'] == txt]`. */
  function IconsNamed(t: seq<Entry>, txt: Value): seq<Option<Icon>> {
    if t == [] then []
    else (if txt == Str(t[0].name) then [t[0].icon] else []) + IconsNamed(t[1..], txt)
  }

  /** `get_icon_for_signal(txt)`: the first element of that list, or the
      IndexError of indexing an empty list. */
  function IconForSignal(t: seq<Entry>, txt: Value): Result<Option<Icon>, Error> {
    var icons := IconsNamed(t, txt);
    if icons == [] then Err(IndexError) else Ok(icons[0])
  }

  /** The comprehension's first element is the icon of the first entry whose
      name is `txt`; a missing name (or a `txt` that is not a string) raises. */
  lemma {:induction false} IconForSignalIsFirstNamed(t: seq<Entry>, txt: Value)
    ensures IconForSignal(t, txt) ==
              if txt.Str? && FirstNamed(t, txt.s).Some? then Ok(t[FirstNamed(t, txt.s).value].icon)
              else Err(IndexError)
  {
    if t != [] {
      IconForSignalIsFirstNamed(t[1..], txt);
    }
  }
}
