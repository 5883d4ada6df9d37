/**
 * `get_mseed_filename`: the deterministic artifact path of a stream, from a
 * storage template, the stream's identity and its start and end times.
 * Python's `str.format` with named fields, `strftime("%Y%m%dT%H%M%SZ")` and
 * `os.path.join` are modelled here as well.
 */
module Naming {
  import opened Common
  import opened Restrictions

  // ---------------------------------------------------------------------------
  // str.format with keyword arguments
  // ---------------------------------------------------------------------------

  /** The errors `str.format` raises: KeyError for an unknown name, ValueError for stray braces. */
  datatype FormatError = MissingKey(name: string) | UnmatchedBrace | BraceInFieldName

  function Prepend(s: string, r: Result<string, FormatError>): Result<string, FormatError> {
    match r
    case Ok(v) => Ok(s + v)
    case Err(e) => Err(e)
  }

  /** The index of the first `}` of `t` at or after `i`, if there is one. */
  function CloseAt(t: string, i: nat): (j: Option<nat>)
    requires i <= |t|
    ensures j.Some? ==> i <= j.value < |t| && t[j.value] == '}'
    ensures j.Some? ==> forall k :: i <= k < j.value ==> t[k] != '}'
    ensures j.None? ==> forall k :: i <= k < |t| ==> t[k] != '}'
    decreases |t| - i
  {
    if i == |t| then None else if t[i] == '}' then Some(i) else CloseAt(t, i + 1)
  }

  /**
   * `t.format(**fields)`: `{{` and `}}` stand for one brace, `{name}` for the
   * value of `name`; values are inserted as they are, never rescanned.
   */
  function Format(t: string, fields: map<string, string>): Result<string, FormatError>
    decreases |t|
  {
    if t == [] then Ok([])
    else if t[0] == '{' then
      if |t| > 1 && t[1] == '{' then Prepend("{", Format(t[2..], fields))
      else
        match CloseAt(t, 1)
        case None => Err(UnmatchedBrace)
        case Some(j) =>
          var name := t[1..j];
          if '{' in name then Err(BraceInFieldName)
          else if name !in fields then Err(MissingKey(name))
          else Prepend(fields[name], Format(t[j + 1..], fields))
    else if t[0] == '}' then
      if |t| > 1 && t[1] == '}' then Prepend("}", Format(t[2..], fields))
      else Err(UnmatchedBrace)
    else Prepend([t[0]], Format(t[1..], fields))
  }

  /** A template read as what it means: literal text and named placeholders. */
  datatype Piece = Lit(text: string) | Field(name: string)

  predicate NoBraces(s: string) {
    '{' !in s && '}' !in s
  }

  /** Literal text as it is written in a template: every brace doubled. */
  function Escape(s: string): (r: string)
    ensures NoBraces(s) ==> r == s
  {
    if s == [] then [] else EscapeChar(s[0]) + Escape(s[1..])
  }

  function EscapeChar(c: char): string {
    if c == '{' then "{{" else if c == '}' then "}}" else [c]
  }

  /** The template text that spells `ps`. */
  function Unparse(ps: seq<Piece>): string {
    if ps == [] then [] else PieceText(ps[0]) + Unparse(ps[1..])
  }

  function PieceText(p: Piece): string {
    match p
    case Lit(s) => Escape(s)
    case Field(n) => Placeholder(n)
  }

  /** Every placeholder of `ps` is a name the fields define. */
  predicate Renderable(ps: seq<Piece>, fields: map<string, string>) {
    ps == [] || (PieceRenderable(ps[0], fields) && Renderable(ps[1..], fields))
  }

  predicate PieceRenderable(p: Piece, fields: map<string, string>) {
    p.Field? ==> NoBraces(p.name) && p.name in fields
  }

  /** What `ps` means under `fields`: each placeholder replaced by its value. */
  function Render(ps: seq<Piece>, fields: map<string, string>): string
    requires Renderable(ps, fields)
  {
    if ps == [] then [] else PieceValue(ps[0], fields) + Render(ps[1..], fields)
  }

  function PieceValue(p: Piece, fields: map<string, string>): string
    requires PieceRenderable(p, fields)
  {
    match p
    case Lit(s) => s
    case Field(n) => fields[n]
  }

  lemma PrependTwice(a: string, b: string, r: Result<string, FormatError>)
    ensures Prepend(a, Prepend(b, r)) == Prepend(a + b, r)
  {
    match r
    case Ok(v) => assert a + (b + v) == (a + b) + v;
    case Err(_) =>
  }

  lemma {:induction false} FormatEscaped(s: string, rest: string, fields: map<string, string>)
    ensures Format(Escape(s) + rest, fields) == Prepend(s, Format(rest, fields))
  {
    if s == [] {
      assert Escape(s) + rest == rest;
      match Format(rest, fields)
      case Ok(v) => assert s + v == v;
      case Err(_) =>
    } else {
      var tail := Escape(s[1..]) + rest;
      assert Escape(s) + rest == EscapeChar(s[0]) + tail;
      FormatEscapedChar(s[0], tail, fields);
      FormatEscaped(s[1..], rest, fields);
      PrependTwice([s[0]], s[1..], Format(rest, fields));
      assert [s[0]] + s[1..] == s;
    }
  }

  /** One escaped character reads back as itself. */
  lemma FormatEscapedChar(c: char, tail: string, fields: map<string, string>)
    ensures Format(EscapeChar(c) + tail, fields) == Prepend([c], Format(tail, fields))
  {
    var t := EscapeChar(c) + tail;
    assert t[|EscapeChar(c)|..] == tail;
  }

  lemma FormatField(name: string, rest: string, fields: map<string, string>)
    requires NoBraces(name) && name in fields
    ensures Format("{" + name + "}" + rest, fields) == Prepend(fields[name], Format(rest, fields))
  {
    var t := "{" + name + "}" + rest;
    var close := |name| + 1;
    assert t[close] == '}';
    assert forall k :: 1 <= k < close ==> t[k] == name[k - 1];
    var j := CloseAt(t, 1);
    assert j == Some(close);
    assert t[1..close] == name;
    assert t[close + 1..] == rest;
  }

  /** `str.format` replaces each placeholder of a template by its field and keeps the literal text. */
  lemma {:induction false} FormatUnparse(ps: seq<Piece>, fields: map<string, string>)
    requires Renderable(ps, fields)
    ensures Format(Unparse(ps), fields) == Ok(Render(ps, fields))
  {
    if ps == [] {
    } else {
      FormatUnparse(ps[1..], fields);
      match ps[0]
      case Lit(s) =>
        FormatEscaped(s, Unparse(ps[1..]), fields);
      case Field(n) =>
        assert ps[0] == ps[0];
        FormatField(n, Unparse(ps[1..]), fields);
    }
  }

  // ---------------------------------------------------------------------------
  // strftime("%Y%m%dT%H%M%SZ")
  // ---------------------------------------------------------------------------

  function DigitChar(d: int): char
    requires 0 <= d <= 9
  {
    ('0' as int + d) as char
  }

  predicate IsDigit(c: char) {
    '0' <= c <= '9'
  }

  /** The last `width` decimal digits of `n`, zero-padded. */
  function Digits(n: int, width: nat): (s: string)
    ensures |s| == width
    ensures forall i :: 0 <= i < width ==> IsDigit(s[i])
    decreases width
  {
    if width == 0 then [] else Digits(n / 10, width - 1) + [DigitChar(n % 10)]
  }

  /** The proleptic Gregorian (year, month, day) of a day number counted from 1970-01-01. */
  function CivilFromDays(days: int): (int, int, int) {
    var z := days + 719468;
    var era := z / 146097;
    var doe := z - era * 146097;
    var yoe := (doe - doe / 1460 + doe / 36524 - doe / 146096) / 365;
    var doy := doe - (365 * yoe + yoe / 4 - yoe / 100);
    var mp := (5 * doy + 2) / 153;
    var d := doy - (153 * mp + 2) / 5 + 1;
    var m := if mp < 10 then mp + 3 else mp - 9;
    var y := yoe + era * 400;
    (if m <= 2 then y + 1 else y, m, d)
  }

  /** `t.strftime("%Y%m%dT%H%M%SZ")`: eight date digits, `T`, six time digits, `Z`. */
  function Stamp(t: Time): (s: string)
    ensures |s| == 16 && s[8] == 'T' && s[15] == 'Z'
    ensures forall i :: 0 <= i < 16 && i != 8 && i != 15 ==> IsDigit(s[i])
  {
    var (y, m, d) := CivilFromDays(t / 86400);
    StampOf(y, m, d, t % 86400)
  }

  /** The time of day and the calendar date, as `Stamp` renders them. */
  function StampOf(y: int, m: int, d: int, secs: int): string {
    Digits(y, 4) + Digits(m, 2) + Digits(d, 2) + "T" + Digits(secs / 3600, 2)
      + Digits(secs % 3600 / 60, 2) + Digits(secs % 60, 2) + "Z"
  }

  lemma StampExample()
    ensures Stamp(1555981200) == "20190423T010000Z"
  {
    StampExampleDate();
    StampExampleText();
  }

  lemma StampExampleDate()
    ensures Stamp(1555981200) == StampOf(2019, 4, 23, 3600)
  {
    assert 1555981200 / 86400 == 18009 && 1555981200 % 86400 == 3600;
    CivilExample();
  }

  /** Day 18009 after the epoch is 2019-04-23. */
  lemma CivilExample()
    ensures CivilFromDays(18009) == (2019, 4, 23)
  {
    assert 737477 / 146097 == 5;
    assert 6992 / 1460 == 4 && 6992 / 36524 == 0 && 6992 / 146096 == 0;
    assert 6988 / 365 == 19;
    assert 267 / 153 == 1 && 155 / 5 == 31;
  }

  lemma StampExampleText()
    ensures StampOf(2019, 4, 23, 3600) == "20190423T010000Z"
  {
    YearDigits();
    TwoDigits(4);
    TwoDigits(23);
    TwoDigits(1);
    TwoDigits(0);
  }

  lemma YearDigits()
    ensures Digits(2019, 4) == "2019"
  {
    TwoDigits(20);
    assert Digits(201, 3) == Digits(20, 2) + ['1'];
  }

  lemma TwoDigits(n: int)
    requires 0 <= n < 100
    ensures Digits(n, 2) == [DigitChar(n / 10), DigitChar(n % 10)]
  {
    var q := n / 10;
    assert 0 <= q <= 9;
    assert q / 10 == 0 && q % 10 == q;
    assert Digits(q, 1) == Digits(q / 10, 0) + [DigitChar(q % 10)];
  }

  // ---------------------------------------------------------------------------
  // os.path.join
  // ---------------------------------------------------------------------------

  /** `os.path.join(a, b)` on POSIX: an absolute `b` replaces `a`; otherwise one `/` separates them. */
  function Join(a: string, b: string): (r: string)
    ensures |b| <= |r| && r[|r| - |b|..] == b
    ensures (|b| == 0 || b[0] != '/') ==> |a| <= |r| && r[..|a|] == a
    ensures (|b| == 0 || b[0] != '/') ==> |r| <= |a| + |b| + 1
    ensures (|b| == 0 || b[0] != '/') && a != [] ==> a[|a| - 1] == '/' || (|a| < |r| && r[|a|] == '/')
  {
    if |b| > 0 && b[0] == '/' then b
    else if a == [] || a[|a| - 1] == '/' then a + b
    else a + "/" + b
  }

  // ---------------------------------------------------------------------------
  // get_mseed_filename
  // ---------------------------------------------------------------------------

  /** The preprocessing marker: `.ppc` for a preprocessed stream, nothing otherwise. */
  function PpcSuffix(ppc: bool): string {
    if ppc then ".ppc" else ""
  }

  /** The six identity placeholders the template is checked for. */
  const NetworkKey := "network"
  const StationKey := "station"
  const LocationKey := "location"
  const ChannelKey := "channel"
  const StarttimeKey := "starttime"
  const EndtimeKey := "endtime"
  const PpcKey := "ppc"

  /** How a template names the field `n`. */
  function Placeholder(n: string): string {
    "{" + n + "}"
  }

  predicate HasIdentityPlaceholders(template: string) {
    && Contains(template, Placeholder(NetworkKey)) && Contains(template, Placeholder(StationKey))
    && Contains(template, Placeholder(LocationKey)) && Contains(template, Placeholder(ChannelKey))
    && Contains(template, Placeholder(StarttimeKey)) && Contains(template, Placeholder(EndtimeKey))
  }

  /** The keyword arguments of the two template branches. */
  function IdentityFields(network: string, station: string, location: string, channel: string,
                          starttime: Time, endtime: Time): map<string, string> {
    map[NetworkKey := network, StationKey := station, LocationKey := location,
        ChannelKey := channel, StarttimeKey := Stamp(starttime), EndtimeKey := Stamp(endtime)]
  }

  /** What `get_mseed_filename` returns, or the error its `format` call raises. */
  function MseedFilename(template: string, network: string, station: string, location: string,
                         channel: string, starttime: Time, endtime: Time,
                         ppc: bool): Result<string, FormatError> {
    var fields := IdentityFields(network, station, location, channel, starttime, endtime);
    if HasIdentityPlaceholders(template) && Contains(template, Placeholder(PpcKey)) then
      Format(template, fields[PpcKey := PpcSuffix(ppc)])
    else if HasIdentityPlaceholders(template) then
      Format(template, fields)
    else
      Ok(Join(template, FallbackName(network, station, location, channel, starttime, endtime, ppc)))
  }

  // ---------------------------------------------------------------------------
  // Properties of the file name
  // ---------------------------------------------------------------------------

  /** A template with the six identity placeholders but no `{ppc}` gives the same path whatever `ppc` is. */
  lemma PartialTemplateIgnoresPpc(template: string, network: string, station: string,
                                  location: string, channel: string, starttime: Time,
                                  endtime: Time)
    requires HasIdentityPlaceholders(template) && !Contains(template, Placeholder(PpcKey))
    ensures MseedFilename(template, network, station, location, channel, starttime, endtime, true)
         == MseedFilename(template, network, station, location, channel, starttime, endtime, false)
  {
  }

  /**
   * The name the directory branch appends: the source formats the fixed
   * template `{network}.{station}.{location}.{channel}__{s}__{e}.{ppc}.mseed`,
   * whose expansion is written out here.
   */
  function FallbackName(network: string, station: string, location: string, channel: string,
                        starttime: Time, endtime: Time, ppc: bool): string {
    network + "." + station + "." + location + "." + channel + "__" + Stamp(starttime) + "__"
      + Stamp(endtime) + "." + PpcSuffix(ppc) + ".mseed"
  }

  /**
   * A template missing one of the six identity placeholders is a directory:
   * the path is the template joined with the canonical name, the literal `.`
   * before the marker included (so an unprocessed stream's name ends `..mseed`).
   */
  lemma FallbackPath(template: string, network: string, station: string, location: string,
                     channel: string, starttime: Time, endtime: Time, ppc: bool)
    requires !HasIdentityPlaceholders(template)
    ensures MseedFilename(template, network, station, location, channel, starttime, endtime, ppc)
         == Ok(Join(template, FallbackName(network, station, location, channel,
                                           starttime, endtime, ppc)))
    ensures !ppc ==> var name := FallbackName(network, station, location, channel,
                                              starttime, endtime, ppc);
                     name[|name| - 7..] == "..mseed"
  {
    if !ppc {
      var head := network + "." + station + "." + location + "." + channel + "__" + Stamp(starttime) + "__"
        + Stamp(endtime);
      var name := FallbackName(network, station, location, channel, starttime, endtime, ppc);
      assert name == head + "..mseed";
      assert name[|head|..] == "..mseed";
    }
  }

  /** The keyword arguments of the full-template branch. */
  function PathFields(network: string, station: string, location: string, channel: string,
                      starttime: Time, endtime: Time, ppc: bool): map<string, string> {
    IdentityFields(network, station, location, channel, starttime, endtime)[PpcKey := PpcSuffix(ppc)]
  }

  /** The seven placeholder names the source recognises. */
  predicate KnownName(n: string) {
    n in {NetworkKey, StationKey, LocationKey, ChannelKey, StarttimeKey, EndtimeKey, PpcKey}
  }

  /** A template, read as pieces, that uses all seven placeholders and no other name. */
  predicate FullTemplate(ps: seq<Piece>) {
    && (forall i :: 0 <= i < |ps| && ps[i].Field? ==> KnownName(ps[i].name))
    && Field(NetworkKey) in ps && Field(StationKey) in ps && Field(LocationKey) in ps
    && Field(ChannelKey) in ps && Field(StarttimeKey) in ps && Field(EndtimeKey) in ps
    && Field(PpcKey) in ps
  }

  lemma {:induction false} RenderableFromNames(ps: seq<Piece>, fields: map<string, string>)
    requires forall i :: 0 <= i < |ps| && ps[i].Field? ==> NoBraces(ps[i].name) && ps[i].name in fields
    ensures Renderable(ps, fields)
  {
    if ps != [] {
      assert forall i :: 0 <= i < |ps[1..]| ==> ps[1..][i] == ps[i + 1];
      RenderableFromNames(ps[1..], fields);
    }
  }

  /** Every placeholder of a template shows in its text as `{name}`. */
  lemma {:induction false} FieldShows(ps: seq<Piece>, n: string)
    requires Field(n) in ps
    ensures Contains(Unparse(ps), Placeholder(n))
  {
    if ps[0] == Field(n) {
      ContainsPrefix(Placeholder(n), Unparse(ps[1..]));
    } else {
      assert Field(n) in ps[1..];
      FieldShows(ps[1..], n);
      ContainsSuffix(PieceText(ps[0]), Unparse(ps[1..]), Placeholder(n));
    }
  }

  /** The text of a full template passes both tests of `get_mseed_filename`. */
  lemma FullTemplateTests(ps: seq<Piece>)
    requires FullTemplate(ps)
    ensures HasIdentityPlaceholders(Unparse(ps)) && Contains(Unparse(ps), Placeholder(PpcKey))
  {
    FieldShows(ps, NetworkKey);
    FieldShows(ps, StationKey);
    FieldShows(ps, LocationKey);
    FieldShows(ps, ChannelKey);
    FieldShows(ps, StarttimeKey);
    FieldShows(ps, EndtimeKey);
    FieldShows(ps, PpcKey);
  }

  lemma KnownNamesRender(ps: seq<Piece>, network: string, station: string, location: string,
                         channel: string, starttime: Time, endtime: Time, ppc: bool)
    requires forall i :: 0 <= i < |ps| && ps[i].Field? ==> KnownName(ps[i].name)
    ensures Renderable(ps, PathFields(network, station, location, channel, starttime, endtime, ppc))
  {
    var fields := PathFields(network, station, location, channel, starttime, endtime, ppc);
    forall i | 0 <= i < |ps| && ps[i].Field?
      ensures NoBraces(ps[i].name) && ps[i].name in fields
    {
      KnownNameIsField(ps[i].name, network, station, location, channel, starttime, endtime, ppc);
    }
    RenderableFromNames(ps, fields);
  }

  lemma KnownNameIsField(n: string, network: string, station: string, location: string,
                         channel: string, starttime: Time, endtime: Time, ppc: bool)
    requires KnownName(n)
    ensures NoBraces(n) && n in PathFields(network, station, location, channel, starttime, endtime, ppc)
  {
    KeysHaveNoBraces();
  }

  lemma KeysHaveNoBraces()
    ensures forall n :: KnownName(n) ==> NoBraces(n)
  {
  }

  /**
   * A full template takes the first branch: each placeholder is replaced by
   * its field, the times rendered by `Stamp` and `{ppc}` by the marker.
   */
  lemma FullTemplateRenders(ps: seq<Piece>, network: string, station: string, location: string,
                            channel: string, starttime: Time, endtime: Time, ppc: bool)
    requires FullTemplate(ps)
    ensures var fields := PathFields(network, station, location, channel, starttime, endtime, ppc);
      && Renderable(ps, fields)
      && MseedFilename(Unparse(ps), network, station, location, channel, starttime, endtime, ppc)
         == Ok(Render(ps, fields))
  {
    var fields := PathFields(network, station, location, channel, starttime, endtime, ppc);
    KnownNamesRender(ps, network, station, location, channel, starttime, endtime, ppc);
    FullTemplateTests(ps);
    FormatUnparse(ps, fields);
  }

  /** How often the placeholder `n` occurs among the pieces. */
  function CountField(ps: seq<Piece>, n: string): (c: nat)
    ensures Field(n) in ps ==> c > 0
  {
    if ps == [] then 0 else (if ps[0] == Field(n) then 1 else 0) + CountField(ps[1..], n)
  }

  /**
   * Changing the value of `ppc` from `a` to `b` changes the length of the
   * rendering by the difference once per `{ppc}` placeholder.
   */
  lemma {:induction false} MarkerLengthens(ps: seq<Piece>, fields: map<string, string>, a: string, b: string)
    requires Renderable(ps, fields[PpcKey := a])
    ensures Renderable(ps, fields[PpcKey := b])
    ensures |Render(ps, fields[PpcKey := b])|
         == |Render(ps, fields[PpcKey := a])| + (|b| - |a|) * CountField(ps, PpcKey)
  {
    if ps != [] {
      var fa := fields[PpcKey := a];
      var fb := fields[PpcKey := b];
      MarkerLengthens(ps[1..], fields, a, b);
      MarkerPiece(ps[0], fields, a, b);
      var c := CountField(ps[1..], PpcKey);
      var h := if ps[0] == Field(PpcKey) then 1 else 0;
      assert CountField(ps, PpcKey) == h + c;
      assert (|b| - |a|) * (h + c) == (|b| - |a|) * h + (|b| - |a|) * c;
    }
  }

  lemma MarkerPiece(p: Piece, fields: map<string, string>, a: string, b: string)
    requires PieceRenderable(p, fields[PpcKey := a])
    ensures PieceRenderable(p, fields[PpcKey := b])
    ensures |PieceValue(p, fields[PpcKey := b])|
         == |PieceValue(p, fields[PpcKey := a])| + (|b| - |a|) * (if p == Field(PpcKey) then 1 else 0)
  {
  }

  /** With a full template the marker shows: the processed and unprocessed paths differ. */
  lemma FullTemplateMarksPpc(ps: seq<Piece>, network: string, station: string, location: string,
                             channel: string, starttime: Time, endtime: Time)
    requires FullTemplate(ps)
    ensures MseedFilename(Unparse(ps), network, station, location, channel, starttime, endtime, true)
         != MseedFilename(Unparse(ps), network, station, location, channel, starttime, endtime, false)
  {
    FullTemplateRenders(ps, network, station, location, channel, starttime, endtime, true);
    FullTemplateRenders(ps, network, station, location, channel, starttime, endtime, false);
    MarkedRenderDiffers(ps, IdentityFields(network, station, location, channel, starttime, endtime));
  }

  lemma MarkedRenderDiffers(ps: seq<Piece>, fields: map<string, string>)
    requires Field(PpcKey) in ps && Renderable(ps, fields[PpcKey := PpcSuffix(false)])
    ensures Renderable(ps, fields[PpcKey := PpcSuffix(true)])
    ensures Render(ps, fields[PpcKey := PpcSuffix(true)]) != Render(ps, fields[PpcKey := PpcSuffix(false)])
  {
    MarkerLengthens(ps, fields, PpcSuffix(false), PpcSuffix(true));
  }
}
