/** The registries.conf text printed for the merged mirror table, and a reader of that part of TOML 1.0.0 (one key/value
    pair a line with basic strings, escapes included, and booleans; arrays of tables) which recovers the table from it. */
module RegistriesConf {
  import opened Objects
  import opened Text
  import opened MirrorMerge

  // ---------------------------------------------------------------- the lines

  function SearchLine(): string {
    "unqualified-search-registries" + " = " + SearchList()
  }

  function SearchList(): string {
    "[\"registry.access.redhat.com\"" + ", " + "\"docker.io\"]"
  }

  function RegistryLine(): string {
    "[[registry]]"
  }

  function PrefixLine(): string {
    "  prefix = \"\""
  }

  function LocationLine(source: string): string {
    "  location = " + Quoted(source)
  }

  function DigestLine(digestOnly: bool): string {
    "  mirror-by-digest-only = " + (if digestOnly then "true" else "false")
  }

  function MirrorLine(): string {
    "  [[registry.mirror]]"
  }

  function MirrorLocationLine(mirror: string): string {
    "    location = " + Quoted(mirror)
  }

  function Quoted(s: string): string {
    "\"" + s + "\""
  }

  function MirrorLines(mirrors: seq<string>): seq<string> {
    if |mirrors| == 0 then [] else
      MirrorLines(mirrors[..|mirrors| - 1]) + ["", MirrorLine(), MirrorLocationLine(mirrors[|mirrors| - 1])]
  }

  function HeadLines(e: Entry): seq<string> {
    ["", RegistryLine(), PrefixLine()] + [LocationLine(e.source), DigestLine(e.digestOnly)]
  }

  function EntryLines(e: Entry): seq<string> {
    HeadLines(e) + MirrorLines(e.mirrors)
  }

  function TableLines(entries: seq<Entry>): seq<string> {
    if |entries| == 0 then [SearchLine()] else TableLines(entries[..|entries| - 1]) + EntryLines(entries[|entries| - 1])
  }

  /** The lines, each ended by a newline. */
  function Unlines(lines: seq<string>): string {
    if |lines| == 0 then "" else Unlines(lines[..|lines| - 1]) + lines[|lines| - 1] + "\n"
  }

  lemma {:induction false} UnlinesConcat(a: seq<string>, b: seq<string>)
    ensures Unlines(a + b) == Unlines(a) + Unlines(b)
  {
    if |b| == 0 {
      assert a + b == a;
    } else {
      UnlinesConcat(a, b[..|b| - 1]);
      assert (a + b)[..|a + b| - 1] == a + b[..|b| - 1];
    }
  }

  lemma UnlinesThree(a: string, b: string, c: string)
    ensures Unlines([a, b, c]) == a + "\n" + b + "\n" + c + "\n"
  {
    assert [a, b, c] == [a, b] + [c] && [a, b] == [a] + [b];
    UnlinesConcat([a, b], [c]);
    UnlinesConcat([a], [b]);
    UnlinesOne(a);
    UnlinesOne(b);
    UnlinesOne(c);
  }

  lemma UnlinesOne(a: string)
    ensures Unlines([a]) == a + "\n"
  {
    assert [a][..0] == [];
    assert Unlines([]) + a == a;
  }

  lemma UnlinesTwo(a: string, b: string)
    ensures Unlines([a, b]) == a + "\n" + b + "\n"
  {
    assert [a, b] == [a] + [b];
    UnlinesConcat([a], [b]);
    UnlinesOne(a);
    UnlinesOne(b);
  }

  lemma Associative(a: string, b: string, c: string)
    ensures a + (b + c) == a + b + c
  {
  }

  method WriteMirrors(sb: string, mirrors: seq<string>) returns (text: string)
    ensures text == sb + Unlines(MirrorLines(mirrors))
  {
    hide MirrorLine, MirrorLocationLine, Unlines;
    text := sb;
    assert sb + "" == sb && Unlines([]) == "" by { EmptyLines(); }
    for i := 0 to |mirrors|
      invariant text == sb + Unlines(MirrorLines(mirrors[..i]))
    {
      assert mirrors[..i + 1][..i] == mirrors[..i];
      ghost var before := MirrorLines(mirrors[..i]);
      ghost var lines := ["", MirrorLine(), MirrorLocationLine(mirrors[i])];
      text := text + ("\n" + MirrorLine() + "\n" + MirrorLocationLine(mirrors[i]) + "\n");
      UnlinesThree("", MirrorLine(), MirrorLocationLine(mirrors[i]));
      assert "" + "\n" == "\n";
      UnlinesConcat(before, lines);
      Associative(sb, Unlines(before), Unlines(lines));
    }
    assert mirrors[..|mirrors|] == mirrors;
  }

  lemma EmptyLines()
    ensures Unlines([]) == ""
  {
  }

  method WriteEntry(sb: string, e: Entry) returns (text: string)
    ensures text == sb + Unlines(EntryLines(e))
  {
    hide RegistryLine, PrefixLine, LocationLine, DigestLine, MirrorLines, Unlines;
    text := sb + ("\n" + RegistryLine() + "\n" + PrefixLine() + "\n");
    text := text + (LocationLine(e.source) + "\n" + DigestLine(e.digestOnly) + "\n");
    UnlinesThree("", RegistryLine(), PrefixLine());
    assert "" + "\n" == "\n";
    UnlinesTwo(LocationLine(e.source), DigestLine(e.digestOnly));
    UnlinesConcat(["", RegistryLine(), PrefixLine()], [LocationLine(e.source), DigestLine(e.digestOnly)]);
    Associative(sb, Unlines(["", RegistryLine(), PrefixLine()]), Unlines([LocationLine(e.source), DigestLine(e.digestOnly)]));
    assert text == sb + Unlines(HeadLines(e));
    text := WriteMirrors(text, e.mirrors);
    UnlinesConcat(HeadLines(e), MirrorLines(e.mirrors));
    Associative(sb, Unlines(HeadLines(e)), Unlines(MirrorLines(e.mirrors)));
  }

  /** The string builder of ensureAssistedInstallerMirrorConfig. */
  method Print(entries: seq<Entry>) returns (text: string)
    ensures text == Unlines(TableLines(entries))
  {
    hide SearchLine, EntryLines, Unlines;
    text := SearchLine() + "\n";
    UnlinesOne(SearchLine());
    for i := 0 to |entries|
      invariant text == Unlines(TableLines(entries[..i]))
    {
      assert entries[..i + 1][..i] == entries[..i];
      UnlinesConcat(TableLines(entries[..i]), EntryLines(entries[i]));
      text := WriteEntry(text, entries[i]);
    }
    assert entries[..|entries|] == entries;
  }

  // ---------------------------------------------------------------- reading

  function SplitLines(text: string): seq<string>
    decreases |text|
  {
    var i := IndexOf(text, '\n');
    if i == |text| then [text] else [text[..i]] + SplitLines(text[i + 1..])
  }

  function Indented(line: string): string {
    if |line| > 0 && line[0] == ' ' then Indented(line[1..]) else line
  }

  /** A character that stands for itself in a basic string: any but the quote, the backslash and the control characters
      other than tab. */
  predicate Unescaped(c: char) {
    c == '\t' || (c >= ' ' && c != '"' && c != '\\' && c != '\U{7F}')
  }

  /** A string that a basic TOML string holds as it stands. */
  predicate Plain(s: string) {
    forall k :: 0 <= k < |s| ==> Unescaped(s[k])
  }

  function HexDigit(c: char): Option<nat> {
    if '0' <= c <= '9' then Some(c as nat - '0' as nat)
    else if 'a' <= c <= 'f' then Some(c as nat - 'a' as nat + 10)
    else if 'A' <= c <= 'F' then Some(c as nat - 'A' as nat + 10)
    else None
  }

  function Hex(digits: string): Option<nat> {
    if |digits| == 0 then Some(0) else
      var before, last := Hex(digits[..|digits| - 1]), HexDigit(digits[|digits| - 1]);
      if before.Some? && last.Some? then Some(16 * before.value + last.value) else None
  }

  /** A Unicode scalar value. */
  function Scalar(n: nat): Option<char> {
    if n < 0xD800 || 0xE000 <= n < 0x11_0000 then Some(n as char) else None
  }

  /** The character of an escape sequence, and the length of the sequence. */
  function Escape(s: string): (r: Option<(char, nat)>)
    requires |s| > 0 && s[0] == '\\'
    ensures r.Some? ==> 2 <= r.value.1 <= |s|
  {
    if |s| < 2 then None
    else if s[1] == 'b' then Some(('\U{8}', 2))
    else if s[1] == 't' then Some(('\t', 2))
    else if s[1] == 'n' then Some(('\n', 2))
    else if s[1] == 'f' then Some(('\U{C}', 2))
    else if s[1] == 'r' then Some(('\r', 2))
    else if s[1] == '"' then Some(('"', 2))
    else if s[1] == '\\' then Some(('\\', 2))
    else if s[1] == 'u' then Coded(s, 4)
    else if s[1] == 'U' then Coded(s, 8)
    else None
  }

  function Coded(s: string, digits: nat): (r: Option<(char, nat)>)
    requires |s| >= 2
    ensures r.Some? ==> 2 <= r.value.1 <= |s|
  {
    if |s| < 2 + digits then None
    else
      var n := Hex(s[2..2 + digits]);
      if n.None? || Scalar(n.value).None? then None else Some((Scalar(n.value).value, 2 + digits))
  }

  /** What stands between the quotes of a basic string. */
  function Decode(s: string): Option<string>
    decreases |s|
  {
    if |s| == 0 then Some("")
    else if s[0] == '\\' then
      var e := Escape(s);
      if e.None? then None else
        var rest := Decode(s[e.value.1..]);
        if rest.None? then None else Some([e.value.0] + rest.value)
    else if Unescaped(s[0]) then
      var rest := Decode(s[1..]);
      if rest.None? then None else Some([s[0]] + rest.value)
    else None
  }

  function StringValue(value: string): Option<string> {
    if |value| >= 2 && value[0] == '"' && value[|value| - 1] == '"' then Decode(value[1..|value| - 1]) else None
  }

  function ValueOf(line: string, key: string): Option<string> {
    if HasPrefix(line, key + " = ") then Some(line[|key| + 3..]) else None
  }

  datatype Place = Top | InRegistry | InMirror

  datatype Reading = Reading(entries: seq<Entry>, place: Place)

  function SetSource(r: Reading, source: string): Reading
    requires |r.entries| > 0
  {
    r.(entries := r.entries[|r.entries| - 1 := Last(r.entries).(source := source)])
  }

  function SetDigest(r: Reading, digestOnly: bool): Reading
    requires |r.entries| > 0
  {
    r.(entries := r.entries[|r.entries| - 1 := Last(r.entries).(digestOnly := digestOnly)])
  }

  function SetMirrors(r: Reading, mirrors: seq<string>): Reading
    requires |r.entries| > 0
  {
    Reading(r.entries[|r.entries| - 1 := Last(r.entries).(mirrors := mirrors)], InMirror)
  }

  /** The registries that a short name is searched in: the value of the one key outside the tables. */
  const SEARCHED := "[\"registry.access.redhat.com\"" + ", " + "\"docker.io\"]"

  /** A key inside [[registry]]. A prefix must be empty, which makes the location the prefix. */
  function ReadRegistryKey(r: Reading, t: string): Option<Reading>
    requires |r.entries| > 0
  {
    var prefix, location, digest := ValueOf(t, "prefix"), ValueOf(t, "location"), ValueOf(t, "mirror-by-digest-only");
    if prefix.Some? then (if StringValue(prefix.value) == Some("") then Some(r) else None)
    else if location.Some? then
      (if StringValue(location.value).Some? then Some(SetSource(r, StringValue(location.value).value)) else None)
    else if digest == Some("true") then Some(SetDigest(r, true))
    else if digest == Some("false") then Some(SetDigest(r, false))
    else None
  }

  /** A key inside [[registry.mirror]]. */
  function ReadMirrorKey(r: Reading, t: string): Option<Reading>
    requires |r.entries| > 0 && |Last(r.entries).mirrors| > 0
  {
    var location := ValueOf(t, "location");
    var mirrors := Last(r.entries).mirrors;
    if location.Some? && StringValue(location.value).Some? then
      Some(SetMirrors(r, mirrors[|mirrors| - 1 := StringValue(location.value).value]))
    else None
  }

  function ReadLine(r: Reading, line: string): Option<Reading> {
    var t := Indented(line);
    if t == "" then Some(r)
    else if t == "[[registry]]" then Some(Reading(r.entries + [Entry("", [], false)], InRegistry))
    else if r.place.Top? || |r.entries| == 0 then
      (if ValueOf(t, "unqualified-search-registries") == Some(SEARCHED) then Some(r) else None)
    else if t == "[[registry.mirror]]" then Some(SetMirrors(r, Last(r.entries).mirrors + [""]))
    else if r.place.InRegistry? then ReadRegistryKey(r, t)
    else if |Last(r.entries).mirrors| > 0 then ReadMirrorKey(r, t)
    else None
  }

  function ReadLines(r: Option<Reading>, lines: seq<string>): Option<Reading> {
    if |lines| == 0 then r
    else
      var before := ReadLines(r, lines[..|lines| - 1]);
      if before.None? then None else ReadLine(before.value, lines[|lines| - 1])
  }

  function Read(text: string): Option<seq<Entry>> {
    var r := ReadLines(Some(Reading([], Top)), SplitLines(text));
    if r.None? then None else Some(r.value.entries)
  }

  // ---------------------------------------------------------------- lines survive

  predicate OneLine(s: string) {
    '\n' !in s
  }

  lemma {:induction false} SplitUnlines(lines: seq<string>)
    requires forall k :: 0 <= k < |lines| ==> OneLine(lines[k])
    ensures SplitLines(Unlines(lines)) == lines + [""]
  {
    if |lines| > 0 {
      var first, rest := lines[0], lines[1..];
      assert lines == [first] + rest;
      UnlinesConcat([first], rest);
      UnlinesOne(first);
      var text := Unlines(lines);
      assert text == first + "\n" + Unlines(rest);
      IndexIs(text, '\n', |first|);
      assert text[..|first|] == first && text[|first| + 1..] == Unlines(rest);
      SplitUnlines(rest);
      assert [first] + (rest + [""]) == lines + [""];
    }
  }

  lemma {:induction false} ReadConcat(r: Option<Reading>, a: seq<string>, b: seq<string>)
    ensures ReadLines(r, a + b) == ReadLines(ReadLines(r, a), b)
  {
    if |b| == 0 {
      assert a + b == a;
    } else {
      ReadConcat(r, a, b[..|b| - 1]);
      assert (a + b)[..|a + b| - 1] == a + b[..|b| - 1];
    }
  }

  lemma ReadOne(r: Reading, line: string)
    ensures ReadLines(Some(r), [line]) == ReadLine(r, line)
  {
    assert [line][..0] == [];
  }

  lemma QuotedValue(s: string)
    requires Plain(s)
    ensures StringValue(Quoted(s)) == Some(s)
  {
    assert Quoted(s)[1..|Quoted(s)| - 1] == s;
    DecodesItself(s);
  }

  lemma {:induction false} DecodesItself(s: string)
    requires Plain(s)
    ensures Decode(s) == Some(s)
  {
    if |s| > 0 {
      DecodesItself(s[1..]);
      assert [s[0]] + s[1..] == s;
    }
  }

  /** An escape makes the decoded string shorter, so only a plain string is its own value. */
  lemma {:induction false} DecodedShorter(s: string)
    requires Decode(s).Some?
    ensures |Decode(s).value| <= |s|
    ensures |Decode(s).value| == |s| ==> Plain(s)
  {
    hide Escape;
    if |s| > 0 {
      if s[0] == '\\' {
        DecodedShorter(s[Escape(s).value.1..]);
      } else {
        DecodedShorter(s[1..]);
        if |Decode(s).value| == |s| {
          assert Plain(s[1..]) && s == [s[0]] + s[1..];
        }
      }
    }
  }

  lemma ValueAfterKey(key: string, value: string)
    ensures ValueOf(key + " = " + value, key) == Some(value)
  {
    assert (key + " = " + value)[..|key| + 3] == key + " = ";
  }

  /** Lines of different keys are told apart by their first letter. */
  lemma OtherKey(key: string, other: string, value: string)
    requires |key| > 0 && |other| > 0 && key[0] != other[0]
    ensures ValueOf(key + " = " + value, other) == None
  {
    assert (key + " = " + value)[0] == key[0];
    assert (other + " = ")[0] == other[0];
  }

  lemma IndentedOne(line: string)
    ensures Indented(" " + line) == Indented(line)
  {
    assert (" " + line)[1..] == line;
  }

  lemma IndentedTwo(line: string)
    requires |line| > 0 && line[0] != ' '
    ensures Indented("  " + line) == line && Indented("    " + line) == line && Indented(line) == line
  {
    IndentedOne(line);
    IndentedOne(" " + line);
    IndentedOne(" " + (" " + line));
    IndentedOne(" " + (" " + (" " + line)));
    assert " " + (" " + line) == "  " + line;
    assert " " + (" " + (" " + (" " + line))) == "    " + line;
  }

  // ---------------------------------------------------------------- reading back what was printed

  lemma LocationText(s: string)
    ensures Indented(LocationLine(s)) == "location" + " = " + Quoted(s)
  {
    hide Indented, Quoted;
    var t := "location" + " = " + Quoted(s);
    assert t[0] == 'l';
    IndentedTwo(t);
    assert LocationLine(s) == "  " + t;
  }

  lemma MirrorLocationText(s: string)
    ensures Indented(MirrorLocationLine(s)) == "location" + " = " + Quoted(s)
  {
    hide Indented, Quoted;
    var t := "location" + " = " + Quoted(s);
    assert t[0] == 'l';
    IndentedTwo(t);
    assert MirrorLocationLine(s) == "    " + t;
  }

  /** What the reader makes of the value after a key. */
  lemma ReadsLocation(s: string)
    ensures Indented(LocationLine(s)) == "location" + " = " + Quoted(s)
    ensures Indented(MirrorLocationLine(s)) == "location" + " = " + Quoted(s)
    ensures ValueOf("location" + " = " + Quoted(s), "location") == Some(Quoted(s)) && StringValue(Quoted(s)) == Decode(s)
    ensures ValueOf("location" + " = " + Quoted(s), "prefix") == None
    ensures ("location" + " = " + Quoted(s))[0] == 'l'
  {
    LocationText(s);
    MirrorLocationText(s);
    assert Quoted(s)[1..|Quoted(s)| - 1] == s;
    ValueAfterKey("location", Quoted(s));
    OtherKey("location", "prefix", Quoted(s));
  }

  lemma ReadLocationLine(r: Reading, s: string)
    requires Plain(s) && r.place.InRegistry? && |r.entries| > 0
    ensures ReadLine(r, LocationLine(s)) == Some(SetSource(r, s))
  {
    hide LocationLine, MirrorLocationLine, Indented, ValueOf, StringValue, Decode;
    ReadsLocation(s);
    DecodesItself(s);
  }

  lemma ReadMirrorLocationLine(r: Reading, s: string)
    requires Plain(s) && r.place.InMirror? && |r.entries| > 0 && |Last(r.entries).mirrors| > 0
    ensures var mirrors := Last(r.entries).mirrors;
            ReadLine(r, MirrorLocationLine(s)) == Some(SetMirrors(r, mirrors[|mirrors| - 1 := s]))
  {
    hide LocationLine, MirrorLocationLine, Indented, ValueOf, StringValue, Decode;
    ReadsLocation(s);
    DecodesItself(s);
  }

  lemma ReadDigestLine(r: Reading, digestOnly: bool)
    requires r.place.InRegistry? && |r.entries| > 0
    ensures ReadLine(r, DigestLine(digestOnly)) == Some(SetDigest(r, digestOnly))
  {
    hide Indented;
    var value := if digestOnly then "true" else "false";
    DigestText(digestOnly);
    hide ValueOf;
    ValueAfterKey("mirror-by-digest-only", value);
    OtherKey("mirror-by-digest-only", "prefix", value);
    OtherKey("mirror-by-digest-only", "location", value);
  }

  lemma ReadPrefixLine(r: Reading)
    requires r.place.InRegistry? && |r.entries| > 0
    ensures ReadLine(r, PrefixLine()) == Some(r)
  {
    hide Indented, ValueOf;
    var t := "prefix" + " = " + Quoted("");
    assert t[0] == 'p';
    IndentedTwo(t);
    assert PrefixLine() == "  " + t;
    ValueAfterKey("prefix", Quoted(""));
    QuotedValue("");
  }

  lemma ReadRegistryLine(r: Reading)
    ensures ReadLine(r, RegistryLine()) == Some(Reading(r.entries + [Entry("", [], false)], InRegistry))
    ensures ReadLine(r, "") == Some(r)
  {
    assert RegistryLine()[0] == '[';
  }

  lemma ReadMirrorLine(r: Reading)
    requires !r.place.Top? && |r.entries| > 0
    ensures ReadLine(r, MirrorLine()) == Some(SetMirrors(r, Last(r.entries).mirrors + [""]))
  {
    hide Indented;
    var t := "[[registry.mirror]]";
    IndentedTwo(t);
    assert MirrorLine() == "  " + t;
    assert t != "[[registry]]" by { assert |t| == 19; }
  }

  lemma ReadSearchLine()
    ensures ReadLine(Reading([], Top), SearchLine()) == Some(Reading([], Top))
  {
    hide Indented, SearchList, ValueOf;
    assert SearchLine()[0] == 'u';
    IndentedTwo(SearchLine());
    ValueAfterKey("unqualified-search-registries", SearchList());
    ListSearched();
  }

  lemma ListSearched()
    ensures SearchList() == SEARCHED
  {
  }

  ghost predicate AllPlain(entries: seq<Entry>) {
    forall k :: 0 <= k < |entries| ==> EntryPlain(entries[k])
  }

  ghost predicate EntryPlain(e: Entry) {
    Plain(e.source) && forall k :: 0 <= k < |e.mirrors| ==> Plain(e.mirrors[k])
  }

  lemma ReadTwo(r: Reading, a: string, b: string)
    ensures ReadLines(Some(r), [a, b]) ==
              (if ReadLine(r, a).None? then None else ReadLine(ReadLine(r, a).value, b))
  {
    assert [a, b][..1] == [a];
    ReadOne(r, a);
  }

  lemma ReadThree(r: Reading, a: string, b: string, c: string)
    ensures ReadLines(Some(r), [a, b, c]) ==
              (var two := ReadLines(Some(r), [a, b]); if two.None? then None else ReadLine(two.value, c))
  {
    assert [a, b, c][..2] == [a, b];
  }

  /** The head of an entry read after any entries leaves the new entry without mirrors. */
  lemma ReadHead(r: Reading, e: Entry)
    requires Plain(e.source)
    ensures ReadLines(Some(r), HeadLines(e)) == Some(Reading(r.entries + [Entry(e.source, [], e.digestOnly)], InRegistry))
  {
    hide ReadLine, LocationLine, DigestLine, PrefixLine, RegistryLine, Plain;
    var first, second := ["", RegistryLine(), PrefixLine()], [LocationLine(e.source), DigestLine(e.digestOnly)];
    ReadConcat(Some(r), first, second);
    ReadRegistryLine(r);
    var started := Reading(r.entries + [Entry("", [], false)], InRegistry);
    ReadPrefixLine(started);
    ReadTwo(r, "", RegistryLine());
    ReadThree(r, "", RegistryLine(), PrefixLine());
    ReadLocationLine(started, e.source);
    var named := SetSource(started, e.source);
    ReadDigestLine(named, e.digestOnly);
    ReadTwo(started, LocationLine(e.source), DigestLine(e.digestOnly));
    assert SetDigest(named, e.digestOnly).entries == r.entries + [Entry(e.source, [], e.digestOnly)];
  }

  lemma {:induction false} ReadMirrors(done: seq<Entry>, source: string, digestOnly: bool, mirrors: seq<string>)
    requires forall k :: 0 <= k < |mirrors| ==> Plain(mirrors[k])
    ensures var place := if |mirrors| == 0 then InRegistry else InMirror;
            ReadLines(Some(Reading(done + [Entry(source, [], digestOnly)], InRegistry)), MirrorLines(mirrors))
              == Some(Reading(done + [Entry(source, mirrors, digestOnly)], place))
  {
    hide ReadLine, MirrorLine, MirrorLocationLine, Plain;
    if |mirrors| > 0 {
      var before, last := mirrors[..|mirrors| - 1], mirrors[|mirrors| - 1];
      ReadMirrors(done, source, digestOnly, before);
      var start := Some(Reading(done + [Entry(source, [], digestOnly)], InRegistry));
      var lines := ["", MirrorLine(), MirrorLocationLine(last)];
      ReadConcat(start, MirrorLines(before), lines);
      var r := Reading(done + [Entry(source, before, digestOnly)], if |before| == 0 then InRegistry else InMirror);
      ReadRegistryLine(r);
      ReadMirrorLine(r);
      var extended := SetMirrors(r, before + [""]);
      assert Last(extended.entries).mirrors == before + [""];
      ReadMirrorLocationLine(extended, last);
      assert (before + [""])[|before| := last] == mirrors;
      ReadTwo(r, "", MirrorLine());
      ReadThree(r, "", MirrorLine(), MirrorLocationLine(last));
      var grown := SetMirrors(extended, mirrors);
      assert grown.entries == done + [Entry(source, mirrors, digestOnly)];
    }
  }

  lemma {:induction false} ReadTable(entries: seq<Entry>)
    requires AllPlain(entries)
    ensures var r := ReadLines(Some(Reading([], Top)), TableLines(entries)); r.Some? && r.value.entries == entries
  {
    hide ReadLine, SearchLine, HeadLines, MirrorLines;
    if |entries| == 0 {
      ReadSearchLine();
      ReadOne(Reading([], Top), SearchLine());
    } else {
      var before, e := entries[..|entries| - 1], entries[|entries| - 1];
      ReadTable(before);
      assert EntryPlain(e);
      var start := Some(Reading([], Top));
      ReadConcat(start, TableLines(before), EntryLines(e));
      var r := ReadLines(start, TableLines(before)).value;
      ReadConcat(Some(r), HeadLines(e), MirrorLines(e.mirrors));
      ReadHead(r, e);
      ReadMirrors(r.entries, e.source, e.digestOnly, e.mirrors);
      assert before + [Entry(e.source, e.mirrors, e.digestOnly)] == entries;
    }
  }

  // ---------------------------------------------------------------- plain tables keep their lines

  lemma PlainIsOneLine(e: Entry)
    requires EntryPlain(e)
    ensures forall k :: 0 <= k < |EntryLines(e)| ==> OneLine(EntryLines(e)[k])
  {
    MirrorsOneLine(e.mirrors);
    assert OneLine(LocationLine(e.source));
  }

  lemma {:induction false} MirrorsOneLine(mirrors: seq<string>)
    requires forall k :: 0 <= k < |mirrors| ==> Plain(mirrors[k])
    ensures forall k :: 0 <= k < |MirrorLines(mirrors)| ==> OneLine(MirrorLines(mirrors)[k])
  {
    if |mirrors| > 0 {
      MirrorsOneLine(mirrors[..|mirrors| - 1]);
      assert OneLine(MirrorLocationLine(mirrors[|mirrors| - 1]));
    }
  }

  lemma {:induction false} TableOneLine(entries: seq<Entry>)
    requires AllPlain(entries)
    ensures forall k :: 0 <= k < |TableLines(entries)| ==> OneLine(TableLines(entries)[k])
  {
    hide SearchLine, EntryLines, EntryPlain, OneLine;
    if |entries| == 0 {
      assert OneLine(SearchLine()) by { SearchOneLine(); }
    } else {
      TableOneLine(entries[..|entries| - 1]);
      PlainIsOneLine(entries[|entries| - 1]);
    }
  }

  lemma SearchOneLine()
    ensures OneLine(SearchLine())
  {
  }

  // ---------------------------------------------------------------- a table that is read back is plain

  /** The lines of the text that a line with newlines in it turns into. */
  function Physical(lines: seq<string>): seq<string> {
    if |lines| == 0 then [] else Physical(lines[..|lines| - 1]) + SplitLines(lines[|lines| - 1])
  }

  lemma {:induction false} PhysicalConcat(a: seq<string>, b: seq<string>)
    ensures Physical(a + b) == Physical(a) + Physical(b)
  {
    hide SplitLines;
    if |b| == 0 {
      assert a + b == a;
    } else {
      PhysicalConcat(a, b[..|b| - 1]);
      assert (a + b)[..|a + b| - 1] == a + b[..|b| - 1];
      assert (a + b)[|a + b| - 1] == b[|b| - 1];
    }
  }

  lemma PhysicalOne(line: string)
    ensures Physical([line]) == SplitLines(line)
  {
    assert [line][..0] == [];
  }

  lemma SplitFirst(head: string, rest: string)
    requires '\n' !in head
    ensures SplitLines(head + "\n" + rest) == [head] + SplitLines(rest)
  {
    var text := head + "\n" + rest;
    IndexIs(text, '\n', |head|);
    assert text[..|head|] == head && text[|head| + 1..] == rest;
  }

  lemma SplitNone(line: string)
    requires '\n' !in line
    ensures SplitLines(line) == [line]
  {
    assert IndexOf(line, '\n') == |line|;
  }

  lemma {:induction false} SplitJoined(a: string, b: string)
    ensures SplitLines(a + "\n" + b) == SplitLines(a) + SplitLines(b)
    decreases |a|
  {
    hide SplitLines;
    var i := IndexOf(a, '\n');
    if i == |a| {
      SplitFirst(a, b);
      SplitNone(a);
    } else {
      var head, tail := a[..i], a[i + 1..];
      SplitJoined(tail, b);
      SplitFirst(head, tail);
      SplitFirst(head, tail + "\n" + b);
      assert a == head + "\n" + tail;
      assert a + "\n" + b == head + "\n" + (tail + "\n" + b);
    }
  }

  lemma {:induction false} SplitPhysical(lines: seq<string>)
    ensures SplitLines(Unlines(lines)) == Physical(lines) + [""]
  {
    if |lines| > 0 {
      var first, rest := lines[0], lines[1..];
      assert lines == [first] + rest;
      UnlinesConcat([first], rest);
      UnlinesOne(first);
      SplitJoined(first, Unlines(rest));
      SplitPhysical(rest);
      PhysicalConcat([first], rest);
      PhysicalOne(first);
    }
  }

  function Heads(lines: seq<string>): nat {
    if |lines| == 0 then 0
    else Heads(lines[..|lines| - 1]) + (if Indented(lines[|lines| - 1]) == "[[registry]]" then 1 else 0)
  }

  function MirrorHeads(lines: seq<string>): nat {
    if |lines| == 0 then 0
    else MirrorHeads(lines[..|lines| - 1]) + (if Indented(lines[|lines| - 1]) == "[[registry.mirror]]" then 1 else 0)
  }

  lemma {:induction false} HeadsConcat(a: seq<string>, b: seq<string>)
    ensures Heads(a + b) == Heads(a) + Heads(b) && MirrorHeads(a + b) == MirrorHeads(a) + MirrorHeads(b)
  {
    if |b| == 0 {
      assert a + b == a;
    } else {
      HeadsConcat(a, b[..|b| - 1]);
      assert (a + b)[..|a + b| - 1] == a + b[..|b| - 1];
    }
  }

  /** The string a line can set is shorter than the line by more than the key. */
  predicate FitsIn(value: string, t: string) {
    |value| + 13 <= |t|
  }

  lemma ValueFits(t: string)
    requires ValueOf(t, "location").Some? && StringValue(ValueOf(t, "location").value).Some?
    ensures FitsIn(StringValue(ValueOf(t, "location").value).value, t)
  {
    var value := ValueOf(t, "location").value;
    DecodedShorter(value[1..|value| - 1]);
  }

  /** What one line that is no table header can do to the entry at hand. */
  predicate Edits(r: Reading, next: Reading, t: string)
    requires |r.entries| > 0
  {
    && |next.entries| == |r.entries| && next.place == r.place
    && next.entries[..|r.entries| - 1] == r.entries[..|r.entries| - 1]
    && var a, b := Last(r.entries), Last(next.entries);
       && (r.place.InRegistry? ==> b.mirrors == a.mirrors && (b.source == a.source || FitsIn(b.source, t)))
       && (!r.place.InRegistry? ==>
             && b.source == a.source && |b.mirrors| == |a.mirrors|
             && (b.mirrors == a.mirrors
                 || (|a.mirrors| > 0 && b.mirrors[..|a.mirrors| - 1] == a.mirrors[..|a.mirrors| - 1] && FitsIn(Last(b.mirrors), t))))
  }

  lemma PlainLine(r: Reading, line: string)
    requires |r.entries| > 0 && ReadLine(r, line).Some?
    requires Indented(line) != "[[registry]]" && (r.place.Top? || Indented(line) != "[[registry.mirror]]")
    ensures Edits(r, ReadLine(r, line).value, Indented(line))
  {
    hide Indented, ValueOf, StringValue, FitsIn;
    var t := Indented(line);
    if ValueOf(t, "location").Some? && StringValue(ValueOf(t, "location").value).Some? { ValueFits(t); }
  }

  // ---------------------------------------------------------------- over several lines

  lemma {:induction false} HeadsCounted(r: Reading, lines: seq<string>)
    requires ReadLines(Some(r), lines).Some?
    ensures |ReadLines(Some(r), lines).value.entries| == |r.entries| + Heads(lines)
  {
    if |lines| > 0 {
      HeadsCounted(r, lines[..|lines| - 1]);
      HeadCounted(ReadLines(Some(r), lines[..|lines| - 1]).value, lines[|lines| - 1]);
    }
  }

  lemma HeadCounted(r: Reading, line: string)
    requires ReadLine(r, line).Some?
    ensures |ReadLine(r, line).value.entries| == |r.entries| + (if Indented(line) == "[[registry]]" then 1 else 0)
  {
    hide Indented, ValueOf, StringValue;
  }

  /** Lines without a registry header: the entries before the last stay, mirrors are added by their headers only, all but
      the last are kept, and the source stays once the mirrors have begun. */
  predicate StaysIn(r: Reading, next: Reading, mirrorHeads: nat)
    requires |r.entries| > 0
  {
    && |next.entries| == |r.entries| && next.entries[..|r.entries| - 1] == r.entries[..|r.entries| - 1]
    && next.place == (if mirrorHeads > 0 then InMirror else r.place)
    && var a, b := Last(r.entries), Last(next.entries);
       && |b.mirrors| == |a.mirrors| + mirrorHeads
       && (|a.mirrors| > 0 ==> b.mirrors[..|a.mirrors| - 1] == a.mirrors[..|a.mirrors| - 1])
       && (r.place.InMirror? ==> b.source == a.source)
  }

  lemma HeaderLine(r: Reading, line: string)
    requires |r.entries| > 0 && !r.place.Top? && Indented(line) == "[[registry.mirror]]"
    ensures ReadLine(r, line) == Some(SetMirrors(r, Last(r.entries).mirrors + [""]))
    ensures StaysIn(r, SetMirrors(r, Last(r.entries).mirrors + [""]), 1)
  {
    hide Indented;
    var t := "[[registry.mirror]]";
    assert t != "[[registry]]" && t != "" by { assert |t| == 19; }
  }

  lemma {:induction false} Stays(r: Reading, lines: seq<string>)
    requires |r.entries| > 0 && !r.place.Top? && ReadLines(Some(r), lines).Some? && Heads(lines) == 0
    ensures StaysIn(r, ReadLines(Some(r), lines).value, MirrorHeads(lines))
  {
    hide ReadLine, Indented, FitsIn;
    if |lines| > 0 {
      var before, line := lines[..|lines| - 1], lines[|lines| - 1];
      Stays(r, before);
      var between := ReadLines(Some(r), before).value;
      if Indented(line) == "[[registry.mirror]]" { HeaderLine(between, line); } else { PlainLine(between, line); }
    }
  }

  /** Every line is too short to set a string of the bound's length. */
  predicate Short(lines: seq<string>, bound: nat) {
    forall k :: 0 <= k < |lines| ==> |Indented(lines[k])| < bound + 13
  }

  /** Without any header, only short strings are set. */
  lemma {:induction false} SetsShort(r: Reading, lines: seq<string>, bound: nat)
    requires |r.entries| > 0 && !r.place.Top? && ReadLines(Some(r), lines).Some?
    requires Heads(lines) == 0 && MirrorHeads(lines) == 0 && Short(lines, bound)
    ensures var next := ReadLines(Some(r), lines).value;
            StaysIn(r, next, 0) &&
            var a, b := Last(r.entries), Last(next.entries);
            && (r.place.InRegistry? ==> b.mirrors == a.mirrors && (b.source == a.source || |b.source| < bound))
            && (r.place.InMirror? && |a.mirrors| > 0 ==> Last(b.mirrors) == Last(a.mirrors) || |Last(b.mirrors)| < bound)
  {
    hide ReadLine, Indented;
    Stays(r, lines);
    if |lines| > 0 {
      var before, line := lines[..|lines| - 1], lines[|lines| - 1];
      SetsShort(r, before, bound);
      PlainLine(ReadLines(Some(r), before).value, line);
    }
  }

  // ---------------------------------------------------------------- one string

  lemma {:induction false} SplitShorter(text: string)
    ensures forall k :: 0 <= k < |SplitLines(text)| ==> |SplitLines(text)[k]| <= |text|
    decreases |text|
  {
    var i := IndexOf(text, '\n');
    if i < |text| { SplitShorter(text[i + 1..]); }
  }

  lemma IndentedShorter(line: string)
    ensures |Indented(line)| <= |line|
  {
  }

  /** A string with a newline in it is cut into lines that cannot set a string of its length. */
  lemma CutShort(prefix: string, s: string)
    requires '\n' in s && '\n' !in prefix && forall x :: |Indented(prefix + x)| == 12 + |x|
    ensures Short(SplitLines(prefix + s + "\""), |s|)
  {
    hide Indented, SplitLines;
    var i := IndexOf(s, '\n');
    var rest := s[i + 1..] + "\"";
    SplitFirst(prefix + s[..i], rest);
    assert s == s[..i] + "\n" + s[i + 1..];
    assert prefix + s + "\"" == prefix + s[..i] + "\n" + rest;
    SplitShorter(rest);
    var lines := SplitLines(prefix + s + "\"");
    forall k | 0 <= k < |lines| ensures |Indented(lines[k])| < |s| + 13 {
      if k == 0 {
        assert lines[0] == prefix + s[..i];
      } else {
        assert lines[k] == SplitLines(rest)[k - 1];
        IndentedShorter(lines[k]);
      }
    }
  }

  lemma LocationPrefix(spaces: string)
    requires spaces == "  " || spaces == "    "
    ensures forall x :: |Indented(spaces + "location = \"" + x)| == 12 + |x|
    ensures '\n' !in spaces + "location = \""
  {
    forall x ensures |Indented(spaces + "location = \"" + x)| == 12 + |x| {
      var t := "location = \"" + x;
      assert t[0] == 'l';
      IndentedTwo(t);
      assert spaces + "location = \"" + x == spaces + t;
    }
  }

  lemma SourceBack(r: Reading, s: string)
    requires r.place.InRegistry? && |r.entries| > 0 && Last(r.entries).source == ""
    requires var lines := SplitLines(LocationLine(s));
             Heads(lines) == 0 && MirrorHeads(lines) == 0 && ReadLines(Some(r), lines).Some?
             && |ReadLines(Some(r), lines).value.entries| > 0 && Last(ReadLines(Some(r), lines).value.entries).source == s
    ensures Plain(s)
  {
    hide Plain, ReadLine, Indented, SplitLines, Heads, MirrorHeads;
    if '\n' in s {
      LocationPrefix("  ");
      CutShort("  " + "location = \"", s);
      assert LocationLine(s) == "  " + "location = \"" + s + "\"";
      SetsShort(r, SplitLines(LocationLine(s)), |s|);
      assert false;
    } else {
      SplitNone(LocationLine(s));
      ReadOne(r, LocationLine(s));
      SourceRead(r, s);
    }
  }

  lemma SourceRead(r: Reading, s: string)
    requires r.place.InRegistry? && |r.entries| > 0 && ReadLine(r, LocationLine(s)).Some?
    requires Last(ReadLine(r, LocationLine(s)).value.entries).source == s
    ensures Decode(s) == Some(s) && Plain(s)
  {
    hide LocationLine, MirrorLocationLine, Indented, ValueOf, StringValue, Decode;
    ReadsLocation(s);
    if Decode(s).Some? { DecodedShorter(s); }
  }

  lemma MirrorRead(r: Reading, s: string)
    requires r.place.InMirror? && |r.entries| > 0 && |Last(r.entries).mirrors| > 0 && ReadLine(r, MirrorLocationLine(s)).Some?
    requires var next := ReadLine(r, MirrorLocationLine(s)).value;
             |next.entries| > 0 && |Last(next.entries).mirrors| > 0 && Last(Last(next.entries).mirrors) == s
    ensures Decode(s) == Some(s) && Plain(s)
  {
    hide LocationLine, MirrorLocationLine, Indented, ValueOf, StringValue, Decode;
    ReadsLocation(s);
    if Decode(s).Some? { DecodedShorter(s); }
  }

  lemma MirrorBack(r: Reading, s: string)
    requires r.place.InMirror? && |r.entries| > 0 && |Last(r.entries).mirrors| > 0 && Last(Last(r.entries).mirrors) == ""
    requires var lines := SplitLines(MirrorLocationLine(s));
             Heads(lines) == 0 && MirrorHeads(lines) == 0 && ReadLines(Some(r), lines).Some?
             && var next := ReadLines(Some(r), lines).value;
                |next.entries| > 0 && |Last(next.entries).mirrors| > 0 && Last(Last(next.entries).mirrors) == s
    ensures Plain(s)
  {
    hide Plain, ReadLine, Indented, SplitLines, Heads, MirrorHeads;
    if '\n' in s {
      LocationPrefix("    ");
      CutShort("    " + "location = \"", s);
      assert MirrorLocationLine(s) == "    " + "location = \"" + s + "\"";
      SetsShort(r, SplitLines(MirrorLocationLine(s)), |s|);
      assert false;
    } else {
      SplitNone(MirrorLocationLine(s));
      ReadOne(r, MirrorLocationLine(s));
      MirrorRead(r, s);
    }
  }

  // ---------------------------------------------------------------- one entry

  lemma {:induction false} MirrorHeadsLeast(mirrors: seq<string>)
    ensures MirrorHeads(Physical(MirrorLines(mirrors))) >= |mirrors|
  {
    hide Indented, SplitLines;
    if |mirrors| > 0 {
      MirrorHeadsLeast(mirrors[..|mirrors| - 1]);
      MirrorStanza(mirrors[..|mirrors| - 1], mirrors[|mirrors| - 1]);
    }
  }

  /** The lines of one mirror after those of the ones before. */
  lemma MirrorStanza(before: seq<string>, m: string)
    ensures MirrorLines(before + [m]) == MirrorLines(before) + ["", MirrorLine(), MirrorLocationLine(m)]
    ensures Physical(MirrorLines(before + [m])) == Physical(MirrorLines(before)) + ["", MirrorLine()] + SplitLines(MirrorLocationLine(m))
    ensures MirrorHeads(Physical(MirrorLines(before + [m])))
              == MirrorHeads(Physical(MirrorLines(before))) + 1 + MirrorHeads(SplitLines(MirrorLocationLine(m)))
    ensures Heads(Physical(MirrorLines(before + [m])))
              == Heads(Physical(MirrorLines(before))) + Heads(SplitLines(MirrorLocationLine(m)))
  {
    hide Physical, Heads, MirrorHeads, SplitLines, Indented, MirrorLine, MirrorLocationLine;
    assert (before + [m])[..|before|] == before;
    var lines, chunk := MirrorLines(before), SplitLines(MirrorLocationLine(m));
    PhysicalConcat(lines, ["", MirrorLine(), MirrorLocationLine(m)]);
    StanzaLines(m);
    HeadsConcat(Physical(lines), ["", MirrorLine()]);
    HeadsConcat(Physical(lines) + ["", MirrorLine()], chunk);
    assert Physical(lines) + (["", MirrorLine()] + chunk) == Physical(lines) + ["", MirrorLine()] + chunk;
    TwoHeads("", MirrorLine());
    HeaderIndented();
  }

  lemma TwoHeads(a: string, b: string)
    ensures Heads([a, b]) == (if Indented(a) == "[[registry]]" then 1 else 0) + (if Indented(b) == "[[registry]]" then 1 else 0)
    ensures MirrorHeads([a, b])
              == (if Indented(a) == "[[registry.mirror]]" then 1 else 0) + (if Indented(b) == "[[registry.mirror]]" then 1 else 0)
  {
    assert [a, b][..1] == [a] && [a][..0] == [];
    assert Heads([a]) == (if Indented(a) == "[[registry]]" then 1 else 0);
    assert MirrorHeads([a]) == (if Indented(a) == "[[registry.mirror]]" then 1 else 0);
  }

  lemma HeaderIndented()
    ensures Indented(MirrorLine()) == "[[registry.mirror]]" && Indented("") == ""
    ensures "[[registry.mirror]]" != "[[registry]]" && "" != "[[registry]]" && "" != "[[registry.mirror]]"
  {
    hide Indented;
    var t := "[[registry.mirror]]";
    assert |t| == 19 && |"[[registry]]"| == 12;
    IndentedTwo(t);
    assert MirrorLine() == "  " + t;
    EmptyIndented();
  }

  lemma EmptyIndented()
    ensures Indented("") == ""
  {
  }

  lemma StanzaLines(m: string)
    ensures Physical(["", MirrorLine(), MirrorLocationLine(m)]) == ["", MirrorLine()] + SplitLines(MirrorLocationLine(m))
  {
    hide SplitLines, Physical, MirrorLine, MirrorLocationLine;
    SplitNone("");
    MirrorLineWhole();
    SplitNone(MirrorLine());
    ThreeLines("", MirrorLine(), MirrorLocationLine(m));
  }

  lemma ThreeLines(a: string, b: string, c: string)
    requires SplitLines(a) == [a] && SplitLines(b) == [b]
    ensures Physical([a, b, c]) == [a, b] + SplitLines(c)
  {
    hide SplitLines, Physical;
    assert [a, b, c] == [a] + [b] + [c];
    PhysicalConcat([a] + [b], [c]);
    PhysicalConcat([a], [b]);
    PhysicalOne(a);
    PhysicalOne(b);
    PhysicalOne(c);
  }

  lemma MirrorLineWhole()
    ensures '\n' !in MirrorLine()
  {
  }

  /** The reading continues from where the first lines leave it. */
  lemma ReadOn(r: Reading, a: seq<string>, b: seq<string>)
    requires ReadLines(Some(r), a + b).Some?
    ensures ReadLines(Some(r), a).Some?
    ensures ReadLines(Some(r), a + b) == ReadLines(Some(ReadLines(Some(r), a).value), b)
  {
    ReadConcat(Some(r), a, b);
    if ReadLines(Some(r), a).None? { NothingRead(b); }
  }

  lemma {:induction false} NothingRead(lines: seq<string>)
    ensures ReadLines(None, lines) == None
  {
    if |lines| > 0 { NothingRead(lines[..|lines| - 1]); }
  }

  lemma {:induction false} MirrorsBack(r: Reading, mirrors: seq<string>)
    requires r.place.InRegistry? && |r.entries| > 0 && Last(r.entries).mirrors == []
    requires var lines := Physical(MirrorLines(mirrors));
             Heads(lines) == 0 && ReadLines(Some(r), lines).Some?
             && |ReadLines(Some(r), lines).value.entries| > 0 && Last(ReadLines(Some(r), lines).value.entries).mirrors == mirrors
    ensures forall k :: 0 <= k < |mirrors| ==> Plain(mirrors[k])
    ensures Last(ReadLines(Some(r), Physical(MirrorLines(mirrors))).value.entries).source == Last(r.entries).source
    ensures MirrorHeads(Physical(MirrorLines(mirrors))) == |mirrors|
  {
    hide Plain, ReadLine, Indented, SplitLines, Heads, MirrorHeads, Physical, ReadLines;
    Stays(r, Physical(MirrorLines(mirrors)));
    if |mirrors| == 0 {
      ReadNothing(r);
    } else {
      var before, m := mirrors[..|mirrors| - 1], mirrors[|mirrors| - 1];
      assert before + [m] == mirrors;
      MirrorStanza(before, m);
      MirrorHeadsLeast(before);
      var head, chunk := Physical(MirrorLines(before)) + ["", MirrorLine()], SplitLines(MirrorLocationLine(m));
      ReadOn(r, head, chunk);
      ReadOn(r, Physical(MirrorLines(before)), ["", MirrorLine()]);
      var r1 := ReadLines(Some(r), Physical(MirrorLines(before))).value;
      Stays(r, Physical(MirrorLines(before)));
      HeaderAfter(r1);
      var r2 := SetMirrors(r1, Last(r1.entries).mirrors + [""]);
      Stays(r2, chunk);
      var r3 := ReadLines(Some(r2), chunk).value;
      assert Last(r1.entries).mirrors == before by {
        assert Last(r2.entries).mirrors[..|before|] == Last(r1.entries).mirrors;
        assert Last(r3.entries).mirrors[..|before|] == Last(r2.entries).mirrors[..|before|];
      }
      MirrorsBack(r, before);
      MirrorBack(r2, m);
    }
  }

  lemma ReadNothing(r: Reading)
    ensures ReadLines(Some(r), Physical(MirrorLines([]))) == Some(r) && MirrorHeads(Physical(MirrorLines([]))) == 0
  {
  }

  lemma HeaderAfter(r: Reading)
    requires |r.entries| > 0 && !r.place.Top?
    ensures ReadLines(Some(r), ["", MirrorLine()]) == Some(SetMirrors(r, Last(r.entries).mirrors + [""]))
  {
    hide ReadLine, MirrorLine, Indented;
    ReadTwo(r, "", MirrorLine());
    ReadRegistryLine(r);
    ReadMirrorLine(r);
  }

  /** The lines of the head of an entry, cut at every newline. */
  lemma HeadPhysical(e: Entry)
    ensures Physical(HeadLines(e))
              == ["", RegistryLine(), PrefixLine()] + SplitLines(LocationLine(e.source)) + [DigestLine(e.digestOnly)]
    ensures Heads(["", RegistryLine(), PrefixLine()]) == 1 && MirrorHeads(["", RegistryLine(), PrefixLine()]) == 0
    ensures Heads([DigestLine(e.digestOnly)]) == 0 && MirrorHeads([DigestLine(e.digestOnly)]) == 0
  {
    hide SplitLines, Indented, LocationLine, DigestLine, RegistryLine, PrefixLine, Physical, Heads, MirrorHeads;
    var a, l, d := ["", RegistryLine(), PrefixLine()], LocationLine(e.source), DigestLine(e.digestOnly);
    assert HeadLines(e) == a + [l] + [d];
    PhysicalConcat(a + [l], [d]);
    PhysicalConcat(a, [l]);
    PhysicalOne(l);
    PhysicalOne(d);
    HeadStart();
    DigestWhole(e.digestOnly);
    SplitNone(d);
  }

  lemma HeadStart()
    ensures Physical(["", RegistryLine(), PrefixLine()]) == ["", RegistryLine(), PrefixLine()]
    ensures Heads(["", RegistryLine(), PrefixLine()]) == 1 && MirrorHeads(["", RegistryLine(), PrefixLine()]) == 0
  {
    hide SplitLines, Indented, RegistryLine, PrefixLine, Physical, Heads, MirrorHeads;
    assert ["", RegistryLine(), PrefixLine()] == ["", RegistryLine()] + [PrefixLine()] && ["", RegistryLine()] == [""] + [RegistryLine()];
    PhysicalConcat(["", RegistryLine()], [PrefixLine()]);
    PhysicalConcat([""], [RegistryLine()]);
    PhysicalOne("");
    PhysicalOne(RegistryLine());
    PhysicalOne(PrefixLine());
    WholeLines();
    SplitNone("");
    SplitNone(RegistryLine());
    SplitNone(PrefixLine());
    HeadsConcat(["", RegistryLine()], [PrefixLine()]);
    TwoHeads("", RegistryLine());
    OneHead(PrefixLine());
    HeaderIndented();
  }

  lemma OneHead(line: string)
    ensures Heads([line]) == (if Indented(line) == "[[registry]]" then 1 else 0)
    ensures MirrorHeads([line]) == (if Indented(line) == "[[registry.mirror]]" then 1 else 0)
  {
    assert [line][..0] == [];
  }

  lemma WholeLines()
    ensures '\n' !in RegistryLine() && '\n' !in PrefixLine()
    ensures Indented(RegistryLine()) == "[[registry]]" && Indented(PrefixLine()) != "[[registry]]"
    ensures Indented(PrefixLine()) != "[[registry.mirror]]" && Indented(RegistryLine()) != "[[registry.mirror]]"
  {
    hide Indented;
    IndentedTwo("[[registry]]");
    var t := "prefix" + " = " + Quoted("");
    assert t[0] == 'p' && PrefixLine() == "  " + t;
    IndentedTwo(t);
    assert |"[[registry]]"| == 12 && |"[[registry.mirror]]"| == 19;
  }

  lemma DigestText(digestOnly: bool)
    ensures Indented(DigestLine(digestOnly)) == "mirror-by-digest-only" + " = " + (if digestOnly then "true" else "false")
  {
    hide Indented;
    var t := "mirror-by-digest-only" + " = " + (if digestOnly then "true" else "false");
    assert t[0] == 'm';
    IndentedTwo(t);
    assert DigestLine(digestOnly) == "  " + t;
  }

  lemma DigestWhole(digestOnly: bool)
    ensures '\n' !in DigestLine(digestOnly)
    ensures Heads([DigestLine(digestOnly)]) == 0 && MirrorHeads([DigestLine(digestOnly)]) == 0
  {
    hide Indented, Heads, MirrorHeads;
    var value := if digestOnly then "true" else "false";
    DigestText(digestOnly);
    OneHead(DigestLine(digestOnly));
  }

  /** An entry that is read back is plain, and the entries before it are not touched. */
  lemma EntryBack(r: Reading, e: Entry)
    requires ReadLines(Some(r), Physical(EntryLines(e))).Some?
    requires var next := ReadLines(Some(r), Physical(EntryLines(e))).value;
             |next.entries| == |r.entries| + 1 && Last(next.entries) == e
    ensures EntryPlain(e)
    ensures ReadLines(Some(r), Physical(EntryLines(e))).value.entries[..|r.entries|] == r.entries
  {
    hide Plain, ReadLine, Indented, SplitLines, Heads, MirrorHeads, Physical, ReadLines, HeadLines, MirrorLines, RegistryLine,
         PrefixLine, LocationLine, DigestLine;
    var start, chunk, digest, tail :=
      ["", RegistryLine(), PrefixLine()], SplitLines(LocationLine(e.source)), [DigestLine(e.digestOnly)], Physical(MirrorLines(e.mirrors));
    PhysicalConcat(HeadLines(e), MirrorLines(e.mirrors));
    HeadPhysical(e);
    var all := start + chunk + digest + tail;
    HeadsCounted(r, all);
    HeadsConcat(start + chunk + digest, tail);
    HeadsConcat(start + chunk, digest);
    HeadsConcat(start, chunk);
    ReadOn(r, start + chunk + digest, tail);
    ReadOn(r, start + chunk, digest);
    ReadOn(r, start, chunk);
    StartRead(r);
    var r1 := Reading(r.entries + [Entry("", [], false)], InRegistry);
    Stays(r1, chunk);
    var r2 := ReadLines(Some(r1), chunk).value;
    Stays(r2, digest);
    var r3 := ReadLines(Some(r2), digest).value;
    Stays(r3, tail);
    MirrorHeadsLeast(e.mirrors);
    assert MirrorHeads(chunk) == 0 && r2.place.InRegistry? && Last(r2.entries).mirrors == [];
    DigestRead(r2, e.digestOnly);
    MirrorsBack(r3, e.mirrors);
    SourceBack(r1, e.source);
  }

  lemma StartRead(r: Reading)
    ensures ReadLines(Some(r), ["", RegistryLine(), PrefixLine()]) == Some(Reading(r.entries + [Entry("", [], false)], InRegistry))
  {
    hide ReadLine, RegistryLine, PrefixLine;
    ReadRegistryLine(r);
    ReadTwo(r, "", RegistryLine());
    ReadThree(r, "", RegistryLine(), PrefixLine());
    ReadPrefixLine(Reading(r.entries + [Entry("", [], false)], InRegistry));
  }

  lemma DigestRead(r: Reading, digestOnly: bool)
    requires r.place.InRegistry? && |r.entries| > 0
    ensures ReadLines(Some(r), [DigestLine(digestOnly)]) == Some(SetDigest(r, digestOnly))
  {
    hide ReadLine, DigestLine;
    ReadOne(r, DigestLine(digestOnly));
    ReadDigestLine(r, digestOnly);
  }

  lemma {:induction false} TableBack(entries: seq<Entry>)
    requires var r := ReadLines(Some(Reading([], Top)), Physical(TableLines(entries))); r.Some? && r.value.entries == entries
    ensures AllPlain(entries)
  {
    hide EntryPlain, ReadLine, Indented, SplitLines, Heads, MirrorHeads, Physical, ReadLines, EntryLines;
    if |entries| > 0 {
      var before, e := entries[..|entries| - 1], entries[|entries| - 1];
      var start := Reading([], Top);
      PhysicalConcat(TableLines(before), EntryLines(e));
      ReadOn(start, Physical(TableLines(before)), Physical(EntryLines(e)));
      var r := ReadLines(Some(start), Physical(TableLines(before))).value;
      HeadsCounted(start, Physical(TableLines(before)) + Physical(EntryLines(e)));
      HeadsCounted(start, Physical(TableLines(before)));
      HeadsConcat(Physical(TableLines(before)), Physical(EntryLines(e)));
      HeadsLeast(before);
      EntryHead(e);
      EntryBack(r, e);
      TableBack(before);
    }
  }

  lemma EntryHead(e: Entry)
    ensures Heads(Physical(EntryLines(e))) >= 1
  {
    hide Indented, SplitLines, Heads, MirrorHeads, Physical, HeadLines, MirrorLines, RegistryLine, PrefixLine, LocationLine, DigestLine;
    PhysicalConcat(HeadLines(e), MirrorLines(e.mirrors));
    HeadPhysical(e);
    HeadsConcat(Physical(HeadLines(e)), Physical(MirrorLines(e.mirrors)));
    var start, chunk, digest := ["", RegistryLine(), PrefixLine()], SplitLines(LocationLine(e.source)), [DigestLine(e.digestOnly)];
    HeadsConcat(start + chunk, digest);
    HeadsConcat(start, chunk);
  }

  lemma {:induction false} HeadsLeast(entries: seq<Entry>)
    ensures Heads(Physical(TableLines(entries))) >= |entries|
  {
    hide Heads, Physical, EntryLines;
    if |entries| > 0 {
      var before, e := entries[..|entries| - 1], entries[|entries| - 1];
      PhysicalConcat(TableLines(before), EntryLines(e));
      HeadsConcat(Physical(TableLines(before)), Physical(EntryLines(e)));
      HeadsLeast(before);
      EntryHead(e);
    }
  }

  // ---------------------------------------------------------------- exactly the plain tables survive

  /** Reading the printed text gives back the table, its sources, flags and mirrors in order, exactly when none of its
      strings has a quote, a backslash or a control character other than tab: what printing without escaping can carry. */
  lemma PrintedTableReadBack(entries: seq<Entry>)
    ensures Read(Unlines(TableLines(entries))) == Some(entries) <==> AllPlain(entries)
  {
    hide TableLines, AllPlain, ReadLine, Physical;
    var text, start := Unlines(TableLines(entries)), Reading([], Top);
    SplitPhysical(TableLines(entries));
    if AllPlain(entries) {
      TableOneLine(entries);
      SplitUnlines(TableLines(entries));
      ReadTable(entries);
      ReadConcat(Some(start), TableLines(entries), [""]);
      var r := ReadLines(Some(start), TableLines(entries)).value;
      ReadOne(r, "");
      ReadRegistryLine(r);
    }
    if Read(text) == Some(entries) {
      ReadOn(start, Physical(TableLines(entries)), [""]);
      var r := ReadLines(Some(start), Physical(TableLines(entries))).value;
      ReadOne(r, "");
      ReadRegistryLine(r);
      TableBack(entries);
    }
  }

  /** Two plain tables with the same text are the same table. */
  lemma PrintInjective(a: seq<Entry>, b: seq<Entry>)
    requires AllPlain(a) && AllPlain(b) && Unlines(TableLines(a)) == Unlines(TableLines(b))
    ensures a == b
  {
    PrintedTableReadBack(a);
    PrintedTableReadBack(b);
  }
}
