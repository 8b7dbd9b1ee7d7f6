/** The desktop entry OpenWave writes and reads back (desktop.rs): the two escape layers of
    its Exec key (section "The Exec key" of the Desktop Entry Specification) and the lines
    around it. */
module DesktopEntry {
  import opened Wrappers
  import opened Strings
  import opened Quoting

  // ---------------------------------------------------------------- the Exec key

  function ArgPiece(c: char): string {
    if c == '%' then "%%" else if c in "\\\"`$" then ['\\', c] else [c]
  }

  function ExecText(v: string): Result<string> {
    if HasControl(v) then Err(Invalid)
    else Ok("\"" + Replace(Pieces(v, ArgPiece), '\\', "\\\\") + "\"")
  }

  method ExecArg(v: string) returns (r: Result<string>)
    ensures r == ExecText(v)
  {
    if HasControl(v) {
      return Err(Invalid);
    }
    var escaped, i := "", 0;
    assert Pieces("", ArgPiece) == "";
    hide Pieces;
    while i < |v|
      invariant i <= |v|
      invariant Pieces(v, ArgPiece) == escaped + Pieces(v[i..], ArgPiece)
    {
      var c := v[i];
      FirstShown(v[i..], ArgPiece, escaped);
      assert v[i..][1..] == v[i + 1..]
        && ArgPiece(c) == if c == '%' then "%%" else if c in "\\\"`$" then "\\" + [c] else [c];
      if c == '%' {
        escaped := escaped + "%%";
      } else {
        if c in "\\\"`$" {
          escaped := escaped + "\\";
        }
        escaped := escaped + [c];
      }
      i := i + 1;
    }
    assert escaped + Pieces(v[i..], ArgPiece) == escaped;
    r := Ok("\"" + Replace(escaped, '\\', "\\\\") + "\"");
  }

  function Unescaped(next: char): Option<char> {
    match next
    case '\\' => Some('\\')
    case 's' => Some(' ')
    case 'n' => Some('\n')
    case 't' => Some('\t')
    case 'r' => Some('\r')
    case _ => None
  }

  /** The outer layer: string escapes and field codes. */
  function Unescape(done: string, text: string): Result<string>
    decreases |text|
  {
    if text == "" then Ok(done)
    else if text[0] == '\\' then
      if |text| == 1 || Unescaped(text[1]).None? then Err(Invalid)
      else Unescape(done + [Unescaped(text[1]).value], text[2..])
    else if text[0] == '%' then
      if |text| == 1 || text[1] != '%' then Err(Identity) else Unescape(done + "%", text[2..])
    else Unescape(done + [text[0]], text[1..])
  }

  function Decoded(value: string): Result<seq<string>> {
    var unescaped :- Unescape("", value);
    Split(START, unescaped)
  }

  method DecodeExec(value: string) returns (r: Result<seq<string>>)
    ensures r == Decoded(value)
  {
    var unescaped, i := "", 0;
    while i < |value|
      invariant i <= |value|
      invariant Unescape("", value) == Unescape(unescaped, value[i..])
    {
      var c := value[i];
      i := i + 1;
      if c == '\\' {
        if i == |value| {
          return Err(Invalid);
        }
        var plain := Unescaped(value[i]);
        if plain.None? {
          return Err(Invalid);
        }
        unescaped := unescaped + [plain.value];
        i := i + 1;
      } else if c == '%' {
        if i == |value| || value[i] != '%' {
          return Err(Identity);
        }
        unescaped := unescaped + "%";
        i := i + 1;
      } else {
        unescaped := unescaped + [c];
      }
    }
    r := SplitWords(unescaped);
  }

  // ---------------------------------------------------------------- its round trip

  /** Both layers of one character, and what the outer one leaves. */
  function ExecPiece(c: char): string {
    if c == '%' then "%%" else if c == '\\' then "\\\\\\\\" else if c in "\"`$" then ['\\', '\\', c] else [c]
  }

  function InnerPiece(c: char): string {
    if c in "\\\"`$" then ['\\', c] else [c]
  }

  function Itself(c: char): string { [c] }

  lemma ExecPieceIs(c: char)
    ensures Replace(ArgPiece(c), '\\', "\\\\") == ExecPiece(c)
  {
    var p := ArgPiece(c);
    if |p| == 2 {
      assert p == [p[0]] + [p[1]];
      ReplaceConcat([p[0]], [p[1]], '\\', "\\\\");
      ReplaceOne(p[0], '\\', "\\\\");
      ReplaceOne(p[1], '\\', "\\\\");
    } else {
      ReplaceOne(c, '\\', "\\\\");
    }
  }

  lemma {:induction false} ExecPieces(v: string)
    ensures Replace(Pieces(v, ArgPiece), '\\', "\\\\") == Pieces(v, ExecPiece)
  {
    if v != "" {
      ExecPieceIs(v[0]);
      ReplaceConcat(ArgPiece(v[0]), Pieces(v[1..], ArgPiece), '\\', "\\\\");
      ExecPieces(v[1..]);
      hide Replace, ArgPiece, ExecPiece;
    }
  }

  lemma UnescapeOne(done: string, c: char, rest: string)
    ensures Unescape(done, ExecPiece(c) + rest) == Unescape(done + InnerPiece(c), rest)
  {
    var text := ExecPiece(c) + rest;
    if c == '\\' {
      assert text[2..] == "\\\\" + rest && text[2..][2..] == rest;
      assert done + "\\" + "\\" == done + InnerPiece(c);
    } else if c in "\"`$" {
      assert text[2..] == [c] + rest && text[2..][1..] == rest;
      assert done + "\\" + [c] == done + InnerPiece(c);
    } else if c == '%' {
      assert text[2..] == rest;
    } else {
      assert text[1..] == rest;
    }
  }

  lemma {:induction false} UnescapePieces(done: string, v: string, rest: string)
    ensures Unescape(done, Pieces(v, ExecPiece) + rest) == Unescape(done + Pieces(v, InnerPiece), rest)
    decreases |v|
  {
    hide Unescape, ExecPiece, InnerPiece;
    if v == "" {
      assert Pieces(v, ExecPiece) + rest == rest && done + Pieces(v, InnerPiece) == done;
    } else {
      hide Pieces;
      FirstPiece(v, ExecPiece, rest);
      FirstShown(v, InnerPiece, done);
      UnescapeOne(done, v[0], Pieces(v[1..], ExecPiece) + rest);
      UnescapePieces(done + InnerPiece(v[0]), v[1..], rest);
    }
  }

  lemma {:induction false} UnescapePlain(done: string, plain: string)
    requires '\\' !in plain && '%' !in plain
    ensures Unescape(done, plain) == Ok(done + plain)
    decreases |plain|
  {
    if plain == "" {
      assert done + plain == done;
    } else {
      UnescapePlain(done + [plain[0]], plain[1..]);
      assert done + [plain[0]] + plain[1..] == done + plain;
    }
  }

  lemma InnerReads()
    ensures Reads(InnerPiece, Itself)
  {
    forall c, s: Scan, tail | s.quote == Some('"') && s.started
      ensures Split(s, InnerPiece(c) + tail) == Split(s.(word := s.word + Itself(c)), tail)
    {
      var text := InnerPiece(c) + tail;
      if c in "\\\"`$" {
        assert text[2..] == tail;
      } else {
        assert text[1..] == tail;
      }
    }
  }

  lemma {:induction false} PiecesItself(v: string)
    ensures Pieces(v, Itself) == v
  {
    if v != "" {
      PiecesItself(v[1..]);
    }
  }

  function Options(hidden: bool): string { if hidden then " --hide" else "" }

  function Arguments(v: string, hidden: bool): seq<string> { if hidden then [v, "--hide"] else [v] }

  lemma HideOption(v: string)
    ensures Split(Scan([], v, None, true), " --hide") == Ok([v, "--hide"])
  {
    hide Split;
    var read, next := Scan([v], "", None, false), Scan([v], "-", None, true);
    OneStep(Scan([], v, None, true), ' ', "--hide");
    OneStep(read, '-', "-hide");
    SplitPlain(next, "-hide");
    assert Step(Scan([], v, None, true), ' ') == read && Step(read, '-') == next;
    assert " --hide" == [' '] + "--hide" && "--hide" == ['-'] + "-hide" == "-" + "-hide";
    assert [v] + ["--hide"] == [v, "--hide"];
  }

  lemma SplitOptions(v: string, hidden: bool)
    ensures Split(Scan([], v, None, true), Options(hidden)) == Ok(Arguments(v, hidden))
  {
    HideOption(v);
    assert Split(Scan([], v, None, true), "") == Ok([] + [v]);
    assert [] + [v] == [v];
    hide Split;
  }

  lemma OpeningQuote(rest: string)
    ensures Unescape("", "\"" + rest) == Unescape("\"", rest)
  {
    assert ("\"" + rest)[1..] == rest && "" + ['"'] == "\"";
  }

  lemma OptionsPlain(hidden: bool)
    ensures '\\' !in "\"" + Options(hidden) && '%' !in "\"" + Options(hidden)
  {}

  /** What the outer layer leaves of a quoted program and its option. */
  lemma OuterLayer(v: string, hidden: bool)
    ensures Unescape("", "\"" + Pieces(v, ExecPiece) + "\"" + Options(hidden))
      == Ok("\"" + Pieces(v, InnerPiece) + "\"" + Options(hidden))
  {
    hide Unescape, Pieces, Options;
    var tail := "\"" + Options(hidden);
    OpeningQuote(Pieces(v, ExecPiece) + tail);
    UnescapePieces("\"", v, tail);
    OptionsPlain(hidden);
    UnescapePlain("\"" + Pieces(v, InnerPiece), tail);
    Regroup(Pieces(v, ExecPiece), Options(hidden));
    Regroup(Pieces(v, InnerPiece), Options(hidden));
  }

  lemma Regroup(a: string, b: string)
    ensures "\"" + a + "\"" + b == "\"" + (a + ("\"" + b))
    ensures "\"" + a + "\"" + b == "\"" + a + ("\"" + b)
  {}

  /** The Exec key decodes to exactly the program and its option, whatever the path. */
  lemma ExecRoundTrip(v: string, hidden: bool)
    requires !HasControl(v)
    ensures ExecText(v).Ok? && Decoded(ExecText(v).value + Options(hidden)) == Ok(Arguments(v, hidden))
  {
    hide Split, Unescape, Pieces, Reads, Replace, Options, HasControl;
    ExecPieces(v);
    OuterLayer(v, hidden);
    InnerReads();
    QuotedWord(v, InnerPiece, Itself, Options(hidden));
    PiecesItself(v);
    SplitOptions(v, hidden);
  }

  // ---------------------------------------------------------------- lines

  function IndexOf(s: string, c: char): (i: nat)
    ensures i <= |s| && (i < |s| ==> s[i] == c) && c !in s[..i]
  {
    if s == "" || s[0] == c then 0
    else
      var i := IndexOf(s[1..], c) + 1;
      assert s[..i] == [s[0]] + s[1..][..i - 1];
      i
  }

  /** `str::lines`: a line's end is a newline and the carriage return before it, if any. */
  function LinesOf(text: string): seq<string>
    decreases |text|
  {
    var i := IndexOf(text, '\n');
    if i == |text| then if text == "" then [] else [text]
    else [if i > 0 && text[i - 1] == '\r' then text[..i - 1] else text[..i]] + LinesOf(text[i + 1..])
  }

  datatype Ini = Ini(active: bool, seen: bool, keys: map<string, string>)

  const SECTION := "[Desktop Entry]"

  function ReadLine(ini: Ini, raw: string): Result<Ini> {
    var line := Trim(raw);
    if line == "" || line[0] == '#' then Ok(ini)
    else if line[0] == '[' then
      var active := line == SECTION;
      if active && ini.seen then Err(Invalid) else Ok(ini.(active := active, seen := ini.seen || active))
    else if !ini.active then Ok(ini)
    else
      var i := IndexOf(line, '=');
      if i == |line| || line[..i] in ini.keys then Err(Invalid)
      else Ok(ini.(keys := ini.keys[line[..i] := line[i + 1..]]))
  }

  function ReadLines(ini: Ini, lines: seq<string>): Result<Ini>
    decreases |lines|
  {
    if lines == [] then Ok(ini)
    else
      var next :- ReadLine(ini, lines[0]);
      ReadLines(next, lines[1..])
  }

  function ValuesOf(text: string): Result<map<string, string>> {
    var ini :- ReadLines(Ini(false, false, map[]), LinesOf(text));
    if ini.seen then Ok(ini.keys) else Err(Invalid)
  }

  method Values(text: string) returns (r: Result<map<string, string>>)
    ensures r == ValuesOf(text)
  {
    var active, seen, keys: map<string, string> := false, false, map[];
    var lines := LinesOf(text);
    for i := 0 to |lines|
      invariant ReadLines(Ini(false, false, map[]), lines) == ReadLines(Ini(active, seen, keys), lines[i..])
    {
      var line := Trim(lines[i]);
      assert lines[i..][1..] == lines[i + 1..];
      if line == "" || line[0] == '#' {
        continue;
      }
      if line[0] == '[' {
        active := line == SECTION;
        if active && seen {
          return Err(Invalid);
        }
        seen := seen || active;
        continue;
      }
      if !active {
        continue;
      }
      var cut := IndexOf(line, '=');
      if cut == |line| || line[..cut] in keys {
        return Err(Invalid);
      }
      keys := keys[line[..cut] := line[cut + 1..]];
    }
    if !seen {
      return Err(Invalid);
    }
    r := Ok(keys);
  }

  // ---------------------------------------------------------------- what is written

  function Joined(lines: seq<string>): string {
    if lines == [] then "" else lines[0] + "\n" + Joined(lines[1..])
  }

  datatype Entry = Entry(key: string, value: string) {
    function Line(): string { key + "=" + value }
  }

  function Rendered(command: string, themed: bool, autostart: bool): seq<Entry> {
    [Entry("Type", "Application"), Entry("Name", "OpenWave"),
     Entry("Comment", "The audio mixing matrix for Linux"), Entry("Exec", command),
     Entry("Icon", if themed then "openwave" else "audio-input-microphone"),
     Entry("Categories", "AudioVideo;Audio;Mixer;"), Entry("Terminal", "false"),
     Entry("StartupWMClass", "com.github.openwave"), Entry("X-GNOME-UsesNotifications", "true")]
    + if autostart then [Entry("X-GNOME-Autostart-enabled", "true")] else []
  }

  function LinesFor(entries: seq<Entry>): seq<string> {
    if entries == [] then [] else [entries[0].Line()] + LinesFor(entries[1..])
  }

  function Render(v: string, hidden: bool, themed: bool, autostart: bool): Result<string> {
    var command :- ExecText(v);
    Ok(Joined([SECTION] + LinesFor(Rendered(command + Options(hidden), themed, autostart))))
  }

  /** `autostart_state_at` of an existing file: enabled, and hidden at start. */
  function AutostartState(text: string): Result<(bool, bool)> {
    var entry :- ValuesOf(text);
    var enabled := !("Hidden" in entry && entry["Hidden"] == "true")
      && !("X-GNOME-Autostart-enabled" in entry && entry["X-GNOME-Autostart-enabled"] == "false");
    var args :- Decoded(if "Exec" in entry then entry["Exec"] else "");
    Ok((enabled, "--hide" in args))
  }

  // ---------------------------------------------------------------- and read back

  /** A line that comes back as it is. */
  predicate Clean(line: string) {
    line != "" && '\n' !in line && !IsWhitespace(line[0]) && !IsWhitespace(line[|line| - 1])
  }

  lemma {:induction false} FirstIs(s: string, c: char, n: nat)
    requires n < |s| && s[n] == c && c !in s[..n]
    ensures IndexOf(s, c) == n
  {
    if n > 0 {
      assert s[0] == s[..n][0] && s[1..][..n - 1] == s[..n][1..];
      FirstIs(s[1..], c, n - 1);
    }
  }

  lemma FirstLine(line: string, rest: string)
    requires Clean(line)
    ensures LinesOf(line + "\n" + rest) == [line] + LinesOf(rest)
  {
    var text, n := line + "\n" + rest, |line|;
    assert text[n] == '\n' && text[..n] == line && text[n + 1..] == rest;
    FirstIs(text, '\n', n);
    assert text[n - 1] == line[n - 1];
  }

  lemma {:induction false} LinesOfJoined(lines: seq<string>)
    requires forall i :: 0 <= i < |lines| ==> Clean(lines[i])
    ensures LinesOf(Joined(lines)) == lines
  {
    if lines != [] {
      LinesOfJoined(lines[1..]);
      FirstLine(lines[0], Joined(lines[1..]));
      assert [lines[0]] + lines[1..] == lines;
      hide LinesOf, Clean;
    }
  }

  predicate GoodKey(key: string) {
    key != "" && '=' !in key && '\n' !in key && key[0] != '[' && key[0] != '#' && !IsWhitespace(key[0])
  }

  predicate GoodEntry(e: Entry) {
    GoodKey(e.key) && GoodValue(e.value)
  }

  predicate GoodValue(value: string) {
    '\n' !in value && (value == "" || !IsWhitespace(value[|value| - 1]))
  }

  lemma ReadEntry(ini: Ini, e: Entry)
    requires ini.active && GoodEntry(e) && e.key !in ini.keys
    ensures Clean(e.Line())
    ensures ReadLine(ini, e.Line()) == Ok(ini.(keys := ini.keys[e.key := e.value]))
  {
    var line, n := e.Line(), |e.key|;
    assert line[..n] == e.key && line[n] == '=' && line[n + 1..] == e.value;
    assert line[0] == e.key[0];
    assert e.value != "" ==> line[|line| - 1] == e.value[|e.value| - 1];
    FirstIs(line, '=', n);
  }

  function Entered(keys: map<string, string>, entries: seq<Entry>): map<string, string>
    decreases |entries|
  {
    if entries == [] then keys else Entered(keys[entries[0].key := entries[0].value], entries[1..])
  }

  /** Entries under distinct keys are read back, each with its own value. */
  lemma {:induction false} ReadEntries(ini: Ini, entries: seq<Entry>)
    requires ini.active
    requires forall i :: 0 <= i < |entries| ==> GoodEntry(entries[i]) && entries[i].key !in ini.keys
    requires forall i, j :: 0 <= i < j < |entries| ==> entries[i].key != entries[j].key
    ensures forall i :: 0 <= i < |LinesFor(entries)| ==> Clean(LinesFor(entries)[i])
    ensures ReadLines(ini, LinesFor(entries)) == Ok(ini.(keys := Entered(ini.keys, entries)))
    decreases |entries|
  {
    hide ReadLine, Clean, GoodEntry;
    if entries != [] {
      ReadEntry(ini, entries[0]);
      var next := ini.(keys := ini.keys[entries[0].key := entries[0].value]);
      ReadEntries(next, entries[1..]);
      assert LinesFor(entries)[1..] == LinesFor(entries[1..]);
    }
  }

  predicate HasKey(entries: seq<Entry>, k: string) {
    exists i :: 0 <= i < |entries| && entries[i].key == k
  }

  lemma {:induction false} EnteredKeeps(keys: map<string, string>, entries: seq<Entry>, k: string)
    requires !HasKey(entries, k)
    ensures k in Entered(keys, entries) <==> k in keys
    ensures k in keys ==> Entered(keys, entries)[k] == keys[k]
    decreases |entries|
  {
    if entries != [] {
      assert entries[0].key != k;
      assert !HasKey(entries[1..], k) by {
        assert forall i :: 0 <= i < |entries[1..]| ==> entries[1..][i] == entries[i + 1];
      }
      EnteredKeeps(keys[entries[0].key := entries[0].value], entries[1..], k);
    }
  }

  /** Entry i is found under its key. */
  lemma {:induction false} EnteredHas(keys: map<string, string>, entries: seq<Entry>, i: nat)
    requires i < |entries|
    requires forall a, b :: 0 <= a < b < |entries| ==> entries[a].key != entries[b].key
    ensures entries[i].key in Entered(keys, entries) && Entered(keys, entries)[entries[i].key] == entries[i].value
    decreases |entries|
  {
    var next := keys[entries[0].key := entries[0].value];
    assert forall j :: 0 <= j < |entries[1..]| ==> entries[1..][j] == entries[j + 1];
    if i == 0 {
      EnteredKeeps(next, entries[1..], entries[0].key);
    } else {
      EnteredHas(next, entries[1..], i - 1);
    }
  }

  lemma CommandClean(v: string, hidden: bool)
    requires !HasControl(v)
    ensures var command := ExecText(v).value + Options(hidden);
      GoodEntry(Entry("Exec", command))
  {
    ExecPieces(v);
    PiecesNoBreak(v);
    var command := ExecText(v).value + Options(hidden);
    assert hidden ==> " --hide"[6] == 'e' && command[|command| - 1] == " --hide"[6];
    assert !hidden ==> command[|command| - 1] == '"';
  }

  lemma {:induction false} PiecesNoBreak(v: string)
    requires !HasControl(v)
    ensures '\n' !in Pieces(v, ExecPiece)
  {
    if v != "" {
      assert !IsControl(v[0]);
      forall i | 0 <= i < |v[1..]| ensures !IsControl(v[1..][i]) {
        assert v[1..][i] == v[i + 1];
      }
      PiecesNoBreak(v[1..]);
    }
  }

  lemma GoodKeys()
    ensures GoodKey("Type") && GoodKey("Name") && GoodKey("Comment") && GoodKey("Icon") && GoodKey("Categories")
  {}

  lemma GoodLongKeys()
    ensures GoodKey("Terminal") && GoodKey("StartupWMClass")
  {}

  lemma GoodGnomeKeys()
    ensures GoodKey("X-GNOME-UsesNotifications") && GoodKey("X-GNOME-Autostart-enabled")
  {}

  lemma GoodValues()
    ensures GoodValue("Application") && GoodValue("OpenWave") && GoodValue("openwave")
    ensures GoodValue("audio-input-microphone")
  {}

  lemma GoodLists()
    ensures GoodValue("AudioVideo;Audio;Mixer;")
    ensures GoodValue("com.github.openwave") && GoodValue("false") && GoodValue("true")
  {}

  lemma GoodComment()
    ensures GoodValue("The audio mixing matrix for Linux")
  {}

  lemma RenderedGood(command: string, themed: bool, autostart: bool)
    requires GoodEntry(Entry("Exec", command))
    ensures var entries := Rendered(command, themed, autostart);
      forall i :: 0 <= i < |entries| ==> GoodEntry(entries[i])
  {
    hide GoodKey, GoodValue;
    GoodKeys();
    GoodLongKeys();
    GoodGnomeKeys();
    GoodValues();
    GoodLists();
    GoodComment();
  }

  lemma RenderedKeys(command: string, themed: bool, autostart: bool)
    ensures var entries := Rendered(command, themed, autostart);
      && (forall i, j :: 0 <= i < j < |entries| ==> entries[i].key != entries[j].key)
      && (forall i :: 0 <= i < |entries| ==> entries[i].key != "Hidden")
      && |entries| == (if autostart then 10 else 9) && entries[3] == Entry("Exec", command)
      && (autostart ==> entries[9] == Entry("X-GNOME-Autostart-enabled", "true"))
      && (forall i :: 0 <= i < 9 ==> entries[i].key != "X-GNOME-Autostart-enabled")
  {
    var entries := Rendered(command, themed, autostart);
    forall i | 0 <= i < |entries|
      ensures |entries[i].key| == [4, 4, 7, 4, 4, 10, 8, 14, 25, 25][i]
    {}
  }

  /** The entry OpenWave writes for any path is enabled, and starts hidden when it was
      asked to (or when the program is itself called "--hide"). */
  lemma RenderedReadsBack(v: string, hidden: bool, themed: bool, autostart: bool)
    requires !HasControl(v)
    ensures Render(v, hidden, themed, autostart).Ok?
    ensures AutostartState(Render(v, hidden, themed, autostart).value) == Ok((true, hidden || v == "--hide"))
  {
    var command := ExecText(v).value + Options(hidden);
    var entries := Rendered(command, themed, autostart);
    hide *;
    CommandClean(v, hidden);
    RenderedGood(command, themed, autostart);
    RenderedKeys(command, themed, autostart);
    EnteredHas(map[], entries, 3);
    assert !HasKey(entries, "Hidden") by {
      hide *;
    }
    EnteredKeeps(map[], entries, "Hidden");
    if autostart {
      EnteredHas(map[], entries, 9);
    } else {
      EnteredKeeps(map[], entries, "X-GNOME-Autostart-enabled");
    }
    RenderedLines(entries);
    ExecRoundTrip(v, hidden);
  }

  lemma SectionRead()
    ensures Clean(SECTION) && ReadLine(Ini(false, false, map[]), SECTION) == Ok(Ini(true, true, map[]))
  {
    assert SECTION[14] == ']';
  }

  lemma ReadSection(rest: seq<string>)
    ensures ReadLines(Ini(false, false, map[]), [SECTION] + rest) == ReadLines(Ini(true, true, map[]), rest)
  {
    SectionRead();
    assert ([SECTION] + rest)[1..] == rest;
    hide ReadLine;
  }

  lemma RenderedLines(entries: seq<Entry>)
    requires forall i :: 0 <= i < |entries| ==> GoodEntry(entries[i])
    requires forall i, j :: 0 <= i < j < |entries| ==> entries[i].key != entries[j].key
    ensures ValuesOf(Joined([SECTION] + LinesFor(entries))) == Ok(Entered(map[], entries))
  {
    hide Clean, GoodEntry, Joined, LinesOf, ReadLine, Entered, ReadLines, LinesFor;
    SectionRead();
    ReadEntries(Ini(true, true, map[]), entries);
    ReadSection(LinesFor(entries));
    LinesOfJoined([SECTION] + LinesFor(entries));
  }
}
