/** Command quoting in desktop entries and systemd units, and the word splitter that
    reads both back (desktop.rs, service.rs). */
module Quoting {
  import opened Wrappers
  import opened Strings

  // ---------------------------------------------------------------- replacement

  /** `str::replace` of one character. */
  function Replace(s: string, c: char, with: string): string {
    if s == "" then "" else (if s[0] == c then with else [s[0]]) + Replace(s[1..], c, with)
  }

  /** `str::replace` of a doubled character by a single one. */
  function Collapse(s: string, c: char): string {
    if |s| < 2 then s
    else if s[0] == c && s[1] == c then [c] + Collapse(s[2..], c)
    else [s[0]] + Collapse(s[1..], c)
  }

  function Pieces(v: string, piece: char -> string): string {
    if v == "" then "" else piece(v[0]) + Pieces(v[1..], piece)
  }

  lemma {:induction false} ReplaceConcat(a: string, b: string, c: char, with: string)
    ensures Replace(a + b, c, with) == Replace(a, c, with) + Replace(b, c, with)
  {
    if a == "" {
      assert a + b == b;
    } else {
      ReplaceConcat(a[1..], b, c, with);
      assert (a + b)[1..] == a[1..] + b;
    }
  }

  // ---------------------------------------------------------------- words

  datatype Scan = Scan(result: seq<string>, word: string, quote: Option<char>, started: bool)

  const START := Scan([], "", None, false)

  /** One character that is not an escape. */
  function Step(s: Scan, c: char): Scan {
    if s.quote.Some? then
      if c == s.quote.value then s.(quote := None) else s.(word := s.word + [c])
    else if c == '"' || c == '\'' then s.(quote := Some(c), started := true)
    else if IsWhitespace(c) then
      if s.started then s.(result := s.result + [s.word], word := "", started := false) else s
    else s.(word := s.word + [c], started := true)
  }

  predicate Escapes(s: Scan, c: char) {
    c == '\\' && s.quote != Some('\'')
  }

  function Split(s: Scan, text: string): Result<seq<string>>
    decreases |text|
  {
    if text == "" then
      if s.quote.Some? then Err(Invalid) else Ok(if s.started then s.result + [s.word] else s.result)
    else if Escapes(s, text[0]) then
      if |text| == 1 then Err(Invalid)
      else Split(s.(word := s.word + [text[1]], started := true), text[2..])
    else Split(Step(s, text[0]), text[1..])
  }

  method SplitWords(value: string) returns (r: Result<seq<string>>)
    ensures r == Split(START, value)
  {
    var result: seq<string>, word, quote: Option<char>, started := [], "", None, false;
    var i := 0;
    while i < |value|
      invariant i <= |value|
      invariant Split(START, value) == Split(Scan(result, word, quote, started), value[i..])
    {
      var c := value[i];
      i := i + 1;
      if c == '\\' && quote != Some('\'') {
        if i == |value| {
          return Err(Invalid);
        }
        word, started := word + [value[i]], true;
        i := i + 1;
      } else if quote.Some? {
        if c == quote.value {
          quote := None;
        } else {
          word := word + [c];
        }
      } else if c == '"' || c == '\'' {
        quote, started := Some(c), true;
      } else if IsWhitespace(c) {
        if started {
          result, word, started := result + [word], "", false;
        }
      } else {
        word, started := word + [c], true;
      }
    }
    if quote.Some? {
      return Err(Invalid);
    }
    r := Ok(if started then result + [word] else result);
  }

  /** Characters without a meaning of their own just extend the word. */
  lemma {:induction false} SplitPlain(s: Scan, plain: string)
    requires s.quote.None? && s.started
    requires forall i :: 0 <= i < |plain| ==> plain[i] !in "\\\"'" && !IsWhitespace(plain[i])
    ensures Split(s, plain) == Ok(s.result + [s.word + plain])
    decreases |plain|
  {
    if plain == "" {
      assert s.word + plain == s.word;
    } else {
      var next := s.(word := s.word + [plain[0]]);
      SplitPlain(next, plain[1..]);
      assert s.word + [plain[0]] + plain[1..] == s.word + plain;
    }
  }

  /** Inside double quotes, every piece reads as what it shows. */
  ghost predicate Reads(piece: char -> string, shown: char -> string) {
    forall c, s: Scan, tail :: s.quote == Some('"') && s.started ==>
      Split(s, piece(c) + tail) == Split(s.(word := s.word + shown(c)), tail)
  }

  lemma {:induction false} SplitPieces(s: Scan, v: string, piece: char -> string, shown: char -> string, rest: string)
    requires s.quote == Some('"') && s.started && Reads(piece, shown)
    ensures Split(s, Pieces(v, piece) + rest) == Split(s.(word := s.word + Pieces(v, shown)), rest)
    decreases |v|
  {
    hide Split, Reads;
    if v == "" {
      assert Pieces(v, piece) + rest == rest && s.word + Pieces(v, shown) == s.word;
    } else {
      hide Pieces;
      var next := s.(word := s.word + shown(v[0]));
      FirstPiece(v, piece, rest);
      FirstShown(v, shown, s.word);
      ReadsOne(s, v[0], piece, shown, Pieces(v[1..], piece) + rest);
      SplitPieces(next, v[1..], piece, shown, rest);
    }
  }

  lemma FirstPiece(v: string, piece: char -> string, rest: string)
    requires v != ""
    ensures Pieces(v, piece) + rest == piece(v[0]) + (Pieces(v[1..], piece) + rest)
  {}

  lemma FirstShown(v: string, shown: char -> string, word: string)
    requires v != ""
    ensures word + Pieces(v, shown) == word + shown(v[0]) + Pieces(v[1..], shown)
  {}

  lemma ReadsOne(s: Scan, c: char, piece: char -> string, shown: char -> string, tail: string)
    requires s.quote == Some('"') && s.started && Reads(piece, shown)
    ensures Split(s, piece(c) + tail) == Split(s.(word := s.word + shown(c)), tail)
  {}

  /** So a string quoted piece by piece reads as one word. */
  lemma QuotedWord(v: string, piece: char -> string, shown: char -> string, rest: string)
    requires Reads(piece, shown)
    ensures Split(START, "\"" + Pieces(v, piece) + "\"" + rest) == Split(Scan([], Pieces(v, shown), None, true), rest)
  {
    var open := Scan([], "", Some('"'), true);
    var text := Pieces(v, piece) + ("\"" + rest);
    OneStep(START, '"', text);
    SplitPieces(open, v, piece, shown, "\"" + rest);
    assert "" + Pieces(v, shown) == Pieces(v, shown);
    OneStep(open.(word := Pieces(v, shown)), '"', rest);
    assert "\"" + Pieces(v, piece) + "\"" + rest == ['"'] + text;
    hide Split, Reads;
  }

  lemma OneStep(s: Scan, c: char, rest: string)
    requires !Escapes(s, c)
    ensures Split(s, [c] + rest) == Split(Step(s, c), rest)
  {
    assert ([c] + rest)[1..] == rest;
  }

  // ---------------------------------------------------------------- systemd

  function SystemdQuote(v: string): string {
    "\"" + Replace(Replace(Replace(Replace(v, '\\', "\\\\"), '"', "\\\""), '%', "%%"), '$', "$$") + "\""
  }

  function SystemdPiece(c: char): string {
    if c == '\\' then "\\\\" else if c == '"' then "\\\"" else Doubled(c)
  }

  function Doubled(c: char): string {
    if c == '%' || c == '$' then [c, c] else [c]
  }

  function DoubledDollar(c: char): string {
    if c == '$' then [c, c] else [c]
  }

  lemma {:induction false} ReplaceAbsent(s: string, c: char, with: string)
    requires c !in s
    ensures Replace(s, c, with) == s
  {
    if s != "" {
      ReplaceAbsent(s[1..], c, with);
    }
  }

  lemma ReplaceOne(x: char, c: char, with: string)
    ensures Replace([x], c, with) == if x == c then with else [x]
  {
    assert [x][1..] == "";
  }

  lemma SystemdPieceIs(c: char)
    ensures Replace(Replace(Replace(Replace([c], '\\', "\\\\"), '"', "\\\""), '%', "%%"), '$', "$$") == SystemdPiece(c)
  {
    hide Replace;
    ReplaceOne(c, '\\', "\\\\");
    ReplaceOne(c, '"', "\\\"");
    ReplaceOne(c, '%', "%%");
    ReplaceOne(c, '$', "$$");
    ReplaceAbsent("\\\\", '"', "\\\"");
    ReplaceAbsent("\\\\", '%', "%%");
    ReplaceAbsent("\\\\", '$', "$$");
    ReplaceAbsent("\\\"", '%', "%%");
    ReplaceAbsent("\\\"", '$', "$$");
    ReplaceAbsent("%%", '$', "$$");
  }

  lemma {:induction false} SystemdPieces(v: string)
    ensures Replace(Replace(Replace(Replace(v, '\\', "\\\\"), '"', "\\\""), '%', "%%"), '$', "$$") ==
      Pieces(v, SystemdPiece)
  {
    if v != "" {
      var c, t := [v[0]], v[1..];
      assert v == c + t;
      SystemdPieces(t);
      SystemdPieceIs(v[0]);
      ReplaceConcat(c, t, '\\', "\\\\");
      var c1, t1 := Replace(c, '\\', "\\\\"), Replace(t, '\\', "\\\\");
      ReplaceConcat(c1, t1, '"', "\\\"");
      var c2, t2 := Replace(c1, '"', "\\\""), Replace(t1, '"', "\\\"");
      ReplaceConcat(c2, t2, '%', "%%");
      var c3, t3 := Replace(c2, '%', "%%"), Replace(t2, '%', "%%");
      ReplaceConcat(c3, t3, '$', "$$");
    }
  }

  lemma SystemdPieceReads(s: Scan, c: char, tail: string)
    requires s.quote == Some('"') && s.started
    ensures Split(s, SystemdPiece(c) + tail) == Split(s.(word := s.word + Doubled(c)), tail)
  {
    var text := SystemdPiece(c) + tail;
    if |SystemdPiece(c)| == 1 {
      assert text[1..] == tail;
    } else {
      assert text[2..] == tail;
      if c == '%' || c == '$' {
        assert text[1..] == [c] + tail && text[1..][1..] == tail;
        assert s.word + [c] + [c] == s.word + [c, c];
      }
    }
  }

  lemma {:induction false} CollapsePercent(v: string)
    ensures Collapse(Pieces(v, Doubled), '%') == Pieces(v, DoubledDollar)
  {
    if v != "" {
      CollapsePercent(v[1..]);
      var rest := Pieces(v[1..], Doubled);
      var text := Pieces(v, Doubled);
      if v[0] == '%' {
        assert text[2..] == rest;
      } else if v[0] == '$' {
        assert text[1..] == "$" + rest && text[1..][1..] == rest;
        assert Collapse("$" + rest, '%') == "$" + Collapse(rest, '%');
      } else {
        assert text[1..] == rest;
      }
    }
  }

  lemma {:induction false} CollapseDollar(v: string)
    ensures Collapse(Pieces(v, DoubledDollar), '$') == v
  {
    if v != "" {
      CollapseDollar(v[1..]);
      var rest := Pieces(v[1..], DoubledDollar);
      var text := Pieces(v, DoubledDollar);
      if v[0] == '$' {
        assert text[2..] == rest;
      } else {
        assert text[1..] == rest;
      }
    }
  }

  lemma SystemdReads()
    ensures Reads(SystemdPiece, Doubled)
  {
    forall c, s: Scan, tail | s.quote == Some('"') && s.started
      ensures Split(s, SystemdPiece(c) + tail) == Split(s.(word := s.word + Doubled(c)), tail)
    {
      SystemdPieceReads(s, c, tail);
    }
  }

  /** A quoted command line reads back as the one argument it was made from, after the
      specifier and variable escapes are collapsed: for every string whatever. */
  lemma SystemdRoundTrip(v: string)
    ensures Split(START, SystemdQuote(v)).Ok? && |Split(START, SystemdQuote(v)).value| == 1
    ensures Collapse(Collapse(Split(START, SystemdQuote(v)).value[0], '%'), '$') == v
  {
    SystemdPieces(v);
    SystemdReads();
    QuotedWord(v, SystemdPiece, Doubled, "");
    assert Split(Scan([], Pieces(v, Doubled), None, true), "") == Ok([] + [Pieces(v, Doubled)]);
    assert SystemdQuote(v) + "" == SystemdQuote(v);
    hide Split, SystemdQuote, Pieces, Reads;
    CollapsePercent(v);
    CollapseDollar(v);
  }
}
