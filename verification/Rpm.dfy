/** The answer of an RPM ownership query (installation.rs): a list of shell-escaped
    entries, parsed exactly or not at all. */
module Rpm {
  import opened Wrappers

  const QUOTE: byte := 39
  const BACKSLASH: byte := 92
  const NEWLINE: byte := 10
  const SLASH: byte := 47
  const P: byte := 80

  /** One line of the answer: a file name, or a name the package provides. */
  datatype Entry = Entry(provided: bool, path: seq<byte>)

  /** Provided names need not be paths; nothing else may be empty, relative or hold NUL. */
  predicate Proper(e: Entry) {
    e.path != [] && (e.provided || e.path[0] == SLASH) && 0 !in e.path
  }

  predicate AllProper(entries: seq<Entry>) {
    forall i :: 0 <= i < |entries| ==> Proper(entries[i])
  }

  // ---------------------------------------------------------------- the encoding

  const INNER: seq<byte> := [QUOTE, BACKSLASH, QUOTE, QUOTE]
  const LAST: seq<byte> := [QUOTE, NEWLINE]

  function Escaped(path: seq<byte>): seq<byte> {
    if path == [] then []
    else (if path[0] == QUOTE then INNER else [path[0]]) + Escaped(path[1..])
  }

  function Encoded(e: Entry): seq<byte> {
    (if e.provided then [P] else []) + [QUOTE] + Escaped(e.path) + LAST
  }

  function EncodedAll(entries: seq<Entry>): seq<byte> {
    if entries == [] then [] else Encoded(entries[0]) + EncodedAll(entries[1..])
  }

  // ---------------------------------------------------------------- the parser

  predicate StartsWith(s: seq<byte>, prefix: seq<byte>) {
    |prefix| <= |s| && s[..|prefix|] == prefix
  }

  /** The rest of a quoted path, up to its closing quote and newline. */
  function Body(path: seq<byte>, rest: seq<byte>): Option<(seq<byte>, seq<byte>)>
    decreases |rest|
  {
    if rest == [] then None
    else if rest[0] != QUOTE then Body(path + [rest[0]], rest[1..])
    else if StartsWith(rest, INNER) then Body(path + [QUOTE], rest[4..])
    else if StartsWith(rest, LAST) then Some((path, rest[2..]))
    else None
  }

  lemma {:induction false} BodyShorter(path: seq<byte>, rest: seq<byte>)
    ensures Body(path, rest).Some? ==> |Body(path, rest).value.1| < |rest|
    decreases |rest|
  {
    if rest != [] && rest[0] != QUOTE {
      BodyShorter(path + [rest[0]], rest[1..]);
    } else if rest != [] && StartsWith(rest, INNER) {
      BodyShorter(path + [QUOTE], rest[4..]);
    }
  }

  function ParseOne(rest: seq<byte>): (r: Option<(Entry, seq<byte>)>)
    ensures r.Some? ==> |r.value.1| < |rest|
  {
    var provided := StartsWith(rest, [P]);
    var open := if provided then rest[1..] else rest;
    if !StartsWith(open, [QUOTE]) then None
    else
      BodyShorter([], open[1..]);
      var body := Body([], open[1..]);
      if body.None? || !Proper(Entry(provided, body.value.0)) then None
      else Some((Entry(provided, body.value.0), body.value.1))
  }

  function ParseAll(bytes: seq<byte>): Option<seq<Entry>>
    decreases |bytes|
  {
    if bytes == [] then Some([])
    else
      var one := ParseOne(bytes);
      if one.None? then None
      else
        var rest := ParseAll(one.value.1);
        if rest.None? then None else Some([one.value.0] + rest.value)
  }

  // ---------------------------------------------------------------- exact inverse

  lemma {:induction false} BodyOfEscaped(path: seq<byte>, more: seq<byte>, rest: seq<byte>)
    ensures Body(path, Escaped(more) + LAST + rest) == Some((path + more, rest))
    decreases |more|
  {
    var text := Escaped(more) + LAST + rest;
    if more == [] {
      assert text == LAST + rest && text[0] == QUOTE && text[1] == NEWLINE;
      assert text[..2] == LAST && text[2..] == rest && path + more == path;
    } else {
      BodyOfEscaped(path + [more[0]], more[1..], rest);
      assert path + [more[0]] + more[1..] == path + more;
      var tail := Escaped(more[1..]) + LAST + rest;
      if more[0] == QUOTE {
        assert text == INNER + tail && text[..4] == INNER && text[4..] == tail;
      } else {
        assert text == [more[0]] + tail && text[1..] == tail;
      }
    }
  }

  lemma ParseOneEncoded(e: Entry, rest: seq<byte>)
    requires Proper(e)
    ensures ParseOne(Encoded(e) + rest) == Some((e, rest))
  {
    BodyOfEscaped([], e.path, rest);
    var text := Encoded(e) + rest;
    var quoted := [QUOTE] + (Escaped(e.path) + LAST + rest);
    assert text == (if e.provided then [P] else []) + quoted;
    assert quoted[1..] == Escaped(e.path) + LAST + rest && quoted[..1] == [QUOTE];
    assert e.provided ==> text[1..] == quoted && text[..1] == [P];
    assert !e.provided ==> text == quoted && text[..1] != [P];
    assert [] + e.path == e.path;
    hide Body;
  }

  /** Whatever was encoded is what is parsed, ... */
  lemma {:induction false} ParsesEncoded(entries: seq<Entry>)
    requires AllProper(entries)
    ensures ParseAll(EncodedAll(entries)) == Some(entries)
  {
    hide ParseOne, Encoded;
    if entries != [] {
      ParseOneEncoded(entries[0], EncodedAll(entries[1..]));
      ParsesEncoded(entries[1..]);
      Nonempty(entries[0]);
      assert [entries[0]] + entries[1..] == entries;
    }
  }

  lemma Nonempty(e: Entry)
    ensures Encoded(e) != []
  {}

  lemma {:induction false} BodyIsEscaped(path: seq<byte>, rest: seq<byte>)
    ensures Body(path, rest).Some? ==>
      var (whole, after) := Body(path, rest).value;
      && |path| <= |whole| && whole[..|path|] == path
      && rest == Escaped(whole[|path|..]) + LAST + after
    decreases |rest|
  {
    if rest != [] && rest[0] != QUOTE {
      BodyIsEscaped(path + [rest[0]], rest[1..]);
      if Body(path, rest).Some? {
        OneEscaped(path, rest[0], Body(path, rest).value.0);
        assert rest == [rest[0]] + rest[1..];
      }
    } else if rest != [] && StartsWith(rest, INNER) {
      BodyIsEscaped(path + [QUOTE], rest[4..]);
      if Body(path, rest).Some? {
        OneEscaped(path, QUOTE, Body(path, rest).value.0);
        assert rest == INNER + rest[4..];
      }
    } else if rest != [] && StartsWith(rest, LAST) {
      assert rest == LAST + rest[2..] && path[|path|..] == [] && path[..|path|] == path;
    }
  }

  lemma OneEscaped(path: seq<byte>, b: byte, whole: seq<byte>)
    requires |path| < |whole| && whole[..|path| + 1] == path + [b]
    ensures whole[..|path|] == path
    ensures Escaped(whole[|path|..]) == (if b == QUOTE then INNER else [b]) + Escaped(whole[|path| + 1..])
  {
    assert whole[..|path|] == whole[..|path| + 1][..|path|];
    assert whole[|path|] == whole[..|path| + 1][|path|];
    assert whole[|path|..][1..] == whole[|path| + 1..];
  }

  /** ... and whatever is parsed was encoded: nothing else is accepted. */
  lemma {:induction false} ParsedIsEncoded(bytes: seq<byte>)
    requires ParseAll(bytes).Some?
    ensures AllProper(ParseAll(bytes).value) && EncodedAll(ParseAll(bytes).value) == bytes
    decreases |bytes|
  {
    if bytes != [] {
      var (e, rest) := ParseOne(bytes).value;
      OneIsEncoded(bytes);
      ParsedIsEncoded(rest);
      hide ParseOne, Encoded;
      var entries := ParseAll(bytes).value;
      assert entries[1..] == ParseAll(rest).value;
    }
  }

  lemma OneIsEncoded(bytes: seq<byte>)
    requires ParseOne(bytes).Some?
    ensures var (e, rest) := ParseOne(bytes).value;
      Proper(e) && bytes == Encoded(e) + rest
  {
    var provided := StartsWith(bytes, [P]);
    var open := if provided then bytes[1..] else bytes;
    BodyIsEscaped([], open[1..]);
    var (path, rest) := Body([], open[1..]).value;
    assert path[0..] == path;
    hide Body, Escaped;
    Reassemble(bytes, open, provided, Escaped(path), rest);
  }

  lemma Reassemble(bytes: seq<byte>, open: seq<byte>, provided: bool, middle: seq<byte>, rest: seq<byte>)
    requires StartsWith(open, [QUOTE]) && open[1..] == middle + LAST + rest
    requires if provided then StartsWith(bytes, [P]) && open == bytes[1..] else open == bytes
    ensures bytes == (if provided then [P] else []) + [QUOTE] + middle + LAST + rest
  {
    assert open == open[..1] + open[1..];
    assert provided ==> bytes == bytes[..1] + open;
  }

  /** So an answer has one reading only. */
  lemma UniqueReading(a: seq<Entry>, b: seq<Entry>)
    requires AllProper(a) && AllProper(b) && EncodedAll(a) == EncodedAll(b)
    ensures a == b
  {
    ParsesEncoded(a);
    ParsesEncoded(b);
  }

  // ---------------------------------------------------------------- the query

  datatype Output = Output(success: bool, stdout: seq<byte>, stderr: seq<byte>)

  predicate Mentions(entries: seq<Entry>, probes: seq<seq<byte>>) {
    exists i :: 0 <= i < |entries| && entries[i].path in probes
  }

  /** `rpm_query_owner`: it answers exactly when the query succeeded without a diagnostic
      and its output is a list of entries, and then says whether a probe is among them. */
  method QueryOwner(output: Output, probes: seq<seq<byte>>) returns (r: Result<bool>)
    ensures r.Ok? <==>
      output.success && output.stderr == [] && exists entries ::
        AllProper(entries) && EncodedAll(entries) == output.stdout
    ensures r.Err? ==> r.code == Unavailable
    ensures forall entries :: r.Ok? && AllProper(entries) && EncodedAll(entries) == output.stdout ==>
      (r.value <==> Mentions(entries, probes))
  {
    hide EncodedAll, AllProper;
    forall entries | AllProper(entries) && EncodedAll(entries) == output.stdout
      ensures ParseAll(output.stdout) == Some(entries)
    {
      ParsesEncoded(entries);
    }
    if ParseAll(output.stdout).Some? {
      ParsedIsEncoded(output.stdout);
    }
    if !output.success || output.stderr != [] {
      return Err(Unavailable);
    }
    r := Scan(output.stdout, probes);
  }

  /** The loops over the output. */
  method Scan(stdout: seq<byte>, probes: seq<seq<byte>>) returns (r: Result<bool>)
    ensures r == match ParseAll(stdout)
                 case None => Err(Unavailable)
                 case Some(entries) => Ok(Mentions(entries, probes))
  {
    hide ParseOne, Mentions, Proper;
    assert !Mentions([], probes) by {
      NoMentions(probes);
    }
    var remaining, owned := stdout, false;
    ghost var done: seq<Entry> := [];
    assert ParseAll(stdout).Some? ==> ParseAll(stdout).value == done + ParseAll(remaining).value;
    while remaining != []
      invariant ParseAll(stdout).Some? <==> ParseAll(remaining).Some?
      invariant ParseAll(stdout).Some? ==> ParseAll(stdout).value == done + ParseAll(remaining).value
      invariant owned <==> Mentions(done, probes)
      decreases |remaining|
    {
      var one := ScanOne(remaining);
      if one.None? {
        return Err(Unavailable);
      }
      var entry := one.value.0;
      remaining := one.value.1;
      MentionsMore(done, entry, probes);
      owned := owned || entry.path in probes;
      assert ParseAll(remaining).Some? ==>
        done + ([entry] + ParseAll(remaining).value) == done + [entry] + ParseAll(remaining).value;
      done := done + [entry];
    }
    assert done + [] == done;
    r := Ok(owned);
  }

  lemma MentionsMore(done: seq<Entry>, e: Entry, probes: seq<seq<byte>>)
    ensures Mentions(done + [e], probes) <==> Mentions(done, probes) || e.path in probes
  {
    var more := done + [e];
    assert more[|done|] == e;
    if i :| 0 <= i < |done| && done[i].path in probes {
      assert more[i].path in probes;
    }
  }

  lemma NoMentions(probes: seq<seq<byte>>)
    ensures !Mentions([], probes)
  {}

  /** One turn of the outer loop: the mark of a provided name, the quoted path, its checks. */
  method ScanOne(bytes: seq<byte>) returns (r: Option<(Entry, seq<byte>)>)
    ensures r == ParseOne(bytes)
  {
    var remaining := bytes;
    var provided := StartsWith(remaining, [P]);
    if provided {
      remaining := remaining[1..];
    }
    if !StartsWith(remaining, [QUOTE]) {
      return None;
    }
    var path := ScanBody(remaining[1..]);
    if path.None? || !Proper(Entry(provided, path.value.0)) {
      return None;
    }
    r := Some((Entry(provided, path.value.0), path.value.1));
  }

  /** The inner loop: runs up to the next quote, then an escaped or the closing one. */
  method ScanBody(quoted: seq<byte>) returns (r: Option<(seq<byte>, seq<byte>)>)
    ensures r == Body([], quoted)
  {
    var remaining, path: seq<byte> := quoted, [];
    while true
      invariant Body([], quoted) == Body(path, remaining)
      decreases |remaining|
    {
      var quote := 0;
      assert path + remaining[..0] == path && remaining[0..] == remaining;
      while quote < |remaining| && remaining[quote] != QUOTE
        invariant quote <= |remaining|
        invariant Body(path, remaining) == Body(path + remaining[..quote], remaining[quote..])
      {
        assert remaining[..quote + 1] == remaining[..quote] + [remaining[quote]];
        assert path + remaining[..quote] + [remaining[quote]] == path + remaining[..quote + 1];
        quote := quote + 1;
      }
      if quote == |remaining| {
        return None;
      }
      path := path + remaining[..quote];
      remaining := remaining[quote..];
      if StartsWith(remaining, INNER) {
        path := path + [QUOTE];
        remaining := remaining[4..];
      } else if StartsWith(remaining, LAST) {
        return Some((path, remaining[2..]));
      } else {
        return None;
      }
    }
  }
}
