// Citations of an answer: the raw lines a prompt shows, and the quotes that are accepted.
module Citations {
  import opened Options
  import opened Utf8

  const MAX_ANSWER_BYTES: nat := 48 * 1024

  // ---- lines ----

  // Lines with their terminators. A final terminator does not start another line.
  function RawLines(text: string): seq<string>
    decreases |text|
  {
    if text == [] then []
    else
      var n := LineEnd(text);
      [text[..n]] + RawLines(text[n..])
  }

  // Past the first line feed, or the end.
  function LineEnd(text: string): (n: nat)
    requires text != []
    ensures 0 < n <= |text|
    ensures n < |text| ==> text[n - 1] == '\n'
    ensures forall i | 0 <= i < n - 1 :: text[i] != '\n'
  {
    if text[0] == '\n' || |text| == 1 then 1 else 1 + LineEnd(text[1..])
  }

  // A line without its LF and the CR before that LF.
  function Bare(line: string): string {
    if line == [] || line[|line| - 1] != '\n' then line
    else if |line| >= 2 && line[|line| - 2] == '\r' then line[..|line| - 2]
    else line[..|line| - 1]
  }

  function Bares(lines: seq<string>): (r: seq<string>)
    ensures |r| == |lines| && forall i | 0 <= i < |lines| :: r[i] == Bare(lines[i])
  {
    if lines == [] then [] else [Bare(lines[0])] + Bares(lines[1..])
  }

  function SourceLines(text: string): seq<string> {
    Bares(RawLines(text))
  }

  function Concat(lines: seq<string>): string {
    if lines == [] then [] else lines[0] + Concat(lines[1..])
  }

  function Join(lines: seq<string>): string {
    if lines == [] then []
    else if |lines| == 1 then lines[0]
    else lines[0] + "\n" + Join(lines[1..])
  }

  function Feeds(text: string): nat {
    if text == [] then 0 else (if text[0] == '\n' then 1 else 0) + Feeds(text[1..])
  }

  // The first line and the rest, of which there is one only after a line feed.
  lemma FirstLine(text: string) returns (line: string, rest: string)
    requires text != []
    ensures text == line + rest && |rest| < |text| && RawLines(text) == [line] + RawLines(rest)
    ensures OneLine(line) && (rest != [] ==> line[|line| - 1] == '\n')
  {
    var n := LineEnd(text);
    line, rest := text[..n], text[n..];
  }

  // The raw lines give the source back, and there is one for every line feed and one for
  // an unterminated rest.
  lemma {:induction false} RawRoundTrip(text: string)
    ensures Concat(RawLines(text)) == text
    ensures |RawLines(text)| == Feeds(text) + if Terminated(text) then 0 else 1
    decreases |text|
  {
    if text != [] {
      var line, rest := FirstLine(text);
      RawRoundTrip(rest);
      FeedsConcat(line, rest);
      FeedsLine(line);
      assert ([line] + RawLines(rest))[1..] == RawLines(rest);
      assert rest != [] ==> text[|text| - 1] == rest[|rest| - 1];
    }
  }

  predicate Terminated(text: string) {
    text == [] || text[|text| - 1] == '\n'
  }

  lemma {:induction false} FeedsConcat(a: string, b: string)
    ensures Feeds(a + b) == Feeds(a) + Feeds(b)
  {
    if a == [] {
      assert a + b == b;
    } else {
      assert (a + b)[1..] == a[1..] + b;
      FeedsConcat(a[1..], b);
    }
  }

  // A line feed only at the end, if at all.
  predicate OneLine(line: string) {
    line != [] && forall i | 0 <= i < |line| - 1 :: line[i] != '\n'
  }

  lemma {:induction false} FeedsLine(line: string)
    requires OneLine(line)
    ensures Feeds(line) == if line[|line| - 1] == '\n' then 1 else 0
  {
    if |line| == 1 {
      assert line[1..] == [];
    } else {
      assert OneLine(line[1..]) by {
        assert forall i | 0 <= i < |line[1..]| - 1 :: line[1..][i] == line[i + 1];
      }
      FeedsLine(line[1..]);
    }
  }

  // ---- CRLF normalisation ----

  function Normalized(text: string): string
    decreases |text|
  {
    if text == [] then []
    else if Crlf(text) then "\n" + Normalized(text[2..])
    else [text[0]] + Normalized(text[1..])
  }

  predicate Crlf(text: string) {
    |text| >= 2 && text[0] == '\r' && text[1] == '\n'
  }

  lemma NormalizedChar(c: char, rest: string)
    requires !Crlf([c] + rest)
    ensures Normalized([c] + rest) == [c] + Normalized(rest)
  {
    assert ([c] + rest)[1..] == rest;
  }

  lemma NormalizedCrlf(rest: string)
    ensures Normalized(['\r', '\n'] + rest) == ['\n'] + Normalized(rest)
  {
    assert (['\r', '\n'] + rest)[2..] == rest;
  }

  lemma {:induction false} NormalizedConcat(a: string, b: string)
    requires a == [] || b == [] || a[|a| - 1] != '\r' || b[0] != '\n'
    ensures Normalized(a + b) == Normalized(a) + Normalized(b)
    decreases |a|
  {
    if a == [] {
      assert a + b == b;
    } else if Crlf(a) {
      var rest := a[2..];
      assert a == ['\r', '\n'] + rest && a + b == ['\r', '\n'] + (rest + b);
      NormalizedConcat(rest, b);
      NormalizedCrlf(rest);
      NormalizedCrlf(rest + b);
    } else {
      var c, rest := a[0], a[1..];
      assert a == [c] + rest && a + b == [c] + (rest + b);
      NormalizedConcat(rest, b);
      NormalizedChar(c, rest);
      NormalizedChar(c, rest + b);
    }
  }

  lemma {:induction false} NormalizedBare(line: string)
    requires OneLine(line)
    ensures Normalized(line) == Bare(line) + Terminator(line)
    decreases |line|
  {
    var c, rest := line[0], line[1..];
    assert line == [c] + rest;
    if rest == [] {
      assert line == [c];
    } else if Crlf(line) {
      assert line == ['\r', '\n'] + [];
      NormalizedCrlf([]);
    } else {
      assert OneLine(rest) by {
        assert forall i | 0 <= i < |rest| - 1 :: rest[i] == line[i + 1];
      }
      NormalizedBare(rest);
      NormalizedChar(c, rest);
      BareCons(c, rest);
    }
  }

  lemma BareCons(c: char, rest: string)
    requires rest != [] && !Crlf([c] + rest) && OneLine([c] + rest)
    ensures Bare([c] + rest) == [c] + Bare(rest) && Terminator([c] + rest) == Terminator(rest)
  {
    var line := [c] + rest;
    assert line[|line| - 1] == rest[|rest| - 1];
    if |rest| >= 2 {
      assert line[|line| - 2] == rest[|rest| - 2];
    }
  }

  // Every raw line but the last is terminated.
  predicate Raw(lines: seq<string>) {
    forall i | 0 <= i < |lines| :: OneLine(lines[i]) && (i + 1 < |lines| ==> lines[i][|lines[i]| - 1] == '\n')
  }

  lemma {:induction false} RawLinesRaw(text: string)
    ensures Raw(RawLines(text))
    decreases |text|
  {
    if text != [] {
      var line, rest := FirstLine(text);
      RawLinesRaw(rest);
      assert rest == [] ==> RawLines(rest) == [];
      RawCons(line, RawLines(rest));
    }
  }

  lemma RawCons(line: string, rest: seq<string>)
    requires Raw(rest) && OneLine(line) && (rest != [] ==> line[|line| - 1] == '\n')
    ensures Raw([line] + rest)
  {
    assert forall i | 1 <= i < |[line] + rest| :: ([line] + rest)[i] == rest[i - 1];
  }

  lemma {:induction false} ConcatAppend(xs: seq<string>, ys: seq<string>)
    ensures Concat(xs + ys) == Concat(xs) + Concat(ys)
  {
    if xs == [] {
      assert xs + ys == ys;
    } else {
      assert (xs + ys)[1..] == xs[1..] + ys;
      ConcatAppend(xs[1..], ys);
    }
  }

  // The terminator of a line, as it is normalised.
  function Terminator(line: string): string {
    if line != [] && line[|line| - 1] == '\n' then "\n" else ""
  }

  // Joined bare lines are the normalised lines without the last terminator.
  lemma {:induction false} JoinNormalized(lines: seq<string>)
    requires Raw(lines) && lines != []
    ensures Normalized(Concat(lines)) == Join(Bares(lines)) + Terminator(lines[|lines| - 1])
  {
    NormalizedBare(lines[0]);
    if |lines| == 1 {
      assert lines[1..] == [] && Concat(lines) == lines[0];
    } else {
      var line, rest := lines[0], lines[1..];
      assert lines == [line] + rest && rest[|rest| - 1] == lines[|lines| - 1];
      RawTail(line, rest);
      JoinNormalized(rest);
      JoinStep(line, rest);
    }
  }

  lemma RawTail(line: string, rest: seq<string>)
    requires Raw([line] + rest) && rest != []
    ensures Raw(rest) && line != [] && line[|line| - 1] == '\n'
  {
    assert forall i | 0 <= i < |rest| :: rest[i] == ([line] + rest)[i + 1];
    assert ([line] + rest)[0] == line;
  }

  lemma JoinStep(line: string, rest: seq<string>)
    requires rest != [] && line != [] && line[|line| - 1] == '\n'
    requires Normalized(line) == Bare(line) + "\n"
    requires Normalized(Concat(rest)) == Join(Bares(rest)) + Terminator(rest[|rest| - 1])
    ensures Normalized(Concat([line] + rest)) == Join(Bares([line] + rest)) + Terminator(rest[|rest| - 1])
  {
    assert ([line] + rest)[1..] == rest;
    NormalizedConcat(line, Concat(rest));
    var first, joined, end := Bare(line), Join(Bares(rest)), Terminator(rest[|rest| - 1]);
    Regroup(first, "\n", joined, end);
    assert Bares([line] + rest) == [first] + Bares(rest);
    assert ([first] + Bares(rest))[1..] == Bares(rest);
  }

  lemma Regroup(a: string, b: string, c: string, d: string)
    ensures (a + b) + (c + d) == a + b + c + d
  {}

  lemma {:induction false} NormalizedEnds(lines: seq<string>)
    requires Raw(lines) && lines != []
    ensures Concat(lines) != []
    ensures var last, all := lines[|lines| - 1], Concat(lines); last[|last| - 1] == all[|all| - 1]
  {
    if |lines| == 1 {
      assert lines[1..] == [];
    } else {
      NormalizedEnds(lines[1..]);
    }
  }

  lemma Divided(head: seq<string>, chosen: seq<string>, tail: seq<string>)
    requires Raw(head + (chosen + tail)) && chosen != []
    ensures Normalized(Concat(head + (chosen + tail)))
         == Normalized(Concat(head)) + ((Join(Bares(chosen)) + Terminator(chosen[|chosen| - 1])) + Normalized(Concat(tail)))
    ensures Terminator(chosen[|chosen| - 1]) == "\n" || tail == []
  {
    SplitNormalized(head, chosen + tail);
    SplitNormalized(chosen, tail);
    ConcatAppend(head, chosen + tail);
    ConcatAppend(chosen, tail);
    JoinNormalized(chosen);
  }

  lemma {:induction false} HeadEnds(head: seq<string>, rest: seq<string>)
    requires Raw(head + rest) && rest != []
    ensures var before := Normalized(Concat(head)); before == [] || before[|before| - 1] == '\n'
  {
    SplitNormalized(head, rest);
    if head != [] {
      JoinNormalized(head);
    }
  }

  lemma RangeIsSlice(head: seq<string>, chosen: seq<string>, tail: seq<string>, all: string)
    requires Raw(head + (chosen + tail)) && chosen != [] && all == Normalized(Concat(head + (chosen + tail)))
    ensures WholeLines(all, Normalized(Concat(head)), Join(Bares(chosen)))
  {
    Divided(head, chosen, tail);
    HeadEnds(head, chosen + tail);
    var before, quote, after := Normalized(Concat(head)), Join(Bares(chosen)), Normalized(Concat(tail));
    assert tail == [] ==> Concat(tail) == "" && after == "";
    Slice(all, before, quote, Terminator(chosen[|chosen| - 1]), after);
  }

  // The quote follows before in the text, from the start of a line to the end of one.
  ghost predicate WholeLines(all: string, before: string, quote: string) {
    && before + quote <= all
    && (before == [] || before[|before| - 1] == '\n')
    && (|before + quote| < |all| ==> all[|before + quote|] == '\n')
  }

  lemma Divide(raw: seq<string>, start: nat, end: nat) returns (head: seq<string>, chosen: seq<string>, tail: seq<string>)
    requires start < end <= |raw|
    ensures raw == head + (chosen + tail) && |head| == start && chosen != [] && Bares(chosen) == Bares(raw)[start..end]
  {
    head, chosen, tail := raw[..start], raw[start..end], raw[end..];
  }

  // A quoted range is a run of whole lines of the normalised source.
  lemma QuoteIsSlice(text: string, start: nat, end: nat)
    requires start < end <= |SourceLines(text)|
    ensures exists before :: WholeLines(Normalized(text), before, Join(SourceLines(text)[start..end]))
  {
    RawLinesRaw(text);
    RawRoundTrip(text);
    var before := RangeInText(RawLines(text), start, end);
  }

  lemma RangeInText(raw: seq<string>, start: nat, end: nat) returns (before: string)
    requires Raw(raw) && start < end <= |raw|
    ensures WholeLines(Normalized(Concat(raw)), before, Join(Bares(raw)[start..end]))
  {
    var head, chosen, tail := Divide(raw, start, end);
    RangeIsSlice(head, chosen, tail, Normalized(Concat(head + (chosen + tail))));
    before := Normalized(Concat(head));
  }

  lemma Slice(all: string, before: string, quote: string, terminator: string, after: string)
    requires all == before + ((quote + terminator) + after) && (terminator == "\n" || (terminator == "" && after == ""))
    ensures before + quote <= all && (|before + quote| < |all| ==> all[|before + quote|] == '\n')
  {
    assert all == (before + quote) + (terminator + after);
  }

  lemma SplitNormalized(xs: seq<string>, ys: seq<string>)
    requires Raw(xs + ys)
    ensures Raw(xs) && Raw(ys) && Normalized(Concat(xs) + Concat(ys)) == Normalized(Concat(xs)) + Normalized(Concat(ys))
    ensures xs != [] && ys != [] ==> xs[|xs| - 1][|xs[|xs| - 1]| - 1] == '\n'
    ensures ys == [] ==> Concat(ys) == []
  {
    assert forall i | 0 <= i < |xs| :: xs[i] == (xs + ys)[i];
    assert forall i | 0 <= i < |ys| :: ys[i] == (xs + ys)[|xs| + i];
    if xs != [] && ys != [] {
      NormalizedEnds(xs);
    }
    NormalizedConcat(Concat(xs), Concat(ys));
  }

  // ---- answers ----

  datatype SourceFile = SourceFile(path: string, text: string)
  datatype Packet = Packet(id: string, files: seq<SourceFile>)
  datatype Citation = Citation(path: string, startLine: nat, endLine: nat, quote: string)
  datatype Claim = Claim(text: string, citations: seq<Citation>)
  datatype Answer = Answer(packetId: string, summary: seq<Claim>, branches: seq<Claim>, limitations: seq<string>)

  predicate Space(c: char) {
    var n := c as int;
    || 9 <= n <= 13 || n in {32, 0x85, 0xA0, 0x1680, 0x2028, 0x2029, 0x202F, 0x205F, 0x3000} || 0x2000 <= n <= 0x200A
  }

  predicate Blank(text: string) {
    forall i | 0 <= i < |text| :: Space(text[i])
  }

  predicate Worded(text: string) {
    !Blank(text) && Bytes(text) <= 1200
  }

  // The quote is what the coordinates name, in one of the files of the packet.
  predicate Anchored(files: seq<SourceFile>, c: Citation) {
    && !Blank(c.quote)
    && exists i | 0 <= i < |files| :: files[i].path == c.path && QuotedFrom(SourceLines(files[i].text), c)
  }

  predicate QuotedFrom(lines: seq<string>, c: Citation) {
    && 1 <= c.startLine <= c.endLine && c.endLine - c.startLine < 12 && c.endLine <= |lines|
    && c.quote == Join(lines[c.startLine - 1..c.endLine])
  }

  predicate Supported(files: seq<SourceFile>, claim: Claim) {
    Worded(claim.text) && 1 <= |claim.citations| <= 4 && AllAnchored(files, claim.citations)
  }

  predicate AllAnchored(files: seq<SourceFile>, citations: seq<Citation>) {
    forall i | 0 <= i < |citations| :: Anchored(files, citations[i])
  }

  predicate DistinctPaths(files: seq<SourceFile>) {
    forall i, j | 0 <= i < j < |files| :: files[i].path != files[j].path
  }

  predicate Acceptable(packet: Packet, answer: Answer, bytes: nat) {
    && bytes <= MAX_ANSWER_BYTES && answer.packetId == packet.id
    && 1 <= |answer.summary| <= 4 && |answer.branches| <= 6 && |answer.limitations| <= 6
    && (forall i | 0 <= i < |answer.limitations| :: Worded(answer.limitations[i]))
    && DistinctPaths(packet.files)
    && forall i | 0 <= i < |answer.summary + answer.branches| :: Supported(packet.files, (answer.summary + answer.branches)[i])
  }

  ghost predicate Indexed<T>(files: seq<SourceFile>, sources: map<string, T>, read: string -> T) {
    && DistinctPaths(files)
    && (forall i | 0 <= i < |files| :: files[i].path in sources && sources[files[i].path] == read(files[i].text))
    && (forall p | p in sources :: Names(files, p))
  }

  ghost predicate Names(files: seq<SourceFile>, path: string) {
    exists i | 0 <= i < |files| :: files[i].path == path
  }

  lemma NamesMore(files: seq<SourceFile>, f: SourceFile, path: string)
    ensures Names(files + [f], path) <==> Names(files, path) || f.path == path
  {
    if Names(files, path) {
      var i :| 0 <= i < |files| && files[i].path == path;
      assert (files + [f])[i].path == path;
    }
    assert (files + [f])[|files|] == f;
  }

  lemma IndexedMore<T>(files: seq<SourceFile>, sources: map<string, T>, read: string -> T, f: SourceFile)
    requires Indexed(files, sources, read) && f.path !in sources
    ensures Indexed(files + [f], sources[f.path := read(f.text)], read)
  {
    forall p | p in sources[f.path := read(f.text)] ensures Names(files + [f], p) {
      NamesMore(files, f, p);
    }
    assert forall i | 0 <= i < |files| :: (files + [f])[i] == files[i];
  }

  // The sources by path; a path that occurs twice is refused.
  method Gather<T>(files: seq<SourceFile>, read: string -> T) returns (r: Option<map<string, T>>)
    ensures r.Some? <==> DistinctPaths(files)
    ensures r.Some? ==> Indexed(files, r.value, read)
  {
    var sources: map<string, T> := map[];
    for i := 0 to |files|
      invariant Indexed(files[..i], sources, read)
    {
      if files[i].path in sources {
        PathTaken(files, i);
        return None;
      }
      IndexedMore(files[..i], sources, read, files[i]);
      assert files[..i + 1] == files[..i] + [files[i]];
      sources := sources[files[i].path := read(files[i].text)];
    }
    assert files[..|files|] == files;
    return Some(sources);
  }

  lemma PathTaken(files: seq<SourceFile>, i: nat)
    requires i < |files| && Names(files[..i], files[i].path)
    ensures !DistinctPaths(files)
  {
    var j :| 0 <= j < i && files[..i][j].path == files[i].path;
    assert files[j].path == files[i].path;
  }

  method CheckCitation(files: seq<SourceFile>, sources: map<string, seq<string>>, c: Citation) returns (ok: bool)
    requires Indexed(files, sources, SourceLines)
    ensures ok <==> Anchored(files, c)
  {
    if Blank(c.quote) || c.path !in sources {
      return false;
    }
    assert Names(files, c.path);
    ghost var i :| 0 <= i < |files| && files[i].path == c.path;
    var lines := sources[c.path];
    ok := c.startLine >= 1 && c.endLine >= c.startLine && c.endLine - c.startLine < 12 && c.endLine <= |lines|
          && c.quote == Join(lines[c.startLine - 1..c.endLine]);
    assert ok <==> QuotedFrom(SourceLines(files[i].text), c);
  }

  method CheckCitations(files: seq<SourceFile>, sources: map<string, seq<string>>, citations: seq<Citation>) returns (ok: bool)
    requires Indexed(files, sources, SourceLines)
    ensures ok <==> AllAnchored(files, citations)
  {
    for i := 0 to |citations|
      invariant AllAnchored(files, citations[..i])
    {
      ok := CheckCitation(files, sources, citations[i]);
      AnchoredMore(files, citations, i);
      if !ok {
        return false;
      }
    }
    assert citations[..|citations|] == citations;
    return true;
  }

  lemma AnchoredMore(files: seq<SourceFile>, citations: seq<Citation>, i: nat)
    requires i < |citations|
    ensures AllAnchored(files, citations[..i + 1]) <==> AllAnchored(files, citations[..i]) && Anchored(files, citations[i])
    ensures AllAnchored(files, citations) ==> Anchored(files, citations[i])
  {
    var more := citations[..i + 1];
    assert more[i] == citations[i] && forall j | 0 <= j < i :: more[j] == citations[..i][j];
  }

  method CheckClaim(files: seq<SourceFile>, sources: map<string, seq<string>>, claim: Claim) returns (ok: bool)
    requires Indexed(files, sources, SourceLines)
    ensures ok <==> Supported(files, claim)
  {
    if !Worded(claim.text) || !(1 <= |claim.citations| <= 4) {
      return false;
    }
    ok := CheckCitations(files, sources, claim.citations);
  }

  method ParseResponse(packet: Packet, answer: Answer, bytes: nat) returns (ok: bool)
    ensures ok <==> Acceptable(packet, answer, bytes)
  {
    if bytes > MAX_ANSWER_BYTES || answer.packetId != packet.id
       || !(1 <= |answer.summary| <= 4) || |answer.branches| > 6 || |answer.limitations| > 6 {
      return false;
    }
    if exists i | 0 <= i < |answer.limitations| :: !Worded(answer.limitations[i]) {
      return false;
    }
    var sources := Gather(packet.files, SourceLines);
    if sources.None? {
      return false;
    }
    var claims := answer.summary + answer.branches;
    for i := 0 to |claims|
      invariant forall j | 0 <= j < i :: Supported(packet.files, claims[j])
    {
      ok := CheckClaim(packet.files, sources.value, claims[i]);
      if !ok {
        return false;
      }
    }
    return true;
  }

  // ---- the prompt ----

  function Numbered(lines: seq<string>, first: nat): (r: seq<(nat, string)>)
    ensures |r| == |lines| && forall i | 0 <= i < |r| :: r[i] == (first + i, lines[i])
  {
    if lines == [] then [] else [(first, lines[0])] + Numbered(lines[1..], first + 1)
  }

  // The entries a prompt shows for a file.
  function PromptLines(text: string): seq<(nat, string)> {
    Numbered(RawLines(text), 1)
  }

  // The quote that the instructions of the prompt ask for.
  function Recipe(entries: seq<(nat, string)>, start: nat, end: nat): string
    requires 1 <= start <= end <= |entries|
  {
    Join(BareRange(entries, start, end))
  }

  function BareRange(entries: seq<(nat, string)>, start: nat, end: nat): (r: seq<string>)
    requires 1 <= start <= end <= |entries|
    ensures |r| == end + 1 - start && forall i | 0 <= i < |r| :: r[i] == Bare(entries[start - 1 + i].1)
  {
    seq(end + 1 - start, i requires 0 <= i < end + 1 - start => Bare(entries[start - 1 + i].1))
  }

  // Following the instructions makes exactly the quote that is accepted, for every range
  // of at most twelve lines that is not blank; and nothing else is accepted for it.
  lemma RecipeAccepted(files: seq<SourceFile>, k: nat, start: nat, end: nat, quote: string)
    requires k < |files| && DistinctPaths(files)
    requires 1 <= start <= end <= |PromptLines(files[k].text)| && end - start < 12
    ensures Anchored(files, Citation(files[k].path, start, end, quote))
       <==> quote == Recipe(PromptLines(files[k].text), start, end) && !Blank(quote)
  {
    RecipeIsQuote(PromptLines(files[k].text), SourceLines(files[k].text), start, end);
    var c := Citation(files[k].path, start, end, quote);
    assert QuotedFrom(SourceLines(files[k].text), c) <==> quote == Recipe(PromptLines(files[k].text), start, end);
  }

  lemma RecipeIsQuote(entries: seq<(nat, string)>, lines: seq<string>, start: nat, end: nat)
    requires 1 <= start <= end <= |entries| && |lines| == |entries|
    requires forall i | 0 <= i < |lines| :: lines[i] == Bare(entries[i].1)
    ensures Recipe(entries, start, end) == Join(lines[start - 1..end])
  {
    assert BareRange(entries, start, end) == lines[start - 1..end];
  }

  // The numbers are the coordinates, and the entries hold the source once.
  lemma PromptShowsSource(text: string)
    ensures var entries := PromptLines(text);
            && (forall i | 0 <= i < |entries| :: entries[i].0 == i + 1)
            && Concat(seq(|entries|, i requires 0 <= i < |entries| => entries[i].1)) == text
  {
    RawRoundTrip(text);
    var entries := PromptLines(text);
    assert seq(|entries|, i requires 0 <= i < |entries| => entries[i].1) == RawLines(text);
  }
}
