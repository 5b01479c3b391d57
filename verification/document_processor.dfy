/** The chunker of backend/app/rag/document_processor.py: markdown is cut into sections
    at header lines, each section is cut into chunks either around its fenced code blocks
    (greedy packing of text and code parts by token count) or, when it has no code
    block, into overlapping token windows; every chunk gets an id derived from an MD5
    digest and metadata describing it.

    The tokenizer and the digest are parameters: `encode` answers `None` where tiktoken
    raises, and `md5` is any function to 32 lower-case hex characters. */
module DocumentProcessor {
  import opened Wrappers
  import opened Text

  // ---------------------------------------------------------------------------
  // Header lines: `^(#{1,6})\s+(.*)`

  /** The number of '#' characters a line starts with. */
  function LeadingHashes(s: string): (k: nat)
    ensures k <= |s|
    ensures forall i :: 0 <= i < k ==> s[i] == '#'
    ensures k < |s| ==> s[k] != '#'
  {
    if |s| == 0 || s[0] != '#' then 0 else 1 + LeadingHashes(s[1..])
  }

  datatype Header = Header(level: nat, title: string)

  /** A header line: one to six '#', at least one whitespace character, then the title.
      Seven or more '#' never match, since the character after the sixth is a '#'. The
      whitespace run is consumed whole, so the title starts at the first non-space. */
  function ParseHeader(line: string): (h: Option<Header>)
    ensures h.Some? <==>
      var k := LeadingHashes(line);
      1 <= k <= 6 && k < |line| && IsSpace(line[k])
    ensures h.Some? ==>
      && h.value.level == LeadingHashes(line) && 1 <= h.value.level <= 6
      && h.value.title == TrimStart(line[h.value.level..])
  {
    var k := LeadingHashes(line);
    if 1 <= k <= 6 && k < |line| && IsSpace(line[k]) then Some(Header(k, TrimStart(line[k..]))) else None
  }

  // ---------------------------------------------------------------------------
  // Sections

  /** A section: its title, its text (every line followed by "\n") and its header level. */
  datatype Section = Section(title: string, content: string, level: nat)

  /** The state of the section loop: the sections saved so far and the one being filled. */
  datatype Scan = Scan(sections: seq<Section>, current: Option<Section>)

  function AppendLine(sec: Section, line: string): Section {
    sec.(content := sec.content + line + "\n")
  }

  function Saved(current: Option<Section>): seq<Section> {
    if current.Some? then [current.value] else []
  }

  /** One iteration of the section loop. */
  function ScanLine(st: Scan, line: string): Scan {
    match ParseHeader(line)
    case Some(h) => Scan(st.sections + Saved(st.current), Some(Section(h.title, line + "\n", h.level)))
    case None =>
      if st.current.Some? then Scan(st.sections, Some(AppendLine(st.current.value, line)))
      else if |st.sections| == 0 then Scan([Section("Introduction", line + "\n", 1)], None)
      else
        var n := |st.sections| - 1;
        Scan(st.sections[..n] + [AppendLine(st.sections[n], line)], None)
  }

  function ScanLines(lines: seq<string>): Scan {
    if |lines| == 0 then Scan([], None)
    else ScanLine(ScanLines(lines[..|lines| - 1]), lines[|lines| - 1])
  }

  /** The saved sections followed by the open one. */
  function AllSections(st: Scan): seq<Section> {
    st.sections + Saved(st.current)
  }

  /** The level of the "Document" section used when no section was found. */
  const FallbackLevel: nat := 1

  /** _extract_markdown_sections: the sections of the scan, or one "Document" section
      holding the whole text if there are none. */
  function MarkdownSections(content: string): seq<Section> {
    var all := AllSections(ScanLines(Split(content, '\n')));
    if |all| == 0 then [Section("Document", content, FallbackLevel)] else all
  }

  /** The loop of _extract_markdown_sections. */
  method ExtractMarkdownSections(content: string) returns (sections: seq<Section>)
    ensures sections == MarkdownSections(content)
  {
    var lines := Split(content, '\n');
    sections := [];
    var current: Option<Section> := None;
    var i := 0;
    while i < |lines|
      invariant 0 <= i <= |lines|
      invariant Scan(sections, current) == ScanLines(lines[..i])
    {
      var line := lines[i];
      assert lines[..i + 1][..i] == lines[..i];
      var header := ParseHeader(line);
      if header.Some? {
        if current.Some? {
          sections := sections + [current.value];
        }
        current := Some(Section(header.value.title, line + "\n", header.value.level));
      } else if current.Some? {
        current := Some(current.value.(content := current.value.content + line + "\n"));
      } else if |sections| == 0 {
        sections := [Section("Introduction", line + "\n", 1)];
      } else {
        var last := sections[|sections| - 1];
        sections := sections[..|sections| - 1] + [last.(content := last.content + line + "\n")];
      }
      i := i + 1;
    }
    assert lines[..|lines|] == lines;
    if current.Some? {
      sections := sections + [current.value];
    }
    if |sections| == 0 {
      sections := [Section("Document", content, FallbackLevel)];
    }
  }

  /** The first line of a text. */
  function FirstLine(s: string): string {
    Split(s, '\n')[0]
  }

  /** A section opened by a header line: its first line parses to its level and title. */
  predicate HeaderSection(sec: Section) {
    '\n' in sec.content && ParseHeader(FirstLine(sec.content)) == Some(Header(sec.level, sec.title))
  }

  /** The section of the lines before the first header. */
  predicate IntroSection(sec: Section) {
    && sec.title == "Introduction" && sec.level == 1
    && '\n' in sec.content && ParseHeader(FirstLine(sec.content)).None?
  }

  /** Every section is opened by a header line, except that the first may be the
      introduction. */
  predicate SectionOk(secs: seq<Section>, i: nat)
    requires i < |secs|
  {
    (i == 0 && IntroSection(secs[0])) || HeaderSection(secs[i])
  }

  /** The text of the sections, in order. */
  function ContentsOf(secs: seq<Section>): string {
    if |secs| == 0 then "" else ContentsOf(secs[..|secs| - 1]) + secs[|secs| - 1].content
  }

  /** Every line followed by "\n". */
  function Terminated(lines: seq<string>): string {
    if |lines| == 0 then "" else Terminated(lines[..|lines| - 1]) + lines[|lines| - 1] + "\n"
  }

  lemma {:induction false} TerminatedSplit(s: string)
    ensures Terminated(Split(s, '\n')) == s + "\n"
  {
    JoinSplit(s, '\n');
    TerminatedJoin(Split(s, '\n'));
  }

  lemma {:induction false} TerminatedJoin(parts: seq<string>)
    requires |parts| >= 1
    ensures Terminated(parts) == Join(parts, '\n') + "\n"
    decreases |parts|
  {
    if |parts| > 1 {
      var n := |parts| - 1;
      TerminatedJoin(parts[..n]);
      JoinSnoc(parts[..n], parts[n], '\n');
      assert parts[..n] + [parts[n]] == parts;
    }
  }

  lemma {:induction false} JoinSnoc(parts: seq<string>, last: string, sep: char)
    requires |parts| >= 1
    ensures Join(parts + [last], sep) == Join(parts, sep) + [sep] + last
    decreases |parts|
  {
    if |parts| == 1 {
      assert (parts + [last])[1..] == [last];
    } else {
      JoinSnoc(parts[1..], last, sep);
      assert (parts + [last])[1..] == parts[1..] + [last];
    }
  }

  /** Appending to a text that already holds a line break keeps its first line. */
  lemma {:induction false} FirstLineAppend(c: string, x: string)
    requires '\n' in c
    ensures FirstLine(c + x) == FirstLine(c)
    decreases |c|
  {
    if c[0] != '\n' {
      assert (c + x)[1..] == c[1..] + x;
      FirstLineAppend(c[1..], x);
    }
  }

  lemma FirstLineOfLine(line: string)
    requires '\n' !in line
    ensures FirstLine(line + "\n") == line
  {
    SplitPrefix(line, "", '\n');
    assert line + ['\n'] + "" == line + "\n";
  }

  /** What the section loop keeps true after each line. */
  predicate ScanInvariant(st: Scan, lines: seq<string>) {
    var all := AllSections(st);
    && ContentsOf(all) == Terminated(lines)
    && (|lines| == 0 <==> |all| == 0)
    && (st.current.None? ==> |st.sections| <= 1)
    && (forall i :: 0 <= i < |all| ==> SectionOk(all, i))
    && (|lines| > 0 ==> FirstLine(all[0].content) == lines[0])
  }

  lemma {:induction false} ContentsOfSnoc(secs: seq<Section>, sec: Section)
    ensures ContentsOf(secs + [sec]) == ContentsOf(secs) + sec.content
  {
    assert (secs + [sec])[..|secs|] == secs;
  }

  lemma {:induction false} ContentsOfGrowLast(secs: seq<Section>, line: string)
    requires |secs| > 0
    ensures var n := |secs| - 1;
      ContentsOf(secs[..n] + [AppendLine(secs[n], line)]) == ContentsOf(secs) + line + "\n"
  {
    var n := |secs| - 1;
    var x := AppendLine(secs[n], line);
    var before := ContentsOf(secs[..n]);
    ContentsOfSnoc(secs[..n], x);
    assert ContentsOf(secs) == before + secs[n].content;
    calc {
      ContentsOf(secs[..n] + [x]);
      before + x.content;
      before + (secs[n].content + line + "\n");
      (before + secs[n].content) + line + "\n";
    }
  }

  /** Appending a non-header line to a section keeps it well formed. */
  lemma {:induction false} AppendKeepsSection(secs: seq<Section>, line: string, i: nat)
    requires i < |secs| && SectionOk(secs, i)
    ensures var s2 := secs[i := AppendLine(secs[i], line)];
      SectionOk(s2, i) && FirstLine(s2[i].content) == FirstLine(secs[i].content)
  {
    FirstLineAppend(secs[i].content, line + "\n");
    assert secs[i].content + line + "\n" == secs[i].content + (line + "\n");
  }

  lemma {:induction false} TerminatedSnoc(lines: seq<string>, line: string)
    ensures Terminated(lines + [line]) == Terminated(lines) + line + "\n"
  {
    assert (lines + [line])[..|lines|] == lines;
  }

  /** A header line saves the open section and opens a new one. */
  lemma {:induction false} HeaderLineKeeps(st: Scan, lines: seq<string>, line: string, h: Header)
    requires ScanInvariant(st, lines) && '\n' !in line && ParseHeader(line) == Some(h)
    ensures ScanInvariant(ScanLine(st, line), lines + [line])
  {
    var all := AllSections(st);
    var all2 := AllSections(ScanLine(st, line));
    var started := Section(h.title, line + "\n", h.level);
    TerminatedSnoc(lines, line);
    FirstLineOfLine(line);
    assert all2 == all + [started];
    ContentsOfSnoc(all, started);
    assert HeaderSection(started);
    forall i | 0 <= i < |all2| ensures SectionOk(all2, i) {
      if i < |all| {
        assert all2[i] == all[i];
        assert SectionOk(all, i);
      } else {
        assert all2[i] == started;
      }
    }
  }

  /** Any other line extends the open section. */
  lemma {:induction false} ContinueLineKeeps(st: Scan, lines: seq<string>, line: string)
    requires ScanInvariant(st, lines) && '\n' !in line && ParseHeader(line).None? && st.current.Some?
    ensures ScanInvariant(ScanLine(st, line), lines + [line])
  {
    var all := AllSections(st);
    var all2 := AllSections(ScanLine(st, line));
    var n := |all| - 1;
    TerminatedSnoc(lines, line);
    assert all2 == all[..n] + [AppendLine(all[n], line)];
    assert all2 == all[n := AppendLine(all[n], line)];
    ContentsOfGrowLast(all, line);
    AppendKeepsSection(all, line, n);
    forall i | 0 <= i < |all2| ensures SectionOk(all2, i) {
      if i < n {
        assert all2[i] == all[i];
        assert SectionOk(all, i);
      }
    }
  }

  /** Before the first header, the first line opens the introduction... */
  lemma {:induction false} IntroOpensKeeps(line: string)
    requires '\n' !in line && ParseHeader(line).None?
    ensures ScanInvariant(ScanLine(Scan([], None), line), [line])
  {
    var intro := Section("Introduction", line + "\n", 1);
    FirstLineOfLine(line);
    assert ScanLine(Scan([], None), line) == Scan([intro], None);
    assert AllSections(Scan([intro], None)) == [intro];
    assert Terminated([line]) == line + "\n";
    assert ContentsOf([intro]) == line + "\n";
    assert IntroSection(intro);
  }

  /** ...and later lines extend it. */
  lemma {:induction false} IntroGrowsKeeps(st: Scan, lines: seq<string>, line: string)
    requires ScanInvariant(st, lines) && '\n' !in line && ParseHeader(line).None?
    requires st.current.None? && |st.sections| > 0
    ensures ScanInvariant(ScanLine(st, line), lines + [line])
  {
    var all := AllSections(st);
    var all2 := AllSections(ScanLine(st, line));
    TerminatedSnoc(lines, line);
    assert all == st.sections && |all| == 1;
    assert all2 == all[..0] + [AppendLine(all[0], line)];
    assert all2 == all[0 := AppendLine(all[0], line)];
    ContentsOfGrowLast(all, line);
    AppendKeepsSection(all, line, 0);
  }

  lemma {:induction false} ScanLineKeeps(st: Scan, lines: seq<string>, line: string)
    requires ScanInvariant(st, lines)
    requires '\n' !in line
    ensures ScanInvariant(ScanLine(st, line), lines + [line])
  {
    match ParseHeader(line)
    case Some(h) => HeaderLineKeeps(st, lines, line, h);
    case None =>
      if st.current.Some? {
        ContinueLineKeeps(st, lines, line);
      } else if |st.sections| == 0 {
        assert st == Scan([], None) && lines == [];
        IntroOpensKeeps(line);
        assert lines + [line] == [line];
      } else {
        IntroGrowsKeeps(st, lines, line);
      }
  }

  lemma {:induction false} ScanLinesInvariant(lines: seq<string>)
    requires forall i :: 0 <= i < |lines| ==> '\n' !in lines[i]
    ensures ScanInvariant(ScanLines(lines), lines)
    decreases |lines|
  {
    if |lines| > 0 {
      var n := |lines| - 1;
      ScanLinesInvariant(lines[..n]);
      ScanLineKeeps(ScanLines(lines[..n]), lines[..n], lines[n]);
      assert lines[..n] + [lines[n]] == lines;
    }
  }

  /** _extract_markdown_sections never returns an empty list and never needs its
      "Document" fallback; the section texts, in order, are exactly the input with a
      final "\n"; every section is opened by a header line giving its level and title,
      except a first "Introduction" section of level 1 holding the lines before the first
      header, which exists exactly when the first line is not a header. */
  lemma MarkdownSectionsSpec(content: string)
    ensures var r := MarkdownSections(content);
      && |r| >= 1
      && r == AllSections(ScanLines(Split(content, '\n')))
      && ContentsOf(r) == content + "\n"
      && (forall i :: 0 <= i < |r| ==> SectionOk(r, i))
      && (ParseHeader(FirstLine(content)).None? ==> IntroSection(r[0]))
      && (ParseHeader(FirstLine(content)).Some? ==> HeaderSection(r[0]))
  {
    var lines := Split(content, '\n');
    ScanLinesInvariant(lines);
    TerminatedSplit(content);
    var all := AllSections(ScanLines(lines));
    assert |all| >= 1;
    assert MarkdownSections(content) == all;
    assert FirstLine(all[0].content) == FirstLine(content);
    assert SectionOk(all, 0);
  }

  // ---------------------------------------------------------------------------
  // Fenced code blocks: re.finditer(r'```(\w+)?\n(.*?)\n```', content, re.DOTALL)

  /** `\w`, restricted to ASCII letters, digits and the underscore. */
  predicate IsWordChar(c: char) {
    ('a' <= c <= 'z') || ('A' <= c <= 'Z') || ('0' <= c <= '9') || c == '_'
  }

  /** The length of the run of word characters starting at `i`. */
  function WordRun(s: string, i: nat): (n: nat)
    requires i <= |s|
    ensures i + n <= |s|
    ensures forall j :: i <= j < i + n ==> IsWordChar(s[j])
    ensures i + n < |s| ==> !IsWordChar(s[i + n])
    decreases |s| - i
  {
    if i < |s| && IsWordChar(s[i]) then 1 + WordRun(s, i + 1) else 0
  }

  /** The first occurrence of `sub` at or after `from`. */
  function FindFrom(s: string, sub: string, from: nat): (r: Option<nat>)
    ensures r.Some? ==> from <= r.value && r.value + |sub| <= |s| && OccursAt(s, sub, r.value)
    ensures r.Some? ==> forall j :: from <= j < r.value ==> !OccursAt(s, sub, j)
    ensures r.None? ==> forall j :: from <= j ==> !OccursAt(s, sub, j)
    decreases |s| - from
  {
    if from + |sub| > |s| then None
    else if OccursAt(s, sub, from) then Some(from)
    else FindFrom(s, sub, from + 1)
  }

  /** A fenced block: where the match starts and ends, the language tag ("text" when
      absent), the code between the fences and the whole matched text. */
  datatype FencedBlock = FencedBlock(start: nat, end: nat, language: string, code: string, fullMatch: string)

  /** The match starting exactly at `i`, if any: "```", a word run, a line break, then
      the shortest text up to the next "\n```". */
  function FenceAt(s: string, i: nat): (r: Option<FencedBlock>)
    requires i <= |s|
    ensures r.Some? ==>
      && r.value.start == i && i + 8 <= r.value.end <= |s|
      && r.value.fullMatch == s[i..r.value.end]
      && OccursAt(s, "```", i) && OccursAt(s, "\n```", r.value.end - 4)
  {
    if !(i + 3 <= |s| && OccursAt(s, "```", i)) then None
    else
      var w := WordRun(s, i + 3);
      var k := i + 3 + w;
      if k < |s| && s[k] == '\n' then
        match FindFrom(s, "\n```", k + 1)
        case None => None
        case Some(j) => Some(FencedBlock(i, j + 4, if w == 0 then "text" else s[i + 3..k], s[k + 1..j], s[i..j + 4]))
      else None
  }

  /** The fenced blocks are in order, do not overlap and lie within the text after `from`. */
  predicate Ordered(blocks: seq<FencedBlock>, from: nat, s: string) {
    && (forall k :: 0 <= k < |blocks| ==>
          from <= blocks[k].start < blocks[k].end <= |s| && blocks[k].fullMatch == s[blocks[k].start..blocks[k].end])
    && (forall j, k :: 0 <= j < k < |blocks| ==> blocks[j].end <= blocks[k].start)
  }

  /** The successive non-overlapping matches, scanning from `from`. */
  function FencedBlocks(s: string, from: nat): (r: seq<FencedBlock>)
    requires from <= |s|
    ensures Ordered(r, from, s)
    decreases |s| - from
  {
    if from == |s| then []
    else
      match FenceAt(s, from)
      case Some(b) => [b] + FencedBlocks(s, b.end)
      case None => FencedBlocks(s, from + 1)
  }

  // ---------------------------------------------------------------------------
  // Indented code blocks

  /** A line that starts with four spaces. */
  predicate Indented(line: string) {
    |line| >= 4 && line[0] == ' ' && line[1] == ' ' && line[2] == ' ' && line[3] == ' '
  }

  /** An indented block: its lines without their indentation, joined with "\n", and the
      indices of its first and last line. */
  datatype IndentedBlock = IndentedBlock(code: string, lineStart: nat, lineEnd: nat)

  /** The state of the indented-block loop. */
  datatype IndentScan = IndentScan(blocks: seq<IndentedBlock>, inBlock: bool, codeLines: seq<string>, start: nat)

  /** One iteration, for line `i`. */
  function IndentStep(st: IndentScan, i: nat, line: string): IndentScan {
    if Indented(line) then
      var st2 := if st.inBlock then st else st.(inBlock := true, start := i);
      st2.(codeLines := st2.codeLines + [Unindent(line)])
    else if st.inBlock && |st.codeLines| > 0 && i > 0 then
      IndentScan(st.blocks + [IndentedBlock(Join(st.codeLines, '\n'), st.start, i - 1)], false, [], st.start)
    else st
  }

  function IndentScanLines(lines: seq<string>): IndentScan {
    if |lines| == 0 then IndentScan([], false, [], 0)
    else IndentStep(IndentScanLines(lines[..|lines| - 1]), |lines| - 1, lines[|lines| - 1])
  }

  /** The loop over the lines of _extract_code_blocks. A run still open after the last
      line is never emitted. */
  method ExtractIndentedBlocks(lines: seq<string>) returns (blocks: seq<IndentedBlock>)
    ensures blocks == IndentScanLines(lines).blocks
  {
    blocks := [];
    var inBlock := false;
    var codeLines: seq<string> := [];
    var start := 0;
    for i := 0 to |lines|
      invariant IndentScan(blocks, inBlock, codeLines, start) == IndentScanLines(lines[..i])
    {
      assert lines[..i + 1][..i] == lines[..i];
      var line := lines[i];
      if |line| >= 4 && line[..4] == "    " {
        if !inBlock {
          inBlock := true;
          start := i;
        }
        codeLines := codeLines + [line[4..]];
      } else if inBlock && |codeLines| > 0 && i > 0 {
        blocks := blocks + [IndentedBlock(Join(codeLines, '\n'), start, i - 1)];
        inBlock := false;
        codeLines := [];
      }
    }
    assert lines[..|lines|] == lines;
  }

  /** `line[4:]`. */
  function Unindent(line: string): string {
    if |line| >= 4 then line[4..] else ""
  }

  /** The lines of a block without their indentation. */
  function Dedented(lines: seq<string>): (r: seq<string>)
    ensures |r| == |lines|
  {
    if |lines| == 0 then [] else Dedented(lines[..|lines| - 1]) + [Unindent(lines[|lines| - 1])]
  }

  /** Block `b` is a maximal run of indented lines of `lines`, closed by a later line
      that is not indented, and its code is that run without the indentation. */
  predicate BlockOf(b: IndentedBlock, lines: seq<string>) {
    && b.lineStart <= b.lineEnd && b.lineEnd + 1 < |lines|
    && (forall k :: b.lineStart <= k <= b.lineEnd ==> Indented(lines[k]))
    && !Indented(lines[b.lineEnd + 1])
    && (b.lineStart == 0 || !Indented(lines[b.lineStart - 1]))
    && b.code == Join(Dedented(lines[b.lineStart..b.lineEnd + 1]), '\n')
  }

  /** Some block ends at line `e`. */
  predicate EndsBlock(blocks: seq<IndentedBlock>, e: nat) {
    exists k :: 0 <= k < |blocks| && blocks[k].lineEnd == e
  }

  /** What the indented-block loop keeps true after the first `n` lines of `all`. */
  predicate IndentInvariant(st: IndentScan, n: nat, all: seq<string>) {
    && n <= |all|
    && (forall k :: 0 <= k < |st.blocks| ==> BlockOf(st.blocks[k], all) && st.blocks[k].lineEnd + 1 < n)
    && (forall k :: 0 <= k < |st.blocks| - 1 ==> st.blocks[k].lineEnd < st.blocks[k + 1].lineStart)
    && (forall e :: 0 <= e && e + 1 < n && Indented(all[e]) && !Indented(all[e + 1]) ==> EndsBlock(st.blocks, e))
    && (st.inBlock ==> OpenRun(st, n, all))
    && (!st.inBlock ==> st.codeLines == [] && (n == 0 || !Indented(all[n - 1])))
  }

  /** The run being collected: lines `start` to `n - 1`, all indented, preceded by a line
      that is not, and after the last block. */
  predicate OpenRun(st: IndentScan, n: nat, all: seq<string>)
    requires n <= |all|
  {
    && st.start < n
    && (forall k :: st.start <= k < n ==> Indented(all[k]))
    && (st.start == 0 || !Indented(all[st.start - 1]))
    && st.codeLines == Dedented(all[st.start..n])
    && (|st.blocks| > 0 ==> st.blocks[|st.blocks| - 1].lineEnd < st.start)
  }

  lemma {:induction false} DedentedSnoc(lines: seq<string>, line: string)
    ensures Dedented(lines + [line]) == Dedented(lines) + [Unindent(line)]
  {
    assert (lines + [line])[..|lines|] == lines;
  }

  /** An indented line leaves the closed blocks accounted for. */
  lemma BlocksKeepOnIndented(blocks: seq<IndentedBlock>, n: nat, all: seq<string>)
    requires n < |all| && Indented(all[n])
    requires forall k :: 0 <= k < |blocks| ==> BlockOf(blocks[k], all) && blocks[k].lineEnd + 1 < n
    requires forall e :: 0 <= e && e + 1 < n && Indented(all[e]) && !Indented(all[e + 1]) ==> EndsBlock(blocks, e)
    ensures forall k :: 0 <= k < |blocks| ==> BlockOf(blocks[k], all) && blocks[k].lineEnd + 1 < n + 1
    ensures forall e :: 0 <= e && e + 1 < n + 1 && Indented(all[e]) && !Indented(all[e + 1]) ==> EndsBlock(blocks, e)
  {
  }

  /** An indented line extends the open run. */
  lemma {:induction false} ExtendRunKeeps(st: IndentScan, n: nat, all: seq<string>)
    requires n < |all| && IndentInvariant(st, n, all) && Indented(all[n]) && st.inBlock
    ensures IndentInvariant(IndentStep(st, n, all[n]), n + 1, all)
  {
    var st2 := IndentStep(st, n, all[n]);
    assert st2 == st.(codeLines := st.codeLines + [Unindent(all[n])]);
    ExtendOpenRun(st, n, all);
    BlocksKeepOnIndented(st.blocks, n, all);
  }

  lemma ExtendOpenRun(st: IndentScan, n: nat, all: seq<string>)
    requires n < |all| && OpenRun(st, n, all) && Indented(all[n])
    ensures OpenRun(st.(codeLines := st.codeLines + [Unindent(all[n])]), n + 1, all)
  {
    assert all[st.start..n + 1] == all[st.start..n] + [all[n]];
    DedentedSnoc(all[st.start..n], all[n]);
  }

  /** An indented line after a plain one opens a run. */
  lemma {:induction false} OpenRunKeeps(st: IndentScan, n: nat, all: seq<string>)
    requires n < |all| && IndentInvariant(st, n, all) && Indented(all[n]) && !st.inBlock
    ensures IndentInvariant(IndentStep(st, n, all[n]), n + 1, all)
  {
    var st2 := IndentStep(st, n, all[n]);
    assert st2.blocks == st.blocks && st2.inBlock;
    if |st.blocks| > 0 {
      assert st.blocks[|st.blocks| - 1].lineEnd + 1 < n;
    }
    StartRun(st, n, all);
    BlocksKeepOnIndented(st.blocks, n, all);
  }

  /** An indented line after a plain one opens a run of one line. */
  lemma StartRun(st: IndentScan, n: nat, all: seq<string>)
    requires n < |all| && Indented(all[n]) && !st.inBlock && st.codeLines == []
    requires n == 0 || !Indented(all[n - 1])
    requires |st.blocks| > 0 ==> st.blocks[|st.blocks| - 1].lineEnd < n
    ensures OpenRun(IndentStep(st, n, all[n]), n + 1, all)
  {
    assert all[n..n + 1] == [all[n]];
    assert Dedented([all[n]]) == Dedented([]) + [Unindent(all[n])];
  }

  /** The run closed by a plain line is a block. */
  lemma {:induction false} ClosedRunIsBlock(st: IndentScan, n: nat, all: seq<string>)
    requires n < |all| && n <= |all| && OpenRun(st, n, all) && !Indented(all[n])
    ensures BlockOf(IndentedBlock(Join(st.codeLines, '\n'), st.start, n - 1), all)
  {
  }

  /** Appending the closed run keeps the blocks in order. */
  lemma {:induction false} CloseKeepsOrder(blocks: seq<IndentedBlock>, b: IndentedBlock)
    requires forall k :: 0 <= k < |blocks| - 1 ==> blocks[k].lineEnd < blocks[k + 1].lineStart
    requires |blocks| > 0 ==> blocks[|blocks| - 1].lineEnd < b.lineStart
    ensures var bs := blocks + [b];
      forall k :: 0 <= k < |bs| - 1 ==> bs[k].lineEnd < bs[k + 1].lineStart
  {
    var bs := blocks + [b];
    forall k | 0 <= k < |bs| - 1 ensures bs[k].lineEnd < bs[k + 1].lineStart {
      assert bs[k] == blocks[k];
      if k + 1 < |blocks| {
        assert bs[k + 1] == blocks[k + 1];
      }
    }
  }

  /** Appending the closed run keeps every run closed so far accounted for. */
  lemma {:induction false} CloseKeepsComplete(blocks: seq<IndentedBlock>, b: IndentedBlock, n: nat, all: seq<string>)
    requires n < |all|
    requires forall e :: 0 <= e && e + 1 < n && Indented(all[e]) && !Indented(all[e + 1]) ==> EndsBlock(blocks, e)
    requires b.lineEnd + 1 == n
    ensures forall e :: 0 <= e && e + 1 < n + 1 && Indented(all[e]) && !Indented(all[e + 1]) ==> EndsBlock(blocks + [b], e)
  {
    var bs := blocks + [b];
    forall e | 0 <= e && e + 1 < n + 1 && Indented(all[e]) && !Indented(all[e + 1])
      ensures EndsBlock(bs, e)
    {
      if e + 1 < n {
        var k :| 0 <= k < |blocks| && blocks[k].lineEnd == e;
        assert bs[k] == blocks[k];
      } else {
        assert bs[|blocks|].lineEnd == e;
      }
    }
  }

  /** Appending the closed run keeps every block a closed maximal run. */
  lemma {:induction false} CloseKeepsValid(blocks: seq<IndentedBlock>, b: IndentedBlock, n: nat, all: seq<string>)
    requires forall k :: 0 <= k < |blocks| ==> BlockOf(blocks[k], all) && blocks[k].lineEnd + 1 < n
    requires BlockOf(b, all) && b.lineEnd + 1 == n
    ensures var bs := blocks + [b];
      forall k :: 0 <= k < |bs| ==> BlockOf(bs[k], all) && bs[k].lineEnd + 1 < n + 1
  {
    var bs := blocks + [b];
    forall k | 0 <= k < |bs| ensures BlockOf(bs[k], all) && bs[k].lineEnd + 1 < n + 1 {
      if k < |blocks| {
        assert bs[k] == blocks[k];
      }
    }
  }

  /** A plain line closes the open run into a block. */
  lemma {:induction false} CloseRunKeeps(st: IndentScan, n: nat, all: seq<string>)
    requires n < |all| && IndentInvariant(st, n, all) && !Indented(all[n]) && st.inBlock
    ensures IndentInvariant(IndentStep(st, n, all[n]), n + 1, all)
  {
    assert OpenRun(st, n, all);
    assert |st.codeLines| == n - st.start > 0;
    var b := IndentedBlock(Join(st.codeLines, '\n'), st.start, n - 1);
    assert IndentStep(st, n, all[n]) == IndentScan(st.blocks + [b], false, [], st.start);
    ClosedRunIsBlock(st, n, all);
    CloseKeepsValid(st.blocks, b, n, all);
    CloseKeepsOrder(st.blocks, b);
    CloseKeepsComplete(st.blocks, b, n, all);
  }

  lemma {:induction false} IndentStepKeeps(st: IndentScan, n: nat, all: seq<string>)
    requires n < |all| && IndentInvariant(st, n, all)
    ensures IndentInvariant(IndentStep(st, n, all[n]), n + 1, all)
  {
    if Indented(all[n]) {
      if st.inBlock { ExtendRunKeeps(st, n, all); } else { OpenRunKeeps(st, n, all); }
    } else if st.inBlock {
      CloseRunKeeps(st, n, all);
    } else {
      assert IndentStep(st, n, all[n]) == st;
    }
  }

  lemma {:induction false} IndentScanInvariant(all: seq<string>, i: nat)
    requires i <= |all|
    ensures IndentInvariant(IndentScanLines(all[..i]), i, all)
    decreases i
  {
    if i > 0 {
      IndentScanInvariant(all, i - 1);
      assert all[..i][..i - 1] == all[..i - 1];
      IndentStepKeeps(IndentScanLines(all[..i - 1]), i - 1, all);
    }
  }

  /** The indented blocks are exactly the maximal runs of indented lines that a later
      line closes, in order, each with its indentation removed; in particular a run
      reaching the last line is dropped. */
  lemma IndentedBlocksSpec(lines: seq<string>)
    ensures var blocks := IndentScanLines(lines).blocks;
      && (forall k :: 0 <= k < |blocks| ==> BlockOf(blocks[k], lines))
      && (forall k :: 0 <= k < |blocks| - 1 ==> blocks[k].lineEnd < blocks[k + 1].lineStart)
      && (forall e :: 0 <= e && e + 1 < |lines| && Indented(lines[e]) && !Indented(lines[e + 1]) ==> EndsBlock(blocks, e))
      && (forall k :: 0 <= k < |blocks| ==> blocks[k].lineEnd < |lines| - 1)
  {
    IndentScanInvariant(lines, |lines|);
    assert lines[..|lines|] == lines;
  }

  // ---------------------------------------------------------------------------
  // Token counting

  /** tiktoken's encoder and decoder; `encode` answers `None` where it raises. */
  datatype Tokenizer = Tokenizer(encode: string -> Option<seq<int>>, decode: seq<int> -> string)

  /** _count_tokens: the number of tokens, or a quarter of the length when encoding
      raises. */
  function CountTokens(t: Tokenizer, text: string): (n: nat)
    ensures t.encode(text).Some? ==> n == |t.encode(text).value|
    ensures t.encode(text).None? ==> n == |text| / 4
  {
    match t.encode(text)
    case Some(tokens) => |tokens|
    case None => |text| / 4
  }

  // ---------------------------------------------------------------------------
  // Parts: the text between fenced blocks and the blocks themselves

  datatype PartKind = TextKind | CodeKind(language: string)

  datatype Part = Part(kind: PartKind, content: string, tokenCount: nat)

  /** The blocks after the first are ordered after its end. */
  lemma OrderedTail(blocks: seq<FencedBlock>, from: nat, s: string)
    requires |blocks| > 0 && Ordered(blocks, from, s)
    ensures Ordered(blocks[1..], blocks[0].end, s)
  {
  }

  /** One iteration of BuildParts: the parts of the first block and the text before it. */
  function PartsOfBlock(t: Tokenizer, content: string, b: FencedBlock, lastEnd: nat): (r: seq<Part>)
    requires lastEnd <= b.start <= b.end <= |content|
    ensures |r| >= 1 && r[|r| - 1].content == b.fullMatch
  {
    var before := content[lastEnd..b.start];
    (if b.start > lastEnd then [Part(TextKind, before, CountTokens(t, before))] else [])
      + [Part(CodeKind(b.language), b.fullMatch, CountTokens(t, b.fullMatch))]
  }

  /** The parts of `content[lastEnd..]` around `blocks`: the text before each block (when
      there is some), the block's whole match, and the text after the last block. */
  function PartsFrom(t: Tokenizer, content: string, blocks: seq<FencedBlock>, lastEnd: nat): (r: seq<Part>)
    requires lastEnd <= |content| && Ordered(blocks, lastEnd, content)
    ensures forall k :: 0 <= k < |r| ==> r[k].content != []
    decreases |blocks|
  {
    if |blocks| == 0 then
      if lastEnd < |content| then [Part(TextKind, content[lastEnd..], CountTokens(t, content[lastEnd..]))] else []
    else
      OrderedTail(blocks, lastEnd, content);
      PartsOfBlock(t, content, blocks[0], lastEnd) + PartsFrom(t, content, blocks[1..], blocks[0].end)
  }

  /** The text of parts, concatenated. */
  function PartsText(parts: seq<Part>): string {
    if |parts| == 0 then "" else PartsText(parts[..|parts| - 1]) + parts[|parts| - 1].content
  }

  lemma {:induction false} PartsTextAppend(a: seq<Part>, b: seq<Part>)
    ensures PartsText(a + b) == PartsText(a) + PartsText(b)
    decreases |b|
  {
    if |b| > 0 {
      var n := |b| - 1;
      PartsTextAppend(a, b[..n]);
      assert (a + b)[..|a| + n] == a + b[..n];
    } else {
      assert a + b == a;
    }
  }

  /** The parts put back together give the text they were cut from: nothing is lost,
      duplicated or reordered. */
  lemma PartsOfBlockText(t: Tokenizer, content: string, b: FencedBlock, lastEnd: nat)
    requires lastEnd <= b.start <= b.end <= |content| && b.fullMatch == content[b.start..b.end]
    ensures PartsText(PartsOfBlock(t, content, b, lastEnd)) == content[lastEnd..b.end]
  {
    var before := content[lastEnd..b.start];
    var head := if b.start > lastEnd then [Part(TextKind, before, CountTokens(t, before))] else [];
    var code := Part(CodeKind(b.language), b.fullMatch, CountTokens(t, b.fullMatch));
    PartsTextAppend(head, [code]);
    assert PartsText([code]) == PartsText([]) + code.content;
    assert PartsText(head) == before by {
      if b.start > lastEnd {
        assert PartsText(head) == PartsText([]) + before;
      }
    }
    SliceSplit(content, lastEnd, b.start, b.end);
  }

  lemma SliceSplit(s: string, i: nat, j: nat, k: nat)
    requires i <= j <= k <= |s|
    ensures s[i..k] == s[i..j] + s[j..k]
  {
  }

  /** The parts put back together give the text they were cut from: nothing is lost,
      duplicated or reordered. */
  lemma {:induction false} PartsCover(t: Tokenizer, content: string, blocks: seq<FencedBlock>, lastEnd: nat)
    requires lastEnd <= |content| && Ordered(blocks, lastEnd, content)
    ensures PartsText(PartsFrom(t, content, blocks, lastEnd)) == content[lastEnd..]
    decreases |blocks|
  {
    if |blocks| == 0 {
      if lastEnd < |content| {
        var p := Part(TextKind, content[lastEnd..], CountTokens(t, content[lastEnd..]));
        assert PartsText([p]) == PartsText([]) + p.content;
      }
    } else {
      var b := blocks[0];
      OrderedTail(blocks, lastEnd, content);
      PartsCover(t, content, blocks[1..], b.end);
      PartsOfBlockText(t, content, b, lastEnd);
      PartsTextAppend(PartsOfBlock(t, content, b, lastEnd), PartsFrom(t, content, blocks[1..], b.end));
      SuffixSplit(content, lastEnd, b.end);
    }
  }

  lemma SuffixSplit(s: string, i: nat, j: nat)
    requires i <= j <= |s|
    ensures s[i..] == s[i..j] + s[j..]
  {
  }

  /** The loop of _chunk_with_code_blocks that builds the parts. */
  method BuildParts(t: Tokenizer, content: string, blocks: seq<FencedBlock>) returns (parts: seq<Part>)
    requires Ordered(blocks, 0, content)
    ensures parts == PartsFrom(t, content, blocks, 0)
  {
    parts := [];
    var lastEnd := 0;
    for i := 0 to |blocks|
      invariant 0 <= lastEnd <= |content| && Ordered(blocks[i..], lastEnd, content)
      invariant parts + PartsFrom(t, content, blocks[i..], lastEnd) == PartsFrom(t, content, blocks, 0)
    {
      var b := blocks[i];
      OrderedTail(blocks[i..], lastEnd, content);
      assert blocks[i..][1..] == blocks[i + 1..];
      parts := parts + PartsOfBlock(t, content, b, lastEnd);
      lastEnd := b.end;
    }
    if lastEnd < |content| {
      parts := parts + [Part(TextKind, content[lastEnd..], CountTokens(t, content[lastEnd..]))];
    }
  }

  // ---------------------------------------------------------------------------
  // Greedy packing of the parts into chunks

  function TokenSum(parts: seq<Part>): nat {
    if |parts| == 0 then 0 else TokenSum(parts[..|parts| - 1]) + parts[|parts| - 1].tokenCount
  }

  /** The groups closed so far and the group being filled. */
  datatype Packing = Packing(closed: seq<seq<Part>>, current: seq<Part>)

  /** One iteration of the packing loop: the group being filled is closed first when the
      part would take it past `size` and it holds some text. */
  function PackStep(pk: Packing, part: Part, size: nat): Packing {
    if TokenSum(pk.current) + part.tokenCount > size && PartsText(pk.current) != "" then
      Packing(pk.closed + [pk.current], [part])
    else
      Packing(pk.closed, pk.current + [part])
  }

  function Pack(parts: seq<Part>, size: nat): Packing {
    if |parts| == 0 then Packing([], [])
    else PackStep(Pack(parts[..|parts| - 1], size), parts[|parts| - 1], size)
  }

  function Flatten(groups: seq<seq<Part>>): seq<Part> {
    if |groups| == 0 then [] else Flatten(groups[..|groups| - 1]) + groups[|groups| - 1]
  }

  /** The first part after closed group `i`. */
  function FirstAfter(pk: Packing, i: nat): Part
    requires i < |pk.closed| && |pk.current| > 0
    requires forall k :: 0 <= k < |pk.closed| ==> |pk.closed[k]| > 0
  {
    if i + 1 < |pk.closed| then pk.closed[i + 1][0] else pk.current[0]
  }

  /** What packing keeps true: every closed group holds text and fits in `size` unless
      it is a single part; it was closed only because the next part would have taken it
      past `size`; and the group being filled fits unless it is a single part. */
  predicate PackInvariant(pk: Packing, size: nat) {
    && (forall k :: 0 <= k < |pk.current| ==> pk.current[k].content != "")
    && (|pk.closed| > 0 ==> |pk.current| > 0)
    && (TokenSum(pk.current) <= size || |pk.current| == 1)
    && (forall k :: 0 <= k < |pk.closed| ==>
          |pk.closed[k]| > 0 && PartsText(pk.closed[k]) != "" && (TokenSum(pk.closed[k]) <= size || |pk.closed[k]| == 1))
    && (forall k :: 0 <= k < |pk.closed| ==> TokenSum(pk.closed[k]) + FirstAfter(pk, k).tokenCount > size)
  }

  lemma PackCloseKeeps(pk: Packing, part: Part, size: nat)
    requires PackInvariant(pk, size) && part.content != ""
    requires TokenSum(pk.current) + part.tokenCount > size && PartsText(pk.current) != ""
    ensures PackInvariant(PackStep(pk, part, size), size)
  {
    var pk2 := PackStep(pk, part, size);
    assert pk2.closed == pk.closed + [pk.current] && pk2.current == [part];
    assert TokenSum([part]) == part.tokenCount by {
      assert [part][..0] == [];
    }
    forall k | 0 <= k < |pk2.closed|
      ensures TokenSum(pk2.closed[k]) + FirstAfter(pk2, k).tokenCount > size
    {
      if k < |pk.closed| {
        assert FirstAfter(pk2, k) == FirstAfter(pk, k);
      }
    }
  }

  lemma PackExtendKeeps(pk: Packing, part: Part, size: nat)
    requires PackInvariant(pk, size) && part.content != ""
    requires !(TokenSum(pk.current) + part.tokenCount > size && PartsText(pk.current) != "")
    ensures PackInvariant(PackStep(pk, part, size), size)
  {
    var pk2 := PackStep(pk, part, size);
    var cur := pk.current;
    assert pk2.current == cur + [part];
    assert (cur + [part])[..|cur|] == cur;
    if |cur| > 0 {
      assert PartsText(cur) == PartsText(cur[..|cur| - 1]) + cur[|cur| - 1].content;
      assert TokenSum(pk2.current) <= size;
    }
    forall k | 0 <= k < |pk2.closed|
      ensures TokenSum(pk2.closed[k]) + FirstAfter(pk2, k).tokenCount > size
    {
      assert FirstAfter(pk2, k) == FirstAfter(pk, k);
    }
  }

  lemma {:induction false} PackKeeps(parts: seq<Part>, size: nat)
    requires forall k :: 0 <= k < |parts| ==> parts[k].content != ""
    ensures PackInvariant(Pack(parts, size), size)
  {
    if |parts| > 0 {
      var n := |parts| - 1;
      PackKeeps(parts[..n], size);
      var pk := Pack(parts[..n], size);
      if TokenSum(pk.current) + parts[n].tokenCount > size && PartsText(pk.current) != "" {
        PackCloseKeeps(pk, parts[n], size);
      } else {
        PackExtendKeeps(pk, parts[n], size);
      }
    }
  }

  /** Packing keeps every part, once, in order. */
  lemma PackStepPartition(pk: Packing, p: Part, size: nat)
    ensures var pk2 := PackStep(pk, p, size);
      Flatten(pk2.closed) + pk2.current == Flatten(pk.closed) + pk.current + [p]
  {
    var pk2 := PackStep(pk, p, size);
    if pk2.closed == pk.closed + [pk.current] {
      assert (pk.closed + [pk.current])[..|pk.closed|] == pk.closed;
    }
  }

  /** Packing keeps every part, once, in order. */
  lemma {:induction false} PackPartition(parts: seq<Part>, size: nat)
    ensures Flatten(Pack(parts, size).closed) + Pack(parts, size).current == parts
  {
    if |parts| > 0 {
      var n := |parts| - 1;
      PackPartition(parts[..n], size);
      PackStepPartition(Pack(parts[..n], size), parts[n], size);
      assert parts == parts[..n] + [parts[n]];
    }
  }

  /** The text of each group, concatenated. */
  function GroupsText(groups: seq<seq<Part>>): string {
    if |groups| == 0 then "" else GroupsText(groups[..|groups| - 1]) + PartsText(groups[|groups| - 1])
  }

  lemma {:induction false} FlattenText(groups: seq<seq<Part>>)
    ensures PartsText(Flatten(groups)) == GroupsText(groups)
  {
    if |groups| > 0 {
      var n := |groups| - 1;
      FlattenText(groups[..n]);
      PartsTextAppend(Flatten(groups[..n]), groups[n]);
    }
  }

  /** The chunk texts packing gives: each closed group stripped (even when that leaves
      nothing), then the group being filled, stripped, when it is not blank. */
  function PackedTexts(pk: Packing): seq<string> {
    ClosedTexts(pk.closed) + (if Strip(PartsText(pk.current)) != "" then [Strip(PartsText(pk.current))] else [])
  }

  function ClosedTexts(groups: seq<seq<Part>>): seq<string> {
    if |groups| == 0 then [] else ClosedTexts(groups[..|groups| - 1]) + [Strip(PartsText(groups[|groups| - 1]))]
  }

  lemma {:induction false} ClosedTextsLength(groups: seq<seq<Part>>)
    ensures |ClosedTexts(groups)| == |groups|
  {
    if |groups| > 0 {
      ClosedTextsLength(groups[..|groups| - 1]);
    }
  }

  lemma {:induction false} ClosedTextsAt(groups: seq<seq<Part>>, k: nat)
    requires k < |groups|
    ensures |ClosedTexts(groups)| == |groups|
    ensures ClosedTexts(groups)[k] == Strip(PartsText(groups[k]))
  {
    var n := |groups| - 1;
    ClosedTextsLength(groups);
    ClosedTextsLength(groups[..n]);
    if k < n {
      ClosedTextsAt(groups[..n], k);
      assert groups[..n][k] == groups[k];
    }
  }

  /** One chunk text per closed group, that group's text stripped, then one more exactly
      when the last group is not blank. */
  lemma PackedTextsShape(pk: Packing)
    ensures |PackedTexts(pk)| == |pk.closed| + (if IsBlank(PartsText(pk.current)) then 0 else 1)
    ensures forall k :: 0 <= k < |pk.closed| ==> PackedTexts(pk)[k] == Strip(PartsText(pk.closed[k]))
    ensures !IsBlank(PartsText(pk.current)) ==> PackedTexts(pk)[|pk.closed|] == Strip(PartsText(pk.current))
  {
    ClosedTextsLength(pk.closed);
    StripSpec(PartsText(pk.current));
    forall k | 0 <= k < |pk.closed|
      ensures PackedTexts(pk)[k] == Strip(PartsText(pk.closed[k]))
    {
      ClosedTextsAt(pk.closed, k);
    }
  }

  /** The packing of a section's parts: the groups, concatenated, are the section's text,
      and every group keeps the packing rules. */
  lemma PackingSpec(t: Tokenizer, content: string, blocks: seq<FencedBlock>, size: nat)
    requires Ordered(blocks, 0, content)
    ensures var pk := Pack(PartsFrom(t, content, blocks, 0), size);
      && GroupsText(pk.closed) + PartsText(pk.current) == content
      && PackInvariant(pk, size)
  {
    var parts := PartsFrom(t, content, blocks, 0);
    var pk := Pack(parts, size);
    PackKeeps(parts, size);
    PackPartition(parts, size);
    PartsCover(t, content, blocks, 0);
    FlattenText(pk.closed);
    PartsTextAppend(Flatten(pk.closed), pk.current);
  }

  // ---------------------------------------------------------------------------
  // Chunk classification

  datatype ChunkType = CodeChunk | TextChunk | MixedChunk

  /** The test _classify_chunk_type applies to a stripped, non-empty line. As in Python,
      `and` binds tighter than `or`. */
  predicate LooksLikeCode(line: string) {
    StartsWith(line, "def ") || StartsWith(line, "class ") || StartsWith(line, "import ")
    || StartsWith(line, "from ")
    || ('=' in line && (Contains(line, "==") || Contains(line, "!=") || Contains(line, "<=") || Contains(line, ">=")))
    || StartsWith(line, "//")
    || (StartsWith(line, "#") && !StartsWith(line, "# "))
  }

  /** The number of non-blank lines that look like code, and of those that do not. */
  function CodeLines(lines: seq<string>): nat {
    if |lines| == 0 then 0
    else
      var line := Strip(lines[|lines| - 1]);
      CodeLines(lines[..|lines| - 1]) + (if line != "" && LooksLikeCode(line) then 1 else 0)
  }

  function TextLines(lines: seq<string>): nat {
    if |lines| == 0 then 0
    else
      var line := Strip(lines[|lines| - 1]);
      TextLines(lines[..|lines| - 1]) + (if line != "" && !LooksLikeCode(line) then 1 else 0)
  }

  function NonBlankLines(lines: seq<string>): nat {
    if |lines| == 0 then 0 else NonBlankLines(lines[..|lines| - 1]) + (if IsBlank(lines[|lines| - 1]) then 0 else 1)
  }

  /** "code" when code lines outnumber text lines more than twice, "text" in the
      opposite case, "mixed" otherwise. */
  function Classify(code: nat, text: nat): (r: ChunkType)
    ensures r == CodeChunk <==> code > 2 * text
    ensures r == TextChunk <==> code <= 2 * text && text > 2 * code
  {
    if code > text * 2 then CodeChunk else if text > code * 2 then TextChunk else MixedChunk
  }

  function ChunkTypeOf(content: string): ChunkType {
    var lines := Split(content, '\n');
    Classify(CodeLines(lines), TextLines(lines))
  }

  /** Every non-blank line is counted once, as code or as text. */
  lemma {:induction false} LinesCounted(lines: seq<string>)
    ensures CodeLines(lines) + TextLines(lines) == NonBlankLines(lines)
  {
    if |lines| > 0 {
      LinesCounted(lines[..|lines| - 1]);
      StripSpec(lines[|lines| - 1]);
    }
  }

  /** A chunk with a non-blank line, all of whose non-blank lines look like code, is a
      code chunk; one none of whose lines look like code is a text chunk. */
  lemma {:induction false} UniformLinesClassify(content: string)
    requires NonBlankLines(Split(content, '\n')) > 0
    ensures (forall k :: 0 <= k < |Split(content, '\n')| && !IsBlank(Split(content, '\n')[k]) ==>
               LooksLikeCode(Strip(Split(content, '\n')[k]))) ==> ChunkTypeOf(content) == CodeChunk
    ensures (forall k :: 0 <= k < |Split(content, '\n')| ==> !LooksLikeCode(Strip(Split(content, '\n')[k])))
              ==> ChunkTypeOf(content) == TextChunk
  {
    var lines := Split(content, '\n');
    LinesCounted(lines);
    if forall k :: 0 <= k < |lines| && !IsBlank(lines[k]) ==> LooksLikeCode(Strip(lines[k])) {
      AllCodeLines(lines);
    }
    if forall k :: 0 <= k < |lines| ==> !LooksLikeCode(Strip(lines[k])) {
      NoCodeLines(lines);
    }
  }

  lemma {:induction false} AllCodeLines(lines: seq<string>)
    requires forall k :: 0 <= k < |lines| && !IsBlank(lines[k]) ==> LooksLikeCode(Strip(lines[k]))
    ensures TextLines(lines) == 0
  {
    if |lines| > 0 {
      AllCodeLines(lines[..|lines| - 1]);
      StripSpec(lines[|lines| - 1]);
    }
  }

  lemma {:induction false} NoCodeLines(lines: seq<string>)
    requires forall k :: 0 <= k < |lines| ==> !LooksLikeCode(Strip(lines[k]))
    ensures CodeLines(lines) == 0
  {
    if |lines| > 0 {
      NoCodeLines(lines[..|lines| - 1]);
    }
  }

  /** The counting loop of _classify_chunk_type. */
  method ClassifyChunkType(content: string) returns (r: ChunkType)
    ensures r == ChunkTypeOf(content)
  {
    var lines := Split(content, '\n');
    var codeLines := 0;
    var textLines := 0;
    for i := 0 to |lines|
      invariant codeLines == CodeLines(lines[..i]) && textLines == TextLines(lines[..i])
    {
      assert lines[..i + 1][..i] == lines[..i];
      var line := Strip(lines[i]);
      if line == "" {
        continue;
      }
      if LooksLikeCode(line) {
        codeLines := codeLines + 1;
      } else {
        textLines := textLines + 1;
      }
    }
    assert lines[..|lines|] == lines;
    r := Classify(codeLines, textLines);
  }

  // ---------------------------------------------------------------------------
  // Chunks and their metadata

  predicate IsHexDigit(c: char) {
    ('0' <= c <= '9') || ('a' <= c <= 'f')
  }

  /** What `hashlib.md5(...).hexdigest()` returns: 32 lower-case hexadecimal digits. */
  type HexDigest = s: string | |s| == 32 && forall i :: 0 <= i < |s| ==> IsHexDigit(s[i])
    witness "00000000000000000000000000000000"

  /** The processor's configuration and the library functions it calls. */
  datatype Processor = Processor(
    tokenizer: Tokenizer,
    md5: string -> HexDigest,
    chunkSize: nat,
    chunkOverlap: nat,
    maxChunks: nat)

  datatype DocType = MarkdownDoc | PdfDoc | TextDoc

  datatype ChunkMetadata = ChunkMetadata(
    content: string,
    sourceFile: string,
    docType: DocType,
    section: string,
    chunkIndex: nat,
    chunkType: ChunkType,
    hasCode: bool,
    timestamp: string,
    charCount: nat,
    tokenCount: nat,
    sectionLevel: nat)

  datatype DocumentChunk = DocumentChunk(id: string, content: string, metadata: ChunkMetadata)

  /** `re.search(r'```|    \w+', content)`: a fence, or four spaces followed by a word
      character, anywhere in the text. */
  predicate HasCode(content: string) {
    Contains(content, "```")
    || exists i :: 0 <= i && i + 4 < |content| && OccursAt(content, "    ", i) && IsWordChar(content[i + 4])
  }

  /** The digest input of _generate_chunk_id: the file name, the index and the first 100
      characters of the content, joined by underscores. */
  function IdInput(content: string, filename: string, index: nat): string {
    filename + "_" + NatToString(index) + "_" + Take(content, 100)
  }

  /** "chunk_" followed by the first 12 hex digits of the digest. */
  function ChunkId(md5: string -> HexDigest, content: string, filename: string, index: nat): (id: string)
    ensures |id| == 18 && StartsWith(id, "chunk_")
    ensures forall i :: 6 <= i < 18 ==> IsHexDigit(id[i])
  {
    "chunk_" + md5(IdInput(content, filename, index))[..12]
  }

  /** The id sees only the first 100 characters of the content: two chunks of one file
      with the same index that agree on those get the same id, whatever follows. */
  lemma SameIdForSamePrefix(md5: string -> HexDigest, a: string, b: string, filename: string, index: nat)
    requires |a| >= 100 && |b| >= 100 && a[..100] == b[..100]
    ensures ChunkId(md5, a, filename, index) == ChunkId(md5, b, filename, index)
  {
  }

  /** The chunk _create_chunk builds. */
  function ChunkOf(p: Processor, content: string, section: Section, filename: string, docType: DocType,
                       index: nat, now: string): DocumentChunk
  {
    DocumentChunk(
      ChunkId(p.md5, content, filename, index),
      content,
      ChunkMetadata(content, filename, docType, section.title, index, ChunkTypeOf(content), HasCode(content), now,
                    |content|, CountTokens(p.tokenizer, content), section.level))
  }

  /** _create_chunk; `now` is the timestamp the clock gives. */
  method CreateChunk(p: Processor, content: string, section: Section, filename: string, docType: DocType,
                     index: nat, now: string) returns (c: DocumentChunk)
    ensures c == ChunkOf(p, content, section, filename, docType, index, now)
  {
    var chunkType := ClassifyChunkType(content);
    c := DocumentChunk(
      ChunkId(p.md5, content, filename, index),
      content,
      ChunkMetadata(content, filename, docType, section.title, index, chunkType, HasCode(content), now,
                    |content|, CountTokens(p.tokenizer, content), section.level));
  }

  /** The chunks made from `texts`, numbered from 0 in order. */
  function Chunks(p: Processor, texts: seq<string>, section: Section, filename: string, docType: DocType,
                  now: string): (r: seq<DocumentChunk>)
    ensures |r| == |texts|
  {
    seq(|texts|, k requires 0 <= k < |texts| => ChunkOf(p, texts[k], section, filename, docType, k, now))
  }

  /** Chunk `k` holds text `k`, is numbered `k`, and records its section and file. */
  lemma ChunksNumbered(p: Processor, texts: seq<string>, section: Section, filename: string,
                                          docType: DocType, now: string)
    ensures var r := Chunks(p, texts, section, filename, docType, now);
      forall k :: 0 <= k < |r| ==>
        && r[k].content == texts[k] && r[k].metadata.content == texts[k]
        && r[k].metadata.chunkIndex == k
        && r[k].id == ChunkId(p.md5, texts[k], filename, k)
        && r[k].metadata.charCount == |texts[k]|
        && r[k].metadata.section == section.title && r[k].metadata.sectionLevel == section.level
        && r[k].metadata.sourceFile == filename && r[k].metadata.docType == docType
        && r[k].metadata.chunkType == ChunkTypeOf(texts[k])
  {
  }

  /** The chunks _chunk_with_code_blocks makes of a section, cutting it around `blocks`. */
  function CodeAwareChunks(p: Processor, section: Section, filename: string, docType: DocType, now: string,
                           blocks: seq<FencedBlock>): seq<DocumentChunk>
    requires Ordered(blocks, 0, section.content)
  {
    Chunks(p, PackedTexts(Pack(PartsFrom(p.tokenizer, section.content, blocks, 0), p.chunkSize)),
           section, filename, docType, now)
  }

  lemma ChunksSnoc(p: Processor, texts: seq<string>, t: string, section: Section, filename: string,
                   docType: DocType, now: string)
    ensures Chunks(p, texts + [t], section, filename, docType, now)
      == Chunks(p, texts, section, filename, docType, now) + [ChunkOf(p, t, section, filename, docType, |texts|, now)]
  {
    var a := Chunks(p, texts + [t], section, filename, docType, now);
    var b := Chunks(p, texts, section, filename, docType, now) + [ChunkOf(p, t, section, filename, docType, |texts|, now)];
    forall k | 0 <= k < |a|
      ensures a[k] == b[k]
    {
      if k < |texts| {
        assert (texts + [t])[k] == texts[k];
      }
    }
  }

  /** The packing loop closes a chunk: the group being filled becomes chunk number
      `|texts|`. */
  lemma CloseStep(p: Processor, pk: Packing, part: Part, texts: seq<string>, section: Section, filename: string,
                  docType: DocType, now: string)
    requires TokenSum(pk.current) + part.tokenCount > p.chunkSize && PartsText(pk.current) != ""
    requires texts == ClosedTexts(pk.closed)
    ensures var pk2 := PackStep(pk, part, p.chunkSize);
      && ClosedTexts(pk2.closed) == texts + [Strip(PartsText(pk.current))]
      && PartsText(pk2.current) == part.content && TokenSum(pk2.current) == part.tokenCount
      && Chunks(p, texts + [Strip(PartsText(pk.current))], section, filename, docType, now)
         == Chunks(p, texts, section, filename, docType, now)
            + [ChunkOf(p, Strip(PartsText(pk.current)), section, filename, docType, |texts|, now)]
  {
    assert (pk.closed + [pk.current])[..|pk.closed|] == pk.closed;
    assert [part][..0] == [];
    ChunksSnoc(p, texts, Strip(PartsText(pk.current)), section, filename, docType, now);
  }

  lemma ExtendStep(pk: Packing, part: Part, size: nat)
    requires !(TokenSum(pk.current) + part.tokenCount > size && PartsText(pk.current) != "")
    ensures PackStep(pk, part, size) == Packing(pk.closed, pk.current + [part])
    ensures PartsText(pk.current + [part]) == PartsText(pk.current) + part.content
    ensures TokenSum(pk.current + [part]) == TokenSum(pk.current) + part.tokenCount
  {
    assert (pk.current + [part])[..|pk.current|] == pk.current;
  }

  lemma PackPrefix(parts: seq<Part>, i: nat, size: nat)
    requires i < |parts|
    ensures Pack(parts[..i + 1], size) == PackStep(Pack(parts[..i], size), parts[i], size)
  {
    assert parts[..i + 1][..i] == parts[..i];
  }

  /** The end of the packing loop: the last group becomes a chunk when it is not blank. */
  lemma FinalStep(p: Processor, pk: Packing, texts: seq<string>, section: Section, filename: string,
                  docType: DocType, now: string)
    requires texts == ClosedTexts(pk.closed)
    ensures Strip(PartsText(pk.current)) != "" ==>
      Chunks(p, PackedTexts(pk), section, filename, docType, now)
      == Chunks(p, texts, section, filename, docType, now)
         + [ChunkOf(p, Strip(PartsText(pk.current)), section, filename, docType, |texts|, now)]
    ensures Strip(PartsText(pk.current)) == "" ==> PackedTexts(pk) == texts
  {
    ChunksSnoc(p, texts, Strip(PartsText(pk.current)), section, filename, docType, now);
  }

  /** _chunk_with_code_blocks: the parts, then the packing loop. */
  method ChunkWithCodeBlocks(p: Processor, section: Section, filename: string, docType: DocType, now: string,
                             blocks: seq<FencedBlock>) returns (chunks: seq<DocumentChunk>)
    requires Ordered(blocks, 0, section.content)
    ensures chunks == CodeAwareChunks(p, section, filename, docType, now, blocks)
  {
    var parts := BuildParts(p.tokenizer, section.content, blocks);
    chunks := PackParts(p, parts, section, filename, docType, now);
  }

  /** The packing loop of _chunk_with_code_blocks: a chunk is cut whenever the next part
      would take the text gathered so far past the chunk size. */
  method PackParts(p: Processor, parts: seq<Part>, section: Section, filename: string, docType: DocType, now: string)
    returns (chunks: seq<DocumentChunk>)
    ensures chunks == Chunks(p, PackedTexts(Pack(parts, p.chunkSize)), section, filename, docType, now)
  {
    chunks := [];
    var currentChunk := "";
    var currentTokens := 0;
    var chunkIndex := 0;
    ghost var pk := Packing([], []);
    ghost var texts: seq<string> := [];
    for i := 0 to |parts|
      invariant pk == Pack(parts[..i], p.chunkSize)
      invariant currentChunk == PartsText(pk.current) && currentTokens == TokenSum(pk.current)
      invariant texts == ClosedTexts(pk.closed) && chunkIndex == |texts|
      invariant chunks == Chunks(p, texts, section, filename, docType, now)
    {
      var part := parts[i];
      PackPrefix(parts, i, p.chunkSize);
      if currentTokens + part.tokenCount > p.chunkSize && currentChunk != "" {
        CloseStep(p, pk, part, texts, section, filename, docType, now);
        var chunk := CreateChunk(p, Strip(currentChunk), section, filename, docType, chunkIndex, now);
        chunks := chunks + [chunk];
        texts := texts + [Strip(currentChunk)];
        chunkIndex := chunkIndex + 1;
        currentChunk := part.content;
        currentTokens := part.tokenCount;
      } else {
        ExtendStep(pk, part, p.chunkSize);
        currentChunk := currentChunk + part.content;
        currentTokens := currentTokens + part.tokenCount;
      }
      pk := PackStep(pk, part, p.chunkSize);
    }
    assert parts[..|parts|] == parts;
    FinalStep(p, pk, texts, section, filename, docType, now);
    if Strip(currentChunk) != "" {
      var chunk := CreateChunk(p, Strip(currentChunk), section, filename, docType, chunkIndex, now);
      chunks := chunks + [chunk];
    }
  }

  // ---------------------------------------------------------------------------
  // Overlapping token windows

  /** `tokens[from:from + size]`. */
  function Window(tokens: seq<int>, from: nat, size: nat): (w: seq<int>)
    requires from <= |tokens|
    ensures |w| <= size
  {
    tokens[from..Min(from + size, |tokens|)]
  }

  /** The windows of `size` tokens starting at `from`, `from + step`, ... while inside
      the tokens. */
  function Windows(tokens: seq<int>, size: nat, step: nat, from: nat): (r: seq<seq<int>>)
    requires step > 0
    decreases |tokens| - from
  {
    if from >= |tokens| then [] else [Window(tokens, from, size)] + Windows(tokens, size, step, from + step)
  }

  lemma StepMul(from: nat, k: nat, step: nat)
    ensures from + step + k * step == from + (k + 1) * step
  {
  }

  /** Window `k` starts `k` steps after `from`. */
  lemma {:induction false} WindowAtIndex(tokens: seq<int>, size: nat, step: nat, from: nat, k: nat)
    requires step > 0 && k < |Windows(tokens, size, step, from)|
    ensures from + k * step < |tokens|
    ensures Windows(tokens, size, step, from)[k] == Window(tokens, from + k * step, size)
    decreases k
  {
    WindowsUnfold(tokens, size, step, from);
    if k == 0 {
      assert k * step == 0;
    } else {
      WindowAtIndex(tokens, size, step, from + step, k - 1);
      StepMul(from, k - 1, step);
    }
  }

  /** The windows run until the tokens are used up. */
  lemma {:induction false} WindowsReachEnd(tokens: seq<int>, size: nat, step: nat, from: nat)
    requires step > 0
    ensures from + |Windows(tokens, size, step, from)| * step >= |tokens|
    decreases |tokens| - from
  {
    if from < |tokens| {
      WindowsUnfold(tokens, size, step, from);
      WindowsReachEnd(tokens, size, step, from + step);
      StepMul(from, |Windows(tokens, size, step, from + step)|, step);
    }
  }

  /** Window `k` starts `k` steps after `from`, and the windows run until the tokens are
      used up. */
  lemma WindowsAt(tokens: seq<int>, size: nat, step: nat, from: nat)
    requires step > 0
    ensures var r := Windows(tokens, size, step, from);
      && (forall k :: 0 <= k < |r| ==> from + k * step < |tokens| && r[k] == Window(tokens, from + k * step, size))
      && from + |r| * step >= |tokens|
  {
    forall k | 0 <= k < |Windows(tokens, size, step, from)|
      ensures from + k * step < |tokens|
      ensures Windows(tokens, size, step, from)[k] == Window(tokens, from + k * step, size)
    {
      WindowAtIndex(tokens, size, step, from, k);
    }
    WindowsReachEnd(tokens, size, step, from);
  }

  /** When windows overlap or touch (`step <= size`), every token from `from` on lies in
      some window `k`, at its own place. */
  lemma {:induction false} WindowsCover(tokens: seq<int>, size: nat, step: nat, from: nat, j: nat) returns (k: nat)
    requires 0 < step <= size && from <= j < |tokens|
    ensures var r := Windows(tokens, size, step, from);
      && k < |r| && from + k * step <= j < from + k * step + |r[k]|
      && r[k][j - (from + k * step)] == tokens[j]
    decreases |tokens| - from
  {
    var r := Windows(tokens, size, step, from);
    assert r == [Window(tokens, from, size)] + Windows(tokens, size, step, from + step);
    if j < from + step {
      k := 0;
      assert |r[0]| == Min(from + size, |tokens|) - from;
      assert k * step == 0;
    } else {
      var rest := Windows(tokens, size, step, from + step);
      var k' := WindowsCover(tokens, size, step, from + step, j);
      k := k' + 1;
      assert r[k] == rest[k'];
      StepMul(from, k', step);
    }
  }

  function DecodeAll(t: Tokenizer, windows: seq<seq<int>>): (r: seq<string>)
    ensures |r| == |windows|
  {
    if |windows| == 0 then [] else DecodeAll(t, windows[..|windows| - 1]) + [t.decode(windows[|windows| - 1])]
  }

  /** _chunk_plain_text: a chunk per window of `chunkSize` tokens, the windows starting
      `chunkSize - chunkOverlap` tokens apart. Encoding that raises, and a step of zero
      (which `range` refuses), fail; a negative step gives no chunk. */
  function PlainChunks(p: Processor, section: Section, filename: string, docType: DocType, now: string)
    : Result<seq<DocumentChunk>>
  {
    var step := p.chunkSize as int - p.chunkOverlap as int;
    match p.tokenizer.encode(section.content)
    case None => Failure("the tokenizer could not encode the section")
    case Some(tokens) =>
      if step == 0 then Failure("range() arg 3 must not be zero")
      else if step < 0 then Success([])
      else Success(Chunks(p, DecodeAll(p.tokenizer, Windows(tokens, p.chunkSize, step, 0)), section, filename, docType, now))
  }

  /** The loop of _chunk_plain_text: one chunk per window. */
  method ChunkWindows(p: Processor, tokens: seq<int>, step: nat, section: Section, filename: string,
                      docType: DocType, now: string) returns (chunks: seq<DocumentChunk>)
    requires step > 0
    ensures chunks == Chunks(p, DecodeAll(p.tokenizer, Windows(tokens, p.chunkSize, step, 0)), section, filename, docType, now)
  {
    chunks := [];
    var i := 0;
    var chunkIndex := 0;
    ghost var done: seq<seq<int>> := [];
    ghost var texts: seq<string> := [];
    while i < |tokens|
      invariant Windows(tokens, p.chunkSize, step, 0) == done + Windows(tokens, p.chunkSize, step, i)
      invariant texts == DecodeAll(p.tokenizer, done) && chunkIndex == |texts|
      invariant chunks == Chunks(p, texts, section, filename, docType, now)
      decreases |tokens| - i
    {
      var chunkTokens := Window(tokens, i, p.chunkSize);
      var chunkText := p.tokenizer.decode(chunkTokens);
      var chunk := CreateChunk(p, chunkText, section, filename, docType, chunkIndex, now);
      WindowStep(p.tokenizer, tokens, p.chunkSize, step, i, done);
      ChunksSnoc(p, texts, chunkText, section, filename, docType, now);
      chunks := chunks + [chunk];
      chunkIndex := chunkIndex + 1;
      done := done + [chunkTokens];
      texts := texts + [chunkText];
      i := i + step;
    }
    assert done + Windows(tokens, p.chunkSize, step, i) == done;
  }

  lemma WindowStep(t: Tokenizer, tokens: seq<int>, size: nat, step: nat, i: nat, done: seq<seq<int>>)
    requires 0 < step && i < |tokens|
    requires Windows(tokens, size, step, 0) == done + Windows(tokens, size, step, i)
    ensures Windows(tokens, size, step, 0) == (done + [Window(tokens, i, size)]) + Windows(tokens, size, step, i + step)
    ensures DecodeAll(t, done + [Window(tokens, i, size)]) == DecodeAll(t, done) + [t.decode(Window(tokens, i, size))]
  {
    WindowsUnfold(tokens, size, step, i);
    assert (done + [Window(tokens, i, size)])[..|done|] == done;
  }

  lemma WindowsUnfold(tokens: seq<int>, size: nat, step: nat, i: nat)
    requires 0 < step && i < |tokens|
    ensures Windows(tokens, size, step, i) == [Window(tokens, i, size)] + Windows(tokens, size, step, i + step)
  {
  }

  /** _chunk_plain_text. */
  method ChunkPlainText(p: Processor, section: Section, filename: string, docType: DocType, now: string)
    returns (r: Result<seq<DocumentChunk>>)
    ensures r == PlainChunks(p, section, filename, docType, now)
  {
    var encoded := p.tokenizer.encode(section.content);
    if encoded.None? {
      return Failure("the tokenizer could not encode the section");
    }
    var step := p.chunkSize as int - p.chunkOverlap as int;
    if step == 0 {
      return Failure("range() arg 3 must not be zero");
    }
    var chunks := [];
    if step > 0 {
      chunks := ChunkWindows(p, encoded.value, step, section, filename, docType, now);
    }
    r := Success(chunks);
  }

  // ---------------------------------------------------------------------------
  // Sections and documents

  /** _chunk_section: a section with a fenced or an indented code block is packed around
      its fenced blocks (indented blocks carry no position and play no further part);
      any other section is cut into token windows. */
  function SectionChunks(p: Processor, section: Section, filename: string, docType: DocType, now: string)
    : Result<seq<DocumentChunk>>
  {
    var fenced := FencedBlocks(section.content, 0);
    var indented := IndentScanLines(Split(section.content, '\n')).blocks;
    if |fenced| + |indented| > 0 then Success(CodeAwareChunks(p, section, filename, docType, now, fenced))
    else PlainChunks(p, section, filename, docType, now)
  }

  method ChunkSection(p: Processor, section: Section, filename: string, docType: DocType, now: string)
    returns (r: Result<seq<DocumentChunk>>)
    ensures r == SectionChunks(p, section, filename, docType, now)
  {
    var fenced := FencedBlocks(section.content, 0);
    var indented := ExtractIndentedBlocks(Split(section.content, '\n'));
    if |fenced| + |indented| > 0 {
      var chunks := ChunkWithCodeBlocks(p, section, filename, docType, now, fenced);
      r := Success(chunks);
    } else {
      r := ChunkPlainText(p, section, filename, docType, now);
    }
  }

  /** `s[:n]`. */
  function Truncate<T>(s: seq<T>, n: nat): (r: seq<T>)
    ensures |r| <= n && |r| <= |s| && r == s[..|r|]
    ensures |s| <= n ==> r == s
  {
    if |s| <= n then s else s[..n]
  }

  /** The chunks of every section, in order; the first section that fails stops the
      document. */
  function SectionsChunks(p: Processor, sections: seq<Section>, filename: string, docType: DocType, now: string)
    : Result<seq<DocumentChunk>>
  {
    if |sections| == 0 then Success([])
    else
      match SectionsChunks(p, sections[..|sections| - 1], filename, docType, now)
      case Failure(e) => Failure(e)
      case Success(before) =>
        match SectionChunks(p, sections[|sections| - 1], filename, docType, now)
        case Failure(e) => Failure(e)
        case Success(last) => Success(before + last)
  }

  /** process_markdown. */
  function MarkdownChunks(p: Processor, content: string, filename: string, now: string): Result<seq<DocumentChunk>> {
    match SectionsChunks(p, MarkdownSections(content), filename, MarkdownDoc, now)
    case Failure(e) => Failure(e)
    case Success(all) => Success(Truncate(all, p.maxChunks))
  }

  method ProcessMarkdown(p: Processor, content: string, filename: string, now: string)
    returns (r: Result<seq<DocumentChunk>>)
    ensures r == MarkdownChunks(p, content, filename, now)
    ensures r.Success? ==> |r.value| <= p.maxChunks
  {
    var sections := ExtractMarkdownSections(content);
    var all := ChunkSections(p, sections, filename, MarkdownDoc, now);
    if all.Failure? {
      return Failure(all.error);
    }
    r := Success(Truncate(all.value, p.maxChunks));
  }

  /** The loop of process_markdown over the sections, stopping at the first failure. */
  method ChunkSections(p: Processor, sections: seq<Section>, filename: string, docType: DocType, now: string)
    returns (r: Result<seq<DocumentChunk>>)
    ensures r == SectionsChunks(p, sections, filename, docType, now)
  {
    var allChunks := [];
    for i := 0 to |sections|
      invariant SectionsChunks(p, sections[..i], filename, docType, now) == Success(allChunks)
    {
      SectionsChunksStep(p, sections, i, filename, docType, now);
      var chunks := ChunkSection(p, sections[i], filename, docType, now);
      if chunks.Failure? {
        SectionsFailureStays(p, sections, i + 1, filename, docType, now);
        assert sections[..|sections|] == sections;
        return Failure(chunks.error);
      }
      allChunks := allChunks + chunks.value;
    }
    assert sections[..|sections|] == sections;
    r := Success(allChunks);
  }

  lemma SectionsChunksStep(p: Processor, sections: seq<Section>, i: nat, filename: string,
                           docType: DocType, now: string)
    requires i < |sections|
    ensures SectionsChunks(p, sections[..i + 1], filename, docType, now) ==
      match SectionsChunks(p, sections[..i], filename, docType, now)
      case Failure(e) => Failure(e)
      case Success(before) =>
        match SectionChunks(p, sections[i], filename, docType, now)
        case Failure(e) => Failure(e)
        case Success(last) => Success(before + last)
  {
    assert sections[..i + 1][..i] == sections[..i];
  }

  /** Once a section fails, the document fails with that section's error. */
  lemma {:induction false} SectionsFailureStays(p: Processor, sections: seq<Section>, i: nat, filename: string,
                                                docType: DocType, now: string)
    requires 0 < i <= |sections|
    requires SectionsChunks(p, sections[..i], filename, docType, now).Failure?
    ensures SectionsChunks(p, sections, filename, docType, now) == SectionsChunks(p, sections[..i], filename, docType, now)
    decreases |sections| - i
  {
    if i < |sections| {
      assert sections[..i + 1][..i] == sections[..i];
      SectionsFailureStays(p, sections, i + 1, filename, docType, now);
    } else {
      assert sections[..i] == sections;
    }
  }

  /** process_text: the whole text is one section named after the file. */
  function TextChunks(p: Processor, content: string, filename: string, now: string): Result<seq<DocumentChunk>> {
    match SectionChunks(p, Section(filename, content, 1), filename, TextDoc, now)
    case Failure(e) => Failure(e)
    case Success(all) => Success(Truncate(all, p.maxChunks))
  }

  method ProcessText(p: Processor, content: string, filename: string, now: string)
    returns (r: Result<seq<DocumentChunk>>)
    ensures r == TextChunks(p, content, filename, now)
  {
    var chunks := ChunkSection(p, Section(filename, content, 1), filename, TextDoc, now);
    if chunks.Failure? {
      return Failure(chunks.error);
    }
    r := Success(Truncate(chunks.value, p.maxChunks));
  }

  /** The text process_pdf gathers: each page preceded by a page marker. */
  function PdfText(pages: seq<string>): string {
    if |pages| == 0 then ""
    else
      var n := |pages| - 1;
      PdfText(pages[..n]) + "\n\n--- Page " + NatToString(n + 1) + " ---\n\n" + pages[n]
  }

  /** process_pdf: `pages` is the text of each page, or `None` when the file cannot be
      read; any failure gives no chunk at all. */
  function PdfChunks(p: Processor, pages: Option<seq<string>>, filename: string, now: string): seq<DocumentChunk> {
    match pages
    case None => []
    case Some(texts) =>
      match SectionChunks(p, Section(filename, PdfText(texts), 1), filename, PdfDoc, now)
      case Failure(_) => []
      case Success(all) => Truncate(all, p.maxChunks)
  }

  method ProcessPdf(p: Processor, pages: Option<seq<string>>, filename: string, now: string)
    returns (chunks: seq<DocumentChunk>)
    ensures chunks == PdfChunks(p, pages, filename, now)
    ensures |chunks| <= p.maxChunks
  {
    if pages.None? {
      return [];
    }
    var fullText := "";
    for pageNum := 0 to |pages.value|
      invariant fullText == PdfText(pages.value[..pageNum])
    {
      assert pages.value[..pageNum + 1][..pageNum] == pages.value[..pageNum];
      fullText := fullText + "\n\n--- Page " + NatToString(pageNum + 1) + " ---\n\n" + pages.value[pageNum];
    }
    assert pages.value[..|pages.value|] == pages.value;
    var r := ChunkSection(p, Section(filename, fullText, 1), filename, PdfDoc, now);
    if r.Failure? {
      return [];
    }
    chunks := Truncate(r.value, p.maxChunks);
  }

  /** Within a section, chunk `k` is numbered `k`, names the section and the file, and
      has the id of its own text at that index. */
  lemma SectionChunksNumbered(p: Processor, section: Section, filename: string, docType: DocType, now: string)
    ensures var r := SectionChunks(p, section, filename, docType, now);
      r.Success? ==> forall k :: 0 <= k < |r.value| ==>
        && r.value[k].metadata.chunkIndex == k
        && r.value[k].metadata.section == section.title
        && r.value[k].metadata.sourceFile == filename
        && r.value[k].id == ChunkId(p.md5, r.value[k].content, filename, k)
  {
    var fenced := FencedBlocks(section.content, 0);
    var step := p.chunkSize as int - p.chunkOverlap as int;
    if |fenced| + |IndentScanLines(Split(section.content, '\n')).blocks| > 0 {
      ChunksNumbered(p, PackedTexts(Pack(PartsFrom(p.tokenizer, section.content, fenced, 0), p.chunkSize)),
                     section, filename, docType, now);
    } else if p.tokenizer.encode(section.content).Some? && step > 0 {
      var tokens := p.tokenizer.encode(section.content).value;
      ChunksNumbered(p, DecodeAll(p.tokenizer, Windows(tokens, p.chunkSize, step, 0)), section, filename, docType, now);
    }
  }

  /** A plain text gives at most `maxChunks` chunks, numbered from 0, all named after
      the file. */
  lemma TextChunksNumbered(p: Processor, content: string, filename: string, now: string)
    ensures var r := TextChunks(p, content, filename, now);
      r.Success? ==> |r.value| <= p.maxChunks && forall k :: 0 <= k < |r.value| ==>
        r.value[k].metadata.chunkIndex == k && r.value[k].metadata.section == filename
  {
    SectionChunksNumbered(p, Section(filename, content, 1), filename, TextDoc, now);
  }

  /** With no fenced block, the whole text is one part, and packing keeps it whole. */
  lemma NoBlocksOneText(t: Tokenizer, content: string, size: nat)
    ensures PackedTexts(Pack(PartsFrom(t, content, [], 0), size)) == if IsBlank(content) then [] else [Strip(content)]
  {
    var parts := PartsFrom(t, content, [], 0);
    StripSpec(content);
    if |content| == 0 {
      assert parts == [];
    } else {
      var part := Part(TextKind, content, CountTokens(t, content));
      assert content[0..] == content;
      assert parts == [part];
      assert [part][..0] == [];
      assert PartsText([part]) == content;
      assert Pack(parts, size) == PackStep(Packing([], []), part, size);
    }
  }

  /** A section whose only code is indented has no fenced block to cut around, so it
      becomes a single chunk holding the whole section, stripped, however many tokens
      that is (or no chunk when the section is blank). */
  lemma IndentedOnlySectionIsOneChunk(p: Processor, section: Section, filename: string, docType: DocType,
                                      now: string)
    requires FencedBlocks(section.content, 0) == []
    requires |IndentScanLines(Split(section.content, '\n')).blocks| > 0
    ensures SectionChunks(p, section, filename, docType, now)
      == Success(if IsBlank(section.content) then []
                 else [ChunkOf(p, Strip(section.content), section, filename, docType, 0, now)])
  {
    var texts := PackedTexts(Pack(PartsFrom(p.tokenizer, section.content, [], 0), p.chunkSize));
    assert SectionChunks(p, section, filename, docType, now)
      == Success(CodeAwareChunks(p, section, filename, docType, now, []));
    assert CodeAwareChunks(p, section, filename, docType, now, [])
      == Chunks(p, texts, section, filename, docType, now);
    NoBlocksOneText(p.tokenizer, section.content, p.chunkSize);
    if !IsBlank(section.content) {
      OneTextOneChunk(p, Strip(section.content), section, filename, docType, now);
    }
  }

  lemma OneTextOneChunk(p: Processor, text: string, section: Section, filename: string, docType: DocType, now: string)
    ensures Chunks(p, [text], section, filename, docType, now) == [ChunkOf(p, text, section, filename, docType, 0, now)]
  {
  }
}
