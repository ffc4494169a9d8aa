/**
 Cutting a markdown file into one document per section, and why the documents
 of a scan have the identities and texts that synchronisation counts on.
 */
module Scanner {
  import opened Text
  import opened EmbedState
  import opened EmbedSync
  import opened EmbedRun
  import opened EmbedService

  // ------------------------------------------------- lines

  function Split(s: string): (lines: seq<string>)
    ensures |lines| >= 1
  {
    if s == "" then [""]
    else
      var rest := Split(s[1..]);
      if s[0] == '\n' then [""] + rest else [[s[0]] + rest[0]] + rest[1..]
  }

  function Join(lines: seq<string>): string {
    if lines == [] then ""
    else if |lines| == 1 then lines[0]
    else lines[0] + "\n" + Join(lines[1..])
  }

  lemma {:induction false} JoinInvertsSplit(s: string)
    ensures Join(Split(s)) == s
    ensures s != "" && s[0] != '\n' ==> Split(s)[0] != "" && Split(s)[0][0] == s[0]
  {
    if s != "" {
      JoinInvertsSplit(s[1..]);
      var rest := Split(s[1..]);
      if s[0] == '\n' {
        assert ([""] + rest)[1..] == rest;
      } else {
        var lines := [[s[0]] + rest[0]] + rest[1..];
        assert lines[1..] == rest[1..];
      }
    }
  }

  lemma {:induction false} JoinHolds(lines: seq<string>, i: nat, j: nat)
    requires i < |lines| && j < |lines[i]|
    ensures lines[i][j] in Join(lines)
    decreases |lines|
  {
    if i > 0 {
      JoinHolds(lines[1..], i - 1, j);
    }
  }

  /** Lines with a visible character join to a visible text. */
  lemma VisibleText(lines: seq<string>, i: nat)
    requires i < |lines| && Trim(lines[i]) != ""
    ensures Trim(Join(lines)) != ""
  {
    TrimIs(lines[i]);
    var j :| 0 <= j < |lines[i]| && !IsSpace(lines[i][j]);
    JoinHolds(lines, i, j);
    TrimIs(Join(lines));
  }

  // ------------------------------------------------- headings

  function Level(line: string): (n: nat)
    ensures n <= |line| && (forall i | 0 <= i < n :: line[i] == '#') && (n < |line| ==> line[n] != '#')
  {
    if line == "" || line[0] != '#' then 0 else 1 + Level(line[1..])
  }

  /** One to six hash marks and a space. */
  predicate IsHeading(line: string) {
    var t := Trim(line);
    1 <= Level(t) <= 6 && Level(t) < |t| && t[Level(t)] == ' '
  }

  function Title(line: string): string { var t := Trim(line); Trim(t[Level(t)..]) }

  ghost predicate Ordered(hs: seq<nat>, n: nat) {
    && (forall i | 0 <= i < |hs| :: hs[i] < n)
    && (forall i, j | 0 <= i < j < |hs| :: hs[i] < hs[j])
  }

  /** The positions of the headings among the first `n` lines. */
  function Heads(lines: seq<string>, n: nat): (hs: seq<nat>)
    requires n <= |lines|
    ensures Ordered(hs, n)
  {
    if n == 0 then []
    else
      var hs := Heads(lines, n - 1);
      if IsHeading(lines[n - 1]) then hs + [n - 1] else hs
  }

  lemma {:induction false} HeadsAre(lines: seq<string>, n: nat, i: nat)
    requires n <= |lines|
    ensures i in Heads(lines, n) <==> i < n && IsHeading(lines[i])
  {
    hide IsHeading;
    if n > 0 {
      HeadsAre(lines, n - 1, i);
    }
  }

  datatype Section = Section(title: string, start: nat, end: nat)

  /** Each section runs from its heading to the next, the last to the end. */
  function SectionAt(lines: seq<string>, heads: seq<nat>, k: nat): (s: Section)
    requires Ordered(heads, |lines|) && k < |heads|
    ensures s.start < s.end <= |lines|
  {
    Section(Title(lines[heads[k]]), heads[k], if k + 1 < |heads| then heads[k + 1] else |lines|)
  }

  ghost predicate SectionsAre(lines: seq<string>, heads: seq<nat>, sections: seq<Section>)
    requires Ordered(heads, |lines|)
  {
    |sections| == |heads| && forall k | 0 <= k < |heads| :: sections[k] == SectionAt(lines, heads, k)
  }

  method CountHashes(line: string) returns (level: nat)
    ensures level == Level(line)
  {
    level := 0;
    while level < |line| && line[level] == '#'
      invariant level <= |line| && forall i | 0 <= i < level :: line[i] == '#'
    {
      level := level + 1;
    }
    LevelIs(line, level);
  }

  lemma LevelIs(line: string, n: nat)
    requires n <= |line| && (forall i | 0 <= i < n :: line[i] == '#') && (n < |line| ==> line[n] != '#')
    ensures Level(line) == n
  {
    assert Level(line) <= |line|;
  }

  /** The source's loop: a heading closes the section before it. */
  method FindSections(lines: seq<string>) returns (sections: seq<Section>)
    ensures SectionsAre(lines, Heads(lines, |lines|), sections)
  {
    hide Trim, SectionsAre, Heads, Level;
    sections := [];
    NoHeads(lines);
    for i := 0 to |lines|
      invariant Ordered(Heads(lines, i), |lines|) && SectionsAre(lines, Heads(lines, i), sections)
    {
      NextLine(lines, i, sections);
      var trimmed := Trim(lines[i]);
      if trimmed == "" || trimmed[0] != '#' {
        continue;
      }
      var level := CountHashes(trimmed);
      if level == 0 || level > 6 || level >= |trimmed| || trimmed[level] != ' ' {
        continue;
      }
      if |sections| > 0 {
        var last := |sections| - 1;
        sections := sections[last := sections[last].(end := i)];
      }
      sections := sections + [Section(Trim(trimmed[level..]), i, |lines|)];
    }
  }

  lemma NoHeads(lines: seq<string>)
    ensures Heads(lines, 0) == [] && SectionsAre(lines, [], [])
  {
  }

  function Closed(sections: seq<Section>, i: nat): seq<Section> {
    if sections == [] then []
    else
      var last := |sections| - 1;
      sections[last := sections[last].(end := i)]
  }

  lemma NextLine(lines: seq<string>, i: nat, sections: seq<Section>)
    requires i < |lines| && Ordered(Heads(lines, i), |lines|) && SectionsAre(lines, Heads(lines, i), sections)
    ensures Ordered(Heads(lines, i + 1), |lines|)
    ensures !IsHeading(lines[i]) ==> Heads(lines, i + 1) == Heads(lines, i)
    ensures IsHeading(lines[i]) ==>
      SectionsAre(lines, Heads(lines, i + 1), Closed(sections, i) + [Section(Title(lines[i]), i, |lines|)])
  {
    var heads := Heads(lines, i);
    assert Heads(lines, i + 1) == if IsHeading(lines[i]) then heads + [i] else heads;
    hide IsHeading, Title, Heads, SectionsAre, Closed;
    if IsHeading(lines[i]) {
      AddSection(lines, heads, i, sections);
    }
  }

  lemma AddSection(lines: seq<string>, heads: seq<nat>, i: nat, sections: seq<Section>)
    requires i < |lines| && Ordered(heads, |lines|) && Ordered(heads + [i], |lines|)
    requires SectionsAre(lines, heads, sections)
    ensures SectionsAre(lines, heads + [i], Closed(sections, i) + [Section(Title(lines[i]), i, |lines|)])
  {
    hide Title, Ordered;
    var more := Closed(sections, i) + [Section(Title(lines[i]), i, |lines|)];
    forall k | 0 <= k < |heads| + 1 ensures more[k] == SectionAt(lines, heads + [i], k) {
      if k < |heads| {
        assert sections[k] == SectionAt(lines, heads, k);
      }
    }
  }

  /** The lines of the first `n` sections. */
  function Covered(lines: seq<string>, heads: seq<nat>, n: nat): seq<string>
    requires Ordered(heads, |lines|) && n <= |heads|
  {
    if n == 0 then []
    else
      var s := SectionAt(lines, heads, n - 1);
      Covered(lines, heads, n - 1) + lines[s.start..s.end]
  }

  /** Nothing is lost or taken twice: the lines above the first heading and the
      sections are the file's lines. */
  lemma {:induction false} SectionsPartition(lines: seq<string>, heads: seq<nat>, n: nat)
    requires Ordered(heads, |lines|) && 0 < n <= |heads|
    ensures lines[..heads[0]] + Covered(lines, heads, n) == lines[..SectionAt(lines, heads, n - 1).end]
    ensures n == |heads| ==> lines[..heads[0]] + Covered(lines, heads, n) == lines
  {
    hide Title;
    var s := SectionAt(lines, heads, n - 1);
    var top, before := lines[..heads[0]], Covered(lines, heads, n - 1);
    if n > 1 {
      SectionsPartition(lines, heads, n - 1);
    } else {
      assert before == [] && top + before == top;
    }
    assert top + before == lines[..s.start];
    JoinSlices(lines, top, before, s.start, s.end);
  }

  lemma JoinSlices(lines: seq<string>, top: seq<string>, before: seq<string>, start: nat, end: nat)
    requires start <= end <= |lines| && top + before == lines[..start]
    ensures top + (before + lines[start..end]) == lines[..end]
    ensures lines[..|lines|] == lines
  {
    assert top + (before + lines[start..end]) == top + before + lines[start..end];
  }

  // ------------------------------------------------- documents

  /** `%04d`. */
  function Padded(n: nat): string {
    var d := Decimal(n);
    if |d| == 1 then "000" + d else if |d| == 2 then "00" + d else if |d| == 3 then "0" + d else d
  }

  /** Sections are numbered from one. */
  function SectionID(path: string, k: nat): string { path + "#section-" + Padded(k + 1) }

  function PreambleID(path: string): string { path + "#preamble" }

  function NewDocument(
    source: Source, path: string, identity: string, text: string, payload: Payload, hash: string -> string): Document
  {
    var t := Trim(text);
    Document(source.collection, source.id, path, identity, t, hash(t),
             payload["text" := t]["content_hash" := hash(t)]["source_id" := source.id]
             ["collection" := source.collection]["file_path" := path])
  }

  function Titled(base: Payload, title: string, n: nat): Payload {
    base["section" := title]["section_index" := Decimal(n)]
  }

  /** Everything a file's documents are made from, besides its lines. */
  datatype File = File(source: Source, path: string, base: Payload, hash: string -> string)

  function Whole(f: File, body: string): Document {
    NewDocument(f.source, f.path, f.path, body, f.base, f.hash)
  }

  function Preamble(f: File, lines: seq<string>): Document {
    NewDocument(f.source, f.path, PreambleID(f.path), Trim(Join(lines)), Titled(f.base, "Preamble", 0), f.hash)
  }

  function SectionDocument(f: File, lines: seq<string>, s: Section, k: nat): Document
    requires s.start <= s.end <= |lines|
  {
    NewDocument(f.source, f.path, SectionID(f.path, k), Trim(Join(lines[s.start..s.end])),
                Titled(f.base, s.title, k + 1), f.hash)
  }

  function SectionDocuments(f: File, lines: seq<string>, heads: seq<nat>, n: nat): seq<Document>
    requires Ordered(heads, |lines|) && n <= |heads|
  {
    if n == 0 then []
    else
      SectionDocuments(f, lines, heads, n - 1) + [SectionDocument(f, lines, SectionAt(lines, heads, n - 1), n - 1)]
  }

  /** One document per section, in order; one more in front for the lines above
      the first heading when there are any; the whole file as one document when
      it has no heading, and none when it is blank. */
  function FileDocuments(f: File, text: string): seq<Document> {
    var body := Trim(text);
    var lines := Split(body);
    var heads := Heads(lines, |lines|);
    if body == "" then []
    else if heads == [] then [Whole(f, body)]
    else
      (if heads[0] > 0 then [Preamble(f, lines[..heads[0]])] else []) +
      SectionDocuments(f, lines, heads, |heads|)
  }

  /** The source drops texts that trim to nothing; none ever does. */
  method SplitMarkdownSections(f: File, text: string) returns (documents: seq<Document>)
    ensures documents == FileDocuments(f, text)
  {
    hide Trim, Split, Heads, Join, Title, SectionID, PreambleID, Titled, NewDocument, IsHeading;
    var body := Trim(text);
    if body == "" {
      return [];
    }
    TrimIs(text);
    var lines := Split(body);
    var sections := FindSections(lines);
    ghost var heads := Heads(lines, |lines|);
    if |sections| == 0 {
      return [Whole(f, body)];
    }
    documents := [];
    assert sections[0] == SectionAt(lines, heads, 0);
    if sections[0].start > 0 {
      var preamble := Trim(Join(lines[..sections[0].start]));
      PreambleVisible(body, sections[0].start);
      if preamble != "" {
        documents := documents + [Preamble(f, lines[..sections[0].start])];
      }
    }
    ghost var above := documents;
    for i := 0 to |sections|
      invariant documents == above + SectionDocuments(f, lines, heads, i)
    {
      var s := sections[i];
      assert s == SectionAt(lines, heads, i);
      var section := Trim(Join(lines[s.start..s.end]));
      SectionVisible(lines, i);
      if section == "" {
        continue;
      }
      documents := documents + [SectionDocument(f, lines, s, i)];
    }
  }

  /** The body begins with a visible character, and so do the lines above. */
  lemma PreambleVisible(body: string, n: nat)
    requires body != "" && Trim(body) == body && 0 < n <= |Split(body)|
    ensures Trim(Join(Split(body)[..n])) != ""
  {
    TrimIs(body);
    JoinInvertsSplit(body);
    var lines := Split(body);
    TrimIs(lines[0]);
    hide Split, Join, Trim;
    VisibleText(lines[..n], 0);
  }

  /** A section holds its heading. */
  lemma SectionVisible(lines: seq<string>, k: nat)
    requires k < |Heads(lines, |lines|)|
    ensures
      var s := SectionAt(lines, Heads(lines, |lines|), k);
      Trim(Join(lines[s.start..s.end])) != ""
  {
    var heads := Heads(lines, |lines|);
    var s := SectionAt(lines, heads, k);
    HeadsAre(lines, |lines|, heads[k]);
    assert Trim(lines[s.start]) != "";
    hide Heads, Trim, Join, Title, IsHeading;
    VisibleText(lines[s.start..s.end], 0);
  }

  /** The identities a file's documents may have. */
  ghost predicate IdentityOf(path: string, identity: string) {
    identity == path || identity == PreambleID(path) || exists k: nat :: identity == SectionID(path, k)
  }

  ghost predicate FromFile(d: Document, source: Source, path: string) {
    && d.collection == source.collection && d.sourceID == source.id && d.path == path
    && d.text != "" && Trim(d.text) == d.text && IdentityOf(path, d.identity)
  }

  lemma NewIsFrom(f: File, identity: string, text: string, payload: Payload)
    requires Trim(text) != "" && IdentityOf(f.path, identity)
    ensures
      var d := NewDocument(f.source, f.path, identity, text, payload, f.hash);
      FromFile(d, f.source, f.path) && d.identity == identity
  {
    TrimIs(text);
    hide Trim, IdentityOf;
  }

  lemma {:induction false} SectionDocumentsAre(f: File, lines: seq<string>, n: nat)
    requires n <= |Heads(lines, |lines|)|
    ensures
      var ds := SectionDocuments(f, lines, Heads(lines, |lines|), n);
      |ds| == n && forall k: nat | k < n :: FromFile(ds[k], f.source, f.path) && ds[k].identity == SectionID(f.path, k)
  {
    hide Heads, Trim, Join, Title, SectionID, Titled, NewDocument, IsHeading, FromFile;
    if n > 0 {
      SectionDocumentsAre(f, lines, n - 1);
      var heads := Heads(lines, |lines|);
      var s := SectionAt(lines, heads, n - 1);
      var text := Trim(Join(lines[s.start..s.end]));
      SectionVisible(lines, n - 1);
      TrimIs(Join(lines[s.start..s.end]));
      assert IdentityOf(f.path, SectionID(f.path, n - 1));
      NewIsFrom(f, SectionID(f.path, n - 1), text, Titled(f.base, s.title, n));
    }
  }

  /** A file yields documents with visible, trimmed texts and distinct
      identities, and none only when it is blank. */
  lemma FileDocumentsAre(f: File, text: string)
    ensures
      var ds := FileDocuments(f, text);
      && (ds == [] <==> Trim(text) == "") && DistinctIdentities(ds)
      && forall i | 0 <= i < |ds| :: FromFile(ds[i], f.source, f.path)
  {
    hide Heads, Trim, Join, Split, Title, SectionID, PreambleID, Titled, NewDocument, IsHeading, FromFile,
         SectionDocuments, DistinctIdentities;
    var body := Trim(text);
    var lines := Split(body);
    var heads := Heads(lines, |lines|);
    TrimIs(text);
    if body == "" {
      FewDistinct([]);
    } else if heads == [] {
      NewIsFrom(f, f.path, body, f.base);
      FewDistinct([Whole(f, body)]);
    } else {
      SectionDocumentsAre(f, lines, |heads|);
      var ds := SectionDocuments(f, lines, heads, |heads|);
      DistinctSections(f.path, ds);
      if heads[0] > 0 {
        PreambleVisible(body, heads[0]);
        TrimIs(Join(lines[..heads[0]]));
        NewIsFrom(f, PreambleID(f.path), Trim(Join(lines[..heads[0]])), Titled(f.base, "Preamble", 0));
        var top := Preamble(f, lines[..heads[0]]);
        FewDistinct([top]);
        forall k: nat | k < |ds| ensures top.identity != ds[k].identity {
          LastOfPreamble(f.path);
          LastOfSection(f.path, k);
        }
        DistinctAppend([top], ds);
      } else {
        assert [] + ds == ds;
      }
    }
  }

  // ------------------------------------------------- identities

  /** A markdown file's name, whatever the case of its extension. */
  predicate Markdown(path: string) {
    && |path| >= 3 && path[|path| - 3] == '.'
    && (path[|path| - 2] == 'm' || path[|path| - 2] == 'M')
    && (path[|path| - 1] == 'd' || path[|path| - 1] == 'D')
  }

  lemma PaddedIs(n: nat)
    ensures Padded(n) != "" && forall i | 0 <= i < |Padded(n)| :: IsDigit(Padded(n)[i])
  {
  }

  lemma {:induction false} LeadingZeros(x: string, m: nat, y: string, n: nat)
    requires (forall i | 0 <= i < |x| :: x[i] == '0') && (forall i | 0 <= i < |y| :: y[i] == '0')
    requires m > 0 && n > 0 && x + Decimal(m) == y + Decimal(n)
    ensures m == n
  {
    FirstDigit(m);
    FirstDigit(n);
    var s, t := x + Decimal(m), y + Decimal(n);
    assert s[|x|] == Decimal(m)[0] && t[|y|] == Decimal(n)[0];
    assert forall i | 0 <= i < |x| :: s[i] == '0';
    assert forall i | 0 <= i < |y| :: t[i] == '0';
    assert Decimal(m) == s[|x|..] && Decimal(n) == t[|y|..];
    DecimalInjective(m, n);
  }

  lemma {:induction false} FirstDigit(n: nat)
    requires n > 0
    ensures Decimal(n)[0] != '0'
  {
    if n >= 10 {
      FirstDigit(n / 10);
    }
  }

  function Zeros(n: nat): (z: string)
    ensures forall i | 0 <= i < |z| :: z[i] == '0'
    ensures Padded(n) == z + Decimal(n)
  {
    var d := Decimal(n);
    if |d| == 1 then "000" else if |d| == 2 then "00" else if |d| == 3 then "0" else ""
  }

  lemma PaddedInjective(m: nat, n: nat)
    requires m > 0 && n > 0 && Padded(m) == Padded(n)
    ensures m == n
  {
    LeadingZeros(Zeros(m), m, Zeros(n), n);
  }

  lemma SectionIDInjective(p: string, m: nat, q: string, n: nat)
    requires SectionID(p, m) == SectionID(q, n)
    ensures p == q && m == n
  {
    hide *;
    PaddedIs(m + 1);
    PaddedIs(n + 1);
    DashBefore(p, m);
    DashBefore(q, n);
    TailAndNumber(p, q, "#section", Padded(m + 1), Padded(n + 1));
    PaddedInjective(m + 1, n + 1);
  }

  lemma TailAndNumber(p: string, q: string, tail: string, s: string, t: string)
    requires forall i | 0 <= i < |s| :: IsDigit(s[i])
    requires forall i | 0 <= i < |t| :: IsDigit(t[i])
    requires p + tail + "-" + s == q + tail + "-" + t
    ensures p == q && s == t
  {
    LastSeparator(p + tail, s, q + tail, t, '-');
    SameTail(p, q, tail);
  }

  lemma DashBefore(p: string, k: nat)
    ensures SectionID(p, k) == p + "#section" + "-" + Padded(k + 1)
  {
    hide Padded;
    assert "#section-" == "#section" + "-";
  }

  lemma SameTail(p: string, q: string, t: string)
    requires p + t == q + t
    ensures p == q
  {
    assert p == (p + t)[..|p + t| - |t|] && q == (q + t)[..|q + t| - |t|];
  }

  /** The last character tells which kind of identity it is. */
  lemma LastOfSection(p: string, k: nat)
    ensures SectionID(p, k) != "" && IsDigit(SectionID(p, k)[|SectionID(p, k)| - 1])
  {
    PaddedIs(k + 1);
    hide Padded;
    var s := SectionID(p, k);
    assert s[|s| - 1] == Padded(k + 1)[|Padded(k + 1)| - 1];
  }

  lemma LastOfPreamble(p: string)
    ensures PreambleID(p) != "" && PreambleID(p)[|PreambleID(p)| - 1] == 'e'
    ensures PreambleID(p)[..|PreambleID(p)| - 9] == p
  {
  }

  /** An identity names its file: documents of one identity come from one path. */
  lemma IdentityNamesPath(p: string, q: string, identity: string)
    requires Markdown(p) && Markdown(q) && IdentityOf(p, identity) && IdentityOf(q, identity)
    ensures p == q
  {
    hide SectionID, PreambleID;
    LastOfPreamble(p);
    LastOfPreamble(q);
    if m: nat :| identity == SectionID(p, m) {
      LastOfSection(p, m);
      if n: nat :| identity == SectionID(q, n) {
        SectionIDInjective(p, m, q, n);
      }
    } else if n: nat :| identity == SectionID(q, n) {
      LastOfSection(q, n);
    }
  }

  lemma DistinctSections(path: string, ds: seq<Document>)
    requires forall k: nat | k < |ds| :: ds[k].identity == SectionID(path, k)
    ensures DistinctIdentities(ds)
  {
    hide SectionID;
    forall i, j | 0 <= i < j < |ds| ensures ds[i].identity != ds[j].identity {
      if SectionID(path, i) == SectionID(path, j) {
        SectionIDInjective(path, i, path, j);
      }
    }
  }

  lemma FewDistinct(ds: seq<Document>)
    requires |ds| <= 1
    ensures DistinctIdentities(ds)
  {
  }

  lemma DistinctAppend(a: seq<Document>, b: seq<Document>)
    requires DistinctIdentities(a) && DistinctIdentities(b)
    requires forall i, j | 0 <= i < |a| && 0 <= j < |b| :: a[i].identity != b[j].identity
    ensures DistinctIdentities(a + b)
  {
  }

  // ------------------------------------------------- a whole tree

  datatype Entry = Entry(path: string, body: string, base: Payload)

  function DocumentsAt(source: Source, e: Entry, chunked: bool, hash: string -> string): seq<Document> {
    var f := File(source, e.path, e.base, hash);
    if !chunked then FileDocuments(f, e.body)
    else if Trim(e.body) == "" then [] else [Whole(f, Trim(e.body))]
  }

  function TreeDocuments(source: Source, tree: seq<Entry>, chunked: bool, hash: string -> string): seq<Document> {
    if tree == [] then []
    else
      TreeDocuments(source, tree[..|tree| - 1], chunked, hash) +
      DocumentsAt(source, tree[|tree| - 1], chunked, hash)
  }

  /** Every file of the tree, cut into sections or, chunked, as one document. */
  method ScanTree(source: Source, tree: seq<Entry>, chunked: bool, hash: string -> string)
    returns (documents: seq<Document>)
    ensures documents == TreeDocuments(source, tree, chunked, hash)
  {
    hide FileDocuments, Whole, Trim;
    documents := [];
    for i := 0 to |tree|
      invariant documents == TreeDocuments(source, tree[..i], chunked, hash)
    {
      assert tree[..i + 1][..i] == tree[..i];
      var f := File(source, tree[i].path, tree[i].base, hash);
      var more := [];
      if chunked {
        var body := Trim(tree[i].body);
        if body != "" {
          more := [Whole(f, body)];
        }
      } else {
        more := SplitMarkdownSections(f, tree[i].body);
      }
      documents := documents + more;
    }
    assert tree[..|tree|] == tree;
  }

  lemma DocumentsAtAre(source: Source, e: Entry, chunked: bool, hash: string -> string)
    ensures
      var ds := DocumentsAt(source, e, chunked, hash);
      && DistinctIdentities(ds) && (ds == [] <==> Trim(e.body) == "")
      && forall i | 0 <= i < |ds| :: FromFile(ds[i], source, e.path)
  {
    hide FileDocuments, NewDocument, Trim, FromFile, DistinctIdentities;
    var f := File(source, e.path, e.base, hash);
    FileDocumentsAre(f, e.body);
    var body := Trim(e.body);
    TrimIs(e.body);
    if body != "" {
      NewIsFrom(f, f.path, body, f.base);
      FewDistinct([Whole(f, body)]);
    }
  }

  ghost predicate FromTree(d: Document, source: Source, tree: seq<Entry>) {
    exists i :: 0 <= i < |tree| && FromFile(d, source, tree[i].path)
  }

  ghost predicate Tree(tree: seq<Entry>) {
    && (forall i | 0 <= i < |tree| :: Markdown(tree[i].path))
    && (forall i, j | 0 <= i < j < |tree| :: tree[i].path != tree[j].path)
  }

  /** What synchronisation is given: the documents of a tree of markdown files
      belong to the source, have visible texts, and no two share an identity. */
  lemma {:induction false} TreeDocumentsAre(source: Source, tree: seq<Entry>, chunked: bool, hash: string -> string)
    requires Tree(tree)
    ensures
      var ds := TreeDocuments(source, tree, chunked, hash);
      && DistinctIdentities(ds)
      && forall k | 0 <= k < |ds| :: FromTree(ds[k], source, tree)
    decreases |tree|
  {
    hide DistinctIdentities, FromFile, DocumentsAt, Markdown;
    if tree == [] {
      FewDistinct([]);
    } else {
      var rest, last := tree[..|tree| - 1], tree[|tree| - 1];
      TreeDocumentsAre(source, rest, chunked, hash);
      DocumentsAtAre(source, last, chunked, hash);
      var a, b := TreeDocuments(source, rest, chunked, hash), DocumentsAt(source, last, chunked, hash);
      forall i, j | 0 <= i < |a| && 0 <= j < |b| ensures a[i].identity != b[j].identity {
        var k :| 0 <= k < |rest| && FromFile(a[i], source, rest[k].path);
        assert rest[k] == tree[k];
        ApartByPath(a[i], tree[k].path, b[j], last.path, source);
      }
      DistinctAppend(a, b);
      forall k | 0 <= k < |a| ensures FromTree(a[k], source, tree) {
        var i :| 0 <= i < |rest| && FromFile(a[k], source, rest[i].path);
        assert rest[i] == tree[i];
      }
    }
  }

  lemma ApartByPath(d: Document, p: string, e: Document, q: string, source: Source)
    requires Markdown(p) && Markdown(q) && p != q && FromFile(d, source, p) && FromFile(e, source, q)
    ensures d.identity != e.identity
  {
    hide IdentityOf, Markdown;
    if d.identity == e.identity {
      IdentityNamesPath(p, q, d.identity);
    }
  }

  /** Which identities a markdown file gives its documents. */
  ghost predicate MarkdownOrigin(path: string, identity: string) {
    Markdown(path) && IdentityOf(path, identity)
  }

  lemma TreeIsAdmitted(source: Source, tree: seq<Entry>, chunked: bool, hash: string -> string)
    requires Tree(tree)
    ensures Admitted(TreeDocuments(source, tree, chunked, hash), MarkdownOrigin)
    ensures Belong(TreeDocuments(source, tree, chunked, hash), source)
  {
    hide DistinctIdentities, IdentityOf, Markdown;
    TreeDocumentsAre(source, tree, chunked, hash);
    var ds := TreeDocuments(source, tree, chunked, hash);
    forall d | d in ds
      ensures d.collection == source.collection && d.sourceID == source.id && MarkdownOrigin(d.path, d.identity)
    {
      var k :| 0 <= k < |ds| && ds[k] == d;
      assert FromTree(d, source, tree);
    }
  }

  /** Every document carries the hash of its text. */
  lemma {:induction false} SectionsHashed(f: File, lines: seq<string>, heads: seq<nat>, n: nat)
    requires Ordered(heads, |lines|) && n <= |heads|
    ensures Hashed(SectionDocuments(f, lines, heads, n), f.hash)
  {
    hide NewDocument, SectionID, Trim, Join, Titled, Title, Ordered;
    if n > 0 {
      SectionsHashed(f, lines, heads, n - 1);
      var s := SectionAt(lines, heads, n - 1);
      NewIsHashed(f, SectionID(f.path, n - 1), Trim(Join(lines[s.start..s.end])), Titled(f.base, s.title, n));
    }
  }

  lemma NewIsHashed(f: File, identity: string, text: string, payload: Payload)
    ensures
      var d := NewDocument(f.source, f.path, identity, text, payload, f.hash);
      d.contentHash == f.hash(d.text)
  {
  }

  lemma FileIsHashed(f: File, text: string)
    ensures Hashed(FileDocuments(f, text), f.hash)
  {
    hide NewDocument, Trim, Join, Split, Heads, Titled, PreambleID, SectionDocuments;
    var body := Trim(text);
    var lines := Split(body);
    var heads := Heads(lines, |lines|);
    NewIsHashed(f, f.path, body, f.base);
    if heads != [] {
      NewIsHashed(f, PreambleID(f.path), Trim(Join(lines[..heads[0]])), Titled(f.base, "Preamble", 0));
      SectionsHashed(f, lines, heads, |heads|);
    }
  }

  lemma {:induction false} TreeIsHashed(source: Source, tree: seq<Entry>, chunked: bool, hash: string -> string)
    ensures Hashed(TreeDocuments(source, tree, chunked, hash), hash)
  {
    if tree != [] {
      hide FileDocuments, NewDocument, Trim;
      var last := tree[|tree| - 1];
      var f := File(source, last.path, last.base, hash);
      TreeIsHashed(source, tree[..|tree| - 1], chunked, hash);
      FileIsHashed(f, last.body);
      NewIsHashed(f, f.path, Trim(last.body), f.base);
    }
  }

  /** The conditions on documents that the synchronisation theorems ask for hold
      of every scan of a tree, against any state that syncs of such scans have
      led to: the service keeps that state fit. */
  lemma ScansAgree(p: Points, source: Source, tree: seq<Entry>, chunked: bool, hash: string -> string)
    requires Tree(tree) && NulFree(source.collection) && NulFree(source.id)
    requires Fit(p, MarkdownOrigin)
    ensures
      var ds := TreeDocuments(source, tree, chunked, hash);
      && Belong(ds, source) && DistinctIdentities(ds) && SamePaths(p, ds)
      && Hashed(ds, hash) && Admitted(ds, MarkdownOrigin)
  {
    hide DistinctIdentities, IdentityOf, Markdown, NulFree, Keyed, UniqueIdentities, Hashed;
    TreeIsHashed(source, tree, chunked, hash);
    TreeDocumentsAre(source, tree, chunked, hash);
    TreeIsAdmitted(source, tree, chunked, hash);
    var ds := TreeDocuments(source, tree, chunked, hash);
    forall id, d | id in p && d in ds && KeyOf(p[id]) == DocKey(d) ensures p[id].path == d.path {
      KeysAreInjective(d.collection, d.sourceID, d.identity, p[id].collection, p[id].sourceID, p[id].identity);
      IdentityNamesPath(p[id].path, d.path, d.identity);
    }
  }
}
