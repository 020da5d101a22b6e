/** Knowledge packs: their discovery cache, selection by declared class and
    subject or by query keywords, and the extraction of one heading-delimited
    section of a pack's full text (src/cortex/runtime/PackManager.ts). */
module PackManager {
  import opened Wrappers
  import opened Text
  import Seqs

  /** A loaded pack: the fields of its `pack.json` manifest plus the text of
      `knowledge.md` and, when the folder has one, `knowledge.compact.md`. */
  datatype KnowledgePack = KnowledgePack(
    id: string,
    classLevel: string,   // the manifest's `class`
    subject: string,
    language: string,
    version: string,
    strict: bool,
    keywords: seq<string>,
    knowledgeContent: string,
    compactContent: Option<string>)

  /** The fields a parsable `pack.json` provides. */
  datatype PackManifest = PackManifest(
    id: string, classLevel: string, subject: string, language: string,
    version: string, strict: bool, keywords: seq<string>)

  // ---------------------------------------------------------------------------
  // Selection

  /** JavaScript's `!x` for a `string | null`: null or the empty string. */
  predicate Blank(x: Option<string>) {
    x.None? || x.value == ""
  }

  /** The pack is declared for this class and (case-insensitively) this subject. */
  predicate DeclaredFor(p: KnowledgePack, userClass: string, subject: string) {
    p.classLevel == userClass && Lower(p.subject) == Lower(subject)
  }

  /** `findPack`: the first pack declared for the user's class and subject;
      none when either is null or empty. */
  function FindPack(packs: seq<KnowledgePack>, userClass: Option<string>, subject: Option<string>)
    : (r: Option<KnowledgePack>)
    ensures Blank(userClass) || Blank(subject) ==> r.None?
    ensures !Blank(userClass) && !Blank(subject) ==>
      (r.None? <==> forall i :: 0 <= i < |packs| ==> !DeclaredFor(packs[i], userClass.value, subject.value))
    ensures r.Some? ==>
      !Blank(userClass) && !Blank(subject) &&
      (exists i :: 0 <= i < |packs| && packs[i] == r.value && DeclaredFor(packs[i], userClass.value, subject.value)
         && forall j :: 0 <= j < i ==> !DeclaredFor(packs[j], userClass.value, subject.value))
  {
    if Blank(userClass) || Blank(subject) then None
    else Seqs.Find(packs, (p: KnowledgePack) => DeclaredFor(p, userClass.value, subject.value))
  }

  /** Some keyword of the pack occurs, ignoring case, in the query. */
  predicate KeywordHit(p: KnowledgePack, query: string) {
    exists k | k in p.keywords :: Contains(Lower(query), Lower(k))
  }

  /** `findPackByQuery`: the first pack, in list order, having a keyword that
      is a case-insensitive substring of the query; none iff no pack has one. */
  function FindPackByQuery(packs: seq<KnowledgePack>, query: string): (r: Option<KnowledgePack>)
    ensures r.None? <==> forall i :: 0 <= i < |packs| ==> !KeywordHit(packs[i], query)
    ensures r.Some? ==>
      (exists i :: 0 <= i < |packs| && packs[i] == r.value && KeywordHit(packs[i], query)
         && forall j :: 0 <= j < i ==> !KeywordHit(packs[j], query))
  {
    Seqs.Find(packs, (p: KnowledgePack) => KeywordHit(p, query))
  }

  /** Matching ignores case in the query. */
  lemma FindPackByQueryIgnoresCase(packs: seq<KnowledgePack>, query: string)
    ensures FindPackByQuery(packs, Lower(query)) == FindPackByQuery(packs, query)
  {
    LowerIdempotent(query);
    Seqs.FindAgrees(packs, (p: KnowledgePack) => KeywordHit(p, Lower(query)),
      (p: KnowledgePack) => KeywordHit(p, query));
  }

  // ---------------------------------------------------------------------------
  // Section extraction

  /** A cut point of `split(/(?=\n#{2,3}\s)/)`: a newline followed by two or
      three `#` and a whitespace character. */
  predicate HeadingAt(s: string, i: int) {
    0 <= i && i + 3 < |s| && s[i] == '\n' && s[i + 1] == '#' && s[i + 2] == '#'
    && (IsWhitespace(s[i + 3]) || (s[i + 3] == '#' && i + 4 < |s| && IsWhitespace(s[i + 4])))
  }

  /** The first cut point at or after `from`, or `|s|` when there is none. */
  function NextHeading(s: string, from: nat): (r: nat)
    requires from <= |s|
    ensures from <= r <= |s|
    ensures r < |s| ==> HeadingAt(s, r)
    ensures forall i :: from <= i < r ==> !HeadingAt(s, i)
    decreases |s| - from
  {
    if from == |s| || HeadingAt(s, from) then from else NextHeading(s, from + 1)
  }

  /** `fullKnowledge.split(/(?=\n#{2,3}\s)/)`: the text cut before every
      heading line except at index 0; the lookahead keeps each heading (and
      the newline before it) at the start of its section. */
  function Sections(s: string): (r: seq<string>)
    ensures |r| > 0
    decreases |s|
  {
    if |s| == 0 then [s]
    else
      var b := NextHeading(s, 1);
      if b == |s| then [s] else [s[..b]] + Sections(s[b..])
  }

  /** The text of a list of sections put back together. */
  function Concat(xs: seq<string>): string {
    if |xs| == 0 then "" else xs[0] + Concat(xs[1..])
  }

  /** Concatenating the sections gives back the text. */
  lemma {:induction false} SectionsConcat(s: string)
    ensures Concat(Sections(s)) == s
  {
    if |s| > 0 {
      var b := NextHeading(s, 1);
      if b < |s| {
        SectionsConcat(s[b..]);
        assert Sections(s)[1..] == Sections(s[b..]);
        assert s[..b] + s[b..] == s;
      }
    }
  }

  /** Every section after the first starts with the newline and `##` of its
      heading. */
  lemma {:induction false} SectionsStartAtHeadings(s: string)
    ensures forall k :: 0 < k < |Sections(s)| ==> StartsWith(Sections(s)[k], "\n##")
  {
    if |s| > 0 {
      var b := NextHeading(s, 1);
      if b < |s| {
        var rest := s[b..];
        SectionsStartAtHeadings(rest);
        assert HeadingAt(s, b);
        assert rest[0] == '\n' && rest[1] == '#' && rest[2] == '#';
        var first := Sections(rest)[0];
        assert first[..3] == "\n##" by {
          if NextHeading(rest, 1) < |rest| {
            assert NextHeading(rest, 1) >= 3 by {
              assert !HeadingAt(rest, 1) && !HeadingAt(rest, 2);
            }
            assert first == rest[..NextHeading(rest, 1)];
          } else {
            assert first == rest;
          }
        }
        assert Sections(s)[1..] == Sections(rest);
      }
    }
  }

  /** Where section `k` starts: after all the sections before it. */
  function Offset(secs: seq<string>, k: nat): nat
    requires k <= |secs|
  {
    |Concat(secs[..k])|
  }

  /** No cut point lies strictly between `lo` and `hi`. */
  predicate NoHeadingWithin(s: string, lo: int, hi: int) {
    forall j :: lo < j < hi ==> !HeadingAt(s, j)
  }

  /** Section `k` of `secs` is the text at its offset, starts at a cut point
      unless it is the first, and holds no cut point past its start. */
  predicate SectionAt(s: string, secs: seq<string>, k: nat) {
    k < |secs|
    && var o := Offset(secs, k);
    && o + |secs[k]| <= |s|
    && secs[k] == s[o..o + |secs[k]|]
    && (k > 0 ==> HeadingAt(s, o))
    && NoHeadingWithin(s, o, o + |secs[k]|)
  }

  /** The split cuts exactly at the heading points past the start: every
      section is the text at its offset, every section after the first
      starts at a cut point, and no cut point lies inside a section. */
  lemma SectionsCutAtHeadings(s: string)
    ensures forall k :: 0 <= k < |Sections(s)| ==> SectionAt(s, Sections(s), k)
  {
    forall k | 0 <= k < |Sections(s)| ensures SectionAt(s, Sections(s), k) {
      SectionCut(s, k);
    }
  }

  /** Every section sits in the text as `SectionAt` says. */
  lemma {:induction false} SectionCut(s: string, k: nat)
    requires k < |Sections(s)|
    ensures SectionAt(s, Sections(s), k)
    decreases |s|, 1
  {
    if k == 0 {
      FirstSectionCut(s);
    } else {
      LaterSectionCut(s, k);
    }
  }

  /** The first section is a prefix of the text with no cut point past its
      start. */
  lemma FirstSectionCut(s: string)
    ensures SectionAt(s, Sections(s), 0)
  {
    var secs := Sections(s);
    assert secs[..0] == [];
  }

  /** A later section is the matching section of the rest after the first
      cut, shifted by the first section's length. */
  lemma {:induction false} LaterSectionCut(s: string, k: nat)
    requires 0 < k < |Sections(s)|
    ensures SectionAt(s, Sections(s), k)
    decreases |s|, 0
  {
    var b := FirstCut(s);
    SectionCut(s[b..], k - 1);
    ShiftCut(s, b, Sections(s[b..]), Sections(s), k);
  }

  /** Putting a first section of length `b` in front of the sections of the
      rest moves section `k - 1` of the rest to offset `b + o` of the text. */
  lemma ShiftCut(s: string, b: nat, tail: seq<string>, secs: seq<string>, k: nat)
    requires 0 < b < |s| && HeadingAt(s, b) && 0 < k
    requires secs == [s[..b]] + tail
    requires SectionAt(s[b..], tail, k - 1)
    ensures SectionAt(s, secs, k)
  {
    OffsetPastFirst(s[..b], tail, k);
    var o := Offset(tail, k - 1);
    if k == 1 {
      assert o == 0 by { assert tail[..0] == []; }
    }
    ShiftSection(s, b, o, tail[k - 1]);
  }

  /** A section of the rest after the first cut, at offset `o` there, lies at
      offset `b + o` in the text. */
  lemma ShiftSection(s: string, b: nat, o: nat, x: string)
    requires b <= |s| && o + |x| <= |s| - b && x == s[b..][o..o + |x|]
    requires HeadingAt(s[b..], o) || (o == 0 && HeadingAt(s, b))
    requires NoHeadingWithin(s[b..], o, o + |x|)
    ensures x == s[b + o..b + o + |x|]
    ensures HeadingAt(s, b + o)
    ensures NoHeadingWithin(s, b + o, b + o + |x|)
  {
    HeadingShift(s, b, o);
    NoHeadingShift(s, b, o, o + |x|);
    assert s[b..][o..o + |x|] == s[b + o..b + o + |x|];
  }

  /** Where the first cut falls when there is more than one section. */
  lemma FirstCut(s: string) returns (b: nat)
    requires |Sections(s)| > 1
    ensures 0 < b < |s| && HeadingAt(s, b)
    ensures Sections(s) == [s[..b]] + Sections(s[b..])
  {
    b := NextHeading(s, 1);
  }

  /** Offsets past a first section are shifted by its length. */
  lemma OffsetPastFirst(x: string, tail: seq<string>, k: nat)
    requires 0 < k <= |tail| + 1
    ensures Offset([x] + tail, k) == |x| + Offset(tail, k - 1)
  {
    assert ([x] + tail)[..k] == [x] + tail[..k - 1];
  }

  /** A stretch of a suffix without cut points is one of the text, shifted. */
  lemma NoHeadingShift(s: string, b: nat, lo: nat, hi: nat)
    requires b <= |s| && NoHeadingWithin(s[b..], lo, hi)
    ensures NoHeadingWithin(s, b + lo, b + hi)
  {
    forall j | b + lo < j < b + hi ensures !HeadingAt(s, j) {
      HeadingShift(s, b, j - b);
    }
  }

  /** Cut points of a suffix are cut points of the text, shifted. */
  lemma HeadingShift(s: string, b: nat, j: nat)
    requires b <= |s|
    ensures HeadingAt(s[b..], j) == HeadingAt(s, b + j)
  {
  }

  /** `text.split('\n')[0]`: the text up to its first newline. */
  function FirstLine(s: string): (r: string)
    ensures StartsWith(s, r) && '\n' !in r
    ensures |r| < |s| ==> s[|r|] == '\n'
  {
    if |s| == 0 || s[0] == '\n' then "" else [s[0]] + FirstLine(s[1..])
  }

  /** A character of the regular-expression class `\w`. */
  predicate IsWordChar(c: char) {
    'a' <= c <= 'z' || 'A' <= c <= 'Z' || '0' <= c <= '9' || c == '_'
  }

  /** The number of word characters that start `s`. */
  function WordRun(s: string): (n: nat)
    ensures n <= |s|
    ensures n < |s| ==> !IsWordChar(s[n])
  {
    if |s| == 0 || !IsWordChar(s[0]) then 0 else 1 + WordRun(s[1..])
  }

  /** `WordRun` is the longest leading run of word characters: all of it is
      word characters and the character after it, if any, is not. */
  lemma {:induction false} LeadingRun(s: string)
    ensures WordRun(s) <= |s|
    ensures forall i :: 0 <= i < WordRun(s) ==> IsWordChar(s[i])
    ensures WordRun(s) < |s| ==> !IsWordChar(s[WordRun(s)])
  {
    if |s| > 0 && IsWordChar(s[0]) {
      LeadingRun(s[1..]);
    }
  }

  /** The non-empty pieces of `s.split(/\W+/)`, in order: the maximal runs of
      word characters. (The split's empty pieces are dropped: only words
      longer than three characters are ever used.) */
  function Words(s: string): (r: seq<string>)
    decreases |s|
  {
    if |s| == 0 then []
    else if !IsWordChar(s[0]) then Words(s[1..])
    else
      var n := WordRun(s);
      [s[..n]] + Words(s[n..])
  }

  /** A piece is a non-empty run of word characters. */
  lemma {:induction false} PieceIsWordChars(s: string, w: string)
    requires w in Words(s)
    ensures |w| > 0 && forall j :: 0 <= j < |w| ==> IsWordChar(w[j])
    decreases |s|
  {
    if !IsWordChar(s[0]) {
      PieceIsWordChars(s[1..], w);
    } else if w != s[..WordRun(s)] {
      PieceIsWordChars(s[WordRun(s)..], w);
    } else {
      LeadingRun(s);
    }
  }

  /** A maximal run of word characters starts at `i`. */
  predicate RunStart(s: string, i: int) {
    0 <= i < |s| && IsWordChar(s[i]) && (i == 0 || !IsWordChar(s[i - 1]))
  }

  /** The run of word characters starting at `i`. */
  function RunAt(s: string, i: nat): string
    requires i <= |s|
  {
    s[i..i + WordRun(s[i..])]
  }

  /** The pieces are exactly the maximal runs of word characters of `s`:
      every run is a piece, and every piece is a run. */
  lemma WordsAreRuns(s: string)
    ensures forall i :: RunStart(s, i) ==> RunAt(s, i) in Words(s)
    ensures forall w :: w in Words(s) ==> exists i :: RunStart(s, i) && w == RunAt(s, i)
  {
    RunsAreWords(s);
    WordsAreRunsOnly(s);
  }

  /** Every maximal run of word characters is a piece. */
  lemma RunsAreWords(s: string)
    ensures forall i :: RunStart(s, i) ==> RunAt(s, i) in Words(s)
  {
    forall i | RunStart(s, i) ensures RunAt(s, i) in Words(s) {
      RunIsPiece(s, i);
    }
  }

  /** The run starting at `i` is a piece. */
  lemma {:induction false} RunIsPiece(s: string, i: nat)
    requires RunStart(s, i)
    ensures RunAt(s, i) in Words(s)
    decreases |s|
  {
    if i == 0 {
      FrontPiece(s);
    } else {
      var d := Step(s);
      RunPastStep(s, i);
      RunShift(s, d, i - d);
      RunIsPiece(s[d..], i - d);
      TailPiece(s, RunAt(s, i));
    }
  }

  /** Every piece is a maximal run of word characters. */
  lemma WordsAreRunsOnly(s: string)
    ensures forall w :: w in Words(s) ==> exists i :: RunStart(s, i) && w == RunAt(s, i)
  {
    forall w | w in Words(s) ensures exists i :: RunStart(s, i) && w == RunAt(s, i) {
      var i := PieceStart(s, w);
    }
  }

  /** Where a piece starts in the text: a run start whose run is the piece. */
  lemma {:induction false} PieceStart(s: string, w: string) returns (i: nat)
    requires w in Words(s)
    ensures RunStart(s, i) && w == RunAt(s, i)
    decreases |s|
  {
    if IsWordChar(s[0]) && w == RunAt(s, 0) {
      i := 0;
    } else {
      PieceInTail(s, w);
      var j := PieceStart(s[Step(s)..], w);
      RunAfterStep(s, j);
      i := j + Step(s);
    }
  }

  /** A run of the rest after one step is a run of the text, shifted. */
  lemma RunAfterStep(s: string, j: nat)
    requires |s| > 0 && RunStart(s[Step(s)..], j)
    ensures RunStart(s, j + Step(s)) && RunAt(s[Step(s)..], j) == RunAt(s, j + Step(s))
  {
    var d := Step(s);
    if j == 0 {
      assert s[d..][0] == s[d];
      StepEnd(s);
    }
    RunShift(s, d, j);
  }

  /** How much one step of `Words` consumes: the run at the front, or one
      non-word character. */
  function Step(s: string): (d: nat)
    requires |s| > 0
    ensures 0 < d <= |s|
  {
    if IsWordChar(s[0]) then WordRun(s) else 1
  }

  /** The run at the front of the text is a piece. */
  lemma FrontPiece(s: string)
    requires |s| > 0 && IsWordChar(s[0])
    ensures RunAt(s, 0) in Words(s)
  {
    assert s[0..] == s;
    assert Words(s) == [s[..Step(s)]] + Words(s[Step(s)..]);
  }

  /** The pieces of the rest after one step are pieces of the text. */
  lemma TailPiece(s: string, w: string)
    requires |s| > 0 && w in Words(s[Step(s)..])
    ensures w in Words(s)
  {
    var d := Step(s);
    if IsWordChar(s[0]) {
      assert Words(s) == [s[..d]] + Words(s[d..]);
    }
  }

  /** A piece other than the run at the front is a piece of the rest. */
  lemma PieceInTail(s: string, w: string)
    requires w in Words(s) && !(IsWordChar(s[0]) && w == RunAt(s, 0))
    ensures w in Words(s[Step(s)..])
  {
    var d := Step(s);
    if IsWordChar(s[0]) {
      assert s[0..] == s;
      assert Words(s) == [s[..d]] + Words(s[d..]);
    }
  }

  /** A word character right after the step means the step ended on a
      non-word character. */
  lemma StepEnd(s: string)
    requires |s| > 0 && Step(s) < |s| && IsWordChar(s[Step(s)])
    ensures !IsWordChar(s[Step(s) - 1])
  {
  }

  /** A run starting past the front starts past the consumed step. */
  lemma RunPastStep(s: string, i: nat)
    requires |s| > 0 && 0 < i && RunStart(s, i)
    ensures Step(s) <= i && (Step(s) < i || !IsWordChar(s[Step(s) - 1]))
  {
    LeadingRun(s);
  }

  /** Runs of a suffix that start past its first character, or anywhere when
      the character before the suffix is not a word character, are runs of
      the text, shifted. */
  lemma RunShift(s: string, d: nat, i: nat)
    requires 0 < d <= |s| && i <= |s| - d
    requires i > 0 || !IsWordChar(s[d - 1])
    ensures RunStart(s[d..], i) <==> RunStart(s, i + d)
    ensures RunAt(s[d..], i) == RunAt(s, i + d)
  {
    assert s[d..][i..] == s[i + d..];
  }

  /** Some word of the query longer than three characters occurs in `line`
      (both compared in lower case). */
  predicate LineMentions(line: string, query: string) {
    exists w | w in Words(Lower(query)) :: |w| > 3 && Contains(Lower(line), w)
  }

  /** The heading line of a section: its first line once the newline that the
      split leaves in front of every heading is skipped. */
  function HeadingLine(section: string): string {
    FirstLine(if |section| > 0 && section[0] == '\n' then section[1..] else section)
  }

  predicate HeadingMentions(section: string, query: string) {
    LineMentions(HeadingLine(section), query)
  }

  /** `extractRelevantSection` as intended: the trimmed text of the first
      section whose heading line contains a query word of more than three
      characters, or `""` when no section has one. */
  function ExtractRelevantSection(fullKnowledge: string, query: string): (r: string)
    ensures var secs := Sections(fullKnowledge);
      (r == "" <==> forall k :: 0 <= k < |secs| ==> !HeadingMentions(secs[k], query))
      && (r != "" ==>
            (exists k :: 0 <= k < |secs| && r == Trim(secs[k]) && HeadingMentions(secs[k], query)
               && forall j :: 0 <= j < k ==> !HeadingMentions(secs[j], query)))
  {
    var secs := Sections(fullKnowledge);
    match Seqs.Find(secs, (sec: string) => HeadingMentions(sec, query))
    case None => ""
    case Some(sec) =>
      assert HeadingMentions(sec, query);
      LineMentionsNotBlank(sec, if |sec| > 0 && sec[0] == '\n' then 1 else 0, query);
      Trim(sec)
  }

  lemma TrimBlankIsWhitespace(s: string)
    ensures Trim(s) == "" ==> AllWhitespace(s)
  {
    var t := TrimStart(s);
    if Trim(s) == "" {
      assert AllWhitespace(t[0..]);
      assert s == s[..|s| - |t|] + t;
    }
  }

  /** Query words of three characters or fewer never select a section. */
  lemma ShortWordsNeverSelect(fullKnowledge: string, query: string)
    requires forall w :: w in Words(Lower(query)) ==> |w| <= 3
    ensures ExtractRelevantSection(fullKnowledge, query) == ""
  {
  }

  // ---------------------------------------------------------------------------
  // Section extraction as the source writes it

  /** `extractRelevantSection` as written: it tests `section.split('\n')[0]`,
      the text before the first newline, which is empty for every section
      but the first, since the split starts those with the newline in front
      of their heading. */
  function ExtractRelevantSectionAsWritten(fullKnowledge: string, query: string): (r: string)
    ensures var secs := Sections(fullKnowledge);
      (r == "" <==> forall k :: 0 <= k < |secs| ==> !FirstLineMentions(secs[k], query))
      && (r != "" ==>
            (exists k :: 0 <= k < |secs| && r == Trim(secs[k]) && FirstLineMentions(secs[k], query)
               && forall j :: 0 <= j < k ==> !FirstLineMentions(secs[j], query)))
  {
    match Seqs.Find(Sections(fullKnowledge), (sec: string) => FirstLineMentions(sec, query))
    case None => ""
    case Some(sec) =>
      LineMentionsNotBlank(sec, 0, query);
      Trim(sec)
  }

  /** The first line of a section, as the code reads it, mentions a query word. */
  predicate FirstLineMentions(section: string, query: string) {
    LineMentions(FirstLine(section), query)
  }

  /** A line that mentions a query word is not blank. */
  lemma LineMentionsNotBlank(section: string, off: nat, query: string)
    requires off <= |section|
    requires LineMentions(FirstLine(section[off..]), query)
    ensures Trim(section) != ""
  {
    var line := FirstLine(section[off..]);
    var w :| w in Words(Lower(query)) && |w| > 3 && Contains(Lower(line), w);
    var i :| 0 <= i <= |Lower(line)| && OccursAt(Lower(line), w, i);
    PieceIsWordChars(Lower(query), w);
    assert w[0] == Lower(line)[i];
    assert IsWordChar(Lower(line)[i]);
    assert line[i] == section[off + i];
    LowerCharWhitespace(line[i]);
    assert !IsWhitespace(section[off + i]);
    TrimBlankIsWhitespace(section);
  }

  /** The empty line mentions nothing. */
  lemma EmptyLineMentionsNothing(query: string)
    ensures !LineMentions("", query)
  {
    assert Lower("") == "";
    forall w | |w| > 3 ensures !Contains("", w) {
      assert forall i :: !OccursAt("", w, i);
    }
  }

  /** As written, only the first section can ever be returned. */
  lemma AsWrittenSeesOnlyFirstSection(fullKnowledge: string, query: string)
    ensures var r := ExtractRelevantSectionAsWritten(fullKnowledge, query);
      r == "" || r == Trim(Sections(fullKnowledge)[0])
  {
    var secs := Sections(fullKnowledge);
    var r := ExtractRelevantSectionAsWritten(fullKnowledge, query);
    if r != "" {
      var k :| 0 <= k < |secs| && r == Trim(secs[k]) && FirstLineMentions(secs[k], query);
      OnlyFirstLineMentions(fullKnowledge, query, k);
    }
  }

  /** Only the first section's first line can mention a query word. */
  lemma OnlyFirstLineMentions(s: string, query: string, k: int)
    requires 0 <= k < |Sections(s)|
    requires LineMentions(FirstLine(Sections(s)[k]), query)
    ensures k == 0
  {
    if k > 0 {
      LaterSectionLineEmpty(s, k);
      EmptyLineMentionsNothing(query);
    }
  }

  /** Every section after the first starts with a newline, so its first line is empty. */
  lemma LaterSectionLineEmpty(s: string, k: int)
    requires 0 < k < |Sections(s)|
    ensures FirstLine(Sections(s)[k]) == ""
  {
    SectionsStartAtHeadings(s);
    var sec := Sections(s)[k];
    assert StartsWith(sec, "\n##");
    assert sec[0] == '\n';
  }

  /** A text whose second section is headed by the query word: the corrected
      extraction returns that section, the code as written returns nothing. */
  lemma HeadingMissedAsWritten()
    ensures ExtractRelevantSectionAsWritten("a\n## leaf", "leaf") == ""
    ensures ExtractRelevantSection("a\n## leaf", "leaf") == "## leaf"
  {
    ExampleAsWritten();
    ExampleCorrected();
  }

  lemma ExampleAsWritten()
    ensures ExtractRelevantSectionAsWritten("a\n## leaf", "leaf") == ""
  {
    var secs := ExampleSections();
    ExampleLines();
    ExampleMentions();
    EmptyLineMentionsNothing("leaf");
    assert !FirstLineMentions(secs[0], "leaf") && !FirstLineMentions(secs[1], "leaf");
  }

  lemma ExampleCorrected()
    ensures ExtractRelevantSection("a\n## leaf", "leaf") == "## leaf"
  {
    var secs := ExampleSections();
    ExampleLines();
    ExampleMentions();
    ExampleTrim();
    assert HeadingMentions(secs[1], "leaf");
    assert !HeadingMentions(secs[0], "leaf");
    SecondSectionSelected("a\n## leaf", "leaf");
  }

  /** When the first section's heading misses and the second's hits, the
      corrected extraction returns the second section. */
  lemma SecondSectionSelected(s: string, query: string)
    requires |Sections(s)| >= 2
    requires !HeadingMentions(Sections(s)[0], query) && HeadingMentions(Sections(s)[1], query)
    ensures ExtractRelevantSection(s, query) == Trim(Sections(s)[1])
  {
    var secs := Sections(s);
    var r := ExtractRelevantSection(s, query);
    assert r != "";
    var k :| 0 <= k < |secs| && r == Trim(secs[k]) && HeadingMentions(secs[k], query)
      && forall j :: 0 <= j < k ==> !HeadingMentions(secs[j], query);
    assert k == 1;
  }

  lemma ExampleLines()
    ensures FirstLine("a") == "a" && HeadingLine("a") == "a"
    ensures FirstLine("\n## leaf") == ""
    ensures HeadingLine("\n## leaf") == "## leaf"
  {
    assert "a"[1..] == "";
    assert "\n## leaf"[1..] == "## leaf";
    var t := "## leaf";
    assert forall i :: 0 <= i < |t| ==> t[i] != '\n';
    var r := FirstLine(t);
    assert |r| == |t|;
  }

  lemma ExampleMentions()
    ensures !LineMentions("a", "leaf")
    ensures LineMentions("## leaf", "leaf")
  {
    ExampleNoMention();
    ExampleMention();
  }

  lemma ExampleNoMention()
    ensures !LineMentions("a", "leaf")
  {
    ExampleWords();
    ExampleLowerA();
    forall w | w in Words(Lower("leaf")) ensures !Contains(Lower("a"), w) {
      assert |w| == 4;
    }
  }

  lemma ExampleMention()
    ensures LineMentions("## leaf", "leaf")
  {
    ExampleWords();
    ExampleLowerHeading();
    ExampleContains();
    var w := "leaf";
    assert w in Words(Lower("leaf")) && |w| > 3 && Contains(Lower("## leaf"), w);
  }

  lemma ExampleContains()
    ensures Contains("## leaf", "leaf")
  {
    assert "## leaf"[3..7] == "leaf";
    assert OccursAt("## leaf", "leaf", 3);
  }

  lemma ExampleLowerA()
    ensures Lower("a") == "a"
  {
    var r := Lower("a");
    assert r[0] == LowerChar('a') == 'a';
  }

  lemma ExampleLowerHeading()
    ensures Lower("## leaf") == "## leaf"
  {
    var s := "## leaf";
    var r := Lower(s);
    forall i | 0 <= i < |s| ensures r[i] == s[i] {
      assert !IsUpper(s[i]);
    }
  }

  lemma ExampleTrim()
    ensures Trim("\n## leaf") == "## leaf"
  {
    assert IsWhitespace('\n') && !IsWhitespace('#') && !IsWhitespace('f');
    assert "\n## leaf"[1..] == "## leaf";
    assert TrimStart("\n## leaf") == "## leaf";
    assert TrimEnd("## leaf") == "## leaf";
  }

  lemma ExampleSections() returns (secs: seq<string>)
    ensures secs == Sections("a\n## leaf") == ["a", "\n## leaf"]
  {
    var s := "a\n## leaf";
    assert HeadingAt(s, 1);
    assert NextHeading(s, 1) == 1;
    assert s[..1] == "a" && s[1..] == "\n## leaf";
    var t := s[1..];
    assert forall i :: 1 <= i < |t| ==> !HeadingAt(t, i);
    assert NextHeading(t, 1) == |t|;
    assert Sections(t) == [t];
    secs := Sections(s);
  }

  lemma ExampleWords()
    ensures Words(Lower("leaf")) == ["leaf"]
  {
    assert Lower("leaf") == "leaf";
    assert WordRun("") == 0;
    assert "f"[1..] == "" && WordRun("f") == 1;
    assert "af"[1..] == "f" && WordRun("af") == 2;
    assert "eaf"[1..] == "af" && WordRun("eaf") == 3;
    assert "leaf"[1..] == "eaf" && WordRun("leaf") == 4;
    assert "leaf"[..4] == "leaf" && "leaf"[4..] == "";
  }

  // ---------------------------------------------------------------------------
  // Discovery and the pack cache

  /** The state of one file of a pack folder: missing, present but failing to
      read, or read. */
  datatype FileState<T> = Absent | Unreadable | Present(content: T)

  /** The text of a `pack.json`, seen through `JSON.parse`: the manifest it
      parses to, or text that does not parse. */
  datatype ManifestText = Parses(manifest: PackManifest) | Malformed

  /** A folder under the packs directory. */
  datatype Folder = Folder(
    manifest: FileState<ManifestText>,   // pack.json
    knowledge: FileState<string>,        // knowledge.md
    compact: FileState<string>)          // knowledge.compact.md

  /** What scanning the packs directory finds: the directory missing, its
      folders, or a failure of the file system outside the per-folder load. */
  datatype DirScan = DirMissing | Listing(folders: seq<Folder>) | ScanFailed

  /** The pack a folder contributes: one only when both `pack.json` and
      `knowledge.md` exist, every file present reads and the manifest
      parses. The pack carries every manifest field, the knowledge text,
      and compact text exactly when the compact file is there. */
  function LoadFolder(f: Folder): (r: Option<KnowledgePack>)
    ensures r.Some? <==>
      f.manifest.Present? && f.manifest.content.Parses? && f.knowledge.Present? && !f.compact.Unreadable?
    ensures r.Some? ==>
      var m := f.manifest.content.manifest;
      && r.value.id == m.id && r.value.classLevel == m.classLevel && r.value.subject == m.subject
      && r.value.language == m.language && r.value.version == m.version && r.value.strict == m.strict
      && r.value.keywords == m.keywords
      && r.value.knowledgeContent == f.knowledge.content
      && (r.value.compactContent.None? <==> f.compact.Absent?)
      && (f.compact.Present? ==> r.value.compactContent == Some(f.compact.content))
  {
    if f.manifest.Absent? || f.knowledge.Absent? then None
    else if f.manifest.Unreadable? || f.knowledge.Unreadable? || f.compact.Unreadable? then None
    else match f.manifest.content
      case Malformed => None
      case Parses(m) =>
        Some(KnowledgePack(m.id, m.classLevel, m.subject, m.language, m.version, m.strict, m.keywords,
          f.knowledge.content, if f.compact.Present? then Some(f.compact.content) else None))
  }

  /** The packs of a list of folders, in folder order. */
  function PacksIn(folders: seq<Folder>): seq<KnowledgePack> {
    if |folders| == 0 then []
    else
      var last := folders[|folders| - 1];
      PacksIn(folders[..|folders| - 1]) + (if LoadFolder(last).Some? then [LoadFolder(last).value] else [])
  }

  /** Every discovered pack comes from a folder that has both required files. */
  lemma {:induction false} PacksInFromCompleteFolders(folders: seq<Folder>, p: KnowledgePack)
    requires p in PacksIn(folders)
    ensures exists i :: (0 <= i < |folders| && LoadFolder(folders[i]) == Some(p)
      && folders[i].manifest.Present? && folders[i].knowledge.Present?)
  {
    var last := folders[|folders| - 1];
    if p in PacksIn(folders[..|folders| - 1]) {
      PacksInFromCompleteFolders(folders[..|folders| - 1], p);
      var i :| 0 <= i < |folders| - 1 && LoadFolder(folders[..|folders| - 1][i]) == Some(p)
        && folders[..|folders| - 1][i].manifest.Present? && folders[..|folders| - 1][i].knowledge.Present?;
      assert folders[..|folders| - 1][i] == folders[i];
    } else {
      assert LoadFolder(last) == Some(p);
    }
  }

  /** One document of a download: its text, or a failed fetch or write. A
      failure of `pack.json` or `knowledge.md` stops the download, so later
      documents are not written. */
  datatype Fetch<T> = Fetched(body: T) | FetchFailed

  /** The module-level pack cache of the source, owned by one object. */
  class PackStore {
    var cachedPacks: Option<seq<KnowledgePack>>

    constructor ()
      ensures cachedPacks == None
    {
      cachedPacks := None;
    }

    /** `discoverPacks`: a cached list is returned unchanged unless a refresh
        is forced; otherwise the directory is scanned, folder by folder, and
        the result cached. A missing directory or a failed scan yields no
        packs and leaves the cache as it was. */
    method DiscoverPacks(forceRefresh: bool, scan: DirScan) returns (packs: seq<KnowledgePack>)
      modifies this
      ensures old(cachedPacks).Some? && !forceRefresh ==>
        packs == old(cachedPacks).value && cachedPacks == old(cachedPacks)
      ensures (old(cachedPacks).None? || forceRefresh) && !scan.Listing? ==>
        packs == [] && cachedPacks == old(cachedPacks)
      ensures (old(cachedPacks).None? || forceRefresh) && scan.Listing? ==>
        packs == PacksIn(scan.folders) && cachedPacks == Some(packs)
    {
      if cachedPacks.Some? && !forceRefresh {
        return cachedPacks.value;
      }
      match scan
      case DirMissing =>
        packs := [];
      case ScanFailed =>
        packs := [];
      case Listing(folders) =>
        var acc: seq<KnowledgePack> := [];
        for k := 0 to |folders|
          invariant acc == PacksIn(folders[..k])
        {
          assert folders[..k + 1][..k] == folders[..k];
          var loaded := LoadFolder(folders[k]);
          if loaded.Some? {
            acc := acc + [loaded.value];
          }
        }
        assert folders[..|folders|] == folders;
        cachedPacks := Some(acc);
        packs := acc;
    }

    /** `downloadPack`: into the pack's folder, which keeps whatever files
        it already held (`prior`), writes `pack.json`, then `knowledge.md`,
        then the optional `knowledge.compact.md`, each replacing the old
        file. It succeeds iff the first two were fetched; success, and only
        success, drops the cache. `dir` is what the folder then holds. */
    method DownloadPack(prior: Folder, manifest: Fetch<ManifestText>, knowledge: Fetch<string>, compact: Fetch<string>)
      returns (ok: bool, dir: Folder)
      modifies this
      ensures ok <==> manifest.Fetched? && knowledge.Fetched?
      ensures ok ==> cachedPacks == None
      ensures !ok ==> cachedPacks == old(cachedPacks)
      ensures dir.manifest == (if manifest.Fetched? then Present(manifest.body) else prior.manifest)
      ensures dir.knowledge == (if ok then Present(knowledge.body) else prior.knowledge)
      ensures dir.compact == (if ok && compact.Fetched? then Present(compact.body) else prior.compact)
    {
      dir := prior;
      if manifest.FetchFailed? {
        return false, dir;
      }
      dir := dir.(manifest := Present(manifest.body));
      if knowledge.FetchFailed? {
        return false, dir;
      }
      dir := dir.(knowledge := Present(knowledge.body));
      if compact.Fetched? {
        dir := dir.(compact := Present(compact.body));
      }
      cachedPacks := None;
      ok := true;
    }
  }

  /** The folder a download leaves, as `DownloadPack` states it. */
  function AfterDownload(prior: Folder, manifest: Fetch<ManifestText>, knowledge: Fetch<string>, compact: Fetch<string>)
    : Folder
  {
    var ok := manifest.Fetched? && knowledge.Fetched?;
    Folder(if manifest.Fetched? then Present(manifest.body) else prior.manifest,
           if ok then Present(knowledge.body) else prior.knowledge,
           if ok && compact.Fetched? then Present(compact.body) else prior.compact)
  }

  /** After a successful download the folder yields a pack iff the fetched
      manifest parses and the compact file, when it was not fetched again,
      still reads; the pack then has the new manifest and knowledge text,
      and its compact text is the fetched one or, when that fetch failed,
      whatever compact file the folder held before. */
  lemma DownloadedFolderLoads(prior: Folder, manifest: Fetch<ManifestText>, knowledge: Fetch<string>, compact: Fetch<string>)
    requires manifest.Fetched? && knowledge.Fetched?
    ensures var r := LoadFolder(AfterDownload(prior, manifest, knowledge, compact));
      && (r.Some? <==> manifest.body.Parses? && (compact.Fetched? || !prior.compact.Unreadable?))
      && (r.Some? ==>
            && r.value.id == manifest.body.manifest.id
            && r.value.knowledgeContent == knowledge.body
            && r.value.compactContent ==
                 (if compact.Fetched? then Some(compact.body)
                  else if prior.compact.Present? then Some(prior.compact.content) else None))
  {
  }

  /** A failed download into a folder with no `knowledge.md` never leaves a
      loadable pack. */
  lemma FailedDownloadIntoEmptyFolder(prior: Folder, manifest: Fetch<ManifestText>, knowledge: Fetch<string>, compact: Fetch<string>)
    requires !(manifest.Fetched? && knowledge.Fetched?)
    requires prior.knowledge.Absent?
    ensures LoadFolder(AfterDownload(prior, manifest, knowledge, compact)).None?
  {
  }

  /** A failed re-download of an installed pack can leave a folder that loads:
      when `knowledge.md` fails after `pack.json` was written, discovery
      pairs the new manifest with the old knowledge text. */
  lemma FailedRedownloadMixesFiles(old_manifest: PackManifest, old_knowledge: string, new_manifest: PackManifest)
    ensures var dir := AfterDownload(Folder(Present(Parses(old_manifest)), Present(old_knowledge), Absent),
                                     Fetched(Parses(new_manifest)), FetchFailed, FetchFailed);
      LoadFolder(dir).Some? && LoadFolder(dir).value.id == new_manifest.id
      && LoadFolder(dir).value.knowledgeContent == old_knowledge
  {
  }
}
