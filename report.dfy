/** The data side of `create_pdf_report` (reports/report_generator.py).

    reportlab stays outside the model: the story is a list of abstract
    items (a paragraph with its style, an image, a spacer, a page break,
    the summary table and a notes card), and styling, fonts and rendering
    are not modelled. The file system enters as the answer of
    `os.path.exists` for each path, the date as its formatted text, and
    the formatting of floats as a function from numbers to text. */
module Report {
  import opened Values
  import opened Text

  // ---------------------------------------------------------------------
  // Literal substitution

  /** `pat` occurs in `s` at position k. */
  predicate Occurs(pat: string, s: string, k: int) {
    0 <= k && k + |pat| <= |s| && s[k..k + |pat|] == pat
  }

  /** `pat` occurs nowhere in `s`. */
  predicate Free(s: string, pat: string) {
    forall k :: 0 <= k <= |s| ==> !Occurs(pat, s, k)
  }

  /** `re.sub` with a literal pattern (and `str.replace`): every occurrence of
      `pat`, scanning left to right without overlaps, becomes `rep`. */
  function ReplaceAll(s: string, pat: string, rep: string): string
    requires pat != []
    decreases |s|
  {
    if |s| < |pat| then s
    else if s[..|pat|] == pat then rep + ReplaceAll(s[|pat|..], pat, rep)
    else [s[0]] + ReplaceAll(s[1..], pat, rep)
  }

  /** `s.split(pat)`: the text between the occurrences that `ReplaceAll` replaces. */
  function Pieces(s: string, pat: string): (ps: seq<string>)
    requires pat != []
    ensures |ps| >= 1
    decreases |s|
  {
    if |s| < |pat| then [s]
    else if s[..|pat|] == pat then [[]] + Pieces(s[|pat|..], pat)
    else
      var rest := Pieces(s[1..], pat);
      [[s[0]] + rest[0]] + rest[1..]
  }

  /** `sep.join(ps)`. */
  function Join(ps: seq<string>, sep: string): string
    requires |ps| >= 1
  {
    if |ps| == 1 then ps[0] else ps[0] + sep + Join(ps[1..], sep)
  }

  /** Joining a non-empty first piece onto the rest. */
  lemma JoinCons(p: string, ps: seq<string>, sep: string)
    requires |ps| >= 1
    ensures Join([p] + ps, sep) == p + sep + Join(ps, sep)
  {
    assert ([p] + ps)[1..] == ps;
  }

  /** Prepending a character to the first piece prepends it to the join. */
  lemma JoinExtendFirst(c: char, ps: seq<string>, sep: string)
    requires |ps| >= 1
    ensures Join([[c] + ps[0]] + ps[1..], sep) == [c] + Join(ps, sep)
  {
    if |ps| > 1 {
      JoinCons([c] + ps[0], ps[1..], sep);
      assert ps == [ps[0]] + ps[1..];
      JoinCons(ps[0], ps[1..], sep);
    }
  }

  /** The first piece is a prefix of the text. */
  lemma {:induction false} FirstPiecePrefix(s: string, pat: string)
    requires pat != []
    ensures |Pieces(s, pat)[0]| <= |s| && Pieces(s, pat)[0] == s[..|Pieces(s, pat)[0]|]
    decreases |s|
  {
    if |s| >= |pat| && s[..|pat|] != pat {
      FirstPiecePrefix(s[1..], pat);
    }
  }

  /** Splitting and joining again with the pattern gives back the text. */
  lemma {:induction false} JoinPieces(s: string, pat: string)
    requires pat != []
    ensures Join(Pieces(s, pat), pat) == s
    decreases |s|
  {
    if |s| < |pat| {
    } else if s[..|pat|] == pat {
      var tail := s[|pat|..];
      JoinPieces(tail, pat);
      assert Pieces(s, pat) == [[]] + Pieces(tail, pat);
      JoinCons([], Pieces(tail, pat), pat);
      assert s == pat + tail;
    } else {
      var rest := Pieces(s[1..], pat);
      JoinPieces(s[1..], pat);
      assert Pieces(s, pat) == [[s[0]] + rest[0]] + rest[1..];
      JoinExtendFirst(s[0], rest, pat);
      assert s == [s[0]] + s[1..];
    }
  }

  /** Replacing is splitting at the pattern and joining with the replacement. */
  lemma {:induction false} ReplaceAllJoins(s: string, pat: string, rep: string)
    requires pat != []
    ensures ReplaceAll(s, pat, rep) == Join(Pieces(s, pat), rep)
    decreases |s|
  {
    if |s| < |pat| {
    } else if s[..|pat|] == pat {
      var rest := Pieces(s[|pat|..], pat);
      ReplaceAllJoins(s[|pat|..], pat, rep);
      assert ReplaceAll(s, pat, rep) == rep + Join(rest, rep);
      JoinCons([], rest, rep);
      assert Pieces(s, pat) == [[]] + rest;
      assert [] + rep + Join(rest, rep) == rep + Join(rest, rep);
    } else {
      var rest := Pieces(s[1..], pat);
      ReplaceAllJoins(s[1..], pat, rep);
      assert ReplaceAll(s, pat, rep) == [s[0]] + Join(rest, rep);
      JoinExtendFirst(s[0], rest, rep);
      assert Pieces(s, pat) == [[s[0]] + rest[0]] + rest[1..];
    }
  }

  /** A text shorter than the pattern cannot contain it. */
  lemma FreeShort(s: string, pat: string)
    requires |s| < |pat|
    ensures Free(s, pat)
  {
  }

  /** A character in front of a pattern-free text adds no occurrence, unless
      the pattern begins right there. */
  lemma FreeCons(c: char, t: string, pat: string)
    requires pat != [] && Free(t, pat)
    requires !Occurs(pat, [c] + t, 0)
    ensures Free([c] + t, pat)
  {
    var first := [c] + t;
    forall k | 1 <= k && k + |pat| <= |first| ensures !Occurs(pat, first, k) {
      assert first[k..k + |pat|] == t[k - 1..k - 1 + |pat|];
      assert !Occurs(pat, t, k - 1);
    }
  }

  /** Every text of the list is free of the pattern. */
  predicate AllFree(ps: seq<string>, pat: string) {
    forall i :: 0 <= i < |ps| ==> Free(ps[i], pat)
  }

  /** A free text in front of free texts keeps them all free. */
  lemma AllFreeCons(p: string, ps: seq<string>, pat: string)
    requires Free(p, pat) && AllFree(ps, pat)
    ensures AllFree([p] + ps, pat)
  {
    forall i | 0 <= i < |[p] + ps| ensures Free(([p] + ps)[i], pat) {
      if i > 0 {
        assert ([p] + ps)[i] == ps[i - 1];
      }
    }
  }

  /** No piece contains the pattern: the scan misses no occurrence. */
  lemma {:induction false} PiecesFree(s: string, pat: string)
    requires pat != []
    ensures AllFree(Pieces(s, pat), pat)
    decreases |s|
  {
    if |s| < |pat| {
      FreeShort(s, pat);
    } else if s[..|pat|] == pat {
      var rest := Pieces(s[|pat|..], pat);
      PiecesFree(s[|pat|..], pat);
      FreeShort([], pat);
      AllFreeCons([], rest, pat);
    } else {
      var rest := Pieces(s[1..], pat);
      PiecesFree(s[1..], pat);
      FirstPiecePrefix(s[1..], pat);
      var first := [s[0]] + rest[0];
      assert first == s[..|first|];
      if |pat| <= |first| {
        assert first[..|pat|] == s[..|pat|];
      }
      FreeCons(s[0], rest[0], pat);
      assert rest == [rest[0]] + rest[1..];
      assert AllFree(rest[1..], pat) by {
        forall i | 0 <= i < |rest[1..]| ensures Free(rest[1..][i], pat) {
          assert rest[1..][i] == rest[i + 1];
        }
      }
      AllFreeCons(first, rest[1..], pat);
    }
  }

  /** What replacing all occurrences means: the text is the pieces joined by
      the pattern, no piece contains the pattern, and the result is the same
      pieces joined by the replacement. */
  lemma ReplaceAllEvery(s: string, pat: string, rep: string)
    requires pat != []
    ensures var ps := Pieces(s, pat);
      && Join(ps, pat) == s
      && AllFree(ps, pat)
      && ReplaceAll(s, pat, rep) == Join(ps, rep)
  {
    JoinPieces(s, pat);
    PiecesFree(s, pat);
    ReplaceAllJoins(s, pat, rep);
  }

  /** A one-character pattern is absent exactly when the character is. */
  lemma FreeOfChar(s: string, c: char)
    ensures Free(s, [c]) <==> c !in s
  {
    if c in s {
      var k :| 0 <= k < |s| && s[k] == c;
      assert Occurs([c], s, k);
    } else {
      forall k | 0 <= k < |s| ensures !Occurs([c], s, k) {
        assert s[k..k + 1] == [s[k]];
      }
    }
  }

  /** A character found neither in the pieces nor in the separator is not in the join. */
  lemma {:induction false} JoinAvoids(ps: seq<string>, sep: string, c: char)
    requires |ps| >= 1
    requires forall i :: 0 <= i < |ps| ==> c !in ps[i]
    requires c !in sep
    ensures c !in Join(ps, sep)
    decreases |ps|
  {
    if |ps| > 1 {
      JoinAvoids(ps[1..], sep, c);
    }
  }

  /** A character absent from the text and from the replacement stays absent. */
  lemma {:induction false} ReplaceAllAvoids(s: string, pat: string, rep: string, c: char)
    requires pat != []
    requires c !in s && c !in rep
    ensures c !in ReplaceAll(s, pat, rep)
    decreases |s|
  {
    if |s| < |pat| {
    } else if s[..|pat|] == pat {
      ReplaceAllAvoids(s[|pat|..], pat, rep, c);
    } else {
      ReplaceAllAvoids(s[1..], pat, rep, c);
    }
  }

  /** Replacing a one-character pattern by text without that character removes it. */
  lemma ReplaceAllRemovesChar(s: string, c: char, rep: string)
    requires c !in rep
    ensures c !in ReplaceAll(s, [c], rep)
  {
    var ps := Pieces(s, [c]);
    ReplaceAllEvery(s, [c], rep);
    forall i | 0 <= i < |ps| ensures c !in ps[i] {
      FreeOfChar(ps[i], c);
    }
    JoinAvoids(ps, rep, c);
  }

  // ---------------------------------------------------------------------
  // Doctor notes

  /** A section heading of the notes, with the emoji put in front of it. */
  datatype Heading = Heading(title: string, mark: char)

  /** The five headings, in the order they are emphasised. */
  const Headings: seq<Heading> := [
    Heading("Severity:", '\U{1F4A2}'),
    Heading("Findings:", '\U{1F50D}'),
    Heading("Advice:", '\U{1F4AC}'),
    Heading("Nutrition Tip:", '\U{1F966}'),
    Heading("General Tip:", '\U{1F33F}')]

  /** The text each occurrence of a heading becomes: its emoji, a space, and
      the heading in bold. */
  function Emphasized(h: Heading): string {
    [h.mark] + " <b>" + h.title + "</b>"
  }

  /** One substitution of the chain: every occurrence of `pat` becomes `rep`. */
  datatype Rule = Rule(pat: string, rep: string)

  /** The substitution that emphasises a heading. */
  function HeadingRule(h: Heading): Rule {
    Rule(h.title, Emphasized(h))
  }

  /** The last substitution: each newline becomes a line break tag. */
  const NewlineRule: Rule := Rule("\n", "<br/>")

  /** The substitutions applied to the notes, in order. */
  const NotesRules: seq<Rule> := [
    HeadingRule(Headings[0]), HeadingRule(Headings[1]), HeadingRule(Headings[2]),
    HeadingRule(Headings[3]), HeadingRule(Headings[4]), NewlineRule]

  /** Every pattern of the rules is non-empty. */
  predicate Patterns(rules: seq<Rule>) {
    forall i :: 0 <= i < |rules| ==> rules[i].pat != []
  }

  /** The text after the substitutions `rules`, applied one after the other. */
  function Substituted(s: string, rules: seq<Rule>): string
    requires Patterns(rules)
    decreases |rules|
  {
    if rules == [] then s else Substituted(ReplaceAll(s, rules[0].pat, rules[0].rep), rules[1..])
  }

  /** The formatted notes of a zone: cleaned, headings emphasised, and every
      newline turned into a line break tag. */
  function FormattedNotes(raw: string): string {
    NotesPatterns();
    Substituted(CleanText(raw), NotesRules)
  }

  /** Applying two lists of rules one after the other applies their concatenation. */
  lemma {:induction false} SubstitutedSplit(s: string, rules: seq<Rule>, more: seq<Rule>)
    requires Patterns(rules) && Patterns(more)
    ensures Patterns(rules + more)
    ensures Substituted(s, rules + more) == Substituted(Substituted(s, rules), more)
    decreases |rules|
  {
    if rules == [] {
      assert rules + more == more;
    } else {
      assert (rules + more)[1..] == rules[1..] + more;
      SubstitutedSplit(ReplaceAll(s, rules[0].pat, rules[0].rep), rules[1..], more);
    }
  }

  /** A character absent from the text and from every replacement stays absent. */
  lemma {:induction false} SubstitutedAvoids(s: string, rules: seq<Rule>, c: char)
    requires Patterns(rules)
    requires forall i :: 0 <= i < |rules| ==> c !in rules[i].rep
    requires c !in s
    ensures c !in Substituted(s, rules)
    decreases |rules|
  {
    if rules != [] {
      ReplaceAllAvoids(s, rules[0].pat, rules[0].rep, c);
      SubstitutedAvoids(ReplaceAll(s, rules[0].pat, rules[0].rep), rules[1..], c);
    }
  }

  /** The emphasised form of a heading avoids every character that its
      title and its emoji avoid, other than those of the bold tags. */
  lemma EmphasizedAvoids(h: Heading, c: char)
    requires c !in h.title && c != h.mark
    requires c !in "<b/> "
    ensures c !in Emphasized(h)
  {
    assert Emphasized(h) == [h.mark] + [' '] + "<b>" + h.title + "</b>";
  }

  /** None of the five headings is empty, and none of their emphasised forms
      holds an asterisk or a newline. */
  lemma HeadingsPlain()
    ensures forall i :: 0 <= i < |Headings| ==>
      Headings[i].title != [] && '*' !in Emphasized(Headings[i]) && '\n' !in Emphasized(Headings[i])
  {
    forall i | 0 <= i < |Headings|
      ensures Headings[i].title != [] && '*' !in Emphasized(Headings[i]) && '\n' !in Emphasized(Headings[i])
    {
      var h := Headings[i];
      assert forall j :: 0 <= j < |h.title| ==> h.title[j] == ' ' || h.title[j] == ':' || 'A' <= h.title[j] <= 'z';
      EmphasizedAvoids(h, '*');
      EmphasizedAvoids(h, '\n');
    }
  }

  /** Every rule of the notes has a pattern, and no replacement holds an
      asterisk; the five heading replacements hold no newline either. */
  lemma NotesPatterns()
    ensures Patterns(NotesRules)
    ensures forall i :: 0 <= i < |NotesRules| ==> '*' !in NotesRules[i].rep
    ensures forall i :: 0 <= i < 5 ==> '\n' !in NotesRules[i].rep
  {
    HeadingsPlain();
  }

  /** Formatted notes contain no asterisk and no newline. */
  lemma FormattedNotesClean(raw: string)
    ensures '*' !in FormattedNotes(raw)
    ensures '\n' !in FormattedNotes(raw)
  {
    NotesPatterns();
    var headings := NotesRules[..5];
    var emphasized := Substituted(CleanText(raw), headings);
    assert NotesRules == headings + [NewlineRule];
    SubstitutedSplit(CleanText(raw), headings, [NewlineRule]);
    assert Substituted(emphasized, [NewlineRule]) == ReplaceAll(emphasized, "\n", "<br/>");
    SubstitutedAvoids(CleanText(raw), headings, '*');
    ReplaceAllAvoids(emphasized, "\n", "<br/>", '*');
    ReplaceAllRemovesChar(emphasized, '\n', "<br/>");
  }

  /** Applying the rules from position i on is applying rule i, then the rest. */
  lemma SubstitutedFrom(before: string, after: string, rules: seq<Rule>, i: nat)
    requires Patterns(rules) && i < |rules|
    requires after == ReplaceAll(before, rules[i].pat, rules[i].rep)
    ensures Substituted(before, rules[i..]) == Substituted(after, rules[i + 1..])
  {
    assert rules[i..][1..] == rules[i + 1..];
  }

  /** The notes formatting of `create_pdf_report`: `doctor_notes` is cleaned,
      then rebound through the five heading substitutions and the newline
      substitution, in this order. */
  method FormatNotes(raw: string) returns (notes: string)
    ensures notes == FormattedNotes(raw)
  {
    NotesPatterns();
    notes := CleanText(raw);
    assert NotesRules[0..] == NotesRules;
    ghost var before := notes;
    notes := ReplaceAll(notes, Headings[0].title, Emphasized(Headings[0]));
    SubstitutedFrom(before, notes, NotesRules, 0);
    before := notes;
    notes := ReplaceAll(notes, Headings[1].title, Emphasized(Headings[1]));
    SubstitutedFrom(before, notes, NotesRules, 1);
    before := notes;
    notes := ReplaceAll(notes, Headings[2].title, Emphasized(Headings[2]));
    SubstitutedFrom(before, notes, NotesRules, 2);
    before := notes;
    notes := ReplaceAll(notes, Headings[3].title, Emphasized(Headings[3]));
    SubstitutedFrom(before, notes, NotesRules, 3);
    before := notes;
    notes := ReplaceAll(notes, Headings[4].title, Emphasized(Headings[4]));
    SubstitutedFrom(before, notes, NotesRules, 4);
    before := notes;
    notes := ReplaceAll(notes, "\n", "<br/>");
    SubstitutedFrom(before, notes, NotesRules, 5);
    assert NotesRules[6..] == [];
  }

  // ---------------------------------------------------------------------
  // Summary table

  /** The header row of the summary table. */
  const Header: seq<Value> := [
    Str("\U{1F9B4} Zone"), Str("\U{1F4C9} Uncertainty (%)"), Str("\U{1F4CF} Shift (mm)"), Str("\U{1F9E9} Shape Diff")]

  /** The fields shown in the table's four columns, in order. */
  const Columns: seq<string> := [ZoneKey, UncertaintyKey, ShiftMmKey, ShapeDiffKey]

  /** The table row of one record: in each column the record's field, or
      "N/A" when the record has no such field. */
  function SummaryRow(e: Entry): (row: seq<Value>)
    ensures |row| == |Columns| == |Header|
    ensures forall c :: 0 <= c < |Columns| && Columns[c] in e ==> row[c] == e[Columns[c]]
    ensures forall c :: 0 <= c < |Columns| && Columns[c] !in e ==> row[c] == NotApplicable
  {
    [Get(e, ZoneKey, NotApplicable), Get(e, UncertaintyKey, NotApplicable),
     Get(e, ShiftMmKey, NotApplicable), Get(e, ShapeDiffKey, NotApplicable)]
  }

  /** "N/A" stands only for a missing field: a field present with the value
      None stays None in the table. */
  lemma NoneIsNotMissing(e: Entry)
    requires ShiftMmKey in e && e[ShiftMmKey] == Null
    ensures SummaryRow(e)[2] == Null
    ensures SummaryRow(e)[2] != NotApplicable
  {
  }

  /** `table_data`: the header row, then one row per record in input order. */
  method BuildSummaryTable(report: seq<Entry>) returns (table: seq<seq<Value>>)
    ensures |table| == |report| + 1
    ensures table[0] == Header
    ensures forall k :: 0 <= k < |report| ==> table[k + 1] == SummaryRow(report[k])
    ensures forall k :: 0 <= k < |table| ==> |table[k]| == 4
  {
    table := [Header];
    for k := 0 to |report|
      invariant |table| == k + 1
      invariant table[0] == Header
      invariant forall i :: 0 <= i < k ==> table[i + 1] == SummaryRow(report[i])
      invariant forall i :: 0 <= i < |table| ==> |table[i]| == 4
    {
      table := table + [SummaryRow(report[k])];
    }
  }

  // ---------------------------------------------------------------------
  // The story

  /** The fixed paragraphs of the story; `Wording` gives their text. */
  datatype Paragraph =
    | Title | Dated(today: string) | Welcome | LogoMissing
    | SummaryHeading | ObservationsHeading | NextPages
    | CleanHeading | CleanMissing | DetailedHeading | DetailedMissing

  /** The sign that opens each warning paragraph. */
  const WarningSign := "\U{26A0}\U{FE0F} "

  /** The text of each fixed paragraph, written as its opening sign or word
      and the rest; the date arrives already formatted as "Month DD, YYYY". */
  function Wording(p: Paragraph): string {
    match p
    case Title => "\U{1F9E0} " + "AI Doctor Fracture Analysis Report \U{1F9B4}"
    case Dated(today) => "\U{1F4C5} " + "Date: " + today
    case Welcome =>
      "Welcome! " + "This report summarizes detected fracture zones and AI-guided recommendations. "
      + "Scroll through the pages for detailed analysis and images."
    case LogoMissing => WarningSign + "Logo not found \U{2014} skipping."
    case SummaryHeading => "\U{1F4CA} " + "Fracture Detection Summary"
    case ObservationsHeading => "\U{1FA7A} " + "AI Doctor Observations"
    case NextPages => "\U{27A1}\U{FE0F} " + "Refer to the next pages for images"
    case CleanHeading => "\U{1FA7B} " + "Detected Zones (Clean)"
    case CleanMissing => WarningSign + "Clean image not found."
    case DetailedHeading => "\U{1F52C} " + "Detailed Fracture Analysis"
    case DetailedMissing => WarningSign + "Detailed image not found."
  }

  /** Exactly the three missing-file paragraphs open with the warning sign. */
  lemma WarningWording(p: Paragraph)
    ensures |Wording(p)| > 0
    ensures Wording(p)[0] == '\U{26A0}' <==> p.LogoMissing? || p.CleanMissing? || p.DetailedMissing?
  {
    match p
    case LogoMissing =>
      assert Wording(p)[0] == WarningSign[0];
    case CleanMissing =>
      assert Wording(p)[0] == WarningSign[0];
    case DetailedMissing =>
      assert Wording(p)[0] == WarningSign[0];
    case _ =>
  }

  /** One flowable of the story. A notes card holds what its markup shows:
      the zone name, the three measurements and the formatted notes. */
  datatype Item =
    | Text(p: Paragraph)
    | Picture(path: string, inches: int)
    | Gap(height: int)
    | NewPage
    | SummaryTable(rows: seq<seq<Value>>)
    | NotesCard(zone: Value, uncertainty: Value, shift: Value, shapeDiff: Value, notes: string)

  /** A path is truthy when it is given and not empty. */
  predicate Truthy(path: Option<string>) {
    path.Some? && path.value != []
  }

  /** The logo, or the warning paragraph when it is not given or not found. */
  function LogoItem(logo: Option<string>, fileExists: string -> bool): Item {
    if Truthy(logo) && fileExists(logo.value) then Picture(logo.value, 5) else Text(LogoMissing)
  }

  /** An image of the analysis, or the warning paragraph when it is not found. */
  function ImageItem(path: string, fileExists: string -> bool, missing: Paragraph): Item {
    if fileExists(path) then Picture(path, 6) else Text(missing)
  }

  /** The items of the front page, up to and including its page break. */
  function FrontPage(today: string, logo: Option<string>, fileExists: string -> bool): seq<Item> {
    [Text(Title), Text(Dated(today)), Text(Welcome), LogoItem(logo, fileExists), NewPage]
  }

  /** The items after the cards: the next-pages paragraph and the two image pages. */
  function ImagePages(cleanPath: string, detailedPath: string, fileExists: string -> bool): seq<Item> {
    [Text(NextPages), NewPage,
     Text(CleanHeading), ImageItem(cleanPath, fileExists, CleanMissing), NewPage,
     Text(DetailedHeading), ImageItem(detailedPath, fileExists, DetailedMissing)]
  }

  /** A missing logo changes nothing but its own slot: whatever the file
      system answers, the front page keeps its length and its other items,
      and the slot holds the logo exactly when a logo path is given and
      found, the warning paragraph otherwise. */
  lemma LogoSlot(today: string, logo: Option<string>, fileExists: string -> bool, other: string -> bool)
    ensures var f, g := FrontPage(today, logo, fileExists), FrontPage(today, logo, other);
      |f| == |g| == 5 && forall i :: 0 <= i < 5 && i != 3 ==> f[i] == g[i]
    ensures FrontPage(today, logo, fileExists)[3].Picture? <==> Truthy(logo) && fileExists(logo.value)
    ensures !FrontPage(today, logo, fileExists)[3].Picture? ==> FrontPage(today, logo, fileExists)[3] == Text(LogoMissing)
  {
  }

  /** A missing analysis image changes nothing but its own slot: the image
      pages keep their length and their other items, and each slot holds the
      image exactly when its file is found, its warning paragraph otherwise. */
  lemma ImageSlots(cleanPath: string, detailedPath: string, fileExists: string -> bool, other: string -> bool)
    ensures var f, g := ImagePages(cleanPath, detailedPath, fileExists), ImagePages(cleanPath, detailedPath, other);
      |f| == |g| == 7 && forall i :: 0 <= i < 7 && i != 3 && i != 6 ==> f[i] == g[i]
    ensures ImagePages(cleanPath, detailedPath, fileExists)[3].Picture? <==> fileExists(cleanPath)
    ensures !fileExists(cleanPath) ==> ImagePages(cleanPath, detailedPath, fileExists)[3] == Text(CleanMissing)
    ensures ImagePages(cleanPath, detailedPath, fileExists)[6].Picture? <==> fileExists(detailedPath)
    ensures !fileExists(detailedPath) ==> ImagePages(cleanPath, detailedPath, fileExists)[6] == Text(DetailedMissing)
  {
  }

  /** The notes of a record, when present, are text: `clean_text` calls `strip` on them. */
  predicate HasTextNotes(e: Entry) {
    NotesKey in e ==> e[NotesKey].Str?
  }

  /** The notes of a record, the empty text when it has none. */
  function Notes(e: Entry): string
    requires HasTextNotes(e)
  {
    if NotesKey in e then e[NotesKey].s else ""
  }

  /** The card of one record. */
  function Card(e: Entry): Item
    requires HasTextNotes(e)
  {
    NotesCard(Get(e, ZoneKey, Str("Unknown Zone")), Get(e, UncertaintyKey, NotApplicable),
              Get(e, ShiftMmKey, NotApplicable), Get(e, ShapeDiffKey, NotApplicable),
              FormattedNotes(Notes(e)))
  }

  /** The card of one record, as the observations loop builds it: the zone
      name ("Unknown Zone" when missing), the measurements ("N/A" when
      missing) and the notes formatted by `FormatNotes`. */
  method MakeCard(e: Entry) returns (card: Item)
    requires HasTextNotes(e)
    ensures card.NotesCard?
    ensures card.zone == if ZoneKey in e then e[ZoneKey] else Str("Unknown Zone")
    ensures card.uncertainty == if UncertaintyKey in e then e[UncertaintyKey] else NotApplicable
    ensures card.shift == if ShiftMmKey in e then e[ShiftMmKey] else NotApplicable
    ensures card.shapeDiff == if ShapeDiffKey in e then e[ShapeDiffKey] else NotApplicable
    ensures card.notes == FormattedNotes(Notes(e))
    ensures card == Card(e)
  {
    var zone := Get(e, ZoneKey, Str("Unknown Zone"));
    var uncertainty := Get(e, UncertaintyKey, NotApplicable);
    var shift := Get(e, ShiftMmKey, NotApplicable);
    var shapeDiff := Get(e, ShapeDiffKey, NotApplicable);
    var doctorNotes := FormatNotes(Notes(e));
    card := NotesCard(zone, uncertainty, shift, shapeDiff, doctorNotes);
  }

  /** The front page as `create_pdf_report` appends it: title, date,
      welcome, the logo or its warning, and the page break. */
  method FrontMatter(today: string, logo: Option<string>, fileExists: string -> bool)
      returns (items: seq<Item>)
    ensures items == FrontPage(today, logo, fileExists)
  {
    items := [Text(Title)];
    items := items + [Text(Dated(today))];
    items := items + [Text(Welcome)];
    if Truthy(logo) && fileExists(logo.value) {
      items := items + [Picture(logo.value, 5)];
    } else {
      items := items + [Text(LogoMissing)];
    }
    items := items + [NewPage];
  }

  /** `f` of each element, each followed by `gap`, in order. */
  function Interleaved<A, B>(xs: seq<A>, f: A --> B, gap: B): seq<B>
    requires forall k :: 0 <= k < |xs| ==> f.requires(xs[k])
  {
    if xs == [] then []
    else Interleaved(xs[..|xs| - 1], f, gap) + [f(xs[|xs| - 1]), gap]
  }

  /** Two items per element. */
  lemma {:induction false} InterleavedLength<A, B>(xs: seq<A>, f: A --> B, gap: B)
    requires forall k :: 0 <= k < |xs| ==> f.requires(xs[k])
    ensures |Interleaved(xs, f, gap)| == 2 * |xs|
    decreases |xs|
  {
    if xs != [] {
      InterleavedLength(xs[..|xs| - 1], f, gap);
    }
  }

  /** Item 2k is `f` of element k and item 2k + 1 the gap after it. */
  lemma {:induction false} InterleavedAt<A, B>(xs: seq<A>, f: A --> B, gap: B, k: nat)
    requires forall k :: 0 <= k < |xs| ==> f.requires(xs[k])
    requires k < |xs|
    ensures |Interleaved(xs, f, gap)| == 2 * |xs|
    ensures Interleaved(xs, f, gap)[2 * k] == f(xs[k]) && Interleaved(xs, f, gap)[2 * k + 1] == gap
    decreases |xs|
  {
    var init := xs[..|xs| - 1];
    InterleavedLength(init, f, gap);
    if k < |init| {
      InterleavedAt(init, f, gap, k);
    }
  }

  /** The observations section: a card and a spacer for each record, in order. */
  function Cards(report: seq<Entry>): seq<Item>
    requires forall k :: 0 <= k < |report| ==> HasTextNotes(report[k])
  {
    Interleaved(report, Card, Gap(15))
  }

  /** The section holds two items per record: item 2k is the card of record k
      and item 2k + 1 its spacer. */
  lemma CardsAt(report: seq<Entry>, k: nat)
    requires forall k :: 0 <= k < |report| ==> HasTextNotes(report[k])
    requires k < |report|
    ensures |Cards(report)| == 2 * |report|
    ensures Cards(report)[2 * k] == Card(report[k]) && Cards(report)[2 * k + 1] == Gap(15)
  {
    InterleavedAt(report, Card, Gap(15), k);
  }

  /** The observations loop: a card and a spacer for each record, in order. */
  method ObservationCards(report: seq<Entry>) returns (items: seq<Item>)
    requires forall k :: 0 <= k < |report| ==> HasTextNotes(report[k])
    ensures items == Cards(report)
  {
    items := [];
    for k := 0 to |report|
      invariant items == Cards(report[..k])
    {
      var card := MakeCard(report[k]);
      assert report[..k + 1][..k] == report[..k];
      items := items + [card, Gap(15)];
    }
    assert report[..|report|] == report;
  }

  /** The pages after the cards, as `create_pdf_report` appends them: each
      image, or its warning when the file is not found. */
  method ImageMatter(cleanPath: string, detailedPath: string, fileExists: string -> bool)
      returns (items: seq<Item>)
    ensures items == ImagePages(cleanPath, detailedPath, fileExists)
  {
    items := [Text(NextPages), NewPage];
    items := items + [Text(CleanHeading)];
    if fileExists(cleanPath) {
      items := items + [Picture(cleanPath, 6)];
    } else {
      items := items + [Text(CleanMissing)];
    }
    items := items + [NewPage];
    items := items + [Text(DetailedHeading)];
    if fileExists(detailedPath) {
      items := items + [Picture(detailedPath, 6)];
    } else {
      items := items + [Text(DetailedMissing)];
    }
  }

  /** The story of `create_pdf_report`: the front page with the logo or its
      warning, the summary table, one card per record in order, and the two
      image pages, each image replaced by a warning when it is not found. */
  method BuildStory(report: seq<Entry>, today: string, logo: Option<string>, cleanPath: string,
                    detailedPath: string, fileExists: string -> bool)
      returns (story: seq<Item>)
    requires forall k :: 0 <= k < |report| ==> HasTextNotes(report[k])
    ensures |story| == 18 + 2 * |report|
    ensures story[..5] == FrontPage(today, logo, fileExists)
    ensures story[5] == Text(SummaryHeading) && story[6] == Gap(10)
    ensures story[7].SummaryTable? && |story[7].rows| == |report| + 1 && story[7].rows[0] == Header
    ensures forall k :: 0 <= k < |report| ==> story[7].rows[k + 1] == SummaryRow(report[k])
    ensures story[8..11] == [Gap(25), Text(ObservationsHeading), Gap(12)]
    ensures story[11..11 + 2 * |report|] == Cards(report)
    ensures story[11 + 2 * |report|..] == ImagePages(cleanPath, detailedPath, fileExists)
  {
    var front := FrontMatter(today, logo, fileExists);
    var table := BuildSummaryTable(report);
    var middle := [Text(SummaryHeading), Gap(10), SummaryTable(table), Gap(25), Text(ObservationsHeading), Gap(12)];
    var cards := ObservationCards(report);
    var images := ImageMatter(cleanPath, detailedPath, fileExists);
    InterleavedLength(report, Card, Gap(15));
    story := front + middle + cards + images;
    assert story[..5] == front;
    assert story[5..11] == middle;
    assert story[11..11 + 2 * |report|] == cards;
    assert story[11 + 2 * |report|..] == images;
  }
}
