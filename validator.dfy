/**
 * The seven scorers of the project validator.  Each one walks a ladder of
 * keyword and membership tests over data fetched from GitHub (passed in
 * here), adds a fixed increment per test and appends a feedback line.
 *
 * Every increment of the rubric is a multiple of 0.5, so scores are kept in
 * HALF-POINTS: a score s on the 0..10 scale is the integer 2*s here, and the
 * caps `min(score, 10)` become `Min(score, 20)`.
 *
 * Each scorer is modelled as the method the tool runs, proved equal to a
 * specification function that adds up independent components; the lemmas
 * state what the rubric promises about those functions.
 */
module Validator {
  import opened Common
  import opened Text

  const Check: string := "\U{2705} "
  const Warn: string := "\U{26A0}\U{FE0F} "
  const Cross: string := "\U{274C} "
  const Star: string := "\U{2B50} "

  /** Largest score, in half-points (10 points). */
  const Top: int := 20

  // ---------------------------------------------------------------------
  // Keyword tests

  /** `any(p in s for p in pats)` */
  predicate AnyIn(s: string, pats: seq<string>)
    decreases |pats|
  {
    pats != [] && (Contains(s, pats[0]) || AnyIn(s, pats[1..]))
  }

  /** `sum(1 for p in pats if p in s)` */
  function CountIn(s: string, pats: seq<string>): (n: nat)
    ensures n <= |pats|
    decreases |pats|
  {
    if pats == [] then 0 else (if Contains(s, pats[0]) then 1 else 0) + CountIn(s, pats[1..])
  }

  /** `sum(1 for p in pats if p in a or p in b)` */
  function CountIn2(a: string, b: string, pats: seq<string>): (n: nat)
    ensures n <= |pats|
    decreases |pats|
  {
    if pats == [] then 0
    else (if Contains(a, pats[0]) || Contains(b, pats[0]) then 1 else 0) + CountIn2(a, b, pats[1..])
  }

  /** A keyword list is hit exactly when some keyword occurs. */
  lemma {:induction false} AnyInIff(s: string, pats: seq<string>)
    ensures AnyIn(s, pats) <==> exists i :: 0 <= i < |pats| && Contains(s, pats[i])
    decreases |pats|
  {
    if pats != [] {
      AnyInIff(s, pats[1..]);
      if AnyIn(s, pats[1..]) {
        var i :| 0 <= i < |pats| - 1 && Contains(s, pats[1..][i]);
        assert Contains(s, pats[i + 1]);
      }
      if exists i :: 1 <= i < |pats| && Contains(s, pats[i]) {
        var i :| 1 <= i < |pats| && Contains(s, pats[i]);
        assert Contains(s, pats[1..][i - 1]);
      }
    }
  }

  /** At least one keyword is counted exactly when the list is hit. */
  lemma {:induction false} CountInPositive(s: string, pats: seq<string>)
    ensures CountIn(s, pats) >= 1 <==> AnyIn(s, pats)
    decreases |pats|
  {
    if pats != [] {
      CountInPositive(s, pats[1..]);
    }
  }

  /** `[note]` when `c` holds, nothing otherwise. */
  function NoteIf(c: bool, note: string): seq<string>
  {
    if c then [note] else []
  }

  // ---------------------------------------------------------------------
  // README quality (project_validator.py, _analyze_readme)

  /** The scorer's result; an empty README has length 0 and no sections,
      which are the defaults the recommendations read for it. */
  datatype ReadmeReport = ReadmeReport(score: int, feedback: seq<string>, length: nat, sectionsFound: seq<string>)

  const NoReadmeNote: string := Cross + "No README found"
  const VisualsNote: string := Check + "Contains images/diagrams"
  const NoVisualsNote: string := Warn + "No visual elements (screenshots, diagrams)"
  const CodeExamplesNote: string := Check + "Includes code examples"
  const NoCodeExamplesNote: string := Warn + "No code examples found"
  const BadgesNote: string := Check + "Has status badges"
  const LongReadmeNote: string := Check + "Comprehensive documentation"
  const BriefReadmeNote: string := Warn + "README is too brief"

  const SectionNames: seq<string> := ["installation", "usage", "features", "documentation", "contributing", "license"]
  const SectionPatterns: seq<seq<string>> := [
    ["## installation", "## setup", "## getting started"],
    ["## usage", "## how to use", "## examples"],
    ["## features", "## what it does"],
    ["## documentation", "## api"],
    ["## contributing", "## contribution"],
    ["## license"]
  ]

  /** The names, among the first `n` sections in declaration order, of
      those some pattern of which occurs in `lower`. */
  function SectionsFound(lower: string, names: seq<string>, patterns: seq<seq<string>>, n: nat): (r: seq<string>)
    requires n <= |names| && n <= |patterns|
    ensures |r| <= n
  {
    if n == 0 then []
    else SectionsFound(lower, names, patterns, n - 1) + NoteIf(AnyIn(lower, patterns[n - 1]), names[n - 1])
  }

  predicate HasVisuals(readme: string)
  {
    Contains(readme, "![") || Contains(readme, "<img")
  }

  predicate HasBadges(readme: string)
  {
    Contains(readme, "shields.io") || Contains(readme[..Min(500, |readme|)], "![")
  }

  function StructureNote(found: seq<string>): string
  {
    if |found| >= 4 then Check + "Strong README structure (" + NatToString(|found|) + " key sections)"
    else Warn + "Missing important sections. Found: " + Join(found, ", ")
  }

  /** One point per section found (at most 6), one for visuals, one for
      code blocks, half a point each for badges and for length over 1500. */
  function ReadmePoints(readme: string, found: seq<string>): int
  {
    Min(2 * |found|, 12) + (if HasVisuals(readme) then 2 else 0) + (if Contains(readme, "```") then 2 else 0)
    + (if HasBadges(readme) then 1 else 0) + (if |readme| > 1500 then 1 else 0)
  }

  function ReadmeNotes(readme: string, found: seq<string>): seq<string>
  {
    [StructureNote(found)]
    + [if HasVisuals(readme) then VisualsNote else NoVisualsNote]
    + [if Contains(readme, "```") then CodeExamplesNote else NoCodeExamplesNote]
    + NoteIf(HasBadges(readme), BadgesNote)
    + (if |readme| > 1500 then [LongReadmeNote] else NoteIf(|readme| < 500, BriefReadmeNote))
  }

  function ReadmeSpec(readme: string): ReadmeReport
  {
    if readme == [] then ReadmeReport(0, [NoReadmeNote], 0, [])
    else
      var found := SectionsFound(Lower(readme), SectionNames, SectionPatterns, |SectionNames|);
      ReadmeReport(Min(ReadmePoints(readme, found), Top), ReadmeNotes(readme, found), |readme|, found)
  }

  method AnalyzeReadme(readme: string) returns (r: ReadmeReport)
    ensures r == ReadmeSpec(readme)
  {
    if readme == [] {
      return ReadmeReport(0, [NoReadmeNote], 0, []);
    }
    var score := 0;
    var readmeLower := Lower(readme);
    var found: seq<string> := [];
    for i := 0 to |SectionNames|
      invariant found == SectionsFound(readmeLower, SectionNames, SectionPatterns, i)
      invariant score == 2 * |found|
    {
      if AnyIn(readmeLower, SectionPatterns[i]) {
        score := score + 2;
        found := found + [SectionNames[i]];
      }
    }
    score := Min(score, 12);
    var feedback := [StructureNote(found)];
    ghost var notes, points := feedback, score;
    var hasVisuals := Contains(readme, "![") || Contains(readme, "<img");
    if hasVisuals {
      score := score + 2;
      feedback := feedback + [VisualsNote];
    } else {
      feedback := feedback + [NoVisualsNote];
    }
    assert feedback == notes + [if hasVisuals then VisualsNote else NoVisualsNote];
    assert score == points + (if hasVisuals then 2 else 0);
    notes, points := feedback, score;
    var hasCode := Contains(readme, "```");
    if hasCode {
      score := score + 2;
      feedback := feedback + [CodeExamplesNote];
    } else {
      feedback := feedback + [NoCodeExamplesNote];
    }
    assert feedback == notes + [if hasCode then CodeExamplesNote else NoCodeExamplesNote];
    assert score == points + (if hasCode then 2 else 0);
    notes, points := feedback, score;
    var hasBadges := Contains(readme, "shields.io") || Contains(readme[..Min(500, |readme|)], "![");
    if hasBadges {
      score := score + 1;
      feedback := feedback + [BadgesNote];
    }
    assert feedback == notes + NoteIf(hasBadges, BadgesNote);
    assert score == points + (if hasBadges then 1 else 0);
    notes, points := feedback, score;
    if |readme| > 1500 {
      score := score + 1;
      feedback := feedback + [LongReadmeNote];
    } else if |readme| < 500 {
      feedback := feedback + [BriefReadmeNote];
    }
    assert feedback == notes + (if |readme| > 1500 then [LongReadmeNote] else NoteIf(|readme| < 500, BriefReadmeNote));
    assert score == points + (if |readme| > 1500 then 1 else 0);
    assert feedback == ReadmeNotes(readme, found);
    assert score == ReadmePoints(readme, found);
    r := ReadmeReport(Min(score, Top), feedback, |readme|, found);
  }

  /** The README score lies in [0, 9] points; both caps of the scorer are
      therefore never reached. */
  lemma ReadmeScoreBounds(readme: string)
    ensures 0 <= ReadmeSpec(readme).score <= 18
  {
  }

  /** An empty README scores 0 with the single "No README found" line. */
  lemma ReadmeEmpty()
    ensures ReadmeSpec("").score == 0 && ReadmeSpec("").feedback == [NoReadmeNote]
  {
  }

  /** `sections_found` lists, in declaration order and without repetition,
      exactly the sections some pattern of which occurs in the lower-cased
      README, and the sections contribute one point each. */
  lemma ReadmeSections(readme: string)
    requires readme != []
    ensures var r := ReadmeSpec(readme);
      NoDuplicates(r.sectionsFound) &&
      (forall i :: 0 <= i < |SectionNames| ==>
        (SectionNames[i] in r.sectionsFound <==> AnyIn(Lower(readme), SectionPatterns[i]))) &&
      r.score == 2 * |r.sectionsFound| + ReadmePoints(readme, [])
  {
    SectionNamesDistinct();
    SectionsFoundMembers(Lower(readme), SectionNames, SectionPatterns, |SectionNames|);
  }

  /** The sections found are among the names considered. */
  lemma {:induction false} SectionsFoundWithin(lower: string, names: seq<string>, patterns: seq<seq<string>>, n: nat)
    requires n <= |names| && n <= |patterns|
    ensures forall s :: s in SectionsFound(lower, names, patterns, n) ==> s in names[..n]
  {
    if n > 0 {
      SectionsFoundWithin(lower, names, patterns, n - 1);
      assert names[..n] == names[..n - 1] + [names[n - 1]];
    }
  }

  /** Over distinct names, the sections found are distinct and include a
      name exactly when one of its patterns occurs. */
  lemma {:induction false} SectionsFoundMembers(lower: string, names: seq<string>, patterns: seq<seq<string>>, n: nat)
    requires n <= |names| && n <= |patterns| && NoDuplicates(names)
    ensures NoDuplicates(SectionsFound(lower, names, patterns, n))
    ensures forall i :: 0 <= i < n ==> (names[i] in SectionsFound(lower, names, patterns, n) <==> AnyIn(lower, patterns[i]))
  {
    if n > 0 {
      SectionsFoundMembers(lower, names, patterns, n - 1);
      SectionsFoundWithin(lower, names, patterns, n - 1);
      var prev := SectionsFound(lower, names, patterns, n - 1);
      assert names[n - 1] !in names[..n - 1];
      assert names[n - 1] !in prev;
    }
  }

  lemma SectionNamesDistinct()
    ensures NoDuplicates(SectionNames)
  {
  }

  /** The code-example line is present exactly when the README holds a
      fenced code block. */
  lemma ReadmeCodeExamplesNote(readme: string)
    requires readme != []
    ensures CodeExamplesNote in ReadmeSpec(readme).feedback <==> Contains(readme, "```")
  {
    var found := SectionsFound(Lower(readme), SectionNames, SectionPatterns, |SectionNames|);
    var head := [StructureNote(found)] + [if HasVisuals(readme) then VisualsNote else NoVisualsNote];
    var code := if Contains(readme, "```") then CodeExamplesNote else NoCodeExamplesNote;
    var tail := NoteIf(HasBadges(readme), BadgesNote)
      + (if |readme| > 1500 then [LongReadmeNote] else NoteIf(|readme| < 500, BriefReadmeNote));
    assert ReadmeSpec(readme).feedback == ReadmeNotes(readme, found);
    assert ReadmeNotes(readme, found) == head + [code] + tail;
    assert CodeExamplesNote[2] == 'I';
    assert CodeExamplesNote !in head by {
      StructureNoteDiffers(found);
      assert VisualsNote[2] == 'C' && NoVisualsNote[2] == ' ';
    }
    assert CodeExamplesNote !in tail by {
      assert BadgesNote[2] == 'H' && LongReadmeNote[2] == 'C' && BriefReadmeNote[2] == ' ';
    }
    assert NoCodeExamplesNote[2] == ' ';
  }

  lemma StructureNoteDiffers(found: seq<string>)
    ensures |StructureNote(found)| > 2 && StructureNote(found)[2] != 'I'
  {
    var s := StructureNote(found);
    if |found| >= 4 {
      assert s[2] == 'S';
    } else {
      assert s[2] == ' ';
    }
  }

  // ---------------------------------------------------------------------
  // Code organization (project_validator.py, _analyze_code_quality)

  /** The `type` of an entry of the repository's top-level listing. */
  datatype Kind = File | Dir | OtherKind
  datatype Entry = Entry(name: string, kind: Kind)

  /** The names of the entries of one kind, in listing order. */
  function NamesOf(structure: seq<Entry>, k: Kind): seq<string>
  {
    if structure == [] then []
    else
      var e := structure[|structure| - 1];
      NamesOf(structure[..|structure| - 1], k) + NoteIf(e.kind == k, e.name)
  }

  /** A name is listed exactly when some entry of that kind carries it. */
  lemma {:induction false} NamesOfMembers(structure: seq<Entry>, k: Kind)
    ensures forall n :: n in NamesOf(structure, k) <==>
      exists i :: 0 <= i < |structure| && structure[i].kind == k && structure[i].name == n
  {
    if structure != [] {
      var init := structure[..|structure| - 1];
      NamesOfMembers(init, k);
      assert forall i :: 0 <= i < |init| ==> init[i] == structure[i];
    }
  }

  datatype CodeReport = CodeReport(score: int, feedback: seq<string>, hasTests: bool, hasCi: bool)

  const StructureIndicators: seq<string> := ["src", "lib", "app", "components", "services", "utils", "tests"]
  const ConfigFiles: seq<string> := ["package.json", "requirements.txt", "Cargo.toml", "go.mod", "Gemfile", "composer.json", "pyproject.toml"]
  const TestIndicators: seq<string> := ["test", "tests", "__tests__", "spec", "pytest", "jest"]
  const CiFiles: seq<string> := [".github", ".gitlab-ci.yml", ".travis.yml", "Jenkinsfile"]
  const LintFiles: seq<string> := [".eslintrc", ".prettierrc", "pylint.rc", ".flake8", "tslint.json"]

  const NoStructureNote: string := Warn + "Lacks clear project structure"
  const TestsNote: string := Check + "Includes test suite"
  const NoTestsNote: string := Cross + "No tests detected"
  const CiNote: string := Check + "CI/CD configured"
  const DockerNote: string := Check + "Dockerized"
  const LintNote: string := Check + "Code quality tools configured"

  /** The folders whose lower-cased name is a conventional source folder. */
  function Organized(folders: seq<string>): seq<string>
  {
    if folders == [] then []
    else
      var f := folders[|folders| - 1];
      Organized(folders[..|folders| - 1]) + NoteIf(Lower(f) in StructureIndicators, f)
  }

  /** The dependency files present, in the order of `ConfigFiles`. */
  function FoundConfigs(files: seq<string>, n: nat): seq<string>
    requires n <= |ConfigFiles|
  {
    if n == 0 then [] else FoundConfigs(files, n - 1) + NoteIf(ConfigFiles[n - 1] in files, ConfigFiles[n - 1])
  }

  /** Some name, lower-cased, contains some of the patterns. */
  predicate SomeLowerHits(names: seq<string>, pats: seq<string>)
    decreases |names|
  {
    names != [] && (AnyIn(Lower(names[0]), pats) || SomeLowerHits(names[1..], pats))
  }

  /** Some name contains `p`. */
  predicate SomeContains(names: seq<string>, p: string)
    decreases |names|
  {
    names != [] && (Contains(names[0], p) || SomeContains(names[1..], p))
  }

  /** Some of the patterns is one of the names. */
  predicate SomeListed(pats: seq<string>, names: seq<string>)
    decreases |pats|
  {
    pats != [] && (pats[0] in names || SomeListed(pats[1..], names))
  }

  /** Some folder name contains a test indicator (case-insensitively). */
  predicate HasTests(folders: seq<string>)
  {
    SomeLowerHits(folders, TestIndicators)
  }

  /** Some CI marker is the name of a file or of a folder. */
  predicate HasCi(files: seq<string>, folders: seq<string>)
  {
    SomeListed(CiFiles, files) || SomeListed(CiFiles, folders)
  }

  predicate HasDocker(files: seq<string>)
  {
    "Dockerfile" in files || "docker-compose.yml" in files
  }

  /** Some linter configuration is named by, or is part of, some file name. */
  predicate Linted(files: seq<string>, lints: seq<string>)
    decreases |lints|
  {
    lints != [] && (lints[0] in files || SomeContains(files, lints[0]) || Linted(files, lints[1..]))
  }

  predicate HasLinting(files: seq<string>)
  {
    Linted(files, LintFiles)
  }

  /** 3 points for three conventional folders or more, 1.5 for one or two. */
  function OrganizationPoints(count: nat): int
  {
    if count >= 3 then 6 else if count >= 1 then 3 else 0
  }

  function OrganizationNote(organized: seq<string>): string
  {
    if |organized| >= 3 then Check + "Well-organized structure: " + Join(organized[..3], ", ")
    else if |organized| >= 1 then Warn + "Basic organization: " + Join(organized, ", ")
    else NoStructureNote
  }

  /** What the code scorer finds in the listing, before it is scored. */
  datatype CodeFindings = CodeFindings(
    organized: seq<string>, configs: seq<string>,
    hasTests: bool, hasCi: bool, hasDocker: bool, hasLinting: bool)

  function FindingsOf(files: seq<string>, folders: seq<string>): CodeFindings
  {
    CodeFindings(Organized(folders), FoundConfigs(files, |ConfigFiles|),
      HasTests(folders), HasCi(files, folders), HasDocker(files), HasLinting(files))
  }

  /** 2 points for dependency files, 2 for tests, 1 each for CI, Docker and
      linting, on top of the organization points. */
  function CodePoints(f: CodeFindings): int
  {
    OrganizationPoints(|f.organized|)
    + (if f.configs != [] then 4 else 0)
    + (if f.hasTests then 4 else 0)
    + (if f.hasCi then 2 else 0)
    + (if f.hasDocker then 2 else 0)
    + (if f.hasLinting then 2 else 0)
  }

  function CodeNotes(f: CodeFindings): seq<string>
  {
    [OrganizationNote(f.organized)]
    + NoteIf(f.configs != [], Check + "Proper dependency management: " + Join(f.configs, ", "))
    + [if f.hasTests then TestsNote else NoTestsNote]
    + NoteIf(f.hasCi, CiNote)
    + NoteIf(f.hasDocker, DockerNote)
    + NoteIf(f.hasLinting, LintNote)
  }

  function CodeSpec(structure: seq<Entry>): CodeReport
  {
    var f := FindingsOf(NamesOf(structure, File), NamesOf(structure, Dir));
    CodeReport(Min(CodePoints(f), Top), CodeNotes(f), f.hasTests, f.hasCi)
  }

  /** The scorer: what it finds in the listing (the names of the files and
      of the folders), then the points and lines for those findings. */
  method AnalyzeCodeQuality(structure: seq<Entry>) returns (r: CodeReport)
    ensures r == CodeSpec(structure)
  {
    var files := NamesOf(structure, File);
    var folders := NamesOf(structure, Dir);
    var hasDocker := "Dockerfile" in files || "docker-compose.yml" in files;
    var findings := CodeFindings(Organized(folders), FoundConfigs(files, |ConfigFiles|),
      HasTests(folders), HasCi(files, folders), hasDocker, HasLinting(files));
    var score, feedback := ScoreCode(findings);
    r := CodeReport(Min(score, Top), feedback, findings.hasTests, findings.hasCi);
  }

  /** The rubric of the code scorer, one test after the other. */
  method ScoreCode(f: CodeFindings) returns (score: int, feedback: seq<string>)
    ensures score == CodePoints(f) && feedback == CodeNotes(f)
  {
    score := 0;
    if |f.organized| >= 3 {
      score := score + 6;
      feedback := [Check + "Well-organized structure: " + Join(f.organized[..3], ", ")];
    } else if |f.organized| >= 1 {
      score := score + 3;
      feedback := [Warn + "Basic organization: " + Join(f.organized, ", ")];
    } else {
      feedback := [NoStructureNote];
    }
    assert feedback == [OrganizationNote(f.organized)] && score == OrganizationPoints(|f.organized|);
    ghost var notes, points := feedback, score;
    if f.configs != [] {
      score := score + 4;
      feedback := feedback + [Check + "Proper dependency management: " + Join(f.configs, ", ")];
    }
    assert feedback == notes + NoteIf(f.configs != [], Check + "Proper dependency management: " + Join(f.configs, ", "));
    assert score == points + (if f.configs != [] then 4 else 0);
    notes, points := feedback, score;
    if f.hasTests {
      score := score + 4;
      feedback := feedback + [TestsNote];
    } else {
      feedback := feedback + [NoTestsNote];
    }
    assert feedback == notes + [if f.hasTests then TestsNote else NoTestsNote];
    assert score == points + (if f.hasTests then 4 else 0);
    notes, points := feedback, score;
    if f.hasCi {
      score := score + 2;
      feedback := feedback + [CiNote];
    }
    assert feedback == notes + NoteIf(f.hasCi, CiNote);
    assert score == points + (if f.hasCi then 2 else 0);
    notes, points := feedback, score;
    if f.hasDocker {
      score := score + 2;
      feedback := feedback + [DockerNote];
    }
    assert feedback == notes + NoteIf(f.hasDocker, DockerNote);
    assert score == points + (if f.hasDocker then 2 else 0);
    notes, points := feedback, score;
    if f.hasLinting {
      score := score + 2;
      feedback := feedback + [LintNote];
    }
    assert feedback == notes + NoteIf(f.hasLinting, LintNote);
    assert score == points + (if f.hasLinting then 2 else 0);
  }

  /** A list of names is hit exactly when some name, lower-cased, holds a
      pattern. */
  lemma {:induction false} SomeLowerHitsIff(names: seq<string>, pats: seq<string>)
    ensures SomeLowerHits(names, pats) <==> exists i :: 0 <= i < |names| && AnyIn(Lower(names[i]), pats)
    decreases |names|
  {
    if names != [] {
      SomeLowerHitsIff(names[1..], pats);
      if exists i :: 1 <= i < |names| && AnyIn(Lower(names[i]), pats) {
        var i :| 1 <= i < |names| && AnyIn(Lower(names[i]), pats);
        assert names[1..][i - 1] == names[i];
      }
    }
  }

  /** The code score lies in [0, 10] points, and `has_tests` holds exactly
      when the name of some folder of the listing mentions tests. */
  lemma CodeScoreBounds(structure: seq<Entry>)
    ensures 0 <= CodeSpec(structure).score <= Top
    ensures CodeSpec(structure).hasTests <==>
      exists i :: 0 <= i < |structure| && structure[i].kind == Dir && AnyIn(Lower(structure[i].name), TestIndicators)
  {
    var folders := NamesOf(structure, Dir);
    NamesOfMembers(structure, Dir);
    SomeLowerHitsIff(folders, TestIndicators);
    if HasTests(folders) {
      var j :| 0 <= j < |folders| && AnyIn(Lower(folders[j]), TestIndicators);
      assert folders[j] in folders;
      var i :| 0 <= i < |structure| && structure[i].kind == Dir && structure[i].name == folders[j];
    }
    if exists i :: 0 <= i < |structure| && structure[i].kind == Dir && AnyIn(Lower(structure[i].name), TestIndicators) {
      var i :| 0 <= i < |structure| && structure[i].kind == Dir && AnyIn(Lower(structure[i].name), TestIndicators);
      assert structure[i].name in folders;
      var j :| 0 <= j < |folders| && folders[j] == structure[i].name;
    }
  }

  // ---------------------------------------------------------------------
  // Documentation (project_validator.py, _analyze_documentation)

  datatype DocReport = DocReport(score: int, feedback: seq<string>)

  const DocFolders: seq<string> := ["docs", "documentation", "doc", "wiki"]
  const ApiDocs: seq<string> := ["swagger", "openapi", "api.md", "API.md"]

  const DocsFolderNote: string := Check + "Dedicated documentation folder"
  const ComprehensiveReadmeNote: string := Check + "Comprehensive README"
  const GoodReadmeNote: string := Check + "Good README coverage"
  const BasicReadmeNote: string := Warn + "Basic README"
  const ApiDocsNote: string := Check + "API documentation present"
  const ContributingNote: string := Check + "Contribution guidelines"
  const ChangelogNote: string := Check + "Changelog maintained"

  predicate HasDocsFolder(folders: seq<string>)
  {
    SomeListed(DocFolders, folders)
  }

  /** Some of `docs` is part of a file name, or occurs in the README (both
      lower-cased). */
  predicate ApiDocumented(files: seq<string>, readme: string, docs: seq<string>)
    decreases |docs|
  {
    docs != [] && (SomeContains(files, docs[0]) || Contains(Lower(readme), Lower(docs[0])) || ApiDocumented(files, readme, docs[1..]))
  }

  predicate HasApiDocs(files: seq<string>, readme: string)
  {
    ApiDocumented(files, readme, ApiDocs)
  }

  /** 3 points over 2000 characters, 2 over 1000, 1 over 500. */
  function ReadmeLengthPoints(length: nat): int
  {
    if length > 2000 then 6 else if length > 1000 then 4 else if length > 500 then 2 else 0
  }

  function ReadmeLengthNotes(length: nat): seq<string>
  {
    if length > 2000 then [ComprehensiveReadmeNote]
    else if length > 1000 then [GoodReadmeNote]
    else NoteIf(length > 500, BasicReadmeNote)
  }

  predicate HasContributing(files: seq<string>, readme: string)
  {
    "CONTRIBUTING.md" in files || Contains(Lower(readme), "contributing")
  }

  predicate HasChangelog(files: seq<string>, readme: string)
  {
    "CHANGELOG.md" in files || Contains(Lower(readme), "changelog")
  }

  /** What the documentation scorer finds: a docs folder, the README's
      length, API documentation, contribution guidelines and a changelog. */
  datatype DocFindings = DocFindings(
    hasDocsFolder: bool, length: nat, hasApiDocs: bool, hasContributing: bool, hasChangelog: bool)

  function DocPoints(f: DocFindings): int
  {
    (if f.hasDocsFolder then 6 else 0) + ReadmeLengthPoints(f.length)
    + (if f.hasApiDocs then 4 else 0)
    + (if f.hasContributing then 2 else 0) + (if f.hasChangelog then 2 else 0)
  }

  function DocNotes(f: DocFindings): seq<string>
  {
    NoteIf(f.hasDocsFolder, DocsFolderNote) + ReadmeLengthNotes(f.length)
    + NoteIf(f.hasApiDocs, ApiDocsNote)
    + NoteIf(f.hasContributing, ContributingNote) + NoteIf(f.hasChangelog, ChangelogNote)
  }

  function DocSpec(structure: seq<Entry>, readme: string): DocReport
  {
    var files := NamesOf(structure, File);
    var f := DocFindings(HasDocsFolder(NamesOf(structure, Dir)), |readme|,
      HasApiDocs(files, readme), HasContributing(files, readme), HasChangelog(files, readme));
    DocReport(Min(DocPoints(f), Top), DocNotes(f))
  }

  method AnalyzeDocumentation(structure: seq<Entry>, readme: string) returns (r: DocReport)
    ensures r == DocSpec(structure, readme)
  {
    var folders := NamesOf(structure, Dir);
    var files := NamesOf(structure, File);
    var hasContributing := "CONTRIBUTING.md" in files || Contains(Lower(readme), "contributing");
    var hasChangelog := "CHANGELOG.md" in files || Contains(Lower(readme), "changelog");
    var findings := DocFindings(HasDocsFolder(folders), |readme|, HasApiDocs(files, readme), hasContributing, hasChangelog);
    var score, feedback := ScoreDocumentation(findings);
    r := DocReport(Min(score, Top), feedback);
  }

  /** The rubric of the documentation scorer, one test after the other. */
  method ScoreDocumentation(f: DocFindings) returns (score: int, feedback: seq<string>)
    ensures score == DocPoints(f) && feedback == DocNotes(f)
  {
    score := 0;
    feedback := [];
    if f.hasDocsFolder {
      score := score + 6;
      feedback := [DocsFolderNote];
    }
    assert feedback == NoteIf(f.hasDocsFolder, DocsFolderNote);
    ghost var notes, points := feedback, score;
    if f.length > 2000 {
      score := score + 6;
      feedback := feedback + [ComprehensiveReadmeNote];
    } else if f.length > 1000 {
      score := score + 4;
      feedback := feedback + [GoodReadmeNote];
    } else if f.length > 500 {
      score := score + 2;
      feedback := feedback + [BasicReadmeNote];
    }
    assert feedback == notes + ReadmeLengthNotes(f.length);
    assert score == points + ReadmeLengthPoints(f.length);
    notes, points := feedback, score;
    if f.hasApiDocs {
      score := score + 4;
      feedback := feedback + [ApiDocsNote];
    }
    assert feedback == notes + NoteIf(f.hasApiDocs, ApiDocsNote);
    assert score == points + (if f.hasApiDocs then 4 else 0);
    notes, points := feedback, score;
    if f.hasContributing {
      score := score + 2;
      feedback := feedback + [ContributingNote];
    }
    assert feedback == notes + NoteIf(f.hasContributing, ContributingNote);
    assert score == points + (if f.hasContributing then 2 else 0);
    notes, points := feedback, score;
    if f.hasChangelog {
      score := score + 2;
      feedback := feedback + [ChangelogNote];
    }
    assert feedback == notes + NoteIf(f.hasChangelog, ChangelogNote);
  }

  /** The documentation score lies in [0, 10] points. */
  lemma DocScoreBounds(structure: seq<Entry>, readme: string)
    ensures 0 <= DocSpec(structure, readme).score <= Top
  {
  }

  // ---------------------------------------------------------------------
  // Activity (project_validator.py, _analyze_activity)

  datatype ActivityReport = ActivityReport(score: int, feedback: seq<string>)

  const VeryActiveNote: string := Check + "Very active (commits within last week)"
  const ActiveNote: string := Check + "Active (commits within last month)"
  const ModeratelyActiveNote: string := Warn + "Moderately active (commits within 3 months)"
  const LowActivityNote: string := Warn + "Low activity (commits within 6 months)"
  const InactiveNote: string := Cross + "Inactive (no recent commits)"
  const NoIssuesNote: string := Check + "No open issues"
  const FewIssuesNote: string := Check + "Few open issues"
  const SomeIssuesNote: string := Warn + "Some open issues"

  /** 4 points for a commit within a week, 3 within a month, 2 within three
      months, 1 within six. */
  function RecencyPoints(days: int): int
  {
    if days < 7 then 8 else if days < 30 then 6 else if days < 90 then 4 else if days < 180 then 2 else 0
  }

  function RecencyNote(days: int): string
  {
    if days < 7 then VeryActiveNote
    else if days < 30 then ActiveNote
    else if days < 90 then ModeratelyActiveNote
    else if days < 180 then LowActivityNote
    else InactiveNote
  }

  /** 3 points for 20 recent commits or more, 2 for 10, 1 for 5. */
  function FrequencyPoints(commits: nat): int
  {
    if commits >= 20 then 6 else if commits >= 10 then 4 else if commits >= 5 then 2 else 0
  }

  function FrequencyNotes(commits: nat): seq<string>
  {
    NoteIf(commits >= 20, Check + "High commit frequency (" + NatToString(commits) + " recent commits)")
  }

  /** 3 points for no open issue, 2 for fewer than 5, 1 for fewer than 20. */
  function IssuePoints(openIssues: int): int
  {
    if openIssues == 0 then 6 else if openIssues < 5 then 4 else if openIssues < 20 then 2 else 0
  }

  function IssueNote(openIssues: int): string
  {
    if openIssues == 0 then NoIssuesNote
    else if openIssues < 5 then FewIssuesNote
    else if openIssues < 20 then SomeIssuesNote
    else Warn + "Many open issues (" + NatToString(openIssues) + ")"
  }

  /** The activity score of a repository whose fetched commit list has
      `commits` entries, the newest `daysSince` days old (read only when
      there is a commit), and that has `openIssues` open issues. */
  function ActivitySpec(commits: nat, daysSince: int, openIssues: int): ActivityReport
  {
    ActivityReport(
      Min((if commits > 0 then RecencyPoints(daysSince) else 0) + FrequencyPoints(commits) + IssuePoints(openIssues), Top),
      (if commits > 0 then [RecencyNote(daysSince)] else []) + FrequencyNotes(commits) + [IssueNote(openIssues)])
  }

  method AnalyzeActivity(commits: nat, daysSince: int, openIssues: int) returns (r: ActivityReport)
    ensures r == ActivitySpec(commits, daysSince, openIssues)
  {
    var score := 0;
    var feedback: seq<string> := [];
    if commits > 0 {
      if daysSince < 7 {
        score := score + 8;
        feedback := [VeryActiveNote];
      } else if daysSince < 30 {
        score := score + 6;
        feedback := [ActiveNote];
      } else if daysSince < 90 {
        score := score + 4;
        feedback := [ModeratelyActiveNote];
      } else if daysSince < 180 {
        score := score + 2;
        feedback := [LowActivityNote];
      } else {
        feedback := [InactiveNote];
      }
    }
    assert feedback == (if commits > 0 then [RecencyNote(daysSince)] else []);
    assert score == (if commits > 0 then RecencyPoints(daysSince) else 0);
    ghost var notes, points := feedback, score;
    if commits >= 20 {
      score := score + 6;
      feedback := feedback + [Check + "High commit frequency (" + NatToString(commits) + " recent commits)"];
    } else if commits >= 10 {
      score := score + 4;
    } else if commits >= 5 {
      score := score + 2;
    }
    assert feedback == notes + FrequencyNotes(commits);
    assert score == points + FrequencyPoints(commits);
    notes, points := feedback, score;
    if openIssues == 0 {
      score := score + 6;
      feedback := feedback + [NoIssuesNote];
    } else if openIssues < 5 {
      score := score + 4;
      feedback := feedback + [FewIssuesNote];
    } else if openIssues < 20 {
      score := score + 2;
      feedback := feedback + [SomeIssuesNote];
    } else {
      feedback := feedback + [Warn + "Many open issues (" + NatToString(openIssues) + ")"];
    }
    assert feedback == notes + [IssueNote(openIssues)];
    assert score == points + IssuePoints(openIssues);
    r := ActivityReport(Min(score, Top), feedback);
  }

  /** The three parts add up to at most 10 points, so the cap never bites. */
  lemma ActivityScoreBounds(commits: nat, daysSince: int, openIssues: int)
    ensures 0 <= ActivitySpec(commits, daysSince, openIssues).score <= Top
    ensures ActivitySpec(commits, daysSince, openIssues).score ==
      (if commits > 0 then RecencyPoints(daysSince) else 0) + FrequencyPoints(commits) + IssuePoints(openIssues)
  {
  }

  /** More commits, a more recent last commit and fewer open issues never
      lower the activity score. */
  lemma ActivityMonotone(c1: nat, d1: int, o1: int, c2: nat, d2: int, o2: int)
    requires c1 <= c2 && d2 <= d1 && 0 <= o2 <= o1
    ensures ActivitySpec(c1, d1, o1).score <= ActivitySpec(c2, d2, o2).score
  {
  }

  // ---------------------------------------------------------------------
  // Community (project_validator.py, _analyze_community)

  datatype CommunityReport = CommunityReport(score: int, feedback: seq<string>)

  const FewStarsNote: string := Warn + "New/unknown project (few stars)"
  const NoLicenseNote: string := Warn + "No license specified"
  const IssuesEnabledNote: string := Check + "Issues enabled (community support)"

  /** 4 points from 1000 stars, 3 from 100, 2 from 20, 1 from 5. */
  function StarPoints(stars: int): int
  {
    if stars >= 1000 then 8 else if stars >= 100 then 6 else if stars >= 20 then 4 else if stars >= 5 then 2 else 0
  }

  function StarNote(stars: int): string
  {
    if stars >= 1000 then Star + "Popular project (" + NatToString(stars) + " stars)"
    else if stars >= 100 then Check + "Good traction (" + NatToString(stars) + " stars)"
    else if stars >= 20 then Check + "Some interest (" + NatToString(stars) + " stars)"
    else if stars >= 5 then Warn + "Limited attention (" + NatToString(stars) + " stars)"
    else FewStarsNote
  }

  /** 3 points from 100 forks, 2 from 20, 1 from 5. */
  function ForkPoints(forks: int): int
  {
    if forks >= 100 then 6 else if forks >= 20 then 4 else if forks >= 5 then 2 else 0
  }

  function ForkNotes(forks: int): seq<string>
  {
    if forks >= 100 then [Check + "Highly forked (" + NatToString(forks) + " forks)"] else []
  }

  function LicenseNote(license: Option<string>): string
  {
    match license
    case Some(name) => Check + "Licensed: " + name
    case None => NoLicenseNote
  }

  /** The community score from the star and fork counts, the name of the
      license (if any) and whether issues are enabled. */
  function CommunitySpec(stars: int, forks: int, license: Option<string>, hasIssues: bool): CommunityReport
  {
    CommunityReport(
      Min(StarPoints(stars) + ForkPoints(forks) + (if license.Some? then 4 else 0) + (if hasIssues then 2 else 0), Top),
      [StarNote(stars)] + ForkNotes(forks) + [LicenseNote(license)] + NoteIf(hasIssues, IssuesEnabledNote))
  }

  method AnalyzeCommunity(stars: int, forks: int, license: Option<string>, hasIssues: bool) returns (r: CommunityReport)
    ensures r == CommunitySpec(stars, forks, license, hasIssues)
  {
    var score := 0;
    var feedback: seq<string>;
    if stars >= 1000 {
      score := score + 8;
      feedback := [Star + "Popular project (" + NatToString(stars) + " stars)"];
    } else if stars >= 100 {
      score := score + 6;
      feedback := [Check + "Good traction (" + NatToString(stars) + " stars)"];
    } else if stars >= 20 {
      score := score + 4;
      feedback := [Check + "Some interest (" + NatToString(stars) + " stars)"];
    } else if stars >= 5 {
      score := score + 2;
      feedback := [Warn + "Limited attention (" + NatToString(stars) + " stars)"];
    } else {
      feedback := [FewStarsNote];
    }
    assert feedback == [StarNote(stars)] && score == StarPoints(stars);
    ghost var notes, points := feedback, score;
    if forks >= 100 {
      score := score + 6;
      feedback := feedback + [Check + "Highly forked (" + NatToString(forks) + " forks)"];
    } else if forks >= 20 {
      score := score + 4;
    } else if forks >= 5 {
      score := score + 2;
    }
    assert feedback == notes + ForkNotes(forks);
    assert score == points + ForkPoints(forks);
    notes, points := feedback, score;
    if license.Some? {
      score := score + 4;
      feedback := feedback + [Check + "Licensed: " + license.value];
    } else {
      feedback := feedback + [NoLicenseNote];
    }
    assert feedback == notes + [LicenseNote(license)];
    assert score == points + (if license.Some? then 4 else 0);
    notes, points := feedback, score;
    if hasIssues {
      score := score + 2;
      feedback := feedback + [IssuesEnabledNote];
    }
    assert feedback == notes + NoteIf(hasIssues, IssuesEnabledNote);
    assert score == points + (if hasIssues then 2 else 0);
    r := CommunityReport(Min(score, Top), feedback);
  }

  /** The four parts add up to at most 10 points, so the cap never bites;
      a licence is worth exactly 2 points. */
  lemma CommunityScoreBounds(stars: int, forks: int, license: Option<string>, hasIssues: bool)
    ensures 0 <= CommunitySpec(stars, forks, license, hasIssues).score <= Top
    ensures CommunitySpec(stars, forks, Some(if license.Some? then license.value else ""), hasIssues).score
      == CommunitySpec(stars, forks, None, hasIssues).score + 4
  {
  }

  /** More stars and more forks never lower the community score. */
  lemma CommunityMonotone(s1: int, f1: int, s2: int, f2: int, license: Option<string>, hasIssues: bool)
    requires s1 <= s2 && f1 <= f2
    ensures CommunitySpec(s1, f1, license, hasIssues).score <= CommunitySpec(s2, f2, license, hasIssues).score
  {
  }

  // ---------------------------------------------------------------------
  // Uniqueness (project_validator.py, _analyze_uniqueness)

  const InnovationKeywords: seq<string> := ["novel", "first", "new approach", "innovative", "unique",
    "revolutionary", "cutting-edge", "breakthrough", "never before"]
  const UniqueCombos: seq<string> := ["rust + webassembly", "ai + blockchain", "ml + edge computing",
    "quantum", "web3", "decentralized"]
  /** The alternatives that open the README's value-proposition pattern:
      the pattern matches somewhere exactly when one of them occurs, since
      what follows it may run to the end of the text. */
  const UspMarkers: seq<string> := ["why this", "unique", "different", "usp", "features"]
  const ProblemKeywords: seq<string> := ["solves", "addresses", "fixes", "improves", "better than"]

  const InnovationNote: string := Check + "Claims innovation/uniqueness"
  const LeaderNote: string := Star + "Outperforms similar projects (2x more stars)"
  const CompetitiveNote: string := Check + "Competitive with similar projects"
  const TrailingNote: string := Warn + "Similar projects exist with more traction"
  const PioneerNote: string := Check + "Few/no similar projects found (potentially unique)"
  const CuttingEdgeNote: string := Check + "Uses cutting-edge technology"
  const UspNote: string := Check + "Clearly defines unique value proposition"
  const NoUspNote: string := Warn + "USP not clearly articulated"

  const LeaderPoint: string := "Market leader in category"
  const PioneerPoint: string := "Pioneering in this space"
  const TechStackPoint: string := "Innovative tech stack"
  const ProblemFitPoint: string := "Clear problem-solution fit"

  /** What a repository whose description is `null` makes the scorer raise. */
  const NullDescriptionError: string := "'NoneType' object has no attribute 'lower'"

  function Sum(xs: seq<int>): int
  {
    if xs == [] then 0 else Sum(xs[..|xs| - 1]) + xs[|xs| - 1]
  }

  /** Where the repository stands against the similar repositories found:
      none found, over twice their average star count, over the average,
      or not. */
  datatype Standing = Pioneer | Leader | Competitive | Trailing

  /** The comparisons with the average, multiplied out by the number of
      similar repositories. */
  function StandingOf(stars: int, similar: seq<int>): Standing
  {
    if similar == [] then Pioneer
    else if stars * |similar| > 2 * Sum(similar) then Leader
    else if stars * |similar| > Sum(similar) then Competitive
    else Trailing
  }

  function StandingPoints(s: Standing): int
  {
    match s
    case Pioneer => 4
    case Leader => 4
    case Competitive => 2
    case Trailing => -2
  }

  function StandingNote(s: Standing): string
  {
    match s
    case Pioneer => PioneerNote
    case Leader => LeaderNote
    case Competitive => CompetitiveNote
    case Trailing => TrailingNote
  }

  /** What the uniqueness scorer finds: how many innovation keywords occur
      in the README or the description, the standing against similar
      repositories, a cutting-edge technology, a value proposition, and how
      many problem-solving keywords occur. */
  datatype UniquenessFindings = UniquenessFindings(
    innovation: nat, standing: Standing, cuttingEdge: bool, usp: bool, problems: nat)

  datatype UniquenessReport = UniquenessReport(
    score: int, feedback: seq<string>, uspPoints: seq<string>, similarCount: nat)

  /** Starting from 5 points: 1 for innovation claims (2 for three or
      more), the standing, 1 each for a cutting-edge technology, a value
      proposition and two problem-solving keywords. */
  function UniquenessPoints(f: UniquenessFindings): int
  {
    10 + (if f.innovation >= 3 then 4 else if f.innovation >= 1 then 2 else 0)
    + StandingPoints(f.standing)
    + (if f.cuttingEdge then 2 else 0) + (if f.usp then 2 else 0) + (if f.problems >= 2 then 2 else 0)
  }

  function UniquenessNotes(f: UniquenessFindings): seq<string>
  {
    NoteIf(f.innovation >= 3, InnovationNote) + [StandingNote(f.standing)]
    + NoteIf(f.cuttingEdge, CuttingEdgeNote) + [if f.usp then UspNote else NoUspNote]
  }

  function UspPoints(f: UniquenessFindings): seq<string>
  {
    (match f.standing
     case Leader => [LeaderPoint]
     case Pioneer => [PioneerPoint]
     case _ => [])
    + NoteIf(f.cuttingEdge, TechStackPoint) + NoteIf(f.problems >= 2, ProblemFitPoint)
  }

  function UniquenessFindingsOf(readme: string, description: string, stars: int, similar: seq<int>): UniquenessFindings
  {
    var lower := Lower(readme);
    UniquenessFindings(CountIn2(lower, Lower(description), InnovationKeywords), StandingOf(stars, similar),
      AnyIn(lower, UniqueCombos), AnyIn(lower, UspMarkers), CountIn(lower, ProblemKeywords))
  }

  function UniquenessReportOf(f: UniquenessFindings, similarCount: nat): UniquenessReport
  {
    UniquenessReport(Min(Max(UniquenessPoints(f), 0), Top), UniquenessNotes(f), UspPoints(f), similarCount)
  }

  /** The scorer as written: a repository whose description is `null`
      makes it raise, which fails the whole validation. */
  function UniquenessAsWritten(readme: string, description: Option<string>, stars: int, similar: seq<int>): (r: Result<UniquenessReport>)
    ensures r.Err? <==> description.None?
  {
    match description
    case None => Err(NullDescriptionError)
    case Some(d) => Ok(UniquenessReportOf(UniquenessFindingsOf(readme, d, stars, similar), |similar|))
  }

  /** The scorer with a `null` description read as an empty one. */
  function UniquenessSpec(readme: string, description: Option<string>, stars: int, similar: seq<int>): UniquenessReport
  {
    var d := if description.Some? then description.value else "";
    UniquenessReportOf(UniquenessFindingsOf(readme, d, stars, similar), |similar|)
  }

  method AnalyzeUniqueness(readme: string, description: Option<string>, stars: int, similar: seq<int>)
    returns (r: UniquenessReport)
    ensures r == UniquenessSpec(readme, description, stars, similar)
  {
    var d := if description.Some? then description.value else "";
    var lower := Lower(readme);
    var findings := UniquenessFindings(CountIn2(lower, Lower(d), InnovationKeywords), StandingOf(stars, similar),
      AnyIn(lower, UniqueCombos), AnyIn(lower, UspMarkers), CountIn(lower, ProblemKeywords));
    var score, feedback, uspPoints := ScoreUniqueness(findings);
    r := UniquenessReport(Min(Max(score, 0), Top), feedback, uspPoints, |similar|);
  }

  /** The rubric of the uniqueness scorer, one test after the other. */
  method ScoreUniqueness(f: UniquenessFindings) returns (score: int, feedback: seq<string>, uspPoints: seq<string>)
    ensures score == UniquenessPoints(f) && feedback == UniquenessNotes(f) && uspPoints == UspPoints(f)
  {
    score := 10;
    feedback := [];
    uspPoints := [];
    if f.innovation >= 3 {
      score := score + 4;
      feedback := [InnovationNote];
    } else if f.innovation >= 1 {
      score := score + 2;
    }
    assert feedback == NoteIf(f.innovation >= 3, InnovationNote);
    ghost var notes, points := feedback, score;
    if f.standing != Pioneer {
      if f.standing == Leader {
        score := score + 4;
        feedback := feedback + [LeaderNote];
        uspPoints := [LeaderPoint];
      } else if f.standing == Competitive {
        score := score + 2;
        feedback := feedback + [CompetitiveNote];
      } else {
        score := score - 2;
        feedback := feedback + [TrailingNote];
      }
    } else {
      score := score + 4;
      feedback := feedback + [PioneerNote];
      uspPoints := [PioneerPoint];
    }
    assert feedback == notes + [StandingNote(f.standing)];
    assert score == points + StandingPoints(f.standing);
    notes, points := feedback, score;
    ghost var usp := uspPoints;
    if f.cuttingEdge {
      score := score + 2;
      feedback := feedback + [CuttingEdgeNote];
      uspPoints := uspPoints + [TechStackPoint];
    }
    assert feedback == notes + NoteIf(f.cuttingEdge, CuttingEdgeNote);
    assert uspPoints == usp + NoteIf(f.cuttingEdge, TechStackPoint);
    assert score == points + (if f.cuttingEdge then 2 else 0);
    notes, points := feedback, score;
    if f.usp {
      score := score + 2;
      feedback := feedback + [UspNote];
    } else {
      feedback := feedback + [NoUspNote];
    }
    assert feedback == notes + [if f.usp then UspNote else NoUspNote];
    assert score == points + (if f.usp then 2 else 0);
    points, usp := score, uspPoints;
    if f.problems >= 2 {
      score := score + 2;
      uspPoints := uspPoints + [ProblemFitPoint];
    }
    assert uspPoints == usp + NoteIf(f.problems >= 2, ProblemFitPoint);
    assert score == points + (if f.problems >= 2 then 2 else 0);
  }

  /** The score never falls below 4 points, so the floor at 0 never
      bites; it reaches the cap of 10 points only by being cut to it. */
  lemma UniquenessScoreBounds(readme: string, description: Option<string>, stars: int, similar: seq<int>)
    ensures var f := UniquenessFindingsOf(readme, if description.Some? then description.value else "", stars, similar);
      8 <= UniquenessPoints(f) <= 24 &&
      UniquenessSpec(readme, description, stars, similar).score == Min(UniquenessPoints(f), Top)
    ensures 8 <= UniquenessSpec(readme, description, stars, similar).score <= Top
  {
    var f := UniquenessFindingsOf(readme, if description.Some? then description.value else "", stars, similar);
    UniquenessPointsRange(f);
  }

  lemma UniquenessPointsRange(f: UniquenessFindings)
    ensures 8 <= UniquenessPoints(f) <= 24
  {
  }

  /** The multiplied-out comparisons are the scorer's comparisons with the
      average star count of the similar repositories. */
  lemma StandingAgainstAverage(stars: int, similar: seq<int>)
    requires similar != []
    ensures var avg := Sum(similar) as real / |similar| as real;
      (StandingOf(stars, similar) == Leader <==> stars as real > avg * 2.0) &&
      (StandingOf(stars, similar) == Competitive <==> avg < stars as real <= avg * 2.0) &&
      (StandingOf(stars, similar) == Trailing <==> stars as real <= avg && stars as real <= avg * 2.0)
  {
    AverageCompare(stars, Sum(similar), |similar|);
  }

  /** `stars > avg * k` with `avg = total / count`, multiplied out. */
  lemma AverageCompare(stars: int, total: int, count: int)
    requires count > 0
    ensures stars as real > total as real / count as real * 2.0 <==> stars * count > 2 * total
    ensures stars as real > total as real / count as real <==> stars * count > total
  {
    var n := count as real;
    var avg := total as real / n;
    var x := stars as real;
    assert avg * n == total as real;
    assert x * n == (stars * count) as real;
    ScaleCompare(x, avg * 2.0, n);
    ScaleCompare(x, avg, n);
    assert avg * 2.0 * n == (2 * total) as real;
  }

  lemma ScaleCompare(x: real, y: real, n: real)
    requires n > 0.0
    ensures x > y <==> x * n > y * n
  {
    if x > y {
      assert x * n - y * n == (x - y) * n;
    } else {
      assert y * n - x * n == (y - x) * n;
    }
  }

  /** A `null` description fails the validation as written; any other
      description gives the same report as the corrected scorer, which
      reads `null` as the empty description. */
  lemma NullDescriptionFails(readme: string, description: Option<string>, stars: int, similar: seq<int>)
    ensures UniquenessAsWritten(readme, None, stars, similar) == Err(NullDescriptionError)
    ensures description.Some? ==>
      UniquenessAsWritten(readme, description, stars, similar) == Ok(UniquenessSpec(readme, description, stars, similar))
    ensures UniquenessSpec(readme, None, stars, similar) == UniquenessSpec(readme, Some(""), stars, similar)
  {
  }

  // ---------------------------------------------------------------------
  // Technical depth (project_validator.py, _analyze_technical_depth)

  datatype TechReport = TechReport(score: int, feedback: seq<string>)

  const ArchitectureKeywords: seq<string> := ["microservice", "distributed", "scalable", "architecture",
    "kubernetes", "docker", "api gateway", "load balanc"]
  const AdvancedTech: seq<string> := ["machine learning", "ai", "neural network", "blockchain",
    "webassembly", "graphql", "grpc", "websocket"]
  const DbIndicators: seq<string> := ["database", "postgresql", "mongodb", "redis", "sql", "orm"]
  const SecurityKeywords: seq<string> := ["authentication", "authorization", "encryption", "jwt", "oauth", "security"]
  const PerfKeywords: seq<string> := ["optimiz", "performance", "caching", "fast", "efficient"]

  const ArchitectureNote: string := Check + "Complex/scalable architecture"
  const AdvancedNote: string := Check + "Advanced technology implementation"
  const DataNote: string := Check + "Data persistence layer"
  const SecurityNote: string := Check + "Security considerations"
  const PerformanceNote: string := Check + "Performance-focused"

  /** What the technical-depth scorer finds: the number of languages, and
      keyword hits in the lower-cased README. */
  datatype TechFindings = TechFindings(
    languages: nat, architecture: nat, advanced: bool, database: bool, security: nat, performance: bool)

  /** 2 points for three languages (1 for two), 3 for three architecture
      keywords (1.5 for one or two), 2 for advanced technology, and 1 each
      for a database, two security keywords and performance. */
  function TechPoints(f: TechFindings): int
  {
    (if f.languages >= 3 then 4 else if f.languages == 2 then 2 else 0)
    + (if f.architecture >= 3 then 6 else if f.architecture >= 1 then 3 else 0)
    + (if f.advanced then 4 else 0) + (if f.database then 2 else 0)
    + (if f.security >= 2 then 2 else 0) + (if f.performance then 2 else 0)
  }

  function TechNotes(f: TechFindings): seq<string>
  {
    NoteIf(f.languages >= 3, Check + "Multi-language project (" + NatToString(f.languages) + " languages)")
    + NoteIf(f.architecture >= 3, ArchitectureNote) + NoteIf(f.advanced, AdvancedNote)
    + NoteIf(f.database, DataNote) + NoteIf(f.security >= 2, SecurityNote) + NoteIf(f.performance, PerformanceNote)
  }

  function TechFindingsOf(languages: map<string, int>, readme: string): TechFindings
  {
    var lower := Lower(readme);
    TechFindings(|languages|, CountIn(lower, ArchitectureKeywords), AnyIn(lower, AdvancedTech),
      AnyIn(lower, DbIndicators), CountIn(lower, SecurityKeywords), AnyIn(lower, PerfKeywords))
  }

  /** The technical-depth score from the language byte counts and the
      README. */
  function TechSpec(languages: map<string, int>, readme: string): TechReport
  {
    var f := TechFindingsOf(languages, readme);
    TechReport(Min(TechPoints(f), Top), TechNotes(f))
  }

  method AnalyzeTechnicalDepth(languages: map<string, int>, readme: string) returns (r: TechReport)
    ensures r == TechSpec(languages, readme)
  {
    var lower := Lower(readme);
    var findings := TechFindings(|languages|, CountIn(lower, ArchitectureKeywords), AnyIn(lower, AdvancedTech),
      AnyIn(lower, DbIndicators), CountIn(lower, SecurityKeywords), AnyIn(lower, PerfKeywords));
    var score, feedback := ScoreTechnicalDepth(findings);
    r := TechReport(Min(score, Top), feedback);
  }

  /** The rubric of the technical-depth scorer, one test after the other. */
  method ScoreTechnicalDepth(f: TechFindings) returns (score: int, feedback: seq<string>)
    ensures score == TechPoints(f) && feedback == TechNotes(f)
  {
    score := 0;
    feedback := [];
    if f.languages >= 3 {
      score := score + 4;
      feedback := [Check + "Multi-language project (" + NatToString(f.languages) + " languages)"];
    } else if f.languages == 2 {
      score := score + 2;
    }
    assert feedback == NoteIf(f.languages >= 3, Check + "Multi-language project (" + NatToString(f.languages) + " languages)");
    ghost var notes, points := feedback, score;
    if f.architecture >= 3 {
      score := score + 6;
      feedback := feedback + [ArchitectureNote];
    } else if f.architecture >= 1 {
      score := score + 3;
    }
    assert feedback == notes + NoteIf(f.architecture >= 3, ArchitectureNote);
    assert score == points + (if f.architecture >= 3 then 6 else if f.architecture >= 1 then 3 else 0);
    notes, points := feedback, score;
    if f.advanced {
      score := score + 4;
      feedback := feedback + [AdvancedNote];
    }
    assert feedback == notes + NoteIf(f.advanced, AdvancedNote);
    assert score == points + (if f.advanced then 4 else 0);
    notes, points := feedback, score;
    if f.database {
      score := score + 2;
      feedback := feedback + [DataNote];
    }
    assert feedback == notes + NoteIf(f.database, DataNote);
    assert score == points + (if f.database then 2 else 0);
    notes, points := feedback, score;
    if f.security >= 2 {
      score := score + 2;
      feedback := feedback + [SecurityNote];
    }
    assert feedback == notes + NoteIf(f.security >= 2, SecurityNote);
    assert score == points + (if f.security >= 2 then 2 else 0);
    notes, points := feedback, score;
    if f.performance {
      score := score + 2;
      feedback := feedback + [PerformanceNote];
    }
    assert feedback == notes + NoteIf(f.performance, PerformanceNote);
    assert score == points + (if f.performance then 2 else 0);
  }

  /** The parts add up to at most 10 points, so the cap never bites; the
      score is a whole number of points except when one or two
      architecture keywords are found. */
  lemma TechScoreBounds(languages: map<string, int>, readme: string)
    ensures 0 <= TechSpec(languages, readme).score <= Top
    ensures TechSpec(languages, readme).score % 2 == 1 <==>
      1 <= CountIn(Lower(readme), ArchitectureKeywords) <= 2
  {
    var f := TechFindingsOf(languages, readme);
    assert f.architecture == CountIn(Lower(readme), ArchitectureKeywords);
    TechPointsParity(f);
  }

  lemma TechPointsParity(f: TechFindings)
    ensures 0 <= TechPoints(f) <= Top
    ensures TechPoints(f) % 2 == 1 <==> 1 <= f.architecture <= 2
  {
  }
}
