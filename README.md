# Bob's deterministic core, in Dafny

Bob is a FastAPI assistant backend. A LangChain agent answers chat
messages and calls tools. The tools and the REST routes around the agent
hold a good deal of plain, sequential logic, and this project models that
logic and proves what it promises:

- **Transcripts** (`transcript.dfy`): the two WebVTT flatteners of the
  YouTube tool. One turns a subtitle file into paragraphs of at most 50
  words. The other turns it into `[start] text` entries, one per cue.
  The W3C WebVTT format (section 4.1: the `WEBVTT` header, `NOTE` blocks,
  cue timing lines with `-->`) is followed only as far as the code does.
- **Repository input** (`repo_input.dfy`): `owner/repo` or GitHub-URL
  parsing, which the validator and the README generator share word for
  word.
- **Project validator** (`validator.dfy`, `rating.dfy`):
  - the seven rubric scorers, scored in integer half-points (0..20 for
    0..10);
  - the weighted final score and its rounding to tenths;
  - the star tier and the ten-cell bar of the report;
  - the capped list of recommendations.
- **README generator** (`readme_gen.dfy`): project-type detection over a
  repository listing, and the README assembled section by section.
- **Weather advice** (`weather.dfy`): the suggestion sentence built from
  the temperature and the sky condition.
- **Tables behind the assistant** (`contacts.dfy`, `tasks.dfy`,
  `agent.dfy`, `email.dfy`):
  - the contact book, with case-insensitive unique aliases;
  - the task routes, with partial update;
  - the agent's own task tools and its reply to a chat message;
  - the e-mail log, whose rows go from pending to sent or failed.

  Each table is a map owned by a class, and the operations are methods
  that read or replace it.

Shared pieces:

- `common.dfy`: `Option`, `Result`, `Min`, `Max`, and `Cap`, the row
  count a SQL `LIMIT` lets through.
- `text.dfy`: the Python string operations the code relies on (`lower`,
  `split`, `strip`, `join`, `rstrip`, `replace`, `in`, `str(n)`), with
  their round-trip lemmas.
- `ranking.dfy`: selection of the first rows in an order, standing for
  `ORDER BY … LIMIT`.

Whatever the code learns from the network, the clock or the SMTP server
enters the model as a parameter: repository data and listings, the days
since the last commit, `now`, and how the SMTP exchange ended.

Where the code works step by step, the model is a method with the same
loop or the same sequence of updates. Each such method is proved equal to
a specification function, and the properties are lemmas about that
function.

## Model

| member | source | states |
|---|---|---|
| Common.Cap | backend/app/routes/tasks.py:37 | `LIMIT` never lets through more rows than there are; a negative limit sets no bound (SQLite) |
| Text.Lower | backend/app/services/weather_services.py:81 | `lower()` keeps the length and lower-cases each character on its own |
| Text.LowerIdempotent | backend/app/agents/tools/contact_service.py:27-41 | lower-casing twice is lower-casing once, so a stored alias looks itself up |
| Text.SplitWords | backend/app/agents/tools/youtube_transcript.py:94 | `split()` yields only non-empty whitespace-free words |
| Text.JoinWordsRoundTrip | backend/app/agents/tools/youtube_transcript.py:87 | `' '.join(ws).split() == ws` for words `ws` |
| Text.SplitWordsJoin | backend/app/agents/tools/youtube_transcript.py:101-104 | splitting a join on whitespace gives back the parts' words |
| Text.SplitWordsStrip | backend/app/agents/tools/youtube_transcript.py:92-94 | `strip()` never changes the words of a text |
| Text.StripEmptyIffNoWords | backend/app/agents/tools/youtube_transcript.py:171 | a text strips to nothing exactly when it has no words |
| Text.StripShape | backend/app/agents/tools/youtube_transcript.py:78 | `strip()` leaves no whitespace at either end |
| Text.SplitOnJoin | backend/app/agents/tools/youtube_transcript.py:73 | `c.join(s.split(c)) == s` |
| Text.StripRightChar | backend/app/agents/tools/project_validator.py:78 | `rstrip('/')` removes exactly the trailing run of `/` |
| Ranking.TopByRank | backend/app/routes/tasks.py:37 | `ORDER BY … DESC LIMIT`: `min(limit, rows)` distinct rows, descending, and no row left out ranks above a listed one |
| Ranking.TakeSorted | backend/app/agents/tools/contact_service.py:98 | `ORDER BY key LIMIT n`: `n` keys in strictly ascending order, each below every key left out |
| Ranking.PickMax | backend/app/routes/tasks.py:37 | a row of greatest rank among the candidates |
| Transcript.ParseVttContent | backend/app/agents/tools/youtube_transcript.py:71-104 | the output's words are exactly the kept caption words, in order; no kept text gives `""`; the output is those words in 50-word paragraphs joined by blank lines |
| Transcript.CaptionText | backend/app/agents/tools/youtube_transcript.py:77-92 | the first loop's text has exactly the words of the kept, cleaned lines |
| Transcript.CleanCaptionLine | backend/app/agents/tools/youtube_transcript.py:78-87 | a `WEBVTT`, `NOTE`, `-->`, blank or bare `HH:MM:SS.mmm` line gives nothing; any other line loses its tags and has its whitespace collapsed to single spaces |
| Transcript.StripTags | backend/app/agents/tools/youtube_transcript.py:86 | `re.sub(r'<[^>]+>', '', s)` leaves no tag, is no longer than `s` and adds no character |
| Transcript.ChunkParagraphs | backend/app/agents/tools/youtube_transcript.py:94-102 | the second loop closes a paragraph at 50 words or at the last word |
| Transcript.ParagraphsShape | backend/app/agents/tools/youtube_transcript.py:98-104 | paragraphs are non-empty with at most 50 words, all but the last have exactly 50, and together they are the words in order |
| Transcript.RenderedWords | backend/app/agents/tools/youtube_transcript.py:89-104 | splitting the rendered transcript gives back exactly its words; no words give `""` |
| Transcript.SkippedLinesContributeNothing | backend/app/agents/tools/youtube_transcript.py:80-84 | a dropped line adds no words, whatever it carries |
| Transcript.AppendCaption | backend/app/agents/tools/youtube_transcript.py:89-90 | `current_text += clean_line + " "` appends exactly the line's words, and an empty line adds none |
| Transcript.FlushParagraph | backend/app/agents/tools/youtube_transcript.py:100-102 | closing a paragraph extends the paragraph list by exactly that chunk |
| Transcript.ParseVttWithTimestamps | backend/app/agents/tools/youtube_transcript.py:149-176 | the entries of the cues, in file order, joined by blank lines |
| Transcript.CueEntries | backend/app/agents/tools/youtube_transcript.py:155-174 | the outer loop emits one `[start] text` entry per cue with non-blank text, and passes over other lines |
| Transcript.CueBody | backend/app/agents/tools/youtube_transcript.py:164-169 | the inner loop stops at the first blank line, `-->` line or end of file, and gathers the tag-stripped text of the lines before it |
| Transcript.CueStep | backend/app/agents/tools/youtube_transcript.py:165-169 | one caption line consumed extends the cue text by that line's piece, and the cue still ends at the same place |
| Transcript.CueEnd | backend/app/agents/tools/youtube_transcript.py:165 | the index where a cue body ends is never before where it starts, so `i` only grows |
| Transcript.PrefixBefore | backend/app/agents/tools/youtube_transcript.py:160 | `line.split(' --> ')[0]` is a prefix of the line |
| Transcript.CuesBound | backend/app/agents/tools/youtube_transcript.py:159-172 | there are never more entries than lines containing `-->` |
| Transcript.CueTextsTrimmed | backend/app/agents/tools/youtube_transcript.py:171-172 | every entry's text is non-empty and has no surrounding whitespace |
| Transcript.TimingLinesMonotone | backend/app/agents/tools/youtube_transcript.py:156 | fewer lines left means no more `-->` lines left |
| Transcript.ExtractVideoId | backend/app/agents/tools/youtube_transcript.py:8-15 | a youtube.com URL gives an id exactly when the query has `v`, and then its first value; a youtu.be URL gives `StripSlashes` of the path; any other host gives none |
| Transcript.LeadingRun | backend/app/agents/tools/youtube_transcript.py:14 | the run of `/` that `strip("/")` removes at the front: all `/`, and followed by no `/` |
| Transcript.StripSlashes | backend/app/agents/tools/youtube_transcript.py:14 | `strip("/")` is the slice of the path after its leading run of `/`, with only `/` after the slice, and the result neither starts nor ends with `/` |
| RepoInput.NonSlashPrefix | backend/app/agents/tools/project_validator.py:81 | what `[^/]+` matches at the start of a text: the whole leading run of non-slash characters |
| RepoInput.MatchAt | backend/app/agents/tools/project_validator.py:81 | a match found at the start of a text is a real match of `github\.com/([^/]+)/([^/]+)` |
| RepoInput.RemoveSuffix | backend/app/agents/tools/project_validator.py:78 | the corrected cleaning removes one trailing `.git` and nothing else |
| RepoInput.ParseCleanedFailsIff | backend/app/agents/tools/project_validator.py:85-89 | the parse fails exactly when the cleaned input has no `/`, and then with the format message |
| RepoInput.ParseCleanedGithub | backend/app/agents/tools/project_validator.py:80-83 | a GitHub URL yields the two segments of the leftmost match of the pattern |
| RepoInput.ParseCleanedFallback | backend/app/agents/tools/project_validator.py:85-87 | otherwise an input with `/` yields its last two `/`-separated segments |
| RepoInput.RoundTripOwnerSlashName | backend/app/agents/tools/project_validator.py:76-89 | `owner/repo`, `owner/repo.git` and `owner/repo/` all parse back to (owner, repo) |
| RepoInput.RoundTripGithubUrl | backend/app/agents/tools/readme_generator.py:54-70 | `https://github.com/owner/repo`, with or without `.git` or a trailing `/`, parses back to (owner, repo) |
| RepoInput.AsWrittenAgrees | backend/app/agents/tools/project_validator.py:78 | where no `.git` occurs, the code as written and the corrected cleaning parse alike |
| RepoInput.AsWrittenMangles | backend/app/agents/tools/project_validator.py:78 | a name with `.git` inside it loses that `.git` as written; the corrected parse keeps the name |
| RepoInput.CleanAsWrittenMidGit | backend/app/agents/tools/readme_generator.py:57 | `.replace('.git', '')` cuts a `.git` out of the middle of a name |
| Validator.CountIn | backend/app/agents/tools/project_validator.py:552 | a keyword count is at most the number of keywords |
| Validator.CountIn2 | backend/app/agents/tools/project_validator.py:467-478 | the innovation count, over README and description, is at most the number of keywords |
| Validator.AnyInIff | backend/app/agents/tools/project_validator.py:565 | `any(k in s for k in ks)` holds exactly when some keyword occurs |
| Validator.CountInPositive | backend/app/agents/tools/project_validator.py:553-557 | a count is at least 1 exactly when some keyword occurs |
| Validator.SectionsFound | backend/app/agents/tools/project_validator.py:175-190 | no more sections are found than are looked for |
| Validator.AnalyzeReadme | backend/app/agents/tools/project_validator.py:164-228 | the README scorer computes the README specification, test by test |
| Validator.ReadmeScoreBounds | backend/app/agents/tools/project_validator.py:224 | the README score lies in [0, 9] points |
| Validator.ReadmeEmpty | backend/app/agents/tools/project_validator.py:169-170 | an empty README scores 0 with the single "No README found" line |
| Validator.ReadmeSections | backend/app/agents/tools/project_validator.py:175-190 | `sections_found` lists, in declaration order and without repeats, exactly the sections some pattern of which occurs, at one point each |
| Validator.SectionsFoundWithin | backend/app/agents/tools/project_validator.py:175-190 | only sections looked for are found |
| Validator.SectionsFoundMembers | backend/app/agents/tools/project_validator.py:184-188 | a section is listed exactly when one of its patterns occurs, and at most once |
| Validator.SectionNamesDistinct | backend/app/agents/tools/project_validator.py:175-182 | the six section names are distinct |
| Validator.ReadmeCodeExamplesNote | backend/app/agents/tools/project_validator.py:205-209 | the code-example line appears exactly when the README holds a fenced block |
| Validator.StructureNoteDiffers | backend/app/agents/tools/project_validator.py:192-195 | the two structure notes cannot be confused |
| Validator.NamesOfMembers | backend/app/agents/tools/project_validator.py:236-237 | the file (folder) names are exactly the names of the listing's file (folder) entries |
| Validator.AnalyzeCodeQuality | backend/app/agents/tools/project_validator.py:230-298 | the code scorer computes the code specification from what it finds in the listing |
| Validator.ScoreCode | backend/app/agents/tools/project_validator.py:239-294 | the code rubric, test by test, gives the specified points and lines |
| Validator.SomeLowerHitsIff | backend/app/agents/tools/project_validator.py:263-264 | a name list is hit exactly when some lower-cased name holds a pattern |
| Validator.CodeScoreBounds | backend/app/agents/tools/project_validator.py:263-294 | the code score is in [0, 10], and `has_tests` holds exactly when some folder's name mentions tests |
| Validator.AnalyzeDocumentation | backend/app/agents/tools/project_validator.py:300-348 | the documentation scorer computes its specification |
| Validator.ScoreDocumentation | backend/app/agents/tools/project_validator.py:309-346 | the documentation rubric gives the specified points and lines |
| Validator.DocScoreBounds | backend/app/agents/tools/project_validator.py:346 | the documentation score is in [0, 10] |
| Validator.AnalyzeActivity | backend/app/agents/tools/project_validator.py:350-403 | the activity scorer computes its specification from the commit count, the days since the last commit and the open issues |
| Validator.ActivityScoreBounds | backend/app/agents/tools/project_validator.py:356-401 | the activity score is the sum of its recency, frequency and issue parts, in [0, 10] |
| Validator.ActivityMonotone | backend/app/agents/tools/project_validator.py:356-398 | more commits, a more recent commit and fewer open issues never lower the score |
| Validator.AnalyzeCommunity | backend/app/agents/tools/project_validator.py:405-455 | the community scorer computes its specification |
| Validator.CommunityScoreBounds | backend/app/agents/tools/project_validator.py:415-453 | the community score is in [0, 10], and a licence is worth exactly 2 points |
| Validator.CommunityMonotone | backend/app/agents/tools/project_validator.py:415-437 | more stars and more forks never lower the score |
| Validator.UniquenessAsWritten | backend/app/agents/tools/project_validator.py:463 | as written, the scorer fails exactly when the description is `null` |
| Validator.AnalyzeUniqueness | backend/app/agents/tools/project_validator.py:457-532 | the corrected uniqueness scorer computes its specification, reading a `null` description as empty |
| Validator.ScoreUniqueness | backend/app/agents/tools/project_validator.py:459-525 | the uniqueness rubric, from 5 points, gives the specified points, lines and USP lines |
| Validator.UniquenessScoreBounds | backend/app/agents/tools/project_validator.py:528 | the clamp's floor never bites (at least 4 points), and the score is in [4, 10] |
| Validator.UniquenessPointsRange | backend/app/agents/tools/project_validator.py:459-525 | before the clamp the points lie in [4, 12] |
| Validator.StandingAgainstAverage | backend/app/agents/tools/project_validator.py:481-498 | the integer comparisons `stars*n > 2*sum` and `stars*n > sum` are the code's comparisons with twice the average and with the average |
| Validator.AverageCompare | backend/app/agents/tools/project_validator.py:486-492 | `stars > avg*2` and `stars > avg`, with `avg = total/count`, multiplied out |
| Validator.NullDescriptionFails | backend/app/agents/tools/project_validator.py:463 | a `null` description fails as written; any other description scores as the corrected scorer does |
| Validator.AnalyzeTechnicalDepth | backend/app/agents/tools/project_validator.py:534-590 | the technical-depth scorer computes its specification |
| Validator.ScoreTechnicalDepth | backend/app/agents/tools/project_validator.py:540-584 | the technical rubric gives the specified points and lines |
| Validator.TechScoreBounds | backend/app/agents/tools/project_validator.py:588 | the technical score is in [0, 10], and is a whole number of points unless one or two architecture keywords occur |
| Validator.TechPointsParity | backend/app/agents/tools/project_validator.py:552-557 | only the 1.5-point architecture step makes half a point |
| Rating.CalculateFinalScore | backend/app/agents/tools/project_validator.py:592-612 | the loop over the seven weighted scores, rounded to tenths: within half a tenth of the exact weighted mean |
| Rating.RoundTenthsNearest | backend/app/agents/tools/project_validator.py:612 | `round(x, 1)` is within half a tenth of `x`, and an exact half goes to the even neighbour |
| Rating.RoundTenthsMonotone | backend/app/agents/tools/project_validator.py:612 | rounding never reverses the order of two scores |
| Rating.TotalExpanded | backend/app/agents/tools/project_validator.py:23-31 | the weights are 2, 1.5, 1.5, 1, 1, 2.5 and 1.5 |
| Rating.FinalScoreInRange | backend/app/agents/tools/project_validator.py:592-612 | scores in [0, 10] give a final score in [0, 10], before and after rounding |
| Rating.FinalScoreUniform | backend/app/agents/tools/project_validator.py:592-612 | equal scores give exactly that score |
| Rating.FinalScoreMonotone | backend/app/agents/tools/project_validator.py:607-612 | raising any category's score never lowers the final score |
| Rating.WeightedSumMonotone | backend/app/agents/tools/project_validator.py:607-610 | the weighted sum is monotone in each score |
| Rating.Stars | backend/app/agents/tools/project_validator.py:635-644 | a tier shows one to five stars |
| Rating.TierMonotone | backend/app/agents/tools/project_validator.py:635-644 | the stars step up exactly at 4.0, 5.5, 7.0 and 8.5, so a higher score never gets fewer |
| Rating.StarRun | backend/app/agents/tools/project_validator.py:636 | a run of `n` star characters |
| Rating.RepeatShape | backend/app/agents/tools/project_validator.py:663 | `c * n` has `max(n, 0)` copies of `c` |
| Rating.BarShape | backend/app/agents/tools/project_validator.py:661-664 | for a score in [0, 10] the bar has 10 cells, the first `int(score)` filled |
| Rating.Missing | backend/app/agents/tools/project_validator.py:710 | the missing sections are among the wanted ones |
| Rating.MissingMembers | backend/app/agents/tools/project_validator.py:710 | the missing sections are exactly `wanted - found` |
| Rating.GenerateRecommendations | backend/app/agents/tools/project_validator.py:704-748 | the method appends the advice each check calls for and keeps the first six |
| Rating.Recommendations | backend/app/agents/tools/project_validator.py:748 | the result is the first `min(6, n)` candidates |
| Rating.Render | backend/app/agents/tools/project_validator.py:712-746 | one advice line per recommendation, in order |
| Rating.CandidatesInSteps | backend/app/agents/tools/project_validator.py:708-746 | the eight checks, one after the other, build the candidate list |
| Rating.CandidatesWarranted | backend/app/agents/tools/project_validator.py:708-746 | each check proposes only advice its category's score warrants |
| Rating.RecommendationsSound | backend/app/agents/tools/project_validator.py:704-748 | every recommendation shown is warranted by a score under its threshold, or by a final score under 7 |
| Rating.RecommendationsEarlyKept | backend/app/agents/tools/project_validator.py:708-729 | the README, code, documentation and activity advice never falls to the cut of six |
| Rating.PrefixKept | backend/app/agents/tools/project_validator.py:748 | what comes before the cut of six is kept |
| Rating.NothingToRecommend | backend/app/agents/tools/project_validator.py:704-748 | a project meeting every threshold gets no recommendations |
| ReadmeGen.ReadSignals | backend/app/agents/tools/readme_generator.py:102-103 | the file and folder tests read off the listing |
| ReadmeGen.AnalyzeProject | backend/app/agents/tools/readme_generator.py:100-164 | `_analyze_project` computes the project specification of the listing and the languages |
| ReadmeGen.Detect | backend/app/agents/tools/readme_generator.py:116-162 | the detection blocks, in order, give the specified project info |
| ReadmeGen.DetectNode | backend/app/agents/tools/readme_generator.py:117-128 | the `package.json` block: Node type, Next.js or React frontend, and their badges |
| ReadmeGen.DetectPython | backend/app/agents/tools/readme_generator.py:130-141 | the Python block: Python or Full-Stack, the manifest recorded, and FastAPI |
| ReadmeGen.AddLanguageBadges | backend/app/agents/tools/readme_generator.py:159-162 | the language loop gives the specified badge list |
| ReadmeGen.TypePrecedence | backend/app/agents/tools/readme_generator.py:117-134 | a Python manifest beside `package.json` makes Full-Stack (even over Next.js), alone it makes Python, and `next.config.*` makes Next.js |
| ReadmeGen.DependencyPreference | backend/app/agents/tools/readme_generator.py:117-135 | `package.json` is recorded for a Node project, and `requirements.txt` is preferred over `pyproject.toml` |
| ReadmeGen.DetectedBadgesDistinct | backend/app/agents/tools/readme_generator.py:117-146 | the detection rules add each badge at most once |
| ReadmeGen.LanguageBadgesDistinct | backend/app/agents/tools/readme_generator.py:159-162 | the language loop keeps the badge list free of duplicates |
| ReadmeGen.LanguageBadgesContents | backend/app/agents/tools/readme_generator.py:159-162 | after the loop the list holds the earlier badges and the badge of every listed language that has one, and nothing else |
| ReadmeGen.BadgesDistinct | backend/app/agents/tools/readme_generator.py:159-162 | `badges` never has a duplicate |
| ReadmeGen.HasTestsIff | backend/app/agents/tools/readme_generator.py:149-150 | `has_tests` holds exactly when some lower-cased folder name contains `test`, `tests`, `__tests__` or `spec` |
| ReadmeGen.DatabasePrecedence | backend/app/agents/tools/readme_generator.py:153-156 | Prisma exactly for a `prisma` folder or `prisma.schema` file; otherwise "Database (detected)" exactly for a `db`/`database` folder |
| ReadmeGen.BadgeMarkdowns | backend/app/agents/tools/readme_generator.py:191-192 | one markdown line per badge, in order |
| ReadmeGen.BuildReadme | backend/app/agents/tools/readme_generator.py:166-385 | `_build_readme` appends the template's sections in order, each conditional one only when called for |
| ReadmeGen.ReadmeTitle | backend/app/agents/tools/readme_generator.py:175 | the README starts with `"# " + repo` |
| ReadmeGen.ConditionalSections | backend/app/agents/tools/readme_generator.py:281-337 | the Docker section is there exactly with Docker, the Testing section exactly with tests |
| ReadmeGen.LicenseSection | backend/app/agents/tools/readme_generator.py:363-365 | the one license section names the license read at lines 172-173, or "None" when there is none |
| ReadmeGen.GenerateReadme | backend/app/agents/tools/readme_generator.py:29-52 | a parse or fetch error gives `"Error generating README: "` and its text; otherwise the README of the repository named by the corrected parse, which drops only a trailing `.git` |
| Weather.GenerateSuggestion | backend/app/services/weather_services.py:79-106 | the method builds the temperature sentence and at most one sky sentence, joined by a space |
| Weather.Rank | backend/app/services/weather_services.py:86-95 | the ladder has five rungs |
| Weather.BandThresholds | backend/app/services/weather_services.py:86-95 | each rung holds exactly the temperatures between its strict thresholds 30, 20, 10 and 0 |
| Weather.BandMonotone | backend/app/services/weather_services.py:86-95 | a warmer reading never lands on a colder rung |
| Weather.SkyPrecedence | backend/app/services/weather_services.py:97-104 | rain before snow before cloud before clear/sun, and no sentence when none occurs |
| Weather.SkyIgnoresCase | backend/app/services/weather_services.py:81 | matching ignores the letter case of the condition |
| Weather.SuggestionShape | backend/app/services/weather_services.py:106 | the result is the temperature sentence, optionally followed by one space and the sky sentence |
| Contacts.ContactBook.constructor | backend/app/agents/tools/contact_service.py:7-41 | an empty book |
| Contacts.ContactBook.AddContact | backend/app/agents/tools/contact_service.py:7-63 | an alias taken in any letter case is refused with the table unchanged; otherwise the contact is stored under the lower-cased alias |
| Contacts.ContactBook.GetContact | backend/app/agents/tools/contact_service.py:65-91 | the contact stored under the lower-cased alias, or none exactly when there is none |
| Contacts.ContactBook.ListContacts | backend/app/agents/tools/contact_service.py:93-108 | `min(limit, |table|)` contacts, strictly ascending by alias, each before every contact left out |
| Contacts.ContactBook.UpdateContact | backend/app/agents/tools/contact_service.py:110-156 | a missing alias changes nothing; otherwise only truthy arguments overwrite their fields, and the alias stays |
| Contacts.ContactBook.DeleteContact | backend/app/agents/tools/contact_service.py:158-186 | removes exactly that alias, or reports it missing and changes nothing |
| Contacts.AliasOrder | backend/app/agents/tools/contact_service.py:98 | alias order is a strict total order |
| Contacts.ListingOf | backend/app/agents/tools/contact_service.py:98-105 | the contacts under a sorted selection of aliases form the listing |
| Contacts.AddThenGet | backend/app/agents/tools/contact_service.py:36-88 | after an add, the alias in any letter case finds the new contact and its e-mail |
| Contacts.DeleteThenGet | backend/app/agents/tools/contact_service.py:163-176 | after a delete the alias finds nothing in any case, and every other alias finds what it found before |
| Contacts.UpdateKeepsAlias | backend/app/agents/tools/contact_service.py:130-135 | an update with nothing truthy changes nothing, and no update renames a contact |
| Tasks.NextId | backend/app/routes/tasks.py:23-25 | the next id is new, above every id in use, and one past the largest |
| Tasks.TaskTable.constructor | backend/app/services/database.py:36-47 | an empty table |
| Tasks.TaskTable.Insert | backend/app/routes/tasks.py:23-25 | one new row under a fresh id, with both timestamps `now` |
| Tasks.TaskTable.CreateTask | backend/app/routes/tasks.py:11-27 | a new pending task with the requested fields and priority, and tags defaulting to `[]` |
| Tasks.TaskTable.GetTasks | backend/app/routes/tasks.py:29-38 | at most `limit` tasks, all of the status when one is given, distinct, newest first, none left out newer than one listed |
| Tasks.TaskTable.GetTask | backend/app/routes/tasks.py:40-51 | the task with that id, or the 404 detail exactly when there is none |
| Tasks.TaskTable.UpdateTask | backend/app/routes/tasks.py:53-78 | for a request whose title, when given, has 1 to 200 characters (the `TaskUpdate` schema, schemas.py:29): an unknown id changes nothing (404); otherwise exactly the fields set in the request change, and `updated_at` becomes `now` |
| Tasks.TaskTable.DeleteTask | backend/app/routes/tasks.py:80-92 | removes exactly that task, or changes nothing (404) |
| Tasks.NewestFirstOf | backend/app/routes/tasks.py:32-37 | the rows under a newest-first selection of the filtered ids answer `GET /` |
| Tasks.SetFieldsAppend | backend/app/routes/tasks.py:66-71 | setting fields in two batches is setting them in one |
| Tasks.UpdateDataApplies | backend/app/routes/tasks.py:64-71 | setting the request's fields one by one gives the partial update: set fields change, others do not |
| Tasks.SetFieldsOne | backend/app/routes/tasks.py:67-71 | one `setattr` step |
| Tasks.FilterByStatus | backend/app/routes/tasks.py:34-35 | filtering on a status value selects exactly the tasks of that status |
| Agent.RegisteredNamesDistinct | backend/app/agents/ai_agent.py:29-55 | the five tool names are pairwise distinct and every tool is registered |
| Agent.ConversationOr | backend/app/agents/ai_agent.py:113 | `conversation_id or "new"` |
| Agent.ProcessMessage | backend/app/agents/ai_agent.py:105-124 | always a result; success exactly when the run answered; a failure carries the exception text; the conversation id defaults to "new" |
| Agent.TitleOf | backend/app/agents/ai_agent.py:147 | the title is the first `min(100, n)` characters of the text |
| Agent.CreateTaskTool | backend/app/agents/ai_agent.py:142-158 | one new pending, medium-priority, untagged task, titled by the first 100 characters and described by the whole text |
| Agent.ListTasksTool | backend/app/agents/ai_agent.py:160-176 | at most 10 distinct stored pending tasks, numbered from 1 after the header, or the fixed text when there are none |
| Agent.PendingRows | backend/app/agents/ai_agent.py:164 | `status == "pending" LIMIT 10`: `min(10, pending)` distinct stored pending rows |
| Agent.FormatListing | backend/app/agents/ai_agent.py:167-174 | the fixed text for no rows, else the header and one numbered line per row |
| Agent.NumberedFromOne | backend/app/agents/ai_agent.py:171-172 | the first line of a listing is task number 1 |
| Agent.ListReplyIff | backend/app/agents/ai_agent.py:167-172 | the "no pending tasks" text is given exactly when nothing is pending, and never looks like a listing |
| Agent.IdOrder | backend/app/agents/ai_agent.py:164 | the order rows are listed in is a strict total order |
| Agent.CompleteTaskTool | backend/app/agents/ai_agent.py:178-197 | if no pending title contains the identifier (ignoring case) nothing changes and the "No pending task" reply is given; otherwise one such task becomes completed with `updated_at = now`, and the reply names its title (the intended reply; see Findings) |
| Agent.CompleteTaskAsWritten | backend/app/agents/ai_agent.py:187-197 | as written: the same table change, but a completion is answered with `Error completing task: ` and the exception raised by reading the expired title of the closed session's task |
| Agent.CompletionReportedAsError | backend/app/agents/ai_agent.py:192 | that error reply differs from every `Task completed: '…'` reply |
| Agent.CompleteTouchesOne | backend/app/agents/ai_agent.py:187-190 | completing a task changes no other task and keeps the completed one's title, description, priority, tags and creation time |
| Email.EmailService.constructor | backend/app/agents/tools/email_service.py:49-58 | an empty log table |
| Email.EmailService.Record | backend/app/agents/tools/email_service.py:49-58 | one new pending row recording recipient, alias, subject and body |
| Email.EmailService.MarkSent | backend/app/agents/tools/email_service.py:76-78 | a pending row becomes sent with its sending time |
| Email.EmailService.MarkFailed | backend/app/agents/tools/email_service.py:86-111 | a pending row becomes failed with its error |
| Email.EmailService.SendEmail | backend/app/agents/tools/email_service.py:26-118 | exactly one new row; it ends sent or failed, never pending, and the call succeeds exactly when it is sent, with the row's id |
| Email.EmailService.GetEmailLogs | backend/app/agents/tools/email_service.py:120-138 | at most `limit` distinct rows, newest `created_at` first, none left out newer than one listed |
| Email.NewestLogsOf | backend/app/agents/tools/email_service.py:124-136 | the rows under a newest-first selection, as shown, answer `get_email_logs` |
| Email.SettledState | backend/app/agents/tools/email_service.py:76-115 | sent exactly on delivery, then with a sending time and no error; failed otherwise, with the auth, SMTP or other error text and no sending time |

## Left out

- Network fetches (`_fetch_*`, `_search_similar_projects`, `get_weather`), the LangChain agent and its language model, yt-dlp downloads, temporary directories and file reads, and the SMTP session. What they return enters the model as a parameter: repository data, listing, languages, commit count, similar repositories' star counts, an agent run's outcome, the subtitle text, or an `SmtpOutcome`.
- `datetime.now()` and `datetime.utcnow()`: the activity scorer takes the days since the last commit, and the tables take `now`. The report's timestamp line is not modelled.
- The text of `_generate_report` beyond the star tier, the bars and the recommendations (headers, feedback lines, similar projects): it only concatenates values the model computes.
- `_get_weather_sync` and `_get_current_time` of the agent: they format the weather service's reply and the clock. The tool descriptions and the agent prompt are prose for the model.
- `github_services.py`, `stack_overflow_search.py` and `discord_sharing.py`, which wrap foreign APIs. `main.py`, `routes/chat.py`, `routes/weather.py` and `__init__.py` are routing and start-up.
- SQLAlchemy sessions, commits and rollbacks, and the `"Error …: str(e)"` replies of the agent's tools that follow a database exception. Each table is an in-memory map that never fails. The one error reply that follows every successful completion is modelled (`Agent.CompleteTaskAsWritten`, see Findings).
- Pydantic validation beyond the title length of 1 to 200 (a precondition of `CreateTask` and `UpdateTask`; the 422 answer to a request that breaks it is not modelled), and FastAPI's conversion of the 404 into an HTTP response (the model returns the detail text).
- `async`/`await`: the model is sequential.
- `Contact` and `EmailLog` are imported from `backend/app/services/database.py`, which as shown does not declare them: the model assumes the columns these services use, and that `created_at` is the insertion time.
- `LIKE` wildcards: `%` and `_` inside an identifier are matched as plain characters.
- `Text.Lower`: lower-cases ASCII letters only; Python's `str.lower` is Unicode-wide.
- Python's set iteration order in the "missing README sections" advice is modelled as declaration order.
- `Validator.AnalyzeCodeQuality`: the lint test (project_validator.py:286-291) looks for each pattern in the file names only. In the source, `files` maps each name to its whole contents item, so `str(files)` also holds each item's `path`, `sha`, `url`, `html_url`, `git_url`, `download_url` and `_links`, which name the owner, the repository and the branch. A pattern that occurs only there (a repository called `style.eslintrc`, say) earns the lint point in the source and not in the model.
- `Validator.AnalyzeDocumentation`: the API-docs test on `str(files)` is modelled as "a substring of some file name". There `files` is a list of names, so the two differ only for a pattern that spans the list's quotes, commas and spaces.
- `ReadmeGen.GenerateReadme`: builds the README from the corrected parse (`RepoInput.ParseRepoInput`), which removes only a trailing `.git`. The code as written removes `.git` anywhere (see Findings), so for such inputs the repository it names differs.
- `Transcript.CleanCaptionLine`: the bare-timestamp test accepts ASCII digits only. The pattern `\d` at youtube_transcript.py:83 accepts any Unicode decimal digit, so a line such as `٠٠:٠٠:٠٠.٠٠٠` is dropped by the source but kept as caption text by the model.
- `Rating.CalculateFinalScore`: rounds the exact weighted mean, not its double. The mean is `N/44` for an integer `N`. Either it is exactly halfway between two tenths, and then it is an odd multiple of 1/4, which a double holds exactly; or it is at least 1/220 away from any halfway point, far more than the double's error. So both round alike.
- `Tasks.TaskTable.UpdateTask`: an explicit `null` for a field (`title`, `status`, `priority`, `tags`) is not modelled; a field is either left unset or given a value.
- `Tasks.TaskTable.GetTasks`: rows with equal `created_at` may come in any order. The contract orders only by `created_at`, as the query does.
- `Agent.ListTasksTool`: `_list_tasks` has no `ORDER BY`, so the contract promises no order among the pending tasks. The model lists them by ascending id.
- `Agent.CompleteTaskTool`: `.first()` without `ORDER BY` may pick any matching task, so the contract promises only that it picks some pending match.
- `Email.EmailService.GetEmailLogs`: `sent_at` is shown as the stored time, not its `isoformat()` text.
- `Transcript.ExtractVideoId`: `urlparse` and `parse_qs` are not modelled. The function takes the URL already split into host, path and parsed query.
- Scores are integer half-points, which is exact: every increment of the rubric is a multiple of 0.5.

## Findings

| source | as written | input that shows it | evidently intended | confidence | as-written member | corrected member |
|---|---|---|---|---|---|---|
| backend/app/agents/tools/project_validator.py:78 | `.replace('.git', '')` removes `.git` anywhere in the input | `octo/octo.github.io` parses to (`octo`, `octohub.io`) | strip only a trailing `.git` | not executed | RepoInput.AsWrittenMangles | RepoInput.RoundTripOwnerSlashName |
| backend/app/agents/tools/readme_generator.py:57 | the same `.replace('.git', '')` in the README generator's own parse | `octo/octo.github.io` yields a README titled `# octohub.io` whose badge URLs name `octo/octohub.io` | strip only a trailing `.git` | not executed | RepoInput.AsWrittenMangles | ReadmeGen.GenerateReadme |
| backend/app/agents/tools/project_validator.py:463 | `repo_data.get('description', '').lower()` calls `.lower()` on `None` when the description is JSON `null` | a repository without a description: `_analyze_uniqueness` raises and the whole validation ends in "Error validating project" | read a `null` description as empty | not executed | Validator.NullDescriptionFails | Validator.AnalyzeUniqueness |
| backend/app/agents/ai_agent.py:192 | `db.commit()` expires the task's attributes (`SessionLocal` at database.py:18 keeps `expire_on_commit`) and `db.close()` detaches it, so reading `task.title` for the reply raises `DetachedInstanceError`, which the `except` turns into an error reply after the completion was committed | a pending task `Buy milk` and the identifier `milk`: the task is completed, and the reply is `Error completing task: Instance <Task at …> is not bound to a Session; …` | reply `Task completed: 'Buy milk'` | not executed | Agent.CompleteTaskAsWritten | Agent.CompleteTaskTool |
