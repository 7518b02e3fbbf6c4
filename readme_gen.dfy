/**
 * The README generator (readme_generator.py): it reads a repository's file
 * listing and languages to detect the kind of project (`_analyze_project`),
 * then fills a README template whose sections depend on what was detected
 * (`_build_readme`).
 *
 * Badges are modelled as a datatype whose values render to the generator's
 * shields.io markdown (`BadgeMarkdown`); the nine markdown strings are
 * pairwise different, so comparing badges is comparing their strings.  The
 * README is modelled as its list of sections, rendered by concatenating
 * their texts; properties about which parts a README has are stated about
 * that list, since the text itself embeds the repository's own description.
 */
module ReadmeGen {
  import opened Common
  import opened Text
  import opened RepoInput
  import opened Validator

  // ---------------------------------------------------------------------
  // Badges

  datatype Badge =
    | PythonBadge | JavaScriptBadge | TypeScriptBadge | ReactBadge | NextJsBadge
    | FastApiBadge | NodeJsBadge | TailwindBadge | DockerBadge

  function BadgeMarkdown(b: Badge): string
  {
    match b
    case PythonBadge => "![Python](https://img.shields.io/badge/python-3670A0?style=for-the-badge&logo=python&logoColor=ffdd54)"
    case JavaScriptBadge => "![JavaScript](https://img.shields.io/badge/javascript-%23323330.svg?style=for-the-badge&logo=javascript&logoColor=%23F7DF1E)"
    case TypeScriptBadge => "![TypeScript](https://img.shields.io/badge/typescript-%23007ACC.svg?style=for-the-badge&logo=typescript&logoColor=white)"
    case ReactBadge => "![React](https://img.shields.io/badge/react-%2320232a.svg?style=for-the-badge&logo=react&logoColor=%2361DAFB)"
    case NextJsBadge => "![Next JS](https://img.shields.io/badge/Next-black?style=for-the-badge&logo=next.js&logoColor=white)"
    case FastApiBadge => "![FastAPI](https://img.shields.io/badge/FastAPI-005571?style=for-the-badge&logo=fastapi)"
    case NodeJsBadge => "![NodeJS](https://img.shields.io/badge/node.js-6DA55F?style=for-the-badge&logo=node.js&logoColor=white)"
    case TailwindBadge => "![TailwindCSS](https://img.shields.io/badge/tailwindcss-%2338B2AC.svg?style=for-the-badge&logo=tailwind-css&logoColor=white)"
    case DockerBadge => "![Docker](https://img.shields.io/badge/docker-%230db7ed.svg?style=for-the-badge&logo=docker&logoColor=white)"
  }

  /** The badge table, keyed by lower-case language name. */
  function BadgeFor(key: string): Option<Badge>
  {
    if key == "python" then Some(PythonBadge)
    else if key == "javascript" then Some(JavaScriptBadge)
    else if key == "typescript" then Some(TypeScriptBadge)
    else if key == "react" then Some(ReactBadge)
    else if key == "nextjs" then Some(NextJsBadge)
    else if key == "fastapi" then Some(FastApiBadge)
    else if key == "nodejs" then Some(NodeJsBadge)
    else if key == "tailwindcss" then Some(TailwindBadge)
    else if key == "docker" then Some(DockerBadge)
    else None
  }

  // ---------------------------------------------------------------------
  // Project detection (_analyze_project)

  /** The detected project type. */
  datatype ProjectType = UnknownType | NodeType | NextType | PythonType | FullStack

  function TypeName(t: ProjectType): string
  {
    match t
    case UnknownType => "Unknown"
    case NodeType => "Node.js/JavaScript"
    case NextType => "Next.js"
    case PythonType => "Python"
    case FullStack => "Full-Stack"
  }

  /** A dependency manifest, named by its file. */
  datatype Manifest = PackageJson | Requirements | PyProject

  function ManifestName(m: Manifest): string
  {
    match m
    case PackageJson => "package.json"
    case Requirements => "requirements.txt"
    case PyProject => "pyproject.toml"
  }

  /** The frameworks and databases the detection can name. */
  datatype Tech = NextJs | React | FastApi | Prisma | DetectedDatabase

  function TechName(t: Tech): string
  {
    match t
    case NextJs => "Next.js"
    case React => "React"
    case FastApi => "FastAPI"
    case Prisma => "Prisma"
    case DetectedDatabase => "Database (detected)"
  }

  datatype ProjectInfo = ProjectInfo(
    kind: ProjectType, dependencies: seq<Manifest>, badges: seq<Badge>, hasDocker: bool, hasTests: bool,
    frontend: Option<Tech>, backend: Option<Tech>, database: Option<Tech>)

  const GenTestIndicators: seq<string> := ["test", "tests", "__tests__", "spec"]
  const DbIndicators: seq<string> := ["db", "database"]

  predicate NodeProject(files: seq<string>)
  {
    "package.json" in files
  }

  predicate NextProject(files: seq<string>)
  {
    "next.config.js" in files || "next.config.ts" in files
  }

  predicate ReactFolders(folders: seq<string>)
  {
    SomeLowerHits(folders, ["react"])
  }

  predicate PythonProject(files: seq<string>)
  {
    "requirements.txt" in files || "pyproject.toml" in files
  }

  predicate FastApiProject(files: seq<string>, folders: seq<string>)
  {
    "main.py" in files || SomeLowerHits(folders, ["fastapi"])
  }

  predicate Dockerized(files: seq<string>)
  {
    "Dockerfile" in files || "docker-compose.yml" in files
  }

  predicate PrismaProject(files: seq<string>, folders: seq<string>)
  {
    "prisma" in folders || "prisma.schema" in files
  }

  /** What the listing shows, computed once from the file and folder names. */
  datatype Signals = Signals(
    node: bool, next: bool, react: bool, python: bool, requirements: bool, fastApi: bool,
    docker: bool, tests: bool, prisma: bool, dbFolder: bool)

  function SignalsOf(files: seq<string>, folders: seq<string>): Signals
  {
    Signals(NodeProject(files), NextProject(files), ReactFolders(folders), PythonProject(files),
            "requirements.txt" in files, FastApiProject(files, folders), Dockerized(files),
            SomeLowerHits(folders, GenTestIndicators), PrismaProject(files, folders),
            SomeLowerHits(folders, DbIndicators))
  }

  /** The type after the `package.json` block. */
  function BaseType(g: Signals): ProjectType
  {
    if g.node then (if g.next then NextType else NodeType) else UnknownType
  }

  /** The type after the Python block, given the type before it. */
  function WithPython(base: ProjectType, python: bool): ProjectType
  {
    if python then (if base == UnknownType then PythonType else FullStack) else base
  }

  function TypeOf(g: Signals): ProjectType
  {
    WithPython(BaseType(g), g.python)
  }

  function FrontendOf(g: Signals): Option<Tech>
  {
    if g.node && g.next then Some(NextJs)
    else if g.node && g.react then Some(React)
    else None
  }

  function BackendOf(g: Signals): Option<Tech>
  {
    if g.python && g.fastApi then Some(FastApi) else None
  }

  function DatabaseOf(g: Signals): Option<Tech>
  {
    if g.prisma then Some(Prisma) else if g.dbFolder then Some(DetectedDatabase) else None
  }

  function ManifestIf(c: bool, m: Manifest): seq<Manifest>
  {
    if c then [m] else []
  }

  function PythonManifest(g: Signals): Manifest
  {
    if g.requirements then Requirements else PyProject
  }

  function DependenciesOf(g: Signals): seq<Manifest>
  {
    ManifestIf(g.node, PackageJson) + ManifestIf(g.python, PythonManifest(g))
  }

  function BadgeIf(c: bool, b: Badge): seq<Badge>
  {
    if c then [b] else []
  }

  /** The badge of the JavaScript frontend, if any. */
  function NodeBadges(g: Signals): seq<Badge>
  {
    if g.node && g.next then [NextJsBadge] else BadgeIf(g.node && g.react, ReactBadge)
  }

  /** The Python badge, then FastAPI's when it is the backend. */
  function PythonBadges(g: Signals): seq<Badge>
  {
    if g.python then [PythonBadge] + BadgeIf(g.fastApi, FastApiBadge) else []
  }

  /** The badges added by the detection rules, before the language loop. */
  function DetectedBadges(g: Signals): seq<Badge>
  {
    NodeBadges(g) + PythonBadges(g) + BadgeIf(g.docker, DockerBadge)
  }

  /** One step of the language loop: the language's badge, unless it has
      none or it is already there. */
  function AddLanguageBadge(badges: seq<Badge>, lang: string): seq<Badge>
  {
    var b := BadgeFor(Lower(lang));
    if b.Some? && b.value !in badges then badges + [b.value] else badges
  }

  /** The language loop over `langs`, in order. */
  function LanguageBadges(badges: seq<Badge>, langs: seq<string>): seq<Badge>
    decreases |langs|
  {
    if langs == [] then badges
    else AddLanguageBadge(LanguageBadges(badges, langs[..|langs| - 1]), langs[|langs| - 1])
  }

  /** What the detection reports, given the listing's signals. */
  function InfoOf(g: Signals, languages: seq<string>): ProjectInfo
  {
    ProjectInfo(TypeOf(g), DependenciesOf(g), LanguageBadges(DetectedBadges(g), languages),
                g.docker, g.tests, FrontendOf(g), BackendOf(g), DatabaseOf(g))
  }

  function ProjectSpec(structure: seq<Entry>, languages: seq<string>): ProjectInfo
  {
    InfoOf(SignalsOf(NamesOf(structure, File), NamesOf(structure, Dir)), languages)
  }

  /** Reads the listing: file names and folder names, then each test the
      detection makes on them. */
  method ReadSignals(structure: seq<Entry>) returns (g: Signals)
    ensures g == SignalsOf(NamesOf(structure, File), NamesOf(structure, Dir))
  {
    var files := NamesOf(structure, File);
    var folders := NamesOf(structure, Dir);
    g := Signals(
      "package.json" in files,
      "next.config.js" in files || "next.config.ts" in files,
      SomeLowerHits(folders, ["react"]),
      "requirements.txt" in files || "pyproject.toml" in files,
      "requirements.txt" in files,
      "main.py" in files || SomeLowerHits(folders, ["fastapi"]),
      "Dockerfile" in files || "docker-compose.yml" in files,
      SomeLowerHits(folders, GenTestIndicators),
      "prisma" in folders || "prisma.schema" in files,
      SomeLowerHits(folders, DbIndicators));
  }

  /** `_analyze_project`; `languages` are the keys of the languages object,
      in their order. The badges each detection block adds are collected
      block by block and joined in the order the blocks run. */
  method AnalyzeProject(structure: seq<Entry>, languages: seq<string>) returns (info: ProjectInfo)
    ensures info == ProjectSpec(structure, languages)
  {
    var g := ReadSignals(structure);
    info := Detect(g, languages);
  }

  /** The decisions of `_analyze_project`, block by block, once the
      listing's signals are known. The badges each detection block adds are
      collected per block and joined in the order the blocks run. */
  method Detect(g: Signals, languages: seq<string>) returns (info: ProjectInfo)
    ensures info == InfoOf(g, languages)
  {
    var base, nodeDeps, frontend, nodeBadges := DetectNode(g);
    var kind, dependencies, backend, pythonBadges := DetectPython(g, base, nodeDeps);
    var hasDocker := false;
    var dockerBadges: seq<Badge> := [];
    if g.docker {
      hasDocker := true;
      dockerBadges := [DockerBadge];
    }
    var hasTests := g.tests;
    var database: Option<Tech> := None;
    if g.prisma {
      database := Some(Prisma);
    } else if g.dbFolder {
      database := Some(DetectedDatabase);
    }
    var detected := nodeBadges + pythonBadges + dockerBadges;
    assert detected == DetectedBadges(g);
    var badges := AddLanguageBadges(detected, languages);
    info := ProjectInfo(kind, dependencies, badges, hasDocker, hasTests, frontend, backend, database);
  }

  /** The `package.json` block: a Node project, and a Next.js or React
      frontend. */
  method DetectNode(g: Signals) returns (kind: ProjectType, dependencies: seq<Manifest>, frontend: Option<Tech>, badges: seq<Badge>)
    ensures kind == BaseType(g) && dependencies == ManifestIf(g.node, PackageJson)
    ensures frontend == FrontendOf(g) && badges == NodeBadges(g)
  {
    kind, dependencies, frontend, badges := UnknownType, [], None, [];
    if g.node {
      kind := NodeType;
      dependencies := [PackageJson];
      if g.next {
        kind := NextType;
        frontend := Some(NextJs);
        badges := [NextJsBadge];
      } else if g.react {
        frontend := Some(React);
        badges := [ReactBadge];
      }
    }
  }

  /** The Python block: a Python manifest makes the project Python, or
      Full-Stack after a Node one, and may add a FastAPI backend. */
  method DetectPython(g: Signals, base: ProjectType, before: seq<Manifest>)
    returns (kind: ProjectType, dependencies: seq<Manifest>, backend: Option<Tech>, badges: seq<Badge>)
    ensures kind == WithPython(base, g.python) && dependencies == before + ManifestIf(g.python, PythonManifest(g))
    ensures backend == BackendOf(g) && badges == PythonBadges(g)
  {
    kind, dependencies, backend, badges := base, before, None, [];
    if g.python {
      if kind == UnknownType {
        kind := PythonType;
      } else {
        kind := FullStack;
      }
      dependencies := dependencies + [if g.requirements then Requirements else PyProject];
      badges := [PythonBadge];
      if g.fastApi {
        backend := Some(FastApi);
        badges := badges + [FastApiBadge];
      }
    }
  }

  /** The language loop of `_analyze_project`: each language that has a
      badge not yet listed adds it. */
  method AddLanguageBadges(detected: seq<Badge>, languages: seq<string>) returns (badges: seq<Badge>)
    ensures badges == LanguageBadges(detected, languages)
  {
    badges := detected;
    for i := 0 to |languages|
      invariant badges == LanguageBadges(detected, languages[..i])
    {
      assert languages[..i + 1][..i] == languages[..i];
      var key := Lower(languages[i]);
      var badge := BadgeFor(key);
      if badge.Some? && badge.value !in badges {
        badges := badges + [badge.value];
      }
    }
    assert languages[..|languages|] == languages;
  }

  // ---------------------------------------------------------------------
  // Properties of the detection

  /** A Python manifest next to a `package.json` makes a Full-Stack
      project, even a Next.js one; alone it makes a Python project. */
  lemma TypePrecedence(files: seq<string>, folders: seq<string>)
    ensures var t := TypeOf(SignalsOf(files, folders));
      && (PythonProject(files) && NodeProject(files) ==> t == FullStack)
      && (PythonProject(files) && !NodeProject(files) ==> t == PythonType)
      && (!PythonProject(files) && NodeProject(files) && NextProject(files) ==> t == NextType)
      && (!PythonProject(files) && NodeProject(files) && !NextProject(files) ==> t == NodeType)
      && (!PythonProject(files) && !NodeProject(files) ==> t == UnknownType)
  {
  }

  /** `package.json` is recorded for a Node project, and the Python manifest
      recorded is `requirements.txt` whenever there is one. */
  lemma DependencyPreference(files: seq<string>, folders: seq<string>)
    ensures var deps := DependenciesOf(SignalsOf(files, folders));
      && (PackageJson in deps <==> NodeProject(files))
      && (Requirements in deps <==> "requirements.txt" in files)
      && (PyProject in deps <==> "pyproject.toml" in files && "requirements.txt" !in files)
  {
  }

  /** The detection rules add each badge at most once. */
  lemma DetectedBadgesDistinct(g: Signals)
    ensures NoDuplicates(DetectedBadges(g))
  {
  }

  /** The language loop keeps the badge list free of duplicates. */
  lemma {:induction false} LanguageBadgesDistinct(badges: seq<Badge>, langs: seq<string>)
    requires NoDuplicates(badges)
    ensures NoDuplicates(LanguageBadges(badges, langs))
    decreases |langs|
  {
    if langs != [] {
      LanguageBadgesDistinct(badges, langs[..|langs| - 1]);
    }
  }

  /** The loop only adds, and after it every listed language that has a
      badge has it in the list; nothing else is added. */
  lemma {:induction false} LanguageBadgesContents(badges: seq<Badge>, langs: seq<string>)
    ensures forall b :: b in LanguageBadges(badges, langs) <==>
      b in badges || exists i :: 0 <= i < |langs| && BadgeFor(Lower(langs[i])) == Some(b)
    decreases |langs|
  {
    if langs != [] {
      var init := langs[..|langs| - 1];
      LanguageBadgesContents(badges, init);
      assert forall i :: 0 <= i < |init| ==> init[i] == langs[i];
    }
  }

  /** `badges` has no duplicates. */
  lemma BadgesDistinct(structure: seq<Entry>, languages: seq<string>)
    ensures NoDuplicates(ProjectSpec(structure, languages).badges)
  {
    var g := SignalsOf(NamesOf(structure, File), NamesOf(structure, Dir));
    DetectedBadgesDistinct(g);
    LanguageBadgesDistinct(DetectedBadges(g), languages);
  }

  /** `has_tests` holds exactly when some folder's lower-cased name contains
      a test indicator. */
  lemma HasTestsIff(structure: seq<Entry>, languages: seq<string>)
    ensures ProjectSpec(structure, languages).hasTests <==>
      exists i :: 0 <= i < |structure| && structure[i].kind == Dir && AnyIn(Lower(structure[i].name), GenTestIndicators)
  {
    var folders := NamesOf(structure, Dir);
    NamesOfMembers(structure, Dir);
    SomeLowerHitsIff(folders, GenTestIndicators);
    if SomeLowerHits(folders, GenTestIndicators) {
      var j :| 0 <= j < |folders| && AnyIn(Lower(folders[j]), GenTestIndicators);
      assert folders[j] in folders;
      var i :| 0 <= i < |structure| && structure[i].kind == Dir && structure[i].name == folders[j];
    }
    if exists i :: 0 <= i < |structure| && structure[i].kind == Dir && AnyIn(Lower(structure[i].name), GenTestIndicators) {
      var i :| 0 <= i < |structure| && structure[i].kind == Dir && AnyIn(Lower(structure[i].name), GenTestIndicators);
      assert structure[i].name in folders;
      var j :| 0 <= j < |folders| && folders[j] == structure[i].name;
    }
  }

  /** Prisma wins over a folder that merely looks like a database one. */
  lemma DatabasePrecedence(files: seq<string>, folders: seq<string>)
    ensures var d := DatabaseOf(SignalsOf(files, folders));
      && (d == Some(Prisma) <==> PrismaProject(files, folders))
      && (d == Some(DetectedDatabase) <==> !PrismaProject(files, folders) && SomeLowerHits(folders, DbIndicators))
      && (d.None? <==> !PrismaProject(files, folders) && !SomeLowerHits(folders, DbIndicators))
  {
  }

  // ---------------------------------------------------------------------
  // The README template (_build_readme)

  /** The `description` field: absent, JSON null, or a text. */
  datatype Description = NoDescription | NullDescription | Described(text: string)

  /** What the generator reads from the repository object. */
  datatype RepoData = RepoData(description: Description, license: Option<string>)

  /** `repo_data.get('description', 'No description provided')` as the
      f-string prints it (a null prints as `None`). */
  function DescriptionText(d: Description): string
  {
    match d
    case NoDescription => "No description provided"
    case NullDescription => "None"
    case Described(text) => text
  }

  /** The license name, `None` when the license object is missing, empty,
      or has no (or a null) name. */
  function LicenseName(license: Option<string>): string
  {
    match license
    case None => "None"
    case Some(name) => name
  }

  datatype Section =
    | Header(repo: string, description: string, owner: string)
    | BadgeLines(badges: seq<Badge>)
    | TypeLine(kind: ProjectType)
    | FrontendLine(frontend: Tech)
    | BackendLine(backend: Tech)
    | DatabaseLine(database: Tech)
    | Features
    | InstallHead
    | NodePrereq
    | PythonPrereq
    | Setup(owner: string, repo: string)
    | NodeInstall
    | PipRequirements
    | PipEditable
    | EnvVars
    | DockerSetup
    | UsageHead
    | NextDev
    | NpmStart
    | FastApiRun
    | Testing
    | Structure(repo: string)
    | Contributing
    | License(name: string)
    | Footer(owner: string)

  function BadgeMarkdowns(bs: seq<Badge>): (ms: seq<string>)
    ensures |ms| == |bs| && forall i :: 0 <= i < |bs| ==> ms[i] == BadgeMarkdown(bs[i])
  {
    if bs == [] then [] else [BadgeMarkdown(bs[0])] + BadgeMarkdowns(bs[1..])
  }

  /** The title's remainder: description, stats badges, stack heading. */
  function HeaderRest(repo: string, description: string, owner: string): string
  {
    "\n\n" + description + "\n\n## \U{1F4CA} Repository Stats\n\n"
      + "![Stars](https://img.shields.io/github/stars/" + owner + "/" + repo + "?style=social)\n"
      + "![Forks](https://img.shields.io/github/forks/" + owner + "/" + repo + "?style=social)\n"
      + "![Issues](https://img.shields.io/github/issues/" + owner + "/" + repo + ")\n"
      + "![License](https://img.shields.io/github/license/" + owner + "/" + repo + ")\n\n"
      + "## \U{1F6E0}\U{FE0F} Tech Stack\n\n"
  }

  /** The template's sections that have no holes, as texts. */
  datatype Template = Template(features: string, installHead: string, nodePrereq: string, pythonPrereq: string, nodeInstall: string, pipRequirements: string, pipEditable: string, envVars: string, dockerSetup: string, usageHead: string, nextDev: string, npmStart: string, fastApiRun: string, testing: string, contributing: string)

  /** The texts the generator writes. */
  const Bob: Template := Template(
    "## \U{2728} Features\n\n- \U{1F680} Feature 1: [Add your feature description]\n- \U{1F4A1} Feature 2: [Add your feature description]\n- \U{26A1} Feature 3: [Add your feature description]\n\n",
    "## \U{1F4E6} Installation\n\n### Prerequisites\n\n",
    "- Node.js (v16 or higher)\n- npm or yarn\n",
    "- Python 3.8+\n- pip\n",
    "2. Install Node.js dependencies\n\n```bash\nnpm install\n# or\nyarn install\n```\n\n",
    "3. Install Python dependencies\n\n```bash\npip install -r requirements.txt\n```\n\n",
    "3. Install Python dependencies\n\n```bash\npip install -e .\n```\n\n",
    "4. Set up environment variables\n\nCreate a `.env` file in the root directory:\n\n```env\n# Add your environment variables here\nAPI_KEY=your_api_key\nDATABASE_URL=your_database_url\n```\n\n",
    "### \U{1F433} Docker Setup (Optional)\n\n```bash\ndocker-compose up -d\n```\n\n",
    "## \U{1F680} Usage\n\n",
    "Start the development server:\n\n```bash\nnpm run dev\n```\n\nOpen [http://localhost:3000](http://localhost:3000) in your browser.\n\n",
    "Start the application:\n\n```bash\nnpm start\n```\n\n",
    "Start the backend server:\n\n```bash\nuvicorn app.main:app --reload\n```\n\nAPI documentation available at [http://localhost:8000/docs](http://localhost:8000/docs)\n\n",
    "## \U{1F9EA} Testing\n\nRun tests:\n\n```bash\nnpm test\n# or\npytest\n```\n\n",
    "## \U{1F91D} Contributing\n\nContributions are welcome! Please feel free to submit a Pull Request.\n\n1. Fork the project\n2. Create your feature branch (`git checkout -b feature/AmazingFeature`)\n3. Commit your changes (`git commit -m 'Add some AmazingFeature'`)\n4. Push to the branch (`git push origin feature/AmazingFeature`)\n5. Open a Pull Request\n\n")

  function SectionText(s: Section, t: Template): string
  {
    match s
    case Header(repo, description, owner) => "# " + repo + HeaderRest(repo, description, owner)
    case BadgeLines(badges) => Join(BadgeMarkdowns(badges), "\n") + "\n\n"
    case TypeLine(kind) => "**Project Type:** " + TypeName(kind) + "\n\n"
    case FrontendLine(frontend) => "**Frontend:** " + TechName(frontend) + "\n\n"
    case BackendLine(backend) => "**Backend:** " + TechName(backend) + "\n\n"
    case DatabaseLine(database) => "**Database:** " + TechName(database) + "\n\n"
    case Features => t.features
    case InstallHead => t.installHead
    case NodePrereq => t.nodePrereq
    case PythonPrereq => t.pythonPrereq
    case Setup(owner, repo) =>
      "\n### Setup\n\n1. Clone the repository\n\n```bash\ngit clone https://github.com/" + owner + "/" + repo
      + ".git\ncd " + repo + "\n```\n\n"
    case NodeInstall => t.nodeInstall
    case PipRequirements => t.pipRequirements
    case PipEditable => t.pipEditable
    case EnvVars => t.envVars
    case DockerSetup => t.dockerSetup
    case UsageHead => t.usageHead
    case NextDev => t.nextDev
    case NpmStart => t.npmStart
    case FastApiRun => t.fastApiRun
    case Testing => t.testing
    case Structure(repo) =>
      "## \U{1F4C1} Project Structure\n\n```\n" + repo + "/\n\U{251C}\U{2500}\U{2500} [Add your project structure here]\n```\n\n"
    case Contributing => t.contributing
    case License(name) =>
      "## \U{1F4DD} License\n\nThis project is licensed under the " + name + " License - see the LICENSE file for details.\n\n"
    case Footer(owner) =>
      "## \U{1F464} Author\n\n**" + owner + "**\n\n- GitHub: [@" + owner + "](https://github.com/" + owner
      + ")\n\n## \U{2B50} Show your support\n\nGive a \U{2B50}\U{FE0F} if this project helped you!\n\n---\n\n*Generated with \U{2764}\U{FE0F} by Bob AI Assistant*\n"
  }

  /** The README text: the sections' texts one after the other. */
  function Render(sections: seq<Section>, t: Template): string
  {
    if sections == [] then "" else SectionText(sections[0], t) + Render(sections[1..], t)
  }

  function SectionIf(c: bool, s: Section): seq<Section>
  {
    if c then [s] else []
  }

  /** The detected stack: badges, type, frontend, backend, database. */
  function TechSections(info: ProjectInfo): seq<Section>
  {
    SectionIf(info.badges != [], BadgeLines(info.badges))
    + [TypeLine(info.kind)]
    + (if info.frontend.Some? then [FrontendLine(info.frontend.value)] else [])
    + (if info.backend.Some? then [BackendLine(info.backend.value)] else [])
    + (if info.database.Some? then [DatabaseLine(info.database.value)] else [])
  }

  /** Features and installation, Docker setup included when detected. */
  function InstallSections(info: ProjectInfo, owner: string, repo: string): seq<Section>
  {
    var deps := info.dependencies;
    [Features, InstallHead]
    + SectionIf(PackageJson in deps, NodePrereq)
    + SectionIf(Requirements in deps || PyProject in deps, PythonPrereq)
    + [Setup(owner, repo)]
    + SectionIf(PackageJson in deps, NodeInstall)
    + (if Requirements in deps then [PipRequirements]
       else SectionIf(PyProject in deps, PipEditable))
    + [EnvVars]
    + SectionIf(info.hasDocker, DockerSetup)
  }

  /** Usage instructions for the detected frontend and backend. */
  function UsageSections(info: ProjectInfo): seq<Section>
  {
    [UsageHead]
    + (if info.frontend == Some(NextJs) then [NextDev]
       else SectionIf(PackageJson in info.dependencies, NpmStart))
    + SectionIf(info.backend == Some(FastApi), FastApiRun)
  }

  /** Testing when detected, then the fixed closing sections. */
  function ClosingSections(data: RepoData, info: ProjectInfo, owner: string, repo: string): seq<Section>
  {
    SectionIf(info.hasTests, Testing)
    + [Structure(repo), Contributing, License(LicenseName(data.license)), Footer(owner)]
  }

  /** Everything after the title block. */
  function BodySections(data: RepoData, info: ProjectInfo, owner: string, repo: string): seq<Section>
  {
    TechSections(info) + InstallSections(info, owner, repo) + UsageSections(info) + ClosingSections(data, info, owner, repo)
  }

  /** The README's sections: title, description and stats, then the body. */
  function ReadmeSections(data: RepoData, info: ProjectInfo, owner: string, repo: string): seq<Section>
  {
    [Header(repo, DescriptionText(data.description), owner)] + BodySections(data, info, owner, repo)
  }

  /** `_build_readme`, over the template texts `t`: appends the template's
      sections in order, each conditional one only when the project calls
      for it; the parts of the template are collected one after the other
      and joined. */
  method BuildReadme(data: RepoData, info: ProjectInfo, owner: string, repo: string, t: Template) returns (readme: string)
    ensures readme == Render(ReadmeSections(data, info, owner, repo), t)
  {
    var deps := info.dependencies;
    var header := Header(repo, DescriptionText(data.description), owner);

    var tech := SectionIf(info.badges != [], BadgeLines(info.badges));
    tech := tech + [TypeLine(info.kind)];
    tech := tech + (if info.frontend.Some? then [FrontendLine(info.frontend.value)] else []);
    tech := tech + (if info.backend.Some? then [BackendLine(info.backend.value)] else []);
    tech := tech + (if info.database.Some? then [DatabaseLine(info.database.value)] else []);

    var install: seq<Section> := [Features, InstallHead];
    install := install + SectionIf(PackageJson in deps, NodePrereq);
    install := install + SectionIf(Requirements in deps || PyProject in deps, PythonPrereq);
    install := install + [Setup(owner, repo)];
    install := install + SectionIf(PackageJson in deps, NodeInstall);
    install := install + (if Requirements in deps then [PipRequirements] else SectionIf(PyProject in deps, PipEditable));
    install := install + [EnvVars];
    install := install + SectionIf(info.hasDocker, DockerSetup);

    var usage: seq<Section> := [UsageHead];
    usage := usage + (if info.frontend == Some(NextJs) then [NextDev] else SectionIf(PackageJson in deps, NpmStart));
    usage := usage + SectionIf(info.backend == Some(FastApi), FastApiRun);

    var closing := SectionIf(info.hasTests, Testing);
    closing := closing + [Structure(repo), Contributing, License(LicenseName(data.license)), Footer(owner)];

    readme := Render([header] + (tech + install + usage + closing), t);
  }

  // ---------------------------------------------------------------------
  // Properties of the template

  /** The README opens with the repository's name as its title. */
  lemma ReadmeTitle(data: RepoData, info: ProjectInfo, owner: string, repo: string, t: Template)
    ensures var text := Render(ReadmeSections(data, info, owner, repo), t);
      |text| >= |repo| + 2 && text[..|repo| + 2] == "# " + repo
  {
    var header := Header(repo, DescriptionText(data.description), owner);
    var sections := ReadmeSections(data, info, owner, repo);
    assert sections[0] == header && sections[1..] == BodySections(data, info, owner, repo);
    var rest := HeaderRest(repo, DescriptionText(data.description), owner) + Render(sections[1..], t);
    assert Render(sections, t) == ("# " + repo) + rest;
  }

  /** The Docker section is there exactly when Docker was detected, and the
      Testing section exactly when tests were. */
  lemma ConditionalSections(data: RepoData, info: ProjectInfo, owner: string, repo: string)
    ensures DockerSetup in ReadmeSections(data, info, owner, repo) <==> info.hasDocker
    ensures Testing in ReadmeSections(data, info, owner, repo) <==> info.hasTests
  {
    var tech, install := TechSections(info), InstallSections(info, owner, repo);
    var usage, closing := UsageSections(info), ClosingSections(data, info, owner, repo);
    assert DockerSetup !in tech && Testing !in tech;
    assert DockerSetup in install <==> info.hasDocker;
    assert Testing !in install;
    assert DockerSetup !in usage && Testing !in usage;
    assert DockerSetup !in closing;
    assert Testing in closing <==> info.hasTests;
  }

  /** The license section names the repository's license, or `None`, and
      it is the only license section. */
  lemma LicenseSection(data: RepoData, info: ProjectInfo, owner: string, repo: string)
    ensures License(LicenseName(data.license)) in ReadmeSections(data, info, owner, repo)
    ensures data.license.None? ==> License("None") in ReadmeSections(data, info, owner, repo)
    ensures forall s :: s in ReadmeSections(data, info, owner, repo) && s.License? ==> s.name == LicenseName(data.license)
  {
    var tech, install := TechSections(info), InstallSections(info, owner, repo);
    var usage, closing := UsageSections(info), ClosingSections(data, info, owner, repo);
    assert forall s :: s in tech ==> !s.License?;
    assert forall s :: s in install ==> !s.License?;
    assert forall s :: s in usage ==> !s.License?;
    assert forall s :: s in closing && s.License? ==> s == License(LicenseName(data.license));
  }

  // ---------------------------------------------------------------------
  // The whole generator (generate_readme)

  const ErrorLead: string := "Error generating README: "

  /** `generate_readme`: parse the input, then build the README from what
      the repository's data, listing and languages are; `data` is the
      outcome of fetching the repository object (an error carries the
      failure message). */
  method GenerateReadme(input: string, data: Result<RepoData>, structure: seq<Entry>, languages: seq<string>)
    returns (text: string)
    ensures ParseRepoInput(input).Err? ==> text == ErrorLead + ParseRepoInput(input).error
    ensures ParseRepoInput(input).Ok? && data.Err? ==> text == ErrorLead + data.error
    ensures ParseRepoInput(input).Ok? && data.Ok? ==>
      var r := ParseRepoInput(input).value;
      text == Render(ReadmeSections(data.value, ProjectSpec(structure, languages), r.owner, r.name), Bob)
  {
    var parsed := ParseRepoInput(input);
    if parsed.Err? {
      return ErrorLead + parsed.error;
    }
    if data.Err? {
      return ErrorLead + data.error;
    }
    var info := AnalyzeProject(structure, languages);
    text := BuildReadme(data.value, info, parsed.value.owner, parsed.value.name, Bob);
  }
}
