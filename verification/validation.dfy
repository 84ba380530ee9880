/** The implementation self-check: five validations over the repository's
    files, an integer score and a READY / NEEDS_WORK / INCOMPLETE verdict.
    The file system is given as a map from the names of existing files to
    their text and size, and Python's regular-expression engine as an
    oracle `search(pattern, text, ignoreCase)` that says whether the
    pattern matches somewhere in the text. */
module Validation {
  import opened Text

  /** A file that exists: its text and its size in bytes. */
  datatype FileOnDisk = FileOnDisk(content: string, size: nat)

  /** `re.search(pattern, text, re.IGNORECASE if ignoreCase else 0) is not None`. */
  type Search = (string, string, bool) -> bool

  const ProviderFile: string := "vertex_ai_provider.py"
  const IntegrationFile: string := "dify_vertex_ai_integration.py"
  const SetupGuide: string := "VERTEX_AI_SETUP.md"
  const ComposeFile: string := "docker-compose.dev.yaml"

  // --------------------------------------------------------- file structure

  datatype FileRequirement = FileRequirement(
    name: string,
    description: string,
    requiredClasses: seq<string>,
    requiredFunctions: seq<string>,
    minSize: nat)

  /** `required_files`; an absent class or function list is the empty list. */
  const RequiredFiles: seq<FileRequirement> := [
    FileRequirement(ProviderFile, "Core Vertex AI provider implementation",
                    ["VertexAIProvider"], ["create_vertex_ai_provider"], 8000),
    FileRequirement(IntegrationFile, "Dify integration layer",
                    ["DifyVertexAIIntegration"], ["create_dify_vertex_ai_integration"], 12000),
    FileRequirement("test_vertex_ai.py", "Test suite for Vertex AI integration",
                    [], ["test_vertex_ai_integration"], 4000),
    FileRequirement(SetupGuide, "Setup and configuration guide", [], [], 8000)
  ]

  /** Every name occurs in `content` right after `keyword` (`f"class {n}" in content`). */
  function AllDeclared(content: string, keyword: string, names: seq<string>): (r: bool)
    ensures r <==> forall i :: 0 <= i < |names| ==> Contains(content, keyword + names[i])
  {
    if names == [] then true
    else
      var rest := AllDeclared(content, keyword, names[1..]);
      assert forall i :: 1 <= i < |names| ==> names[1..][i - 1] == names[i];
      Contains(content, keyword + names[0]) && rest
  }

  /** A required file passes: it exists and declares every required class and function. */
  predicate FileOk(req: FileRequirement, files: map<string, FileOnDisk>) {
    && req.name in files
    && (forall i :: 0 <= i < |req.requiredClasses| ==>
          Contains(files[req.name].content, "class " + req.requiredClasses[i]))
    && (forall i :: 0 <= i < |req.requiredFunctions| ==>
          Contains(files[req.name].content, "def " + req.requiredFunctions[i]))
  }

  /** An existing required file below its expected size (only a warning). */
  predicate Undersized(req: FileRequirement, files: map<string, FileOnDisk>) {
    req.name in files && files[req.name].size < req.minSize
  }

  predicate StructureOk(files: map<string, FileOnDisk>) {
    forall i :: 0 <= i < |RequiredFiles| ==> FileOk(RequiredFiles[i], files)
  }

  /** `validate_file_structure`: passes exactly when every required file is
      there with its declarations; sizes only produce warnings. */
  method ValidateFileStructure(files: map<string, FileOnDisk>) returns (ok: bool, warned: seq<string>)
    ensures ok <==> StructureOk(files)
    ensures forall n :: n in warned <==>
      exists i :: 0 <= i < |RequiredFiles| && RequiredFiles[i].name == n && Undersized(RequiredFiles[i], files)
  {
    ok := true;
    warned := [];
    var i := 0;
    while i < |RequiredFiles|
      invariant 0 <= i <= |RequiredFiles|
      invariant ok <==> forall j :: 0 <= j < i ==> FileOk(RequiredFiles[j], files)
      invariant forall n :: n in warned <==>
        exists j :: 0 <= j < i && RequiredFiles[j].name == n && Undersized(RequiredFiles[j], files)
    {
      var req := RequiredFiles[i];
      if req.name !in files {
        ok := false;
      } else {
        var file := files[req.name];
        if file.size < req.minSize {
          warned := warned + [req.name];
        }
        if !AllDeclared(file.content, "class ", req.requiredClasses) {
          ok := false;
        }
        if !AllDeclared(file.content, "def ", req.requiredFunctions) {
          ok := false;
        }
      }
      i := i + 1;
    }
  }

  /** File sizes never decide the structure check: two file systems with the
      same names and texts pass or fail it together. */
  lemma SizesDoNotMatter(files: map<string, FileOnDisk>, other: map<string, FileOnDisk>)
    requires files.Keys == other.Keys
    requires forall n :: n in files ==> files[n].content == other[n].content
    ensures StructureOk(files) <==> StructureOk(other)
  {
    assert forall i :: 0 <= i < |RequiredFiles| ==> (FileOk(RequiredFiles[i], files) <==> FileOk(RequiredFiles[i], other));
  }

  // -------------------------------------------------------- pattern checks

  /** Every pattern matches `content`. */
  function AllMatch(patterns: seq<string>, content: string, search: Search): (r: bool)
    ensures r <==> forall i :: 0 <= i < |patterns| ==> search(patterns[i], content, false)
  {
    if patterns == [] then true
    else
      var rest := AllMatch(patterns[1..], content, search);
      assert forall i :: 1 <= i < |patterns| ==> patterns[1..][i - 1] == patterns[i];
      search(patterns[0], content, false) && rest
  }

  /** The patterns `validate_vertex_ai_provider` looks for. */
  const ProviderPatterns: seq<string> := [
    "from google\\.cloud import aiplatform",
    "import vertexai",
    "from vertexai\\.generative_models import GenerativeModel",
    "def _prepare_hebrew_prompt",
    "def _contains_hebrew",
    "def test_hebrew_capabilities",
    "gemini-pro",
    "gemini-flash",
    "supports_hebrew.*True",
    "def generate_response",
    "def validate_configuration",
    "def get_available_models",
    "אנא השב בעברית",
    "RTL"
  ]

  /** The patterns `validate_dify_integration` looks for. */
  const IntegrationPatterns: seq<string> := [
    "def get_provider_schema",
    "def get_model_schemas",
    "provider_credential_schema",
    "parameter_rules",
    "def generate_response",
    "def _messages_to_prompt",
    "def validate_credentials",
    "def test_hebrew_integration",
    "enable_hebrew.*True",
    "model_type.*llm",
    "context_size",
    "temperature",
    "max_tokens",
    "en_US",
    "\\\"he\\\""
  ]

  /** A file passes a pattern check when it exists and every pattern matches it. */
  function PatternCheck(files: map<string, FileOnDisk>, name: string, patterns: seq<string>, search: Search): (r: bool)
    ensures r <==> name in files && forall i :: 0 <= i < |patterns| ==> search(patterns[i], files[name].content, false)
  {
    name in files && AllMatch(patterns, files[name].content, search)
  }

  // ----------------------------------------------------------------- counting

  /** The number of `true` entries. */
  function CountTrue(bs: seq<bool>): (n: nat)
    ensures n <= |bs|
  {
    if bs == [] then 0 else (if bs[0] then 1 else 0) + CountTrue(bs[1..])
  }

  lemma {:induction false} CountTrueAppend(a: seq<bool>, b: seq<bool>)
    ensures CountTrue(a + b) == CountTrue(a) + CountTrue(b)
    decreases |a|
  {
    if a == [] {
      assert a + b == b;
    } else {
      assert (a + b)[1..] == a[1..] + b;
      CountTrueAppend(a[1..], b);
    }
  }

  /** The indices holding `true`. */
  function TrueIndices(bs: seq<bool>): set<nat> {
    set i: nat | i < |bs| && bs[i]
  }

  /** `CountTrue` counts exactly the indices that hold `true`. */
  lemma {:induction false} CountTrueCountsIndices(bs: seq<bool>)
    ensures CountTrue(bs) == |TrueIndices(bs)|
    decreases |bs|
  {
    if bs != [] {
      var init, last := bs[..|bs| - 1], bs[|bs| - 1];
      CountTrueCountsIndices(init);
      assert bs == init + [last];
      CountTrueAppend(init, [last]);
      assert TrueIndices(bs) == TrueIndices(init) + (if last then {|bs| - 1} else {});
    }
  }

  /** A list with no `true` entry counts zero. */
  lemma {:induction false} CountTrueNone(bs: seq<bool>)
    requires forall i :: 0 <= i < |bs| ==> !bs[i]
    ensures CountTrue(bs) == 0
    decreases |bs|
  {
    if bs != [] {
      CountTrueNone(bs[1..]);
    }
  }

  /** No string occurs twice. */
  predicate NoDuplicates(xs: seq<string>) {
    forall i, j :: 0 <= i < j < |xs| ==> xs[i] != xs[j]
  }

  /** Two duplicate-free lists with no common string concatenate to a duplicate-free list. */
  lemma NoDuplicatesAppend(a: seq<string>, b: seq<string>)
    requires NoDuplicates(a) && NoDuplicates(b)
    requires forall x :: x in a ==> x !in b
    ensures NoDuplicates(a + b)
  {
    forall i, j | 0 <= i < j < |a + b|
      ensures (a + b)[i] != (a + b)[j]
    {
      if j < |a| {
        assert (a + b)[i] == a[i] && (a + b)[j] == a[j];
      } else if i < |a| {
        assert (a + b)[i] == a[i] && (a + b)[j] == b[j - |a|];
        assert a[i] in a && b[j - |a|] in b;
      } else {
        assert (a + b)[i] == b[i - |a|] && (a + b)[j] == b[j - |a|];
      }
    }
  }

  // --------------------------------------------------------- hebrew support

  /** Which of the checks' patterns match `content`, in check order. */
  function Hits(checks: seq<(string, string)>, content: string, search: Search, ignoreCase: bool): (hits: seq<bool>)
    ensures |hits| == |checks|
    ensures forall i :: 0 <= i < |checks| ==> hits[i] == search(checks[i].0, content, ignoreCase)
  {
    seq(|checks|, i requires 0 <= i < |checks| => search(checks[i].0, content, ignoreCase))
  }

  /** The descriptions of the checks whose pattern matches `content`, each
      followed by `suffix`, in check order. */
  function Matched(checks: seq<(string, string)>, content: string, search: Search, ignoreCase: bool, suffix: string)
    : (found: seq<string>)
    ensures |found| == CountTrue(Hits(checks, content, search, ignoreCase))
    ensures forall x :: x in found <==>
      exists i :: 0 <= i < |checks| && search(checks[i].0, content, ignoreCase) && x == checks[i].1 + suffix
  {
    if checks == [] then []
    else
      var rest := Matched(checks[1..], content, search, ignoreCase, suffix);
      var hit := search(checks[0].0, content, ignoreCase);
      assert Hits(checks, content, search, ignoreCase) == [hit] + Hits(checks[1..], content, search, ignoreCase);
      assert forall i :: 1 <= i < |checks| ==> checks[1..][i - 1] == checks[i];
      (if hit then [checks[0].1 + suffix] else []) + rest
  }

  /** The matches of a concatenation of check lists are those of the first
      list followed by those of the second: the report keeps check order. */
  lemma {:induction false} MatchedAppend(
    a: seq<(string, string)>, b: seq<(string, string)>, content: string, search: Search, ignoreCase: bool, suffix: string)
    ensures Matched(a + b, content, search, ignoreCase, suffix)
         == Matched(a, content, search, ignoreCase, suffix) + Matched(b, content, search, ignoreCase, suffix)
    decreases |a|
  {
    if a == [] {
      assert a + b == b;
    } else {
      assert (a + b)[0] == a[0];
      assert (a + b)[1..] == a[1..] + b;
      MatchedAppend(a[1..], b, content, search, ignoreCase, suffix);
      var head := if search(a[0].0, content, ignoreCase) then [a[0].1 + suffix] else [];
      var tail := Matched(a[1..], content, search, ignoreCase, suffix);
      var rest := Matched(b, content, search, ignoreCase, suffix);
      assert Matched(a + b, content, search, ignoreCase, suffix) == head + (tail + rest);
      assert head + (tail + rest) == (head + tail) + rest;
    }
  }

  /** The suffixed descriptions of `checks` are pairwise different. */
  predicate DistinctDescriptions(checks: seq<(string, string)>, suffix: string) {
    forall i, j :: 0 <= i < j < |checks| ==> checks[i].1 + suffix != checks[j].1 + suffix
  }

  /** Checks whose suffixed descriptions differ never report a description twice. */
  lemma {:induction false} MatchedNoDuplicates(
    checks: seq<(string, string)>, content: string, search: Search, ignoreCase: bool, suffix: string)
    requires DistinctDescriptions(checks, suffix)
    ensures NoDuplicates(Matched(checks, content, search, ignoreCase, suffix))
    decreases |checks|
  {
    if checks != [] {
      var rest := Matched(checks[1..], content, search, ignoreCase, suffix);
      assert forall i :: 1 <= i < |checks| ==> checks[1..][i - 1] == checks[i];
      MatchedNoDuplicates(checks[1..], content, search, ignoreCase, suffix);
      assert checks[0].1 + suffix !in rest;
    }
  }

  /** With pairwise different descriptions, a check's description is
      reported exactly when its pattern matches. */
  lemma MatchedReports(
    checks: seq<(string, string)>, content: string, search: Search, ignoreCase: bool, suffix: string, i: nat)
    requires DistinctDescriptions(checks, suffix)
    requires i < |checks|
    ensures checks[i].1 + suffix in Matched(checks, content, search, ignoreCase, suffix)
        <==> search(checks[i].0, content, ignoreCase)
  {
    var found := Matched(checks, content, search, ignoreCase, suffix);
    if checks[i].1 + suffix in found {
      var j :| 0 <= j < |checks| && search(checks[j].0, content, ignoreCase) && checks[i].1 + suffix == checks[j].1 + suffix;
      assert j == i;
    }
  }

  /** The suffix naming the file a feature was found in. */
  function InFile(name: string): string {
    " in " + name
  }

  const HebrewTextPattern: string := "[\\u0590-\\u05FF]+"

  const HebrewFunctionChecks: seq<(string, string)> := [
    ("_prepare_hebrew_prompt", "Hebrew prompt preparation"),
    ("_contains_hebrew", "Hebrew text detection"),
    ("test_hebrew", "Hebrew testing capabilities"),
    ("enable_hebrew", "Hebrew enablement option"),
    ("supports_hebrew", "Hebrew support flags")
  ]

  const HebrewDocChecks: seq<(string, string)> := [
    ("Hebrew", "Hebrew language mentioned"),
    ("RTL", "RTL support mentioned"),
    ("עברית", "Hebrew text in documentation"),
    ("he_IL\\.UTF-8", "Hebrew locale configuration"),
    ("Hebrew.*support", "Hebrew support documentation")
  ]

  /** The six Hebrew signals of one source file: Hebrew text, then each
      function pattern; all false when the file is absent. */
  function SourceSignals(files: map<string, FileOnDisk>, name: string, search: Search): (sig: seq<bool>)
    ensures |sig| == 6
  {
    seq(6, i requires 0 <= i < 6 =>
      name in files &&
      if i == 0 then search(HebrewTextPattern, files[name].content, false)
      else search(HebrewFunctionChecks[i - 1].0, files[name].content, false))
  }

  /** The five documentation signals of the setup guide (case-insensitive); all false without it. */
  function DocSignals(files: map<string, FileOnDisk>, search: Search): (sig: seq<bool>)
    ensures |sig| == 5
  {
    seq(5, i requires 0 <= i < 5 =>
      SetupGuide in files && search(HebrewDocChecks[i].0, files[SetupGuide].content, true))
  }

  /** All seventeen Hebrew signals `validate_hebrew_support` looks at, in its order. */
  function HebrewSignals(files: map<string, FileOnDisk>, search: Search): seq<bool> {
    SourceSignals(files, ProviderFile, search) + SourceSignals(files, IntegrationFile, search) + DocSignals(files, search)
  }

  lemma SourceSignalsPresent(files: map<string, FileOnDisk>, name: string, search: Search)
    requires name in files
    ensures SourceSignals(files, name, search) ==
      [search(HebrewTextPattern, files[name].content, false)] + Hits(HebrewFunctionChecks, files[name].content, search, false)
  {
    var a := SourceSignals(files, name, search);
    var b := [search(HebrewTextPattern, files[name].content, false)] + Hits(HebrewFunctionChecks, files[name].content, search, false);
    forall i | 0 <= i < 6
      ensures a[i] == b[i]
    {
      if i > 0 {
        assert b[i] == Hits(HebrewFunctionChecks, files[name].content, search, false)[i - 1];
      }
    }
  }

  /** The Hebrew function checks have pairwise different descriptions, all
      different from the Hebrew-text entry, whatever the file name. */
  lemma HebrewFeatureNames(name: string)
    ensures DistinctDescriptions(HebrewFunctionChecks, InFile(name))
    ensures forall i :: 0 <= i < |HebrewFunctionChecks| ==>
      HebrewFunctionChecks[i].1 + InFile(name) != "Hebrew text" + InFile(name)
  {
    var suffix := InFile(name);
    assert forall i :: 0 <= i < |HebrewFunctionChecks| ==> |HebrewFunctionChecks[i].1 + suffix| == |HebrewFunctionChecks[i].1| + |suffix|;
    assert |HebrewFunctionChecks[0].1| == 25 && |HebrewFunctionChecks[1].1| == 21 && |HebrewFunctionChecks[2].1| == 27;
    assert |HebrewFunctionChecks[3].1| == 24 && |HebrewFunctionChecks[4].1| == 20;
  }

  /** The Hebrew features found in one source file, if it exists: one per
      signal of the file that holds, each named after what it found. */
  function SourceHebrewFeatures(files: map<string, FileOnDisk>, name: string, search: Search): (found: seq<string>)
    ensures |found| == CountTrue(SourceSignals(files, name, search))
    ensures name !in files ==> found == []
    ensures name in files ==>
      ("Hebrew text" + InFile(name) in found <==> search(HebrewTextPattern, files[name].content, false))
    ensures name in files ==> forall i :: 0 <= i < |HebrewFunctionChecks| ==>
      (HebrewFunctionChecks[i].1 + InFile(name) in found <==> search(HebrewFunctionChecks[i].0, files[name].content, false))
  {
    if name !in files then
      CountTrueNone(SourceSignals(files, name, search));
      []
    else
      var content := files[name].content;
      var text := search(HebrewTextPattern, content, false);
      var functions := Matched(HebrewFunctionChecks, content, search, false, InFile(name));
      SourceSignalsPresent(files, name, search);
      CountTrueAppend([text], Hits(HebrewFunctionChecks, content, search, false));
      HebrewFeatureNames(name);
      assert forall i :: 0 <= i < |HebrewFunctionChecks| ==>
        (HebrewFunctionChecks[i].1 + InFile(name) in functions <==> search(HebrewFunctionChecks[i].0, content, false))
      by {
        forall i | 0 <= i < |HebrewFunctionChecks| {
          MatchedReports(HebrewFunctionChecks, content, search, false, InFile(name), i);
        }
      }
      (if text then ["Hebrew text" + InFile(name)] else []) + functions
  }

  lemma DocSignalsCount(files: map<string, FileOnDisk>, search: Search)
    ensures SetupGuide in files ==>
      DocSignals(files, search) == Hits(HebrewDocChecks, files[SetupGuide].content, search, true)
    ensures SetupGuide !in files ==> CountTrue(DocSignals(files, search)) == 0
  {
    if SetupGuide !in files {
      CountTrueNone(DocSignals(files, search));
    }
  }

  /** `hebrew_features`: both source files, then the setup guide. One
      feature per Hebrew signal that holds. */
  function HebrewFeatures(files: map<string, FileOnDisk>, search: Search): (found: seq<string>)
    ensures |found| == CountTrue(HebrewSignals(files, search))
    ensures forall x :: x in found <==>
      || x in SourceHebrewFeatures(files, ProviderFile, search)
      || x in SourceHebrewFeatures(files, IntegrationFile, search)
      || (SetupGuide in files &&
          exists i :: 0 <= i < |HebrewDocChecks| && search(HebrewDocChecks[i].0, files[SetupGuide].content, true)
                      && x == HebrewDocChecks[i].1 + " in documentation")
  {
    var provider := SourceHebrewFeatures(files, ProviderFile, search);
    var integration := SourceHebrewFeatures(files, IntegrationFile, search);
    var doc := if SetupGuide in files
       then Matched(HebrewDocChecks, files[SetupGuide].content, search, true, " in documentation")
       else [];
    DocSignalsCount(files, search);
    CountTrueAppend(SourceSignals(files, ProviderFile, search), SourceSignals(files, IntegrationFile, search));
    CountTrueAppend(SourceSignals(files, ProviderFile, search) + SourceSignals(files, IntegrationFile, search),
                    DocSignals(files, search));
    provider + integration + doc
  }

  /** `validate_hebrew_support`: at least eight of the seventeen Hebrew signals hold. */
  function HebrewSupportOk(files: map<string, FileOnDisk>, search: Search): (ok: bool)
    ensures ok <==> CountTrue(HebrewSignals(files, search)) >= 8
  {
    |HebrewFeatures(files, search)| >= 8
  }

  /** Eight features cannot be collected from one source file and no guide. */
  lemma HebrewSupportNeedsTwoSources(files: map<string, FileOnDisk>, search: Search)
    requires SetupGuide !in files
    requires ProviderFile !in files || IntegrationFile !in files
    ensures !HebrewSupportOk(files, search)
  {
    DocSignalsCount(files, search);
    var absent := if ProviderFile !in files then ProviderFile else IntegrationFile;
    CountTrueNone(SourceSignals(files, absent, search));
    CountTrueAppend(SourceSignals(files, ProviderFile, search), SourceSignals(files, IntegrationFile, search));
    CountTrueAppend(SourceSignals(files, ProviderFile, search) + SourceSignals(files, IntegrationFile, search),
                    DocSignals(files, search));
  }

  // ------------------------------------------------------------ configuration

  /** The distinct strings of a list (`set(xs)`); a list without duplicates keeps its length. */
  function ToSet(xs: seq<string>): (s: set<string>)
    ensures |s| <= |xs|
    ensures forall x :: x in s <==> x in xs
    ensures NoDuplicates(xs) ==> |s| == |xs|
  {
    if xs == [] then {}
    else
      var rest := ToSet(xs[1..]);
      ToSetStep(xs, rest);
      {xs[0]} + rest
  }

  /** Adding the head of a list to the set of its tail gives the set of the
      list. */
  lemma ToSetStep(xs: seq<string>, rest: set<string>)
    requires xs != []
    requires |rest| <= |xs| - 1
    requires forall x :: x in rest <==> x in xs[1..]
    requires NoDuplicates(xs[1..]) ==> |rest| == |xs| - 1
    ensures |{xs[0]} + rest| <= |xs|
    ensures forall x :: x in {xs[0]} + rest <==> x in xs
    ensures NoDuplicates(xs) ==> |{xs[0]} + rest| == |xs|
  {
    assert forall x :: x in xs ==> x == xs[0] || x in xs[1..];
    if NoDuplicates(xs) {
      assert NoDuplicates(xs[1..]);
      assert xs[0] !in xs[1..];
    }
  }

  const EnvVarPatterns: seq<string> := [
    "GOOGLE_VERTEX_PROJECT",
    "GOOGLE_VERTEX_LOCATION",
    "GOOGLE_APPLICATION_CREDENTIALS",
    "LANG.*he_IL.UTF-8",
    "LC_ALL.*he_IL.UTF-8"
  ]

  const CredentialChecks: seq<(string, string)> := [
    ("project_id", "GCP Project ID configuration"),
    ("location", "GCP Region configuration"),
    ("service_account", "Service Account configuration"),
    ("credentials_path", "Credentials path configuration")
  ]

  /** Each environment-variable pattern paired with the entry it adds. */
  function EnvVarChecks(vars: seq<string>): (checks: seq<(string, string)>)
    ensures |checks| == |vars|
    ensures forall i :: 0 <= i < |vars| ==> checks[i] == (vars[i], "Environment variable " + vars[i])
  {
    if vars == [] then []
    else
      var rest := EnvVarChecks(vars[1..]);
      assert forall i :: 1 <= i < |vars| ==> vars[1..][i - 1] == vars[i];
      [(vars[0], "Environment variable " + vars[0])] + rest
  }

  /** Which environment variables the compose file configures; all false without it. */
  function EnvSignals(files: map<string, FileOnDisk>, search: Search): (sig: seq<bool>)
    ensures |sig| == 5
  {
    seq(5, i requires 0 <= i < 5 =>
      ComposeFile in files && search(EnvVarPatterns[i], files[ComposeFile].content, false))
  }

  /** Which credential settings a source file mentions; all false without it. */
  function CredentialSignals(files: map<string, FileOnDisk>, name: string, search: Search): (sig: seq<bool>)
    ensures |sig| == 4
  {
    seq(4, i requires 0 <= i < 4 =>
      name in files && search(CredentialChecks[i].0, files[name].content, false))
  }

  /** The thirteen configuration signals: each environment variable in the
      compose file, then each credential pattern in each source file. */
  function ConfigSignals(files: map<string, FileOnDisk>, search: Search): seq<bool> {
    EnvSignals(files, search)
    + CredentialSignals(files, ProviderFile, search)
    + CredentialSignals(files, IntegrationFile, search)
  }

  /** `x` is the entry the source adds for an environment variable whose
      pattern matches the compose file. */
  predicate EnvEntryFound(files: map<string, FileOnDisk>, search: Search, x: string) {
    ComposeFile in files &&
    exists i :: 0 <= i < |EnvVarPatterns| && search(EnvVarPatterns[i], files[ComposeFile].content, false)
                && x == "Environment variable " + EnvVarPatterns[i]
  }

  /** `x` is the entry the source adds for a credential pattern that matches
      source file `name`. */
  predicate CredentialEntryFound(files: map<string, FileOnDisk>, name: string, search: Search, x: string) {
    name in files &&
    exists i :: 0 <= i < |CredentialChecks| && search(CredentialChecks[i].0, files[name].content, false)
                && x == CredentialChecks[i].1 + InFile(name)
  }

  /** The entries of the environment-variable checks. */
  function EnvEntries(files: map<string, FileOnDisk>, search: Search): (found: seq<string>)
    ensures |found| == CountTrue(EnvSignals(files, search))
  {
    if ComposeFile in files then
      var checks := EnvVarChecks(EnvVarPatterns);
      assert EnvSignals(files, search) == Hits(checks, files[ComposeFile].content, search, false);
      Matched(checks, files[ComposeFile].content, search, false, "")
    else
      CountTrueNone(EnvSignals(files, search));
      []
  }

  /** The entries of the credential checks of one source file. */
  function CredentialEntries(files: map<string, FileOnDisk>, name: string, search: Search): (found: seq<string>)
    ensures |found| == CountTrue(CredentialSignals(files, name, search))
  {
    if name in files then
      assert CredentialSignals(files, name, search) == Hits(CredentialChecks, files[name].content, search, false);
      Matched(CredentialChecks, files[name].content, search, false, InFile(name))
    else
      CountTrueNone(CredentialSignals(files, name, search));
      []
  }

  /** The environment entries are exactly those the source adds for the
      matching variables. */
  lemma EnvEntriesMembers(files: map<string, FileOnDisk>, search: Search)
    ensures forall x :: x in EnvEntries(files, search) <==> EnvEntryFound(files, search, x)
  {
    if ComposeFile in files {
      var checks := EnvVarChecks(EnvVarPatterns);
      assert forall i :: 0 <= i < |checks| ==>
        checks[i].0 == EnvVarPatterns[i] && checks[i].1 + "" == "Environment variable " + EnvVarPatterns[i];
    }
  }

  /** The credential entries of a source file are exactly those the source
      adds for its matching credential patterns. */
  lemma CredentialEntriesMembers(files: map<string, FileOnDisk>, name: string, search: Search)
    ensures forall x :: x in CredentialEntries(files, name, search) <==> CredentialEntryFound(files, name, search, x)
  {
  }

  /** `config_checks` before de-duplication: one entry per configuration
      signal that holds, exactly the entries the source adds, and no entry
      twice. */
  function ConfigChecks(files: map<string, FileOnDisk>, search: Search): (checks: seq<string>)
    ensures |checks| == CountTrue(ConfigSignals(files, search))
    ensures forall x :: x in checks <==>
      || EnvEntryFound(files, search, x)
      || CredentialEntryFound(files, ProviderFile, search, x)
      || CredentialEntryFound(files, IntegrationFile, search, x)
    ensures NoDuplicates(checks)
  {
    ConfigEntriesCount(files, search);
    ConfigEntriesDistinct(files, search);
    EnvEntriesMembers(files, search);
    CredentialEntriesMembers(files, ProviderFile, search);
    CredentialEntriesMembers(files, IntegrationFile, search);
    EnvEntries(files, search) + CredentialEntries(files, ProviderFile, search)
      + CredentialEntries(files, IntegrationFile, search)
  }

  lemma ConfigEntriesCount(files: map<string, FileOnDisk>, search: Search)
    ensures |EnvEntries(files, search) + CredentialEntries(files, ProviderFile, search)
             + CredentialEntries(files, IntegrationFile, search)| == CountTrue(ConfigSignals(files, search))
  {
    CountTrueAppend(EnvSignals(files, search), CredentialSignals(files, ProviderFile, search));
    CountTrueAppend(EnvSignals(files, search) + CredentialSignals(files, ProviderFile, search),
                    CredentialSignals(files, IntegrationFile, search));
  }

  lemma ConfigEntriesDistinct(files: map<string, FileOnDisk>, search: Search)
    ensures NoDuplicates(EnvEntries(files, search) + CredentialEntries(files, ProviderFile, search)
                         + CredentialEntries(files, IntegrationFile, search))
  {
    var env := EnvEntries(files, search);
    var sources := CredentialEntries(files, ProviderFile, search) + CredentialEntries(files, IntegrationFile, search);
    assert NoDuplicates(env) && forall x :: x in env ==> |x| > 0 && x[0] == 'E' by {
      EnvEntriesDistinct(files, search);
    }
    SourceEntriesDistinct(files, search);
    FirstCharApart(env, sources, 'E');
    NoDuplicatesAppend(env, sources);
    AppendAssoc(env, CredentialEntries(files, ProviderFile, search), CredentialEntries(files, IntegrationFile, search));
  }

  lemma AppendAssoc(a: seq<string>, b: seq<string>, c: seq<string>)
    ensures a + (b + c) == a + b + c
  {
  }

  /** Strings ending with `s1` are none of the strings ending with `s2` when
      no string ends with both. */
  lemma SuffixGroupsApart(a: seq<string>, b: seq<string>, s1: string, s2: string)
    requires forall x :: x in a ==> EndsWith(x, s1)
    requires forall x :: x in b ==> EndsWith(x, s2)
    requires forall x :: !(EndsWith(x, s1) && EndsWith(x, s2))
    ensures forall x :: x in a ==> x !in b
  {
  }

  /** Strings that start with `c` are none of the strings that do not. */
  lemma FirstCharApart(a: seq<string>, b: seq<string>, c: char)
    requires forall x :: x in a ==> |x| > 0 && x[0] == c
    requires forall x :: x in b ==> |x| > 0 && x[0] != c
    ensures forall x :: x in a ==> x !in b
  {
  }

  /** The credential entries of the two source files together repeat
      nothing, because their file suffixes differ, and none starts with "E". */
  lemma SourceEntriesDistinct(files: map<string, FileOnDisk>, search: Search)
    ensures NoDuplicates(CredentialEntries(files, ProviderFile, search) + CredentialEntries(files, IntegrationFile, search))
    ensures forall x :: x in CredentialEntries(files, ProviderFile, search) + CredentialEntries(files, IntegrationFile, search) ==>
      |x| > 0 && x[0] != 'E'
  {
    FileSuffixesApart();
    CredentialPairDistinct(files, ProviderFile, IntegrationFile, search);
  }

  /** No text ends with both file suffixes. */
  lemma FileSuffixesApart()
    ensures forall x :: !(EndsWith(x, InFile(ProviderFile)) && EndsWith(x, InFile(IntegrationFile)))
  {
    FileSuffixesDiffer();
    SuffixesApart(InFile(ProviderFile), InFile(IntegrationFile), 4);
  }

  /** The credential entries of two files whose suffixes no text shares
      repeat nothing when joined, and none starts with "E". */
  lemma CredentialPairDistinct(files: map<string, FileOnDisk>, n1: string, n2: string, search: Search)
    requires forall x :: !(EndsWith(x, InFile(n1)) && EndsWith(x, InFile(n2)))
    ensures NoDuplicates(CredentialEntries(files, n1, search) + CredentialEntries(files, n2, search))
    ensures forall x :: x in CredentialEntries(files, n1, search) + CredentialEntries(files, n2, search) ==>
      |x| > 0 && x[0] != 'E'
  {
    CredentialEntriesDistinct(files, n1, search);
    CredentialEntriesDistinct(files, n2, search);
    SuffixGroupsJoin(CredentialEntries(files, n1, search), CredentialEntries(files, n2, search), InFile(n1), InFile(n2), 'E');
  }

  /** `xs` repeats nothing, and each entry is non-empty, does not start
      with `c` and ends with `suffix`. */
  predicate SuffixGroup(xs: seq<string>, suffix: string, c: char) {
    NoDuplicates(xs) && forall x :: x in xs ==> |x| > 0 && x[0] != c && EndsWith(x, suffix)
  }

  /** Two duplicate-free lists whose entries end with suffixes no string
      ends with both join into a duplicate-free list; a first character
      that neither uses stays unused. */
  lemma SuffixGroupsJoin(a: seq<string>, b: seq<string>, s1: string, s2: string, c: char)
    requires SuffixGroup(a, s1, c) && SuffixGroup(b, s2, c)
    requires forall x :: !(EndsWith(x, s1) && EndsWith(x, s2))
    ensures NoDuplicates(a + b)
    ensures forall x :: x in a + b ==> |x| > 0 && x[0] != c
  {
    SuffixGroupsApart(a, b, s1, s2);
    NoDuplicatesAppend(a, b);
    assert forall x :: x in a + b ==> x in a || x in b;
  }

  /** `x` ends with `suffix`. */
  predicate EndsWith(x: string, suffix: string) {
    |suffix| <= |x| && x[|x| - |suffix|..] == suffix
  }

  /** A text ending with `suffix` shares its `k`-th last character. */
  lemma SuffixChar(x: string, suffix: string, k: nat)
    requires 1 <= k <= |suffix|
    ensures EndsWith(x, suffix) ==> x[|x| - k] == suffix[|suffix| - k]
  {
    if EndsWith(x, suffix) {
      assert x[|x| - |suffix|..][|suffix| - k] == x[|x| - k];
    }
  }

  /** No text ends with two suffixes that differ in their `k`-th last character. */
  lemma SuffixesApart(s1: string, s2: string, k: nat)
    requires 1 <= k <= |s1| && k <= |s2| && s1[|s1| - k] != s2[|s2| - k]
    ensures forall x :: !(EndsWith(x, s1) && EndsWith(x, s2))
  {
    forall x
      ensures !(EndsWith(x, s1) && EndsWith(x, s2))
    {
      SuffixChar(x, s1, k);
      SuffixChar(x, s2, k);
    }
  }

  /** " in vertex_ai_provider.py" and " in dify_vertex_ai_integration.py"
      differ in their fourth-last characters ('r' and 'n'). */
  lemma FileSuffixesDiffer()
    ensures 4 <= |InFile(ProviderFile)| && 4 <= |InFile(IntegrationFile)|
    ensures InFile(ProviderFile)[|InFile(ProviderFile)| - 4] != InFile(IntegrationFile)[|InFile(IntegrationFile)| - 4]
  {
    var a, b := InFile(ProviderFile), InFile(IntegrationFile);
    assert a[|a| - 4] == 'r' && b[|b| - 4] == 'n';
  }

  /** Pairwise different descriptions stay different once the same suffix
      is appended. */
  lemma SuffixKeepsDistinct(checks: seq<(string, string)>, suffix: string)
    requires forall i, j :: 0 <= i < j < |checks| ==> checks[i].1 != checks[j].1
    ensures DistinctDescriptions(checks, suffix)
  {
    forall i, j | 0 <= i < j < |checks|
      ensures checks[i].1 + suffix != checks[j].1 + suffix
    {
      assert checks[i].1 == (checks[i].1 + suffix)[..|checks[i].1|];
      assert checks[j].1 == (checks[j].1 + suffix)[..|checks[j].1|];
    }
  }

  /** Every reported entry starts with the first character of some check
      description and ends with the suffix. */
  lemma MatchedShape(
    checks: seq<(string, string)>, content: string, search: Search, ignoreCase: bool, suffix: string, first: set<char>)
    requires forall i :: 0 <= i < |checks| ==> |checks[i].1| > 0 && checks[i].1[0] in first
    ensures forall x :: x in Matched(checks, content, search, ignoreCase, suffix) ==>
      |x| > 0 && x[0] in first && EndsWith(x, suffix)
  {
    forall x | x in Matched(checks, content, search, ignoreCase, suffix)
      ensures |x| > 0 && x[0] in first && EndsWith(x, suffix)
    {
      var i :| 0 <= i < |checks| && search(checks[i].0, content, ignoreCase) && x == checks[i].1 + suffix;
      assert x[0] == checks[i].1[0];
      assert x[|x| - |suffix|..] == suffix;
    }
  }

  /** Every description is non-empty and starts with a character of
      `first`, and no two descriptions are equal. */
  predicate DescriptionGroup(checks: seq<(string, string)>, first: set<char>) {
    && (forall i :: 0 <= i < |checks| ==> |checks[i].1| > 0 && checks[i].1[0] in first)
    && (forall i, j :: 0 <= i < j < |checks| ==> checks[i].1 != checks[j].1)
  }

  /** Checks with pairwise different descriptions report a duplicate-free
      list, each entry starting like some description and ending with the
      suffix. */
  lemma MatchedGroup(
    checks: seq<(string, string)>, content: string, search: Search, ignoreCase: bool, suffix: string, first: set<char>)
    requires DescriptionGroup(checks, first)
    ensures NoDuplicates(Matched(checks, content, search, ignoreCase, suffix))
    ensures forall x :: x in Matched(checks, content, search, ignoreCase, suffix) ==>
      |x| > 0 && x[0] in first && EndsWith(x, suffix)
  {
    SuffixKeepsDistinct(checks, suffix);
    MatchedNoDuplicates(checks, content, search, ignoreCase, suffix);
    MatchedShape(checks, content, search, ignoreCase, suffix, first);
  }

  /** `MatchedGroup` for a case-sensitive group none of whose descriptions
      starts with `avoid`. */
  lemma MatchedGroupAvoids(
    checks: seq<(string, string)>, content: string, search: Search, suffix: string, first: set<char>, avoid: char)
    requires DescriptionGroup(checks, first)
    requires avoid !in first
    ensures SuffixGroup(Matched(checks, content, search, false, suffix), suffix, avoid)
  {
    MatchedGroup(checks, content, search, false, suffix, first);
  }

  /** `MatchedGroup` for a case-sensitive, unsuffixed group whose
      descriptions all start with `c`. */
  lemma MatchedGroupStarts(checks: seq<(string, string)>, content: string, search: Search, c: char)
    requires DescriptionGroup(checks, {c})
    ensures NoDuplicates(Matched(checks, content, search, false, ""))
    ensures forall x :: x in Matched(checks, content, search, false, "") ==> |x| > 0 && x[0] == c
  {
    MatchedGroup(checks, content, search, false, "", {c});
  }

  /** The environment-variable descriptions are pairwise different and all
      start with "E". */
  lemma EnvDescriptions()
    ensures DescriptionGroup(EnvVarChecks(EnvVarPatterns), {'E'})
  {
    var v := EnvVarPatterns;
    assert |v[0]| == 21 && |v[1]| == 22 && |v[2]| == 30 && |v[3]| == 17 && |v[4]| == 19;
    EnvVarChecksGroup(v);
  }

  /** Distinct variable patterns give distinct descriptions, since all
      share the one prefix. */
  lemma EnvVarChecksGroup(vars: seq<string>)
    requires NoDuplicates(vars)
    ensures DescriptionGroup(EnvVarChecks(vars), {'E'})
  {
    var checks := EnvVarChecks(vars);
    var prefix := "Environment variable ";
    forall i, j | 0 <= i < j < |checks|
      ensures checks[i].1 != checks[j].1
    {
      assert vars[i] == checks[i].1[|prefix|..];
      assert vars[j] == checks[j].1[|prefix|..];
    }
    forall i | 0 <= i < |checks|
      ensures |checks[i].1| > 0 && checks[i].1[0] in {'E'}
    {
      assert checks[i].1[0] == prefix[0];
    }
  }

  /** Environment entries are distinct and all start with "E". */
  lemma EnvEntriesDistinct(files: map<string, FileOnDisk>, search: Search)
    ensures NoDuplicates(EnvEntries(files, search))
    ensures forall x :: x in EnvEntries(files, search) ==> |x| > 0 && x[0] == 'E'
  {
    if ComposeFile in files {
      EnvDescriptions();
      MatchedGroupStarts(EnvVarChecks(EnvVarPatterns), files[ComposeFile].content, search, 'E');
    }
  }

  /** The credential descriptions are pairwise different and none starts with "E". */
  lemma CredentialDescriptions()
    ensures DescriptionGroup(CredentialChecks, {'G', 'S', 'C'})
  {
    assert |CredentialChecks[0].1| == 28 && |CredentialChecks[1].1| == 24;
    assert |CredentialChecks[2].1| == 29 && |CredentialChecks[3].1| == 30;
  }

  /** Credential entries of one source file are distinct, do not start with
      "E", and end with the file's suffix. */
  lemma CredentialEntriesDistinct(files: map<string, FileOnDisk>, name: string, search: Search)
    ensures SuffixGroup(CredentialEntries(files, name, search), InFile(name), 'E')
  {
    if name in files {
      CredentialDescriptions();
      MatchedGroupAvoids(CredentialChecks, files[name].content, search, InFile(name), {'G', 'S', 'C'}, 'E');
    }
  }

  /** `validate_configuration_completeness`: at least ten of the thirteen configuration signals hold. */
  function ConfigurationOk(files: map<string, FileOnDisk>, search: Search): (ok: bool)
    ensures ok <==> CountTrue(ConfigSignals(files, search)) >= 10
  {
    |ToSet(ConfigChecks(files, search))| >= 10
  }

  /** Without the compose file at most eight checks remain, so the configuration check fails. */
  lemma ConfigurationNeedsCompose(files: map<string, FileOnDisk>, search: Search)
    requires ComposeFile !in files
    ensures !ConfigurationOk(files, search)
  {
    CountTrueNone(EnvSignals(files, search));
    CountTrueAppend(EnvSignals(files, search), CredentialSignals(files, ProviderFile, search));
    CountTrueAppend(EnvSignals(files, search) + CredentialSignals(files, ProviderFile, search),
                    CredentialSignals(files, IntegrationFile, search));
  }

  // ----------------------------------------------------------------- report

  /** `validation_results`, in report order. */
  datatype Results = Results(
    fileStructure: bool, vertexAiProvider: bool, difyIntegration: bool, hebrewSupport: bool, configuration: bool)

  function AsList(r: Results): seq<bool> {
    [r.fileStructure, r.vertexAiProvider, r.difyIntegration, r.hebrewSupport, r.configuration]
  }

  /** `passed_tests`. */
  function Passed(r: Results): nat {
    CountTrue(AsList(r))
  }

  /** `(passed_tests / total_tests) * 100`. For five validations the float
      result is the exact integer, so integer arithmetic models it. */
  function Score(r: Results): (score: nat)
    ensures score == 20 * Passed(r)
    ensures score in {0, 20, 40, 60, 80, 100}
  {
    Passed(r) * 100 / |AsList(r)|
  }

  datatype Status = Ready | NeedsWork | Incomplete

  function StatusOf(score: int): Status {
    if score >= 80 then Ready else if score >= 60 then NeedsWork else Incomplete
  }

  /** Ordering of verdicts: INCOMPLETE below NEEDS_WORK below READY. */
  function Rank(s: Status): nat {
    match s
    case Incomplete => 0
    case NeedsWork => 1
    case Ready => 2
  }

  /** READY means at least four of the five validations passed, NEEDS_WORK
      exactly three, INCOMPLETE at most two. */
  lemma StatusByPassed(r: Results)
    ensures StatusOf(Score(r)) == Ready <==> Passed(r) >= 4
    ensures StatusOf(Score(r)) == NeedsWork <==> Passed(r) == 3
    ensures StatusOf(Score(r)) == Incomplete <==> Passed(r) <= 2
  {
  }

  /** Passing more validations never yields a worse verdict. */
  lemma StatusMonotone(r1: Results, r2: Results)
    requires Passed(r1) <= Passed(r2)
    ensures Rank(StatusOf(Score(r1))) <= Rank(StatusOf(Score(r2)))
  {
  }

  datatype Report = Report(results: Results, score: nat, status: Status)

  /** The five validation verdicts, each from its own check. */
  function Verdicts(files: map<string, FileOnDisk>, search: Search): (v: seq<bool>)
    ensures |v| == 5
  {
    [ StructureOk(files),
      PatternCheck(files, ProviderFile, ProviderPatterns, search),
      PatternCheck(files, IntegrationFile, IntegrationPatterns, search),
      HebrewSupportOk(files, search),
      ConfigurationOk(files, search) ]
  }

  /** What the first three verdicts mean: the required files, then the
      pattern checks of the two source files. */
  lemma VerdictsMean(files: map<string, FileOnDisk>, search: Search)
    ensures Verdicts(files, search)[0] <==> StructureOk(files)
    ensures Verdicts(files, search)[1] <==>
      ProviderFile in files && forall i :: 0 <= i < |ProviderPatterns| ==> search(ProviderPatterns[i], files[ProviderFile].content, false)
    ensures Verdicts(files, search)[2] <==>
      IntegrationFile in files && forall i :: 0 <= i < |IntegrationPatterns| ==> search(IntegrationPatterns[i], files[IntegrationFile].content, false)
  {
    var v := Verdicts(files, search);
    assert v[1] == PatternCheck(files, ProviderFile, ProviderPatterns, search);
    assert v[2] == PatternCheck(files, IntegrationFile, IntegrationPatterns, search);
  }

  /** What the last two verdicts mean: enough Hebrew signals, enough
      configuration signals. */
  lemma VerdictsCount(files: map<string, FileOnDisk>, search: Search)
    ensures Verdicts(files, search)[3] <==> CountTrue(HebrewSignals(files, search)) >= 8
    ensures Verdicts(files, search)[4] <==> CountTrue(ConfigSignals(files, search)) >= 10
  {
    HebrewVerdict(files, search);
    ConfigurationVerdict(files, search);
  }

  lemma HebrewVerdict(files: map<string, FileOnDisk>, search: Search)
    ensures Verdicts(files, search)[3] == HebrewSupportOk(files, search)
  {
  }

  lemma ConfigurationVerdict(files: map<string, FileOnDisk>, search: Search)
    ensures Verdicts(files, search)[4] == ConfigurationOk(files, search)
  {
  }

  /** `generate_validation_report`: run the five validations, then score them. */
  method GenerateValidationReport(files: map<string, FileOnDisk>, search: Search) returns (report: Report)
    ensures AsList(report.results) == Verdicts(files, search)
    ensures report.results.fileStructure <==> StructureOk(files)
    ensures report.results.vertexAiProvider <==>
      ProviderFile in files && forall i :: 0 <= i < |ProviderPatterns| ==> search(ProviderPatterns[i], files[ProviderFile].content, false)
    ensures report.results.difyIntegration <==>
      IntegrationFile in files && forall i :: 0 <= i < |IntegrationPatterns| ==> search(IntegrationPatterns[i], files[IntegrationFile].content, false)
    ensures report.results.hebrewSupport <==> CountTrue(HebrewSignals(files, search)) >= 8
    ensures report.results.configuration <==> CountTrue(ConfigSignals(files, search)) >= 10
    ensures report.score == 20 * Passed(report.results)
    ensures report.status == Ready <==> Passed(report.results) >= 4
    ensures report.status == NeedsWork <==> Passed(report.results) == 3
  {
    var structure, _ := ValidateFileStructure(files);
    var v := Verdicts(files, search);
    VerdictsMean(files, search);
    VerdictsCount(files, search);
    var results := Results(structure, v[1], v[2], v[3], v[4]);
    var score := Score(results);
    StatusByPassed(results);
    report := Report(results, score, StatusOf(score));
  }

  /** `main`: exit code 0 exactly when the report says READY, that is when
      at least four of the five validations pass; 1 otherwise. */
  method MainExitCode(files: map<string, FileOnDisk>, search: Search) returns (code: int)
    ensures code == 0 || code == 1
    ensures code == 0 <==> CountTrue(Verdicts(files, search)) >= 4
  {
    var report := GenerateValidationReport(files, search);
    code := if report.status == Ready then 0 else 1;
  }
}
