/**
 * The `Settings` dataclass of Primus OS: the fields it keeps, the environment variables that
 * override them when it is built, `is_configured`, the `.env` file `save_to_env_file` writes
 * and the `.env` parser of `load_from_env_file`.
 */
module Configuration {
  import opened Wrappers
  import opened Strings

  /** The process environment, as `os.environ` maps names to values. */
  type Environment = map<string, string>

  const OpenAiKeyVar: string := "OPENAI_API_KEY"
  const AnthropicKeyVar: string := "ANTHROPIC_API_KEY"
  const DefaultModelVar: string := "PRIMUS_DEFAULT_MODEL"
  const MaxConcurrentVar: string := "PRIMUS_MAX_CONCURRENT"
  const TimeoutVar: string := "PRIMUS_TIMEOUT"

  /** The values of the settings fields (the two path fields are not modelled). */
  datatype Snapshot = Snapshot(
    openaiApiKey: Option<string>,
    anthropicApiKey: Option<string>,
    defaultModel: string,
    embeddingModel: string,
    maxConcurrentTasks: int,
    requestTimeout: int)

  /** The dataclass defaults. */
  const Defaults: Snapshot := Snapshot(None, None, "gpt-4", "text-embedding-ada-002", 5, 30)

  // ---------------------------------------------------------------- environment overrides

  /** `os.getenv(name, default)`. */
  function Getenv(environ: Environment, name: string, default: Option<string>): Option<string> {
    if name in environ then Some(environ[name]) else default
  }

  /** `int(os.getenv(name, n))` raises no `ValueError`: a value that is set parses. */
  predicate IntVarParses(environ: Environment, name: string) {
    name in environ ==> ParseInt(environ[name]).Some?
  }

  predicate EnvIntsWellFormed(environ: Environment) {
    IntVarParses(environ, MaxConcurrentVar) && IntVarParses(environ, TimeoutVar)
  }

  /** `int(os.getenv(name, n))` when it does not raise. */
  function GetenvInt(environ: Environment, name: string, n: int): int
    requires IntVarParses(environ, name)
  {
    if name in environ then ParseInt(environ[name]).value else n
  }

  /**
   * The fields after `__post_init__` has applied the overrides of `environ` to `init`: the
   * embedding model is never overridden, and an environment that sets none of the five
   * variables changes nothing.
   */
  function FromEnvironment(init: Snapshot, environ: Environment): (r: Snapshot)
    requires EnvIntsWellFormed(environ)
    ensures r.embeddingModel == init.embeddingModel
    ensures && OpenAiKeyVar !in environ && AnthropicKeyVar !in environ && DefaultModelVar !in environ
            && MaxConcurrentVar !in environ && TimeoutVar !in environ
            ==> r == init
  {
    Snapshot(
      Getenv(environ, OpenAiKeyVar, init.openaiApiKey),
      Getenv(environ, AnthropicKeyVar, init.anthropicApiKey),
      Getenv(environ, DefaultModelVar, Some(init.defaultModel)).value,
      init.embeddingModel,
      GetenvInt(environ, MaxConcurrentVar, init.maxConcurrentTasks),
      GetenvInt(environ, TimeoutVar, init.requestTimeout))
  }

  /** The five variables `__post_init__` reads. */
  predicate SameOverrides(e1: Environment, e2: Environment) {
    forall name :: name in [OpenAiKeyVar, AnthropicKeyVar, DefaultModelVar, MaxConcurrentVar, TimeoutVar] ==>
      (name in e1 <==> name in e2) && (name in e1 ==> e1[name] == e2[name])
  }

  /**
   * Each variable that is set replaces its field, the integer ones parsed; each one that is
   * not set leaves the field as it was; the embedding model is never overridden.
   */
  lemma OverridesApplied(init: Snapshot, environ: Environment)
    requires EnvIntsWellFormed(environ)
    ensures var s := FromEnvironment(init, environ);
      && (OpenAiKeyVar in environ ==> s.openaiApiKey == Some(environ[OpenAiKeyVar]))
      && (OpenAiKeyVar !in environ ==> s.openaiApiKey == init.openaiApiKey)
      && (AnthropicKeyVar in environ ==> s.anthropicApiKey == Some(environ[AnthropicKeyVar]))
      && (AnthropicKeyVar !in environ ==> s.anthropicApiKey == init.anthropicApiKey)
      && (DefaultModelVar in environ ==> s.defaultModel == environ[DefaultModelVar])
      && (DefaultModelVar !in environ ==> s.defaultModel == init.defaultModel)
      && (MaxConcurrentVar in environ ==> Some(s.maxConcurrentTasks) == ParseInt(environ[MaxConcurrentVar]))
      && (MaxConcurrentVar !in environ ==> s.maxConcurrentTasks == init.maxConcurrentTasks)
      && (TimeoutVar in environ ==> Some(s.requestTimeout) == ParseInt(environ[TimeoutVar]))
      && (TimeoutVar !in environ ==> s.requestTimeout == init.requestTimeout)
      && s.embeddingModel == init.embeddingModel
  {
  }

  /** Only the five variables matter: environments that agree on them give the same fields. */
  lemma OnlyFiveVariablesMatter(init: Snapshot, e1: Environment, e2: Environment)
    requires EnvIntsWellFormed(e1) && SameOverrides(e1, e2)
    ensures EnvIntsWellFormed(e2)
    ensures FromEnvironment(init, e1) == FromEnvironment(init, e2)
  {
    assert OpenAiKeyVar in [OpenAiKeyVar, AnthropicKeyVar, DefaultModelVar, MaxConcurrentVar, TimeoutVar];
    assert AnthropicKeyVar in [OpenAiKeyVar, AnthropicKeyVar, DefaultModelVar, MaxConcurrentVar, TimeoutVar];
    assert DefaultModelVar in [OpenAiKeyVar, AnthropicKeyVar, DefaultModelVar, MaxConcurrentVar, TimeoutVar];
    assert MaxConcurrentVar in [OpenAiKeyVar, AnthropicKeyVar, DefaultModelVar, MaxConcurrentVar, TimeoutVar];
    assert TimeoutVar in [OpenAiKeyVar, AnthropicKeyVar, DefaultModelVar, MaxConcurrentVar, TimeoutVar];
  }

  /** Applying the overrides a second time changes nothing. */
  lemma OverridesIdempotent(init: Snapshot, environ: Environment)
    requires EnvIntsWellFormed(environ)
    ensures FromEnvironment(FromEnvironment(init, environ), environ) == FromEnvironment(init, environ)
  {
  }

  /** Without `PRIMUS_DEFAULT_MODEL` a default-built settings object uses `gpt-4`. */
  lemma DefaultModelKept(environ: Environment)
    requires EnvIntsWellFormed(environ) && DefaultModelVar !in environ
    ensures FromEnvironment(Defaults, environ).defaultModel == "gpt-4"
  {
  }

  // ---------------------------------------------------------------- is_configured

  /** Python truthiness of an `Optional[str]`. */
  predicate Truthy(o: Option<string>) {
    match o
    case None => false
    case Some(v) => v != []
  }

  /** `a or b` on two `Optional[str]` values: `a` when it is truthy, else `b`. */
  function Or(a: Option<string>, b: Option<string>): Option<string> {
    if Truthy(a) then a else b
  }

  /** `is_configured`: `bool(openai_api_key or anthropic_api_key)`. */
  function Configured(s: Snapshot): (configured: bool)
    ensures configured <==>
      (s.openaiApiKey.Some? && s.openaiApiKey.value != []) || (s.anthropicApiKey.Some? && s.anthropicApiKey.value != [])
  {
    Truthy(Or(s.openaiApiKey, s.anthropicApiKey))
  }

  /** Built from the defaults, the settings are configured exactly when a key variable is set and non-empty. */
  lemma ConfiguredFromEnvironment(environ: Environment)
    requires EnvIntsWellFormed(environ)
    ensures Configured(FromEnvironment(Defaults, environ)) <==>
      (OpenAiKeyVar in environ && environ[OpenAiKeyVar] != []) || (AnthropicKeyVar in environ && environ[AnthropicKeyVar] != [])
  {
  }

  // ---------------------------------------------------------------- the settings object

  class Settings {
    var openaiApiKey: Option<string>
    var anthropicApiKey: Option<string>
    var defaultModel: string
    var embeddingModel: string
    var maxConcurrentTasks: int
    var requestTimeout: int

    function Current(): Snapshot
      reads this
    {
      Snapshot(openaiApiKey, anthropicApiKey, defaultModel, embeddingModel, maxConcurrentTasks, requestTimeout)
    }

    /**
     * `Settings(...)`: the fields take the given values, then `__post_init__` overrides them
     * one by one from the environment.
     */
    constructor(init: Snapshot, environ: Environment)
      requires EnvIntsWellFormed(environ)
      ensures Current() == FromEnvironment(init, environ)
    {
      openaiApiKey := init.openaiApiKey;
      anthropicApiKey := init.anthropicApiKey;
      defaultModel := init.defaultModel;
      embeddingModel := init.embeddingModel;
      maxConcurrentTasks := init.maxConcurrentTasks;
      requestTimeout := init.requestTimeout;
      new;
      openaiApiKey := Getenv(environ, OpenAiKeyVar, openaiApiKey);
      anthropicApiKey := Getenv(environ, AnthropicKeyVar, anthropicApiKey);
      defaultModel := Getenv(environ, DefaultModelVar, Some(defaultModel)).value;
      maxConcurrentTasks := GetenvInt(environ, MaxConcurrentVar, maxConcurrentTasks);
      requestTimeout := GetenvInt(environ, TimeoutVar, requestTimeout);
    }

    /** The `is_configured` property: one of the two keys is present and non-empty. */
    predicate IsConfigured()
      reads this
      ensures IsConfigured() <==>
        (openaiApiKey.Some? && openaiApiKey.value != []) || (anthropicApiKey.Some? && anthropicApiKey.value != [])
    {
      Configured(Current())
    }

    /**
     * The text `save_to_env_file` writes; the write itself is not modelled. It splits into
     * the comment and the five assignments when no written string holds a line break, and
     * reads back as the five values when none has surrounding whitespace either.
     */
    function EnvFileText(): (text: string)
      reads this
      ensures Writable(Current()) ==> SplitLines(text) == RenderedLines(Current())
      ensures Savable(Current()) ==> EnvAssignments(SplitLines(text)) == SavedEnvironment(Current())
    {
      var s := Current();
      if Savable(s) then
        RenderLayout(s);
        SavedFileRoundTrip(s);
        Render(s)
      else if Writable(s) then
        RenderLayout(s);
        Render(s)
      else Render(s)
    }

    /**
     * `Settings.load_from_env_file(env_file)`: with no file, a settings object built from
     * the environment as it is; otherwise the file's assignments are exported into the
     * environment first. Building the object raises `ValueError` when an integer variable
     * does not parse, `PRIMUS_MAX_CONCURRENT` being read first.
     */
    static method LoadFromEnvFile(envFile: Option<string>, environ: Environment)
      returns (result: Result<Settings, LoadError>, environ': Environment)
      ensures environ' == if envFile.Some? then environ + EnvAssignments(SplitLines(envFile.value)) else environ
      ensures result.Success? <==> EnvIntsWellFormed(environ')
      ensures result.Success? ==> fresh(result.value) && result.value.Current() == FromEnvironment(Defaults, environ')
      ensures result.Failure? ==> result.error == FirstIntError(environ')
    {
      environ' := environ;
      if envFile.Some? {
        var envVars := ParseEnvText(envFile.value);
        environ' := ExportVariables(environ, envVars);
      }
      if !IntVarParses(environ', MaxConcurrentVar) {
        result := Failure(InvalidInt(MaxConcurrentVar, environ'[MaxConcurrentVar]));
      } else if !IntVarParses(environ', TimeoutVar) {
        result := Failure(InvalidInt(TimeoutVar, environ'[TimeoutVar]));
      } else {
        var settings := new Settings(Defaults, environ');
        result := Success(settings);
      }
    }
  }

  /** The `ValueError` of `int()`: the variable read and its value. */
  datatype LoadError = InvalidInt(name: string, literal: string)

  /** The error building settings from `environ` raises: the first integer variable that does not parse. */
  function FirstIntError(environ: Environment): LoadError
    requires !EnvIntsWellFormed(environ)
  {
    if !IntVarParses(environ, MaxConcurrentVar) then InvalidInt(MaxConcurrentVar, environ[MaxConcurrentVar])
    else InvalidInt(TimeoutVar, environ[TimeoutVar])
  }

  // ---------------------------------------------------------------- the .env parser

  /**
   * What one line of a `.env` file assigns: nothing when the stripped line is empty or
   * starts with `#`; otherwise the stripped text before the first `=` and the stripped text
   * after it.
   */
  function LineAssignment(line: string): (r: Option<(string, string)>)
    ensures r.None? <==> Strip(line) == [] || Strip(line)[0] == '#'
    ensures r.Some? ==> r.value.0 != [] || Strip(line)[0] == '='
    ensures r.Some? ==> '=' !in r.value.0 && IsStripped(r.value.0) && IsStripped(r.value.1)
  {
    var t := Strip(line);
    if t == [] || StartsWith(t, "#") then None
    else
      assert StartsWith(t, "#") <==> t[0] == '#' by {
        assert t[..1] == [t[0]];
      }
      Some(KeyAndValue(t))
  }

  /** The stripped text before the first `=` and the stripped text after it. */
  function KeyAndValue(t: string): (kv: (string, string))
    ensures '=' !in kv.0 && IsStripped(kv.0) && IsStripped(kv.1)
    ensures IsStripped(t) && t != [] && t[0] != '=' ==> kv.0 != []
  {
    var parts := Partition(t, '=');
    StripChars(parts.0);
    (Strip(parts.0), Strip(parts.1))
  }

  /** The `env_vars` dictionary after the lines `lines`, in order. */
  function EnvAssignments(lines: seq<string>): map<string, string> {
    Assignments(lines, LineAssignment)
  }

  /** The dictionary built by assigning, line after line, what `parse` finds in each line. */
  function Assignments(lines: seq<string>, parse: string -> Option<(string, string)>): map<string, string>
    decreases |lines|
  {
    if lines == [] then map[]
    else
      var before := Assignments(lines[..|lines| - 1], parse);
      var found := parse(lines[|lines| - 1]);
      if found.Some? then before[found.value.0 := found.value.1] else before
  }

  /** One more line: the dictionary gains what that line assigns. */
  lemma AssignmentsStep(lines: seq<string>, i: nat, parse: string -> Option<(string, string)>)
    requires i < |lines|
    ensures var found := parse(lines[i]);
      Assignments(lines[..i + 1], parse) ==
        if found.Some? then Assignments(lines[..i], parse)[found.value.0 := found.value.1] else Assignments(lines[..i], parse)
  {
    assert lines[..i + 1][..i] == lines[..i];
  }

  predicate Assigns(found: Option<(string, string)>, key: string) {
    found.Some? && found.value.0 == key
  }

  /** The first loop of `load_from_env_file`, over the lines of the file's text. */
  method ParseEnvText(text: string) returns (envVars: map<string, string>)
    ensures envVars == EnvAssignments(SplitLines(text))
  {
    var lines := SplitLines(text);
    envVars := map[];
    for i := 0 to |lines|
      invariant envVars == Assignments(lines[..i], LineAssignment)
    {
      AssignmentsStep(lines, i, LineAssignment);
      var line := Strip(lines[i]);
      if line != [] && !StartsWith(line, "#") {
        var (key, value) := Partition(line, '=');
        envVars := envVars[Strip(key) := Strip(value)];
      }
    }
    assert lines[..|lines|] == lines;
  }

  /** The second loop: `os.environ[key] = value` for every entry. */
  method ExportVariables(environ: Environment, envVars: map<string, string>) returns (updated: Environment)
    ensures updated == environ + envVars
  {
    updated := environ;
    var pending, done := envVars.Keys, {};
    while pending != {}
      invariant done + pending == envVars.Keys && done !! pending
      invariant updated == environ + Exported(envVars, done)
      decreases |pending|
    {
      var key :| key in pending;
      ExportedGrows(environ, envVars, done, key);
      updated := updated[key := envVars[key]];
      pending, done := pending - {key}, done + {key};
    }
    assert done == envVars.Keys;
    assert Exported(envVars, done) == envVars;
  }

  /** The entries of `envVars` whose keys are in `done`. */
  function Exported(envVars: map<string, string>, done: set<string>): map<string, string>
    requires done <= envVars.Keys
  {
    map k | k in done :: envVars[k]
  }

  lemma ExportedGrows(environ: Environment, envVars: map<string, string>, done: set<string>, key: string)
    requires done <= envVars.Keys && key in envVars
    ensures environ + Exported(envVars, done + {key}) == (environ + Exported(envVars, done))[key := envVars[key]]
  {
  }

  /**
   * A key is set exactly when some line assigns it, and then it holds the value of the
   * last such line.
   */
  lemma LastAssignmentWins(lines: seq<string>, key: string)
    ensures key in EnvAssignments(lines) <==> exists i :: 0 <= i < |lines| && Assigns(LineAssignment(lines[i]), key)
    ensures forall i :: (0 <= i < |lines| && Assigns(LineAssignment(lines[i]), key) &&
        (forall j :: i < j < |lines| ==> !Assigns(LineAssignment(lines[j]), key))) ==>
      EnvAssignments(lines)[key] == LineAssignment(lines[i]).value.1
  {
    LastWins(lines, LineAssignment, key);
  }

  lemma {:induction false} LastWins(lines: seq<string>, parse: string -> Option<(string, string)>, key: string)
    ensures key in Assignments(lines, parse) <==> exists i :: 0 <= i < |lines| && Assigns(parse(lines[i]), key)
    ensures forall i :: (0 <= i < |lines| && Assigns(parse(lines[i]), key) &&
        (forall j :: i < j < |lines| ==> !Assigns(parse(lines[j]), key))) ==>
      Assignments(lines, parse)[key] == parse(lines[i]).value.1
    decreases |lines|
  {
    if lines != [] {
      var init := lines[..|lines| - 1];
      var n := |lines| - 1;
      LastWins(init, parse, key);
      assert forall i :: 0 <= i < n ==> init[i] == lines[i];
      if Assigns(parse(lines[n]), key) {
        assert Assignments(lines, parse)[key] == parse(lines[n]).value.1;
      } else {
        assert key in Assignments(lines, parse) <==> key in Assignments(init, parse);
        assert key in Assignments(init, parse) ==> Assignments(lines, parse)[key] == Assignments(init, parse)[key];
      }
    }
  }

  /** A blank or comment line anywhere in the file makes no difference. */
  lemma IgnoredLineDropped(before: seq<string>, line: string, after: seq<string>)
    requires Strip(line) == [] || StartsWith(Strip(line), "#")
    ensures EnvAssignments(before + [line] + after) == EnvAssignments(before + after)
  {
    assert LineAssignment(line) == None;
    NothingFoundDropped(before, line, after, LineAssignment);
  }

  lemma {:induction false} NothingFoundDropped(before: seq<string>, line: string, after: seq<string>,
      parse: string -> Option<(string, string)>)
    requires parse(line) == None
    ensures Assignments(before + [line] + after, parse) == Assignments(before + after, parse)
    decreases |after|
  {
    if after == [] {
      assert (before + [line] + after)[..|before|] == before + after;
    } else {
      var init := after[..|after| - 1];
      NothingFoundDropped(before, line, init, parse);
      assert (before + [line] + after)[..|before| + |after|] == before + [line] + init;
      assert (before + after)[..|before| + |after| - 1] == before + init;
    }
  }

  /** The characters of an environment variable name as this project writes them. */
  predicate IsNameChar(c: char) {
    'A' <= c <= 'Z' || c == '_'
  }

  predicate IsEnvName(name: string) {
    name != [] && forall k :: 0 <= k < |name| ==> IsNameChar(name[k])
  }

  /** A name has none of the characters the parser treats specially. */
  lemma EnvNameIsPlain(name: string)
    requires IsEnvName(name)
    ensures IsStripped(name) && NoLineBreak(name)
    ensures '=' !in name && name[0] != '#'
  {
    assert IsNameChar(name[0]) && IsNameChar(name[|name| - 1]);
  }

  /** `KEY=value` splits at the `=` after the key, whatever `value` holds. */
  lemma PartitionAfterKey(key: string, value: string)
    requires '=' !in key
    ensures Partition(key + "=" + value, '=') == (key, value)
  {
    var line := key + "=" + value;
    var i := IndexOf(line, '=');
    assert line[|key|] == '=';
    assert forall k :: 0 <= k < |key| ==> line[k] == key[k];
    assert i == |key|;
    assert line[..i] == key;
    assert line[i + 1..] == value;
  }

  /** `KEY=value` is stripped when the key and the value are. */
  lemma AssignmentStripped(key: string, value: string)
    requires key != [] && !IsSpace(key[0]) && IsStripped(value)
    ensures IsStripped(key + "=" + value) && (key + "=" + value)[0] == key[0]
  {
    var line := key + "=" + value;
    assert line[0] == key[0];
    if value != [] {
      assert line[|line| - 1] == value[|value| - 1];
    }
  }

  /**
   * A line `KEY=value` whose key is non-empty, stripped, free of `=` and not a comment, and
   * whose value is stripped, assigns exactly that value, any further `=` included.
   */
  lemma AssignmentLine(key: string, value: string)
    requires key != [] && '=' !in key && IsStripped(key) && key[0] != '#' && IsStripped(value)
    ensures LineAssignment(key + "=" + value) == Some((key, value))
  {
    AssignmentStripped(key, value);
    KeyAndValueOf(key, value);
    ParsedAssignment(key + "=" + value);
  }

  lemma KeyAndValueOf(key: string, value: string)
    requires '=' !in key && IsStripped(key) && IsStripped(value)
    ensures KeyAndValue(key + "=" + value) == (key, value)
  {
    PartitionAfterKey(key, value);
    StripCharacterised(key);
    StripCharacterised(value);
  }

  lemma ParsedAssignment(line: string)
    requires IsStripped(line) && line != [] && line[0] != '#'
    ensures LineAssignment(line) == Some(KeyAndValue(line))
  {
    StripCharacterised(line);
    NotAComment(line);
    StrippedAssignment(line);
  }

  lemma NotAComment(line: string)
    requires line != [] && line[0] != '#'
    ensures !StartsWith(line, "#")
  {
  }

  /** A stripped line that is neither blank nor a comment assigns what `KeyAndValue` finds in it. */
  lemma StrippedAssignment(line: string)
    requires Strip(line) == line && line != [] && !StartsWith(line, "#")
    ensures LineAssignment(line) == Some(KeyAndValue(line))
  {
  }

  /** A line with no `=` that is neither blank nor a comment assigns its stripped self the empty value. */
  lemma NoEqualsLine(line: string)
    requires Strip(line) != [] && !StartsWith(Strip(line), "#") && '=' !in Strip(line)
    ensures LineAssignment(line) == Some((Strip(line), []))
  {
    StripIdempotent(line);
    StripCharacterised([]);
  }

  // ---------------------------------------------------------------- the .env writer

  const Header: string := "# Primus OS Configuration"

  /** `value or ''` for an `Optional[str]`. */
  function OrEmpty(o: Option<string>): string {
    if Truthy(o) then o.value else []
  }

  /** The lines `save_to_env_file` writes: the comment, then five assignments in a fixed order. */
  function RenderedLines(s: Snapshot): seq<string> {
    EnvFileLines(OrEmpty(s.openaiApiKey), OrEmpty(s.anthropicApiKey), s.defaultModel,
      IntToString(s.maxConcurrentTasks), IntToString(s.requestTimeout))
  }

  /** The comment line, then `KEY=value` for the five values in order. */
  function EnvFileLines(openaiKey: string, anthropicKey: string, model: string, maxConcurrent: string, timeout: string)
    : seq<string>
  {
    [ Header,
      OpenAiKeyVar + "=" + openaiKey,
      AnthropicKeyVar + "=" + anthropicKey,
      DefaultModelVar + "=" + model,
      MaxConcurrentVar + "=" + maxConcurrent,
      TimeoutVar + "=" + timeout ]
  }

  /** Each line followed by a newline. */
  function JoinLines(lines: seq<string>): (text: string)
    ensures lines != [] ==> text != [] && text[|text| - 1] == '\n'
  {
    if lines == [] then [] else lines[0] + "\n" + JoinLines(lines[1..])
  }

  /** The text of the `.env` file: the comment line first, and a newline at the end. */
  function Render(s: Snapshot): (text: string)
    ensures StartsWith(text, Header + "\n") && text[|text| - 1] == '\n'
  {
    var lines := RenderedLines(s);
    assert lines[0] == Header;
    JoinLines(lines)
  }

  /** The map the writer means to store: each of the five names bound to the value written. */
  function SavedEnvironment(s: Snapshot): Environment {
    map[OpenAiKeyVar := OrEmpty(s.openaiApiKey),
        AnthropicKeyVar := OrEmpty(s.anthropicApiKey),
        DefaultModelVar := s.defaultModel,
        MaxConcurrentVar := IntToString(s.maxConcurrentTasks),
        TimeoutVar := IntToString(s.requestTimeout)]
  }

  /** The string fields written to the file have no line break. */
  predicate Writable(s: Snapshot) {
    NoLineBreak(OrEmpty(s.openaiApiKey)) && NoLineBreak(OrEmpty(s.anthropicApiKey)) && NoLineBreak(s.defaultModel)
  }

  /** The string fields written to the file have no line break and no surrounding whitespace. */
  predicate Savable(s: Snapshot) {
    && Writable(s)
    && IsStripped(OrEmpty(s.openaiApiKey)) && IsStripped(OrEmpty(s.anthropicApiKey)) && IsStripped(s.defaultModel)
  }

  /** Splitting the joined lines gives the lines back. */
  lemma {:induction false} SplitJoin(lines: seq<string>)
    requires forall k :: 0 <= k < |lines| ==> NoLineBreak(lines[k])
    ensures SplitLines(JoinLines(lines)) == lines
    decreases |lines|
  {
    if lines != [] {
      SplitJoin(lines[1..]);
      SplitLinesCons(lines[0], JoinLines(lines[1..]));
    }
  }

  /** A name character is neither whitespace nor a line break. */
  lemma NameCharIsPlain(c: char)
    requires IsNameChar(c)
    ensures !IsSpace(c) && !IsLineBreak(c) && c != '=' && c != '#'
  {
  }

  /** `KEY=value` has no line break when the value has none. */
  lemma AssignmentNoBreak(key: string, value: string)
    requires IsEnvName(key) && NoLineBreak(value)
    ensures NoLineBreak(key + "=" + value)
  {
    var line := key + "=" + value;
    forall k | 0 <= k < |line| ensures !IsLineBreak(line[k]) {
      if k < |key| {
        assert line[k] == key[k];
        NameCharIsPlain(key[k]);
      } else if k > |key| {
        assert line[k] == value[k - |key| - 1];
      }
    }
  }

  /** The five variable names are plain names. */
  lemma VariableNamesPlain()
    ensures IsEnvName(OpenAiKeyVar) && IsEnvName(AnthropicKeyVar) && IsEnvName(DefaultModelVar)
    ensures IsEnvName(MaxConcurrentVar) && IsEnvName(TimeoutVar)
  {
    forall k | 0 <= k < |OpenAiKeyVar| ensures IsNameChar(OpenAiKeyVar[k]) {
      assert k < 7 || 7 <= k < 14;
    }
    forall k | 0 <= k < |AnthropicKeyVar| ensures IsNameChar(AnthropicKeyVar[k]) {
      assert k < 9 || 9 <= k < 17;
    }
    forall k | 0 <= k < |DefaultModelVar| ensures IsNameChar(DefaultModelVar[k]) {
      assert k < 7 || 7 <= k < 14 || 14 <= k < 20;
    }
    forall k | 0 <= k < |MaxConcurrentVar| ensures IsNameChar(MaxConcurrentVar[k]) {
      assert k < 7 || 7 <= k < 14 || 14 <= k < 21;
    }
    forall k | 0 <= k < |TimeoutVar| ensures IsNameChar(TimeoutVar[k]) {
      assert k < 7 || 7 <= k < 14;
    }
  }

  /** The comment line has no line break, and the parser skips it. */
  lemma HeaderSkipped()
    ensures NoLineBreak(Header)
    ensures LineAssignment(Header) == None
  {
    forall k | 0 <= k < |Header| ensures ' ' <= Header[k] <= '~' {
      assert k < 5 || 5 <= k < 10 || 10 <= k < 15 || 15 <= k < 20 || 20 <= k < 25;
    }
    assert Header[0] == '#' && Header[24] == 'n';
    CommentSkipped(Header);
  }

  /** A stripped line starting with `#` assigns nothing. */
  lemma CommentSkipped(line: string)
    requires IsStripped(line) && line != [] && line[0] == '#'
    ensures LineAssignment(line) == None
  {
    StripCharacterised(line);
    assert line[..1] == "#";
  }

  /**
   * `save_to_env_file` writes the comment line and the five assignments, each on a line of
   * its own, provided the written strings hold no line break.
   */
  lemma RenderLayout(s: Snapshot)
    requires Writable(s)
    ensures SplitLines(Render(s)) == RenderedLines(s)
    ensures |RenderedLines(s)| == 6 && StartsWith(RenderedLines(s)[0], "#")
  {
    VariableNamesPlain();
    HeaderSkipped();
    IntToStringShape(s.maxConcurrentTasks);
    IntToStringShape(s.requestTimeout);
    var l1, l2 := OpenAiKeyVar + "=" + OrEmpty(s.openaiApiKey), AnthropicKeyVar + "=" + OrEmpty(s.anthropicApiKey);
    var l3, l4 := DefaultModelVar + "=" + s.defaultModel, MaxConcurrentVar + "=" + IntToString(s.maxConcurrentTasks);
    var l5 := TimeoutVar + "=" + IntToString(s.requestTimeout);
    AssignmentNoBreak(OpenAiKeyVar, OrEmpty(s.openaiApiKey));
    AssignmentNoBreak(AnthropicKeyVar, OrEmpty(s.anthropicApiKey));
    AssignmentNoBreak(DefaultModelVar, s.defaultModel);
    AssignmentNoBreak(MaxConcurrentVar, IntToString(s.maxConcurrentTasks));
    AssignmentNoBreak(TimeoutVar, IntToString(s.requestTimeout));
    SixWithoutBreaks(Header, l1, l2, l3, l4, l5);
    assert Header[..1] == "#";
  }

  /** Six lines without line breaks split back into themselves once joined. */
  lemma SixWithoutBreaks(l0: string, l1: string, l2: string, l3: string, l4: string, l5: string)
    requires NoLineBreak(l0) && NoLineBreak(l1) && NoLineBreak(l2)
    requires NoLineBreak(l3) && NoLineBreak(l4) && NoLineBreak(l5)
    ensures SplitLines(JoinLines([l0, l1, l2, l3, l4, l5])) == [l0, l1, l2, l3, l4, l5]
  {
    var ls := [l0, l1, l2, l3, l4, l5];
    forall k | 0 <= k < 6 ensures NoLineBreak(ls[k]) {
      assert k == 0 || k == 1 || k == 2 || k == 3 || k == 4 || k == 5;
    }
    SplitJoin(ls);
  }

  /**
   * Reading back what `save_to_env_file` wrote gives exactly the five names, each bound to
   * the value written, provided the written strings hold no line break and no surrounding
   * whitespace.
   */
  lemma SavedFileRoundTrip(s: Snapshot)
    requires Savable(s)
    ensures EnvAssignments(SplitLines(Render(s))) == SavedEnvironment(s)
  {
    RenderLayout(s);
    IntToStringShape(s.maxConcurrentTasks);
    IntToStringShape(s.requestTimeout);
    RenderedLinesParse(OrEmpty(s.openaiApiKey), OrEmpty(s.anthropicApiKey), s.defaultModel,
      IntToString(s.maxConcurrentTasks), IntToString(s.requestTimeout));
    SixLines(Header, OpenAiKeyVar + "=" + OrEmpty(s.openaiApiKey), AnthropicKeyVar + "=" + OrEmpty(s.anthropicApiKey),
      DefaultModelVar + "=" + s.defaultModel, MaxConcurrentVar + "=" + IntToString(s.maxConcurrentTasks),
      TimeoutVar + "=" + IntToString(s.requestTimeout),
      LineAssignment, OpenAiKeyVar, AnthropicKeyVar, DefaultModelVar, MaxConcurrentVar, TimeoutVar,
      OrEmpty(s.openaiApiKey), OrEmpty(s.anthropicApiKey), s.defaultModel,
      IntToString(s.maxConcurrentTasks), IntToString(s.requestTimeout));
  }

  /** What the parser finds in each line the writer produces. */
  lemma RenderedLinesParse(v1: string, v2: string, v3: string, v4: string, v5: string)
    requires IsStripped(v1) && IsStripped(v2) && IsStripped(v3) && IsStripped(v4) && IsStripped(v5)
    ensures LineAssignment(Header) == None
    ensures LineAssignment(OpenAiKeyVar + "=" + v1) == Some((OpenAiKeyVar, v1))
    ensures LineAssignment(AnthropicKeyVar + "=" + v2) == Some((AnthropicKeyVar, v2))
    ensures LineAssignment(DefaultModelVar + "=" + v3) == Some((DefaultModelVar, v3))
    ensures LineAssignment(MaxConcurrentVar + "=" + v4) == Some((MaxConcurrentVar, v4))
    ensures LineAssignment(TimeoutVar + "=" + v5) == Some((TimeoutVar, v5))
  {
    VariableNamesPlain();
    HeaderSkipped();
    EnvNameIsPlain(OpenAiKeyVar);
    EnvNameIsPlain(AnthropicKeyVar);
    EnvNameIsPlain(DefaultModelVar);
    EnvNameIsPlain(MaxConcurrentVar);
    EnvNameIsPlain(TimeoutVar);
    AssignmentLine(OpenAiKeyVar, v1);
    AssignmentLine(AnthropicKeyVar, v2);
    AssignmentLine(DefaultModelVar, v3);
    AssignmentLine(MaxConcurrentVar, v4);
    AssignmentLine(TimeoutVar, v5);
  }

  /** A skipped line followed by five assignments builds the map of those five. */
  lemma SixLines(l0: string, l1: string, l2: string, l3: string, l4: string, l5: string,
      parse: string -> Option<(string, string)>,
      k1: string, k2: string, k3: string, k4: string, k5: string,
      v1: string, v2: string, v3: string, v4: string, v5: string)
    requires parse(l0) == None
    requires parse(l1) == Some((k1, v1)) && parse(l2) == Some((k2, v2)) && parse(l3) == Some((k3, v3))
    requires parse(l4) == Some((k4, v4)) && parse(l5) == Some((k5, v5))
    ensures Assignments([l0, l1, l2, l3, l4, l5], parse) == map[k1 := v1, k2 := v2, k3 := v3, k4 := v4, k5 := v5]
  {
    var ls := [l0, l1, l2, l3, l4, l5];
    assert ls[..0] == [];
    AssignmentsStep(ls, 0, parse);
    AssignmentsStep(ls, 1, parse);
    AssignmentsStep(ls, 2, parse);
    AssignmentsStep(ls, 3, parse);
    AssignmentsStep(ls, 4, parse);
    AssignmentsStep(ls, 5, parse);
    assert ls[..6] == ls;
  }

  /** The five variable names are pairwise different. */
  lemma VariableNamesDistinct()
    ensures OpenAiKeyVar != AnthropicKeyVar && OpenAiKeyVar != DefaultModelVar && OpenAiKeyVar != MaxConcurrentVar
    ensures OpenAiKeyVar != TimeoutVar && AnthropicKeyVar != DefaultModelVar && AnthropicKeyVar != MaxConcurrentVar
    ensures AnthropicKeyVar != TimeoutVar && DefaultModelVar != MaxConcurrentVar && DefaultModelVar != TimeoutVar
    ensures MaxConcurrentVar != TimeoutVar
  {
    assert |OpenAiKeyVar| == 14 && |AnthropicKeyVar| == 17 && |DefaultModelVar| == 20;
    assert |MaxConcurrentVar| == 21 && |TimeoutVar| == 14;
    assert OpenAiKeyVar[0] == 'O' && TimeoutVar[0] == 'P';
  }

  /** The merged environment holds the saved value of each of the five names. */
  lemma SavedLookups(s: Snapshot, environ: Environment)
    ensures var environ' := environ + SavedEnvironment(s);
      && environ'[OpenAiKeyVar] == OrEmpty(s.openaiApiKey)
      && environ'[AnthropicKeyVar] == OrEmpty(s.anthropicApiKey)
      && environ'[DefaultModelVar] == s.defaultModel
      && environ'[MaxConcurrentVar] == IntToString(s.maxConcurrentTasks)
      && environ'[TimeoutVar] == IntToString(s.requestTimeout)
  {
    VariableNamesDistinct();
  }

  /**
   * Saving settings and loading them back: the keys come back as strings (`None` as the
   * empty string), the model, the limit and the timeout come back as they were, the
   * embedding model returns to its default, and whether the settings are configured is kept.
   */
  lemma SaveThenLoad(s: Snapshot, environ: Environment)
    requires Savable(s)
    ensures var environ' := environ + EnvAssignments(SplitLines(Render(s)));
      && EnvIntsWellFormed(environ')
      && FromEnvironment(Defaults, environ') ==
           Snapshot(Some(OrEmpty(s.openaiApiKey)), Some(OrEmpty(s.anthropicApiKey)), s.defaultModel,
                    Defaults.embeddingModel, s.maxConcurrentTasks, s.requestTimeout)
      && (Configured(FromEnvironment(Defaults, environ')) <==> Configured(s))
  {
    SavedFileRoundTrip(s);
    SavedLookups(s, environ);
    ParseIntOfIntToString(s.maxConcurrentTasks);
    ParseIntOfIntToString(s.requestTimeout);
  }
}
