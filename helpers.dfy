/**
 * `validate_api_key`, and the choice of format that `load_config_file` and
 * `save_config_file` make from a path's suffix before any reading or writing.
 */
module Helpers {
  import opened Wrappers
  import opened Strings
  import opened Paths

  // ---------------------------------------------------------------- API keys

  /**
   * `validate_api_key(api_key, provider)`: the provider is compared lower-cased, the key as
   * given. Whatever the provider, an accepted key starts with `sk-` and is over 20 characters.
   */
  function ValidateApiKey(apiKey: string, provider: string): (valid: bool)
    ensures valid ==> StartsWith(apiKey, "sk-") && |apiKey| > 20
  {
    var p := Lower(provider);
    if p == "openai" then StartsWith(apiKey, "sk-") && |apiKey| > 20
    else if p == "anthropic" then
      AntPrefixExtendsSk(apiKey);
      StartsWith(apiKey, "sk-ant-") && |apiKey| > 30
    else false
  }

  /** `sk-ant-` begins with `sk-`. */
  lemma AntPrefixExtendsSk(apiKey: string)
    ensures StartsWith(apiKey, "sk-ant-") ==> StartsWith(apiKey, "sk-")
  {
    if StartsWith(apiKey, "sk-ant-") {
      assert apiKey[..3] == apiKey[..7][..3];
    }
  }

  /** Every key accepted for Anthropic is accepted for OpenAI. */
  lemma AnthropicKeyIsOpenAiKey(apiKey: string, anthropic: string, openai: string)
    requires Lower(anthropic) == "anthropic" && Lower(openai) == "openai"
    ensures ValidateApiKey(apiKey, anthropic) ==> ValidateApiKey(apiKey, openai)
  {
    AntPrefixExtendsSk(apiKey);
  }

  /** A key of 20 characters or fewer is refused for every provider. */
  lemma ShortKeyRefused(apiKey: string, provider: string)
    requires |apiKey| <= 20
    ensures !ValidateApiKey(apiKey, provider)
  {
  }

  /** Providers that lower-case alike are treated alike. */
  lemma ProviderCaseIgnored(apiKey: string, p: string, q: string)
    requires Lower(p) == Lower(q)
    ensures ValidateApiKey(apiKey, p) == ValidateApiKey(apiKey, q)
  {
  }

  /** `OpenAI` and `OPENAI` name the OpenAI rule. */
  lemma OpenAiSpellings()
    ensures Lower("OpenAI") == "openai" && Lower("OPENAI") == "openai"
  {
    var a, b := Lower("OpenAI"), Lower("OPENAI");
    assert a[0] == 'o' && a[1] == 'p' && a[2] == 'e' && a[3] == 'n' && a[4] == 'a' && a[5] == 'i';
    assert b[0] == 'o' && b[1] == 'p' && b[2] == 'e' && b[3] == 'n' && b[4] == 'a' && b[5] == 'i';
  }

  /** The key itself is case-sensitive: an upper-case `SK-` prefix is refused where `sk-` is accepted. */
  lemma KeyCaseKept(rest: string)
    requires |rest| >= 18
    ensures ValidateApiKey("sk-" + rest, "openai")
    ensures !ValidateApiKey("SK-" + rest, "openai")
  {
    assert ("sk-" + rest)[..3] == "sk-";
    assert ("SK-" + rest)[0] == 'S';
    assert Lower("openai") == "openai" by {
      var l := Lower("openai");
      assert l[0] == 'o' && l[1] == 'p' && l[2] == 'e' && l[3] == 'n' && l[4] == 'a' && l[5] == 'i';
    }
  }

  /** A provider that is neither OpenAI nor Anthropic accepts no key. */
  lemma UnknownProviderRefuses(apiKey: string, provider: string)
    requires Lower(provider) != "openai" && Lower(provider) != "anthropic"
    ensures !ValidateApiKey(apiKey, provider)
  {
  }

  // ---------------------------------------------------------------- config file formats

  datatype ConfigFormat = Json | Yaml

  const UnsupportedFormat: string := "Unsupported config file format: "

  /**
   * The format `load_config_file` and `save_config_file` pick for a path: JSON for `.json`,
   * YAML for `.yaml` and `.yml`, and otherwise the `ValueError` naming the suffix.
   */
  function ConfigFormatOf(path: string): (r: Result<ConfigFormat, string>)
    ensures r.Success? <==> Suffix(path) == ".json" || Suffix(path) == ".yaml" || Suffix(path) == ".yml"
    ensures r.Success? ==> (r.value == Json <==> Suffix(path) == ".json")
    ensures r.Failure? ==> r.error == UnsupportedFormat + Suffix(path)
  {
    FormatOfSuffix(Suffix(path))
  }

  function FormatOfSuffix(suffix: string): (r: Result<ConfigFormat, string>)
    ensures r.Success? <==> suffix == ".json" || suffix == ".yaml" || suffix == ".yml"
    ensures r.Success? ==> (r.value == Json <==> suffix == ".json")
    ensures r.Failure? ==> r.error == UnsupportedFormat + suffix
  {
    if suffix == ".json" then Success(Json)
    else if suffix == ".yaml" || suffix == ".yml" then Success(Yaml)
    else Failure(UnsupportedFormat + suffix)
  }

  /**
   * For a file `dir/stem.ext` the choice depends on `ext` alone, compared exactly: only
   * `json`, `yaml` and `yml` are accepted, so `config.JSON` is refused.
   */
  lemma DottedConfigName(dir: string, stem: string, ext: string)
    requires dir == [] || dir[|dir| - 1] == '/'
    requires stem != [] && ext != []
    requires '/' !in stem && '/' !in ext && '.' !in ext
    ensures ConfigFormatOf(dir + stem + "." + ext).Success? <==> ext == "json" || ext == "yaml" || ext == "yml"
    ensures ConfigFormatOf(dir + stem + "." + ext) == Success(Json) <==> ext == "json"
  {
    SuffixOfDottedName(dir, stem, ext);
    ConfigFormatBySuffix(dir + stem + "." + ext, ext);
  }

  /** A path whose suffix is `.ext` gets the format `ext` names. */
  lemma ConfigFormatBySuffix(path: string, ext: string)
    requires Suffix(path) == "." + ext
    ensures ConfigFormatOf(path).Success? <==> ext == "json" || ext == "yaml" || ext == "yml"
    ensures ConfigFormatOf(path) == Success(Json) <==> ext == "json"
  {
    DotExtension(ext);
  }

  /** `"." + ext` is one of the accepted suffixes exactly when `ext` is the matching word. */
  lemma DotExtension(ext: string)
    ensures "." + ext == ".json" <==> ext == "json"
    ensures "." + ext == ".yaml" <==> ext == "yaml"
    ensures "." + ext == ".yml" <==> ext == "yml"
  {
    assert ext == ("." + ext)[1..];
    assert "json" == ".json"[1..] && "yaml" == ".yaml"[1..] && "yml" == ".yml"[1..];
  }

  /** A file named just `.json` has no suffix and is refused. */
  lemma HiddenJsonRefused(dir: string)
    requires dir == [] || dir[|dir| - 1] == '/'
    ensures ConfigFormatOf(dir + ".json") == Failure(UnsupportedFormat)
  {
    HiddenJsonHasNoSuffix(dir);
    NoSuffixRefused(dir + ".json");
  }

  /** A path without a suffix is refused, and the error names an empty suffix. */
  lemma NoSuffixRefused(path: string)
    requires Suffix(path) == []
    ensures ConfigFormatOf(path) == Failure(UnsupportedFormat)
  {
    AppendNothing(UnsupportedFormat);
  }

  lemma AppendNothing(s: string)
    ensures s + [] == s
  {
  }

  lemma HiddenJsonHasNoSuffix(dir: string)
    requires dir == [] || dir[|dir| - 1] == '/'
    ensures Suffix(dir + ".json") == []
  {
    var name := ".json";
    assert '/' !in name && '.' !in name[1..] by {
      assert name[1..] == "json";
    }
    FileNameOfJoin(dir, name);
    DotFileHasNoSuffix(name);
  }
}
