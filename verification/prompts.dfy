/**
 * System-prompt selection (packages/core/src/core/prompts.ts): the GEMINI_SYSTEM_MD
 * override, template mappings chosen by base URL and model name, placeholder
 * substitution, the GEMINI_WRITE_SYSTEM_MD export and the user-memory suffix.
 * Environment variables, the file system, the git check and the built-in prompt
 * text are parameters.
 */
module Prompts {
  import opened Wrappers
  import opened Text

  /** One entry of `systemPromptMappings`. */
  datatype Mapping = Mapping(baseUrls: Option<seq<string>>, modelNames: Option<seq<string>>, template: Option<string>)

  /** A file path before `path.resolve`, which is not modelled. */
  datatype PathSpec =
    | DefaultSystemMd          // <GEMINI_CONFIG_DIR>/system.md
    | HomeDir                  // os.homedir()
    | UnderHome(rest: string)  // path.join(os.homedir(), rest)
    | AsGiven(path: string)

  /** How a GEMINI_SYSTEM_MD-style variable reads. */
  datatype Flag = Off | OnDefault | OnCustom(path: PathSpec)

  /** The environment variables `getCoreSystemPrompt` consults. */
  datatype Env = Env(
    systemMd: Option<string>,       // GEMINI_SYSTEM_MD
    writeSystemMd: Option<string>,  // GEMINI_WRITE_SYSTEM_MD
    openaiModel: Option<string>,    // OPENAI_MODEL
    openaiBaseUrl: Option<string>,  // OPENAI_BASE_URL
    sandbox: Option<string>         // SANDBOX
  )

  /** The returned prompt and the file the base prompt was written to, if any. */
  datatype PromptOutcome = PromptOutcome(prompt: string, written: Option<PathSpec>)

  const GIT_PLACEHOLDER: string := "{RUNTIME_VARS_IS_GIT_REPO}"
  const SANDBOX_PLACEHOLDER: string := "{RUNTIME_VARS_SANDBOX}"
  const MEMORY_SEPARATOR: string := "\n\n---\n\n"

  /** Drops one trailing '/', if there is one. */
  function NormalizeUrl(url: string): (r: string)
    ensures url == r || url == r + "/"
    ensures url == r + "/" <==> EndsWith(url, "/")
  {
    if EndsWith(url, "/") then url[..|url| - 1] else url
  }

  /** `urlArray.some(url => normalizeUrl(url) === normalizeUrl(target))`. */
  function UrlMatches(urls: seq<string>, target: string): bool {
    if urls == [] then false
    else NormalizeUrl(urls[0]) == NormalizeUrl(target) || UrlMatches(urls[1..], target)
  }

  /** The `find` predicate applied to each mapping. */
  predicate MappingMatches(m: Mapping, baseUrl: string, model: string) {
    (m.baseUrls.Some? && m.modelNames.Some? && UrlMatches(m.baseUrls.value, baseUrl) && model in m.modelNames.value)
    || (m.baseUrls.Some? && UrlMatches(m.baseUrls.value, baseUrl) && m.modelNames.None?)
    || (m.modelNames.Some? && model in m.modelNames.value && m.baseUrls.None?)
  }

  /** `mappings.find(...)`, as the index of the first mapping that matches. */
  function FindMapping(ms: seq<Mapping>, baseUrl: string, model: string): (r: Option<nat>)
    ensures r.Some? ==> r.value < |ms| && MappingMatches(ms[r.value], baseUrl, model)
    ensures r.Some? ==> forall j :: 0 <= j < r.value ==> !MappingMatches(ms[j], baseUrl, model)
    ensures r.None? ==> forall j :: 0 <= j < |ms| ==> !MappingMatches(ms[j], baseUrl, model)
  {
    if ms == [] then None
    else if MappingMatches(ms[0], baseUrl, model) then Some(0)
    else
      match FindMapping(ms[1..], baseUrl, model)
      case None => None
      case Some(k) => Some(k + 1)
  }

  /** JavaScript `s.replace(pattern, replacement)` with a string pattern: the first occurrence only. */
  function ReplaceFirst(s: string, pattern: string, replacement: string): (r: string)
    ensures !Contains(s, pattern) ==> r == s
    ensures Contains(s, pattern) ==>
      var i := IndexOf(s, pattern).value;
      r == s[..i] + replacement + s[i + |pattern|..]
  {
    match IndexOf(s, pattern)
    case None => s
    case Some(i) => s[..i] + replacement + s[i + |pattern|..]
  }

  function BoolText(b: bool): string {
    if b then "true" else "false"
  }

  /** The placeholder substitution applied to a matched template. */
  function SubstituteTemplate(template: string, isGitRepo: bool, sandbox: Option<string>): string {
    ReplaceFirst(ReplaceFirst(template, GIT_PLACEHOLDER, BoolText(isGitRepo)), SANDBOX_PLACEHOLDER, sandbox.GetOr(""))
  }

  /** The tilde expansion applied to a custom path. */
  function CustomPath(v: string): PathSpec {
    if StartsWith(v, "~/") then UnderHome(v[2..])
    else if v == "~" then HomeDir
    else AsGiven(v)
  }

  /** Reads GEMINI_SYSTEM_MD or GEMINI_WRITE_SYSTEM_MD. */
  function ParseFlag(v: Option<string>): Flag {
    if !Truthy(v) then Off
    else
      var lower := Lower(v.value);
      if lower == "0" || lower == "false" then Off
      else if lower == "1" || lower == "true" then OnDefault
      else OnCustom(CustomPath(v.value))
  }

  /** The path a flag designates when it is on. */
  function FlagPath(f: Flag): PathSpec
    requires !f.Off?
  {
    if f.OnDefault? then DefaultSystemMd else f.path
  }

  /** The suffix appended for a non-blank user memory. */
  function MemorySuffix(userMemory: Option<string>): (r: string)
    ensures r == "" <==> userMemory.None? || Trim(userMemory.value) == ""
    ensures r != "" ==> r == MEMORY_SEPARATOR + Trim(userMemory.value)
  {
    if userMemory.Some? && userMemory.value != "" && |Trim(userMemory.value)| > 0 then
      MEMORY_SEPARATOR + Trim(userMemory.value)
    else ""
  }

  /** The template selected for the current OPENAI_BASE_URL and OPENAI_MODEL, if any. */
  function SelectedTemplate(env: Env, mappings: Option<seq<Mapping>>): Option<string> {
    if mappings.None? then None
    else
      match FindMapping(mappings.value, env.openaiBaseUrl.GetOr(""), env.openaiModel.GetOr(""))
      case None => None
      case Some(i) => mappings.value[i].template
  }

  /**
   * getCoreSystemPrompt. Fails with the system-prompt path when GEMINI_SYSTEM_MD enables an
   * override whose file is missing; returns the substituted template when a mapping with a
   * template matches; otherwise the base prompt (the override file or the built-in text)
   * followed by the memory suffix, after writing the base prompt where GEMINI_WRITE_SYSTEM_MD says.
   */
  method GetCoreSystemPrompt(
    userMemory: Option<string>, mappings: Option<seq<Mapping>>, env: Env,
    fileExists: PathSpec -> bool, readFile: PathSpec -> string, isGitRepo: bool, builtinPrompt: string)
    returns (r: Result<PromptOutcome, PathSpec>)
    ensures var f := ParseFlag(env.systemMd);
      r.Err? <==> !f.Off? && !fileExists(FlagPath(f))
    ensures r.Err? ==> r.error == FlagPath(ParseFlag(env.systemMd))
    ensures r.Ok? && SelectedTemplate(env, mappings).Some? && SelectedTemplate(env, mappings).value != "" ==>
      r.value == PromptOutcome(SubstituteTemplate(SelectedTemplate(env, mappings).value, isGitRepo, env.sandbox), None)
    ensures r.Ok? && !(SelectedTemplate(env, mappings).Some? && SelectedTemplate(env, mappings).value != "") ==>
      var f := ParseFlag(env.systemMd);
      var base := if f.Off? then builtinPrompt else readFile(FlagPath(f));
      var w := ParseFlag(env.writeSystemMd);
      r.value.prompt == base + MemorySuffix(userMemory)
      && r.value.written == (if w.Off? then None else if w.OnDefault? then Some(FlagPath(if f.Off? then OnDefault else f)) else Some(w.path))
  {
    var systemMdEnabled := false;
    var systemMdPath := DefaultSystemMd;
    var systemMdVar := env.systemMd;
    if Truthy(systemMdVar) {
      var lower := Lower(systemMdVar.value);
      if !(lower == "0" || lower == "false") {
        systemMdEnabled := true;
        if !(lower == "1" || lower == "true") {
          systemMdPath := CustomPath(systemMdVar.value);
        }
        if !fileExists(systemMdPath) {
          return Err(systemMdPath);
        }
      }
    }

    if mappings.Some? {
      var currentModel := env.openaiModel.GetOr("");
      var currentBaseUrl := env.openaiBaseUrl.GetOr("");
      var matched := FindMapping(mappings.value, currentBaseUrl, currentModel);
      if matched.Some? && Truthy(mappings.value[matched.value].template) {
        var template := mappings.value[matched.value].template.value;
        template := ReplaceFirst(template, GIT_PLACEHOLDER, BoolText(isGitRepo));
        template := ReplaceFirst(template, SANDBOX_PLACEHOLDER, env.sandbox.GetOr(""));
        return Ok(PromptOutcome(template, None));
      }
    }

    var basePrompt := if systemMdEnabled then readFile(systemMdPath) else builtinPrompt;

    var written := None;
    var writeVar := env.writeSystemMd;
    if Truthy(writeVar) {
      var lower := Lower(writeVar.value);
      if !(lower == "0" || lower == "false") {
        if lower == "1" || lower == "true" {
          written := Some(systemMdPath);
        } else {
          written := Some(CustomPath(writeVar.value));
        }
      }
    }

    var memorySuffix := MemorySuffix(userMemory);
    return Ok(PromptOutcome(basePrompt + memorySuffix, written));
  }

  // ---------------------------------------------------------------------------
  // Properties

  /** Exactly one slash is removed: a doubled slash keeps one. */
  lemma NormalizeRemovesOneSlash(u: string)
    ensures NormalizeUrl(u + "/") == u
    ensures NormalizeUrl(u + "//") == u + "/"
  {
    assert (u + "/")[..|u|] == u;
    assert (u + "//")[..|u| + 1] == u + "/";
  }

  /** `UrlMatches` holds iff some entry equals the target once both are normalised. */
  lemma {:induction false} UrlMatchesIff(urls: seq<string>, target: string)
    ensures UrlMatches(urls, target) <==> exists i :: 0 <= i < |urls| && NormalizeUrl(urls[i]) == NormalizeUrl(target)
  {
    if urls != [] {
      UrlMatchesIff(urls[1..], target);
      if UrlMatches(urls[1..], target) {
        var i :| 0 <= i < |urls[1..]| && NormalizeUrl(urls[1..][i]) == NormalizeUrl(target);
        assert NormalizeUrl(urls[i + 1]) == NormalizeUrl(target);
      }
      if exists i :: 0 <= i < |urls| && NormalizeUrl(urls[i]) == NormalizeUrl(target) {
        var i :| 0 <= i < |urls| && NormalizeUrl(urls[i]) == NormalizeUrl(target);
        if i > 0 { assert urls[1..][i - 1] == urls[i]; }
      }
    }
  }

  /** A trailing slash on the target never changes the verdict. */
  lemma {:induction false} UrlMatchesIgnoresTrailingSlash(urls: seq<string>, target: string)
    requires !EndsWith(target, "/")
    ensures UrlMatches(urls, target + "/") == UrlMatches(urls, target)
  {
    NormalizeRemovesOneSlash(target);
    if urls != [] {
      UrlMatchesIgnoresTrailingSlash(urls[1..], target);
    }
  }

  /** A mapping that lists neither base URLs nor model names never matches. */
  lemma EmptyMappingNeverMatches(ms: seq<Mapping>, baseUrl: string, model: string, i: nat)
    requires i < |ms| && ms[i].baseUrls.None? && ms[i].modelNames.None?
    ensures FindMapping(ms, baseUrl, model) != Some(i)
  {
  }

  /** With both lists, the URL and the model must both match. */
  lemma BothListsNeedBoth(m: Mapping, baseUrl: string, model: string)
    requires m.baseUrls.Some? && m.modelNames.Some?
    ensures MappingMatches(m, baseUrl, model) <==> UrlMatches(m.baseUrls.value, baseUrl) && model in m.modelNames.value
  {
  }

  /**
   * Only the first occurrence of a placeholder is replaced: when the text before it does not
   * contain the placeholder's first character, any later occurrence in `b` is kept.
   */
  lemma ReplaceFirstLeavesLaterOccurrences(a: string, p: string, b: string, rep: string)
    requires p != [] && p[0] !in a
    ensures ReplaceFirst(a + p + b, p, rep) == a + rep + b
  {
    var s := a + p + b;
    InfixContained(a, p, b);
    var i := IndexOf(s, p).value;
    assert OccursAt(s, p, |a|) by { assert s[|a|..|a| + |p|] == p; }
    assert s[i] == p[0] by { assert s[i..i + |p|][0] == s[i]; }
    assert i == |a|;
    assert s[..i] == a;
    assert s[i + |p|..] == b;
  }

  /**
   * In a template without the git placeholder, the first sandbox placeholder is replaced and
   * everything after it, including a second sandbox placeholder, is kept.
   */
  lemma SandboxSubstitution(a: string, b: string, isGitRepo: bool, sandbox: Option<string>)
    requires '{' !in a
    requires !Contains(a + SANDBOX_PLACEHOLDER + b, GIT_PLACEHOLDER)
    ensures SubstituteTemplate(a + SANDBOX_PLACEHOLDER + b, isGitRepo, sandbox) == a + sandbox.GetOr("") + b
  {
    ReplaceFirstLeavesLaterOccurrences(a, SANDBOX_PLACEHOLDER, b, sandbox.GetOr(""));
  }

  /** The memory suffix ends with the trimmed memory and is empty for blank memory. */
  lemma MemorySuffixBlank(m: string)
    requires forall i :: 0 <= i < |m| ==> IsSpace(m[i])
    ensures MemorySuffix(Some(m)) == ""
  {
  }

  /** "0" and "false" disable the override in any letter case; "1" and "true" select the default path. */
  lemma FlagSpellings()
    ensures ParseFlag(Some("FALSE")) == Off && ParseFlag(Some("0")) == Off && ParseFlag(None) == Off
    ensures ParseFlag(Some("True")) == OnDefault && ParseFlag(Some("1")) == OnDefault
    ensures ParseFlag(Some("~")) == OnCustom(HomeDir)
    ensures ParseFlag(Some("~/x.md")) == OnCustom(UnderHome("x.md"))
    ensures ParseFlag(Some("")) == Off
  {
    assert Lower("FALSE") == "false";
    assert Lower("True") == "true";
    assert Lower("1") == "1";
    assert Lower("0") == "0";
    assert Lower("~") == "~";
    assert Lower("~/x.md") == "~/x.md";
  }
}
