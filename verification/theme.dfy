/**
 * Custom colour themes (packages/cli/dist/src/ui/themes/theme.js): the validator for a
 * user-supplied theme, the theme-name rule, the highlight.js colour map a `Theme` builds
 * from raw style mappings, its default foreground colour, and the raw mappings a custom
 * theme produces. The colour checks `isValidColor` and `resolveColor` are parameters.
 */
module Themes {
  import opened Wrappers
  import opened Text

  /** The keys of a custom theme the validator looks at. */
  datatype Field =
    | Name | Background | Foreground | LightBlue | AccentBlue | AccentPurple | AccentCyan
    | AccentGreen | AccentYellow | AccentRed | DiffAdded | DiffRemoved | Comment | Gray

  /** A custom theme as configured: a field that is absent is `undefined`. */
  type CustomTheme = map<Field, string>

  function Get(t: CustomTheme, f: Field): Option<string> {
    if f in t then Some(t[f]) else None
  }

  /** The property name of a field, as it appears in messages. */
  function FieldName(f: Field): string {
    match f
    case Name => "name"
    case Background => "Background"
    case Foreground => "Foreground"
    case LightBlue => "LightBlue"
    case AccentBlue => "AccentBlue"
    case AccentPurple => "AccentPurple"
    case AccentCyan => "AccentCyan"
    case AccentGreen => "AccentGreen"
    case AccentYellow => "AccentYellow"
    case AccentRed => "AccentRed"
    case DiffAdded => "DiffAdded"
    case DiffRemoved => "DiffRemoved"
    case Comment => "Comment"
    case Gray => "Gray"
  }

  const REQUIRED_FIELDS: seq<Field> :=
    [Name, Background, Foreground, LightBlue, AccentBlue, AccentPurple, AccentCyan,
     AccentGreen, AccentYellow, AccentRed, Comment, Gray]

  const RECOMMENDED_FIELDS: seq<Field> := [DiffAdded, DiffRemoved]

  const COLOR_FIELDS: seq<Field> :=
    [Background, Foreground, LightBlue, AccentBlue, AccentPurple, AccentCyan, AccentGreen,
     AccentYellow, AccentRed, DiffAdded, DiffRemoved, Comment, Gray]

  const MAX_THEME_NAME_LENGTH: nat := 50

  /** The object `validateCustomTheme` returns. */
  datatype Validation = Validation(isValid: bool, error: Option<string>, warning: Option<string>)

  /** The index of the first field of `fs` that `bad` flags. */
  function FirstFlagged(fs: seq<Field>, bad: Field -> bool): (r: Option<nat>)
    ensures r.Some? ==> r.value < |fs| && bad(fs[r.value])
    ensures r.Some? ==> forall j :: 0 <= j < r.value ==> !bad(fs[j])
    ensures r.None? ==> forall j :: 0 <= j < |fs| ==> !bad(fs[j])
  {
    if fs == [] then None
    else if bad(fs[0]) then Some(0)
    else
      match FirstFlagged(fs[1..], bad)
      case None => None
      case Some(k) => Some(k + 1)
  }

  /** The fields of `fs` that `bad` flags, in order. */
  function Flagged(fs: seq<Field>, bad: Field -> bool): (r: seq<Field>)
    ensures forall f :: f in r <==> f in fs && bad(f)
  {
    if fs == [] then [] else (if bad(fs[0]) then [fs[0]] else []) + Flagged(fs[1..], bad)
  }

  /** The indices from `i` on of the fields `bad` flags, in increasing order. */
  function FlaggedIndices(fs: seq<Field>, bad: Field -> bool, i: nat): (idx: seq<nat>)
    requires i <= |fs|
    ensures forall k :: 0 <= k < |idx| ==> i <= idx[k] < |fs| && bad(fs[idx[k]])
    ensures forall k, l :: 0 <= k < l < |idx| ==> idx[k] < idx[l]
    ensures forall j :: i <= j < |fs| && bad(fs[j]) ==> j in idx
    decreases |fs| - i
  {
    if i == |fs| then [] else (if bad(fs[i]) then [i] else []) + FlaggedIndices(fs, bad, i + 1)
  }

  /**
   * `Flagged` keeps the flagged fields in their original order, once each: it is `fs` read at
   * the increasing indices of the flagged fields.
   */
  lemma {:induction false} FlaggedInOrder(fs: seq<Field>, bad: Field -> bool, i: nat)
    requires i <= |fs|
    ensures var idx := FlaggedIndices(fs, bad, i);
      |Flagged(fs[i..], bad)| == |idx| && forall k :: 0 <= k < |idx| ==> Flagged(fs[i..], bad)[k] == fs[idx[k]]
    decreases |fs| - i
  {
    if i < |fs| {
      FlaggedInOrder(fs, bad, i + 1);
      assert fs[i..][0] == fs[i] && fs[i..][1..] == fs[i + 1..];
      var rest := Flagged(fs[i + 1..], bad);
      var restIdx := FlaggedIndices(fs, bad, i + 1);
      assert Flagged(fs[i..], bad) == (if bad(fs[i]) then [fs[i]] else []) + rest;
      assert FlaggedIndices(fs, bad, i) == (if bad(fs[i]) then [i] else []) + restIdx;
    }
  }

  function FieldNames(fs: seq<Field>): seq<string> {
    if fs == [] then [] else [FieldName(fs[0])] + FieldNames(fs[1..])
  }

  function IsMissing(t: CustomTheme): Field -> bool {
    f => !Truthy(Get(t, f))
  }

  function HasBadColor(t: CustomTheme, isValidColor: string -> bool): Field -> bool {
    f => f in t && !isValidColor(t[f])
  }

  /** A theme name is valid when its trimmed length is between 1 and 50. */
  function IsValidThemeName(name: string): (r: bool)
    ensures r ==> exists i :: 0 <= i < |name| && !IsSpace(name[i])
    ensures |name| <= MAX_THEME_NAME_LENGTH ==> (r <==> exists i :: 0 <= i < |name| && !IsSpace(name[i]))
  {
    var trimmed := Trim(name);
    |trimmed| > 0 && |trimmed| <= MAX_THEME_NAME_LENGTH
  }

  /**
   * `name[a..b]` is the visible part of `name`: it starts and ends with a non-space character
   * and everything outside it is white space.
   */
  ghost predicate VisiblePart(name: string, a: int, b: int) {
    0 <= a < b <= |name| && !IsSpace(name[a]) && !IsSpace(name[b - 1])
    && forall i :: 0 <= i < a || b <= i < |name| ==> IsSpace(name[i])
  }

  /** A name has at most one visible part. */
  lemma VisiblePartUnique(name: string, a: int, b: int, a': int, b': int)
    requires VisiblePart(name, a, b) && VisiblePart(name, a', b')
    ensures a == a' && b == b'
  {
    assert !IsSpace(name[a]) && !IsSpace(name[a']);
    assert !IsSpace(name[b - 1]) && !IsSpace(name[b' - 1]);
  }

  /** The visible part of a name that is not all white space is what `trim` returns. */
  lemma TrimBounds(name: string) returns (a: int, b: int)
    requires Trim(name) != []
    ensures VisiblePart(name, a, b) && Trim(name) == name[a..b]
  {
    var e := TrimEnd(name);
    var t := TrimStart(e);
    assert t == Trim(name);
    b := |e|;
    a := |e| - |t|;
    assert e == name[..b] && t == e[a..];
    assert t == name[a..b];
    forall i | 0 <= i < a || b <= i < |name| ensures IsSpace(name[i]) {
      if i < a {
        assert e[i] == name[i];
      }
    }
    assert name[a] == t[0] && name[b - 1] == t[|t| - 1];
  }

  /** A name made only of white space has no visible part. */
  lemma NoVisiblePart(name: string)
    requires forall i :: 0 <= i < |name| ==> IsSpace(name[i])
    ensures forall a, b :: !VisiblePart(name, a, b)
  {
    forall a, b ensures !VisiblePart(name, a, b) {
      if 0 <= a < |name| {
        assert IsSpace(name[a]);
      }
    }
  }

  /** A theme name is valid exactly when it has a visible part of 1 to 50 characters. */
  lemma ValidThemeNameIff(name: string)
    ensures IsValidThemeName(name) <==> exists a, b :: VisiblePart(name, a, b) && b - a <= MAX_THEME_NAME_LENGTH
  {
    if Trim(name) == [] {
      NoVisiblePart(name);
    } else {
      var a, b := TrimBounds(name);
      forall a', b' | VisiblePart(name, a', b') ensures a' == a && b' == b {
        VisiblePartUnique(name, a', b', a, b);
      }
      assert |Trim(name)| == b - a;
    }
  }

  function WarningFor(missing: seq<Field>): Option<string> {
    if |missing| > 0 then Some("Missing field(s) " + Join(FieldNames(missing), ", ")) else None
  }

  /** The verdict `validateCustomTheme` reaches: required fields, then colours, then the name. */
  function Validate(t: CustomTheme, isValidColor: string -> bool): Validation {
    match FirstFlagged(REQUIRED_FIELDS, IsMissing(t))
    case Some(i) => Validation(false, Some("Missing required field: " + FieldName(REQUIRED_FIELDS[i])), None)
    case None =>
      match FirstFlagged(COLOR_FIELDS, HasBadColor(t, isValidColor))
      case Some(i) =>
        var f := COLOR_FIELDS[i];
        Validation(false, Some("Invalid color format for " + FieldName(f) + ": " + t[f]), None)
      case None =>
        if Truthy(Get(t, Name)) && !IsValidThemeName(t[Name]) then
          Validation(false, Some("Invalid theme name: " + t[Name]), None)
        else
          Validation(true, None, WarningFor(Flagged(RECOMMENDED_FIELDS, IsMissing(t))))
  }

  /** One `for (const field of fs)` pass that stops at the first field `bad` flags. */
  method ScanFields(fs: seq<Field>, bad: Field -> bool) returns (r: Option<nat>)
    ensures r == FirstFlagged(fs, bad)
  {
    for i := 0 to |fs|
      invariant forall j :: 0 <= j < i ==> !bad(fs[j])
    {
      if bad(fs[i]) {
        FirstFlaggedIs(fs, bad, i);
        return Some(i);
      }
    }
    FirstFlaggedNone(fs, bad);
    return None;
  }

  /** One `for (const field of fs)` pass that pushes every field `bad` flags. */
  method CollectFields(fs: seq<Field>, bad: Field -> bool) returns (flagged: seq<Field>)
    ensures flagged == Flagged(fs, bad)
  {
    flagged := [];
    for i := 0 to |fs|
      invariant flagged == Flagged(fs[..i], bad)
    {
      if bad(fs[i]) {
        flagged := flagged + [fs[i]];
      }
      assert fs[..i + 1] == fs[..i] + [fs[i]];
      FlaggedAppend(fs[..i], fs[i], bad);
    }
    assert fs[..|fs|] == fs;
  }

  /** validateCustomTheme: required fields, recommended fields, colours, then the name. */
  method ValidateCustomTheme(t: CustomTheme, isValidColor: string -> bool) returns (v: Validation)
    ensures v == Validate(t, isValidColor)
  {
    var missingRequired := ScanFields(REQUIRED_FIELDS, IsMissing(t));
    if missingRequired.Some? {
      return Validation(false, Some("Missing required field: " + FieldName(REQUIRED_FIELDS[missingRequired.value])), None);
    }

    var missingFields := CollectFields(RECOMMENDED_FIELDS, IsMissing(t));

    var badColor := ScanFields(COLOR_FIELDS, HasBadColor(t, isValidColor));
    if badColor.Some? {
      var field := COLOR_FIELDS[badColor.value];
      return Validation(false, Some("Invalid color format for " + FieldName(field) + ": " + t[field]), None);
    }

    if Truthy(Get(t, Name)) && !IsValidThemeName(t[Name]) {
      return Validation(false, Some("Invalid theme name: " + t[Name]), None);
    }

    return Validation(true, None, WarningFor(missingFields));
  }

  lemma FirstFlaggedIs(fs: seq<Field>, bad: Field -> bool, i: nat)
    requires i < |fs| && bad(fs[i])
    requires forall j :: 0 <= j < i ==> !bad(fs[j])
    ensures FirstFlagged(fs, bad) == Some(i)
  {
  }

  lemma FirstFlaggedNone(fs: seq<Field>, bad: Field -> bool)
    requires forall j :: 0 <= j < |fs| ==> !bad(fs[j])
    ensures FirstFlagged(fs, bad) == None
  {
  }

  lemma {:induction false} FlaggedAppend(fs: seq<Field>, f: Field, bad: Field -> bool)
    ensures Flagged(fs + [f], bad) == Flagged(fs, bad) + (if bad(f) then [f] else [])
  {
    if fs == [] {
      assert [] + [f] == [f];
    } else {
      assert (fs + [f])[1..] == fs[1..] + [f];
      FlaggedAppend(fs[1..], f, bad);
    }
  }

  // ---------------------------------------------------------------------------
  // Colour maps

  /** The part of a CSS style object the colour map reads. */
  datatype Style = Style(color: Option<string>)

  /** A key the colour map keeps: 'hljs' itself or a 'hljs-' class. */
  predicate IsHighlightKey(k: string) {
    StartsWith(k, "hljs-") || k == "hljs"
  }

  /** Whether a raw style contributes an entry, and which. */
  function ResolvedStyle(s: Style, resolve: string -> Option<string>): Option<string> {
    if Truthy(s.color) then resolve(s.color.value) else None
  }

  /** The colour map `_buildColorMap` builds from the keys `ks` of `raw`. */
  function ColorMapOn(raw: map<string, Style>, ks: set<string>, resolve: string -> Option<string>): map<string, string> {
    map k | k in ks && k in raw && IsHighlightKey(k) && ResolvedStyle(raw[k], resolve).Some?
      :: ResolvedStyle(raw[k], resolve).value
  }

  function ColorMap(raw: map<string, Style>, resolve: string -> Option<string>): (m: map<string, string>)
    ensures m.Keys <= raw.Keys
    ensures forall k :: k in m ==> IsHighlightKey(k) && Truthy(raw[k].color) && resolve(raw[k].color.value) == Some(m[k])
  {
    ColorMapOn(raw, raw.Keys, resolve)
  }

  /** The default foreground colour: the resolved colour of 'hljs', or the empty string. */
  function DefaultColor(raw: map<string, Style>, resolve: string -> Option<string>): string {
    if "hljs" in raw && Truthy(raw["hljs"].color) && resolve(raw["hljs"].color.value).Some? then
      resolve(raw["hljs"].color.value).value
    else ""
  }

  /** A theme ready for rendering. */
  class Theme {
    const name: Option<string>
    const themeType: string
    const colors: CustomTheme
    const colorMap: map<string, string>
    const defaultColor: string

    constructor (name: Option<string>, themeType: string, raw: map<string, Style>, colors: CustomTheme,
                 resolve: string -> Option<string>)
      ensures this.name == name && this.themeType == themeType && this.colors == colors
      ensures colorMap == ColorMap(raw, resolve)
      ensures defaultColor == DefaultColor(raw, resolve)
    {
      this.name := name;
      this.themeType := themeType;
      this.colors := colors;
      var m := BuildColorMap(raw, resolve);
      this.colorMap := m;
      var rawDefault := if "hljs" in raw then raw["hljs"].color else None;
      this.defaultColor := (if Truthy(rawDefault) then resolve(rawDefault.value) else None).GetOr("");
    }

    /** _buildColorMap: visits every key of `raw` and keeps the resolvable highlight colours. */
    static method BuildColorMap(raw: map<string, Style>, resolve: string -> Option<string>) returns (m: map<string, string>)
      ensures m == ColorMap(raw, resolve)
    {
      m := map[];
      var pending := raw.Keys;
      while pending != {}
        invariant pending <= raw.Keys
        invariant m == ColorMapOn(raw, raw.Keys - pending, resolve)
        decreases |pending|
      {
        var key :| key in pending;
        if IsHighlightKey(key) {
          var style := raw[key];
          if Truthy(style.color) {
            var resolved := resolve(style.color.value);
            if resolved.Some? {
              m := m[key := resolved.value];
            }
          }
        }
        pending := pending - {key};
      }
      assert raw.Keys - pending == raw.Keys;
    }
  }

  // ---------------------------------------------------------------------------
  // Custom themes

  /** The highlight.js keys a custom theme defines, in the order written. */
  const CUSTOM_KEYS: seq<string> := [
    "hljs", "hljs-keyword", "hljs-literal", "hljs-symbol", "hljs-name", "hljs-link",
    "hljs-built_in", "hljs-type", "hljs-number", "hljs-class", "hljs-string", "hljs-meta-string",
    "hljs-regexp", "hljs-template-tag", "hljs-subst", "hljs-function", "hljs-title", "hljs-params",
    "hljs-formula", "hljs-comment", "hljs-quote", "hljs-doctag", "hljs-meta", "hljs-meta-keyword",
    "hljs-tag", "hljs-variable", "hljs-template-variable", "hljs-attr", "hljs-attribute",
    "hljs-builtin-name", "hljs-section", "hljs-emphasis", "hljs-strong", "hljs-bullet",
    "hljs-selector-tag", "hljs-selector-id", "hljs-selector-class", "hljs-selector-attr",
    "hljs-selector-pseudo", "hljs-addition", "hljs-deletion"]

  /** The theme field whose value becomes a key's `color`; None where the style sets no colour. */
  function ColorSource(k: string): Option<Field> {
    if k == "hljs" || k == "hljs-subst" || k == "hljs-function" || k == "hljs-title"
       || k == "hljs-params" || k == "hljs-formula" then Some(Foreground)
    else if k == "hljs-keyword" || k == "hljs-literal" || k == "hljs-symbol" || k == "hljs-name"
       || k == "hljs-link" then Some(AccentBlue)
    else if k == "hljs-built_in" || k == "hljs-type" then Some(AccentCyan)
    else if k == "hljs-number" || k == "hljs-class" then Some(AccentGreen)
    else if k == "hljs-string" || k == "hljs-meta-string" || k == "hljs-section" || k == "hljs-bullet"
       || k == "hljs-selector-tag" || k == "hljs-selector-id" || k == "hljs-selector-class"
       || k == "hljs-selector-attr" || k == "hljs-selector-pseudo" then Some(AccentYellow)
    else if k == "hljs-regexp" || k == "hljs-template-tag" then Some(AccentRed)
    else if k == "hljs-comment" || k == "hljs-quote" || k == "hljs-doctag" then Some(Comment)
    else if k == "hljs-meta" || k == "hljs-meta-keyword" || k == "hljs-tag" then Some(Gray)
    else if k == "hljs-variable" || k == "hljs-template-variable" then Some(AccentPurple)
    else if k == "hljs-attr" || k == "hljs-attribute" || k == "hljs-builtin-name" then Some(LightBlue)
    else None
  }

  /** The raw style mappings `createCustomTheme` builds. */
  function CustomMappings(t: CustomTheme): map<string, Style> {
    map k | k in CUSTOM_KEYS :: Style(if ColorSource(k).Some? then Get(t, ColorSource(k).value) else None)
  }

  /** createCustomTheme. */
  method CreateCustomTheme(t: CustomTheme, resolve: string -> Option<string>) returns (theme: Theme)
    ensures fresh(theme)
    ensures theme.name == Get(t, Name) && theme.themeType == "custom" && theme.colors == t
    ensures theme.colorMap == ColorMap(CustomMappings(t), resolve)
    ensures theme.defaultColor == DefaultColor(CustomMappings(t), resolve)
  {
    theme := new Theme(Get(t, Name), "custom", CustomMappings(t), t, resolve);
  }

  // ---------------------------------------------------------------------------
  // Properties

  /** Every required field is present and non-empty. */
  predicate RequiredPresent(t: CustomTheme) {
    forall j :: 0 <= j < |REQUIRED_FIELDS| ==> Truthy(Get(t, REQUIRED_FIELDS[j]))
  }

  /** Every colour field that is present is well-formed. */
  predicate ColorsWellFormed(t: CustomTheme, isValidColor: string -> bool) {
    forall j :: 0 <= j < |COLOR_FIELDS| ==> COLOR_FIELDS[j] in t ==> isValidColor(t[COLOR_FIELDS[j]])
  }

  /** The first falsy required field, in list order, is the one reported. */
  lemma FirstMissingReported(t: CustomTheme, isValidColor: string -> bool, i: nat)
    requires i < |REQUIRED_FIELDS| && !Truthy(Get(t, REQUIRED_FIELDS[i]))
    requires forall j :: 0 <= j < i ==> Truthy(Get(t, REQUIRED_FIELDS[j]))
    ensures Validate(t, isValidColor) == Validation(false, Some("Missing required field: " + FieldName(REQUIRED_FIELDS[i])), None)
  {
    FirstFlaggedIs(REQUIRED_FIELDS, IsMissing(t), i);
  }

  /** With every required field present, the first ill-formed colour in colour-field order is reported. */
  lemma FirstBadColorReported(t: CustomTheme, isValidColor: string -> bool, i: nat)
    requires RequiredPresent(t)
    requires i < |COLOR_FIELDS| && COLOR_FIELDS[i] in t && !isValidColor(t[COLOR_FIELDS[i]])
    requires forall j :: 0 <= j < i ==> COLOR_FIELDS[j] in t ==> isValidColor(t[COLOR_FIELDS[j]])
    ensures Validate(t, isValidColor)
         == Validation(false, Some("Invalid color format for " + FieldName(COLOR_FIELDS[i]) + ": " + t[COLOR_FIELDS[i]]), None)
  {
    FirstFlaggedNone(REQUIRED_FIELDS, IsMissing(t));
    FirstFlaggedIs(COLOR_FIELDS, HasBadColor(t, isValidColor), i);
  }

  /** A theme whose required fields and colours pass is judged on its name alone. */
  lemma NameCheckedLast(t: CustomTheme, isValidColor: string -> bool)
    requires RequiredPresent(t) && ColorsWellFormed(t, isValidColor)
    ensures Name in t
    ensures Validate(t, isValidColor).isValid <==> IsValidThemeName(t[Name])
    ensures !IsValidThemeName(t[Name]) ==> Validate(t, isValidColor).error == Some("Invalid theme name: " + t[Name])
    ensures IsValidThemeName(t[Name]) ==> Validate(t, isValidColor).warning == WarningFor(Flagged(RECOMMENDED_FIELDS, IsMissing(t)))
  {
    assert REQUIRED_FIELDS[0] == Name;
    FirstFlaggedNone(REQUIRED_FIELDS, IsMissing(t));
    FirstFlaggedNone(COLOR_FIELDS, HasBadColor(t, isValidColor));
  }

  /** The recommended fields a theme lacks, in order. */
  lemma MissingRecommended(t: CustomTheme)
    ensures Flagged(RECOMMENDED_FIELDS, IsMissing(t))
         == (if Truthy(Get(t, DiffAdded)) then [] else [DiffAdded]) + (if Truthy(Get(t, DiffRemoved)) then [] else [DiffRemoved])
  {
    var bad := IsMissing(t);
    assert RECOMMENDED_FIELDS[1..] == [DiffRemoved] && RECOMMENDED_FIELDS[1..][1..] == [];
    var tail := if bad(DiffRemoved) then [DiffRemoved] else [];
    assert Flagged([DiffRemoved], bad) == tail + Flagged([], bad);
  }

  /** Absent diff colours never invalidate a theme; both absent are named in order in the warning. */
  lemma BothDiffColorsMissingWarn(t: CustomTheme)
    requires DiffAdded !in t && DiffRemoved !in t
    ensures WarningFor(Flagged(RECOMMENDED_FIELDS, IsMissing(t))) == Some("Missing field(s) DiffAdded, DiffRemoved")
  {
    MissingRecommended(t);
    var names := FieldNames([DiffAdded, DiffRemoved]);
    assert [DiffAdded, DiffRemoved][1..] == [DiffRemoved];
    assert names == ["DiffAdded", "DiffRemoved"];
    assert names[1..] == ["DiffRemoved"];
    assert Join(names, ", ") == "DiffAdded" + ", " + "DiffRemoved";
    assert Flagged(RECOMMENDED_FIELDS, IsMissing(t)) == [DiffAdded, DiffRemoved];
    assert "Missing field(s) " + ("DiffAdded" + ", " + "DiffRemoved") == "Missing field(s) DiffAdded, DiffRemoved";
  }

  /** With both diff colours set there is no warning. */
  lemma NoDiffColorMissingNoWarning(t: CustomTheme)
    requires Truthy(Get(t, DiffAdded)) && Truthy(Get(t, DiffRemoved))
    ensures WarningFor(Flagged(RECOMMENDED_FIELDS, IsMissing(t))).None?
  {
    MissingRecommended(t);
  }

  /** A non-empty name made only of spaces passes the required-field check but fails the name check. */
  lemma BlankNameRejected(t: CustomTheme, isValidColor: string -> bool)
    requires RequiredPresent(t) && ColorsWellFormed(t, isValidColor)
    requires Name in t && forall i :: 0 <= i < |t[Name]| ==> t[Name][i] == ' '
    ensures Validate(t, isValidColor) == Validation(false, Some("Invalid theme name: " + t[Name]), None)
  {
    NameCheckedLast(t, isValidColor);
  }

  /** A name of 51 visible characters is too long. */
  lemma LongNameRejected(name: string)
    requires |name| == 51 && forall i :: 0 <= i < |name| ==> !IsSpace(name[i])
    ensures !IsValidThemeName(name)
  {
    assert Trim(name) == name by {
      assert TrimEnd(name) == name;
      assert TrimStart(name) == name;
    }
  }

  /** In a custom theme, keywords take the AccentBlue colour and comments the Comment colour. */
  lemma CustomThemeColors(t: CustomTheme, resolve: string -> Option<string>)
    ensures var m := ColorMap(CustomMappings(t), resolve);
      ("hljs-keyword" in m <==> Truthy(Get(t, AccentBlue)) && resolve(t[AccentBlue]).Some?)
      && ("hljs-keyword" in m ==> m["hljs-keyword"] == resolve(t[AccentBlue]).value)
  {
    assert CUSTOM_KEYS[1] == "hljs-keyword";
    assert ColorSource("hljs-keyword") == Some(AccentBlue);
    assert IsHighlightKey("hljs-keyword") by { assert "hljs-keyword"[..5] == "hljs-"; }
  }

  /** Emphasis carries no `color`, so it never reaches the map. */
  lemma EmphasisOmitted(t: CustomTheme, resolve: string -> Option<string>)
    ensures "hljs-emphasis" !in ColorMap(CustomMappings(t), resolve)
  {
    assert ColorSource("hljs-emphasis") == None;
  }

  /** A custom theme's default colour is its resolved Foreground, or '' when that is unset or unresolvable. */
  lemma CustomDefaultColor(t: CustomTheme, resolve: string -> Option<string>)
    ensures DefaultColor(CustomMappings(t), resolve)
         == (if Truthy(Get(t, Foreground)) && resolve(t[Foreground]).Some? then resolve(t[Foreground]).value else "")
  {
    assert CUSTOM_KEYS[0] == "hljs";
    assert ColorSource("hljs") == Some(Foreground);
  }
}
