/**
 * The model catalogue of `core.py`: alias normalisation, the Daydreams Router
 * id and slug tables, per-model capabilities, and the assembly of the
 * generation parameters from a caller's keyword arguments.
 */
module ModelConfig {
  import opened Wrappers
  import opened Text
  import opened Values

  const DefaultModel: string := "veo-3.0-fast-generate-preview"
  const ModelsPrefix: string := "models/"

  const Aliases: map<string, string> := map[
    "veo-3" := "veo-3.0-generate-preview",
    "veo-3.0" := "veo-3.0-generate-preview",
    "google/veo-3" := "veo-3.0-generate-preview",
    "models/veo-3.0-generate-preview" := "veo-3.0-generate-preview",
    "veo-3-fast" := "veo-3.0-fast-generate-preview",
    "veo-3.0-fast" := "veo-3.0-fast-generate-preview",
    "google/veo-3-fast" := "veo-3.0-fast-generate-preview",
    "models/veo-3.0-fast-generate-preview" := "veo-3.0-fast-generate-preview",
    "veo-3.0-generate-001" := "veo-3.0-generate-001",
    "veo-3.0-fast-generate-001" := "veo-3.0-fast-generate-001"
  ]

  const DaydreamsModelIds: map<string, string> := map[
    "veo-3.0-generate-preview" := "google/veo-3",
    "veo-3.0-fast-generate-preview" := "google/veo-3-fast",
    "veo-3.0-generate-001" := "google/veo-3",
    "veo-3.0-fast-generate-001" := "google/veo-3-fast"
  ]

  const DaydreamsSlugs: map<string, string> := map[
    "veo-3.0-generate-preview" := "veo-3",
    "veo-3.0-generate-001" := "veo-3",
    "veo-3.0-fast-generate-preview" := "veo-3-fast",
    "veo-3.0-fast-generate-001" := "veo-3-fast"
  ]

  /** One entry of the `MODELS` table. */
  datatype Capabilities = Capabilities(
    name: string,
    supportsDuration: bool,
    supportsEnhance: bool,
    supportsFps: bool,
    supportsAspectRatio: bool,
    supportsAudio: bool,
    defaultDuration: int,
    generationTime: int)

  const Models: map<string, Capabilities> := map[
    "veo-3.0-fast-generate-preview" := Capabilities("Veo 3.0 Fast", false, false, false, true, true, 8, 60),
    "veo-3.0-generate-preview" := Capabilities("Veo 3.0", false, false, false, true, true, 8, 120),
    "veo-2.0-generate-001" := Capabilities("Veo 2.0", true, true, true, true, false, 5, 180)
  ]

  /** `base.replace("models/", "")`, done only when `base` starts with the prefix. */
  function DropModelsPrefix(base: string): string {
    if StartsWith(base, ModelsPrefix) then RemoveAll(base, ModelsPrefix) else base
  }

  /**
   * `ModelConfig.normalize_model`. A falsy model (None or "") is the default
   * model; both are the empty string here.
   */
  function NormalizeModel(model: string): string {
    if model == [] then DefaultModel
    else
      var base := DropModelsPrefix(Strip(model));
      if base in Aliases then Aliases[base] else base
  }

  /** Literal ids with no surrounding whitespace, no `models/` and no alias entry of their own are fixed points. */
  lemma PlainIdIsFixed(id: string)
    requires id != [] && !IsSpace(id[0]) && !IsSpace(id[|id| - 1])
    requires !StartsWith(id, ModelsPrefix)
    requires id !in Aliases || Aliases[id] == id
    ensures NormalizeModel(id) == id
  {
    StripKeepsTrimmed(id);
    NormalizeByStages(id, id);
  }

  /** The `MODELS` keys and the `ALIASES` values are the five canonical ids. */
  lemma CanonicalIds(id: string)
    requires id in Models || id in Aliases.Values
    ensures id in CanonicalIdSet
  {
    assert Aliases.Values == {"veo-3.0-generate-preview", "veo-3.0-fast-generate-preview",
                              "veo-3.0-generate-001", "veo-3.0-fast-generate-001"} by {
      assert Aliases["veo-3"] == "veo-3.0-generate-preview";
      assert Aliases["veo-3-fast"] == "veo-3.0-fast-generate-preview";
      assert Aliases["veo-3.0-generate-001"] == "veo-3.0-generate-001";
      assert Aliases["veo-3.0-fast-generate-001"] == "veo-3.0-fast-generate-001";
    }
  }

  const CanonicalIdSet: set<string> := {
    "veo-3.0-fast-generate-preview", "veo-3.0-generate-preview", "veo-2.0-generate-001",
    "veo-3.0-generate-001", "veo-3.0-fast-generate-001"}

  /** The canonical ids are trimmed and do not start with `models/`. */
  lemma CanonicalIdsArePlain(id: string)
    requires id in CanonicalIdSet
    ensures id != [] && id[0] == 'v' && id[|id| - 1] in "w1"
  {
  }

  /** A canonical id that is an alias key is its own alias. */
  lemma CanonicalIdsAliasThemselves(id: string)
    requires id in CanonicalIdSet
    ensures id !in Aliases || Aliases[id] == id
  {
    assert "veo-2.0-generate-001"[4] != "veo-3.0-generate-001"[4];
  }

  /** Every `MODELS` key and every `ALIASES` value is a fixed point of normalisation. */
  lemma CanonicalIdsAreFixedPoints(id: string)
    requires id in Models || id in Aliases.Values
    ensures NormalizeModel(id) == id
  {
    CanonicalIds(id);
    CanonicalIdsArePlain(id);
    CanonicalIdsAliasThemselves(id);
    PlainIdIsFixed(id);
  }

  /** A non-empty alias key without the `models/` prefix normalises to its table value. */
  lemma AliasesResolve(alias: string)
    requires alias in Aliases && !StartsWith(alias, ModelsPrefix)
    ensures NormalizeModel(alias) == Aliases[alias]
  {
    AliasKeysAreTrimmed(alias);
    StripKeepsTrimmed(alias);
    NormalizeByStages(alias, alias);
  }

  /** No alias key is empty or has whitespace at either end. */
  lemma AliasKeysAreTrimmed(alias: string)
    requires alias in Aliases
    ensures alias != [] && !IsSpace(alias[0]) && !IsSpace(alias[|alias| - 1])
  {
  }

  /** `models/` cannot overlap itself, so dropping it from the front leaves the rest to the scan. */
  lemma {:induction false} DropPrefixOfPrefixed(m: string)
    requires !Contains(m, ModelsPrefix)
    ensures DropModelsPrefix(ModelsPrefix + m) == m
  {
    var s := ModelsPrefix + m;
    StartsWithIsPrefix(s, ModelsPrefix);
    assert s[|ModelsPrefix|..] == m;
    RemoveAllAbsent(m, ModelsPrefix);
  }

  /** A model id without whitespace at either end that does not contain `models/`. */
  predicate BareId(m: string) {
    m != [] && !IsSpace(m[0]) && !IsSpace(m[|m| - 1]) && !Contains(m, ModelsPrefix)
  }

  /**
   * Writing an id with the `models/` prefix makes no difference, for an id
   * without surrounding whitespace that does not itself contain `models/`.
   */
  lemma ModelsPrefixIsIgnored(m: string)
    requires BareId(m)
    ensures NormalizeModel(ModelsPrefix + m) == NormalizeModel(m)
  {
    PrefixedIdStages(m);
    NormalizeByStages(ModelsPrefix + m, m);
    NormalizeByStages(m, m);
  }

  /** So `get_config` gives the same entry with or without the prefix. */
  lemma ConfigIgnoresModelsPrefix(m: string)
    requires BareId(m)
    ensures GetConfig(ModelsPrefix + m) == GetConfig(m)
  {
    ModelsPrefixIsIgnored(m);
  }

  /** The first two stages take both `models/` + `m` and `m` itself to `m`. */
  lemma PrefixedIdStages(m: string)
    requires BareId(m)
    ensures DropModelsPrefix(Strip(ModelsPrefix + m)) == m
    ensures DropModelsPrefix(Strip(m)) == m
  {
    var s := ModelsPrefix + m;
    assert s[0] == 'm' && s[|s| - 1] == m[|m| - 1];
    StripKeepsTrimmed(s);
    StripKeepsTrimmed(m);
    DropPrefixOfPrefixed(m);
    assert !StartsWith(m, ModelsPrefix);
  }

  /** Normalisation in its three stages: strip, drop the prefix, resolve the alias. */
  lemma NormalizeByStages(model: string, base: string)
    requires model != [] && DropModelsPrefix(Strip(model)) == base
    ensures NormalizeModel(model) == if base in Aliases then Aliases[base] else base
  {
  }

  lemma PrefixedBlankIdIsStripped()
    ensures Strip("models/ veo-3") == "models/ veo-3"
  {
  }

  lemma PrefixedBlankIdDropsPrefix()
    ensures DropModelsPrefix("models/ veo-3") == " veo-3"
  {
    assert !Contains(" veo-3", ModelsPrefix) by {
      assert " veo-3"[1..] == "veo-3" && " veo-3"[2..] == "eo-3";
      assert !Contains("eo-3", ModelsPrefix);
    }
    assert "models/ veo-3" == ModelsPrefix + " veo-3";
    DropPrefixOfPrefixed(" veo-3");
  }

  lemma BlankIdIsNoAlias()
    ensures " veo-3" !in Aliases
  {
  }

  /** `models/ veo-3` keeps the blank that follows the prefix: it is stripped before the prefix goes. */
  lemma BlankAfterPrefixSurvives()
    ensures NormalizeModel("models/ veo-3") == " veo-3"
  {
    PrefixedBlankIdIsStripped();
    PrefixedBlankIdDropsPrefix();
    BlankIdIsNoAlias();
    NormalizeByStages("models/ veo-3", " veo-3");
  }

  lemma BlankIdIsStripped()
    ensures Strip(" veo-3") == "veo-3"
  {
    assert " veo-3"[1..] == "veo-3";
  }

  /** A second pass strips the blank and resolves the alias. */
  lemma BlankIdResolves()
    ensures NormalizeModel(" veo-3") == "veo-3.0-generate-preview"
  {
    BlankIdIsStripped();
    assert DropModelsPrefix("veo-3") == "veo-3";
    assert "veo-3" in Aliases && Aliases["veo-3"] == "veo-3.0-generate-preview";
    NormalizeByStages(" veo-3", "veo-3");
  }

  /**
   * Normalisation is not idempotent: `strip()` runs before the prefix is removed,
   * so whitespace after `models/` survives one pass and is stripped by the next.
   * `build_generation_config` normalises twice (once itself, once in `get_config`).
   */
  lemma NormalizeIsNotIdempotent()
    ensures NormalizeModel(NormalizeModel("models/ veo-3")) != NormalizeModel("models/ veo-3")
  {
    BlankAfterPrefixSurvives();
    BlankIdResolves();
  }

  /** `to_daydreams_model`: the router id, when the normalised id has one. */
  function ToDaydreamsModel(model: string): (r: Option<string>)
    ensures r.Some? <==> NormalizeModel(model) in DaydreamsModelIds
    ensures r.Some? ==> r.value in {"google/veo-3", "google/veo-3-fast"}
  {
    var n := NormalizeModel(model);
    if n in DaydreamsModelIds then Some(DaydreamsModelIds[n]) else None
  }

  /** The slugs in the table are non-empty and have no `/`. */
  lemma SlugTableValues(id: string)
    requires id in DaydreamsSlugs
    ensures DaydreamsSlugs[id] != [] && '/' !in DaydreamsSlugs[id]
  {
    assert DaydreamsSlugs[id] in {"veo-3", "veo-3-fast"};
  }

  /** `to_daydreams_slug`: the slug table first, else the last `/`-segment, else nothing. */
  function ToDaydreamsSlug(model: string): (r: Option<string>)
    ensures var n := NormalizeModel(model);
      && (r.None? <==> n !in DaydreamsSlugs && '/' !in n)
      && (n in DaydreamsSlugs ==> r == Some(DaydreamsSlugs[n]))
      && (n !in DaydreamsSlugs && r.Some? ==> r.value == LastSegment(n))
      && (r.Some? ==> '/' !in r.value)
  {
    var n := NormalizeModel(model);
    var slug := if n in DaydreamsSlugs then SlugTableValues(n); DaydreamsSlugs[n] else "";
    if slug != "" then Some(slug)
    else if n != [] && '/' in n then LastSegmentIsFinalPart(n); Some(LastSegment(n))
    else None
  }

  /** The router id `google/veo-3` is an alias of the Veo 3.0 preview. */
  lemma RouterIdNormalizes()
    ensures NormalizeModel("google/veo-3") == "veo-3.0-generate-preview"
  {
    var id := "google/veo-3";
    assert id[0] != ModelsPrefix[0];
    AliasesResolve(id);
  }

  /** The router id `google/veo-3-fast` is an alias of the Veo 3.0 Fast preview. */
  lemma FastRouterIdNormalizes()
    ensures NormalizeModel("google/veo-3-fast") == "veo-3.0-fast-generate-preview"
  {
    var id := "google/veo-3-fast";
    assert id[0] != ModelsPrefix[0];
    AliasesResolve(id);
  }

  /** `google/veo-3` converts to itself and to the `veo-3` slug. */
  lemma RouterIdConverts()
    ensures ToDaydreamsModel("google/veo-3") == Some("google/veo-3")
    ensures ToDaydreamsSlug("google/veo-3") == Some("veo-3")
  {
    RouterIdNormalizes();
  }

  /** `google/veo-3-fast` converts to itself and to the `veo-3-fast` slug. */
  lemma FastRouterIdConverts()
    ensures ToDaydreamsModel("google/veo-3-fast") == Some("google/veo-3-fast")
    ensures ToDaydreamsSlug("google/veo-3-fast") == Some("veo-3-fast")
  {
    FastRouterIdNormalizes();
  }

  /** Every id with a router id has a slug, and the two tables pair `google/veo-3` with `veo-3`. */
  lemma RouterTablesAgree(id: string)
    requires id in DaydreamsModelIds
    ensures id in DaydreamsSlugs
    ensures DaydreamsModelIds[id] == "google/veo-3" ==> DaydreamsSlugs[id] == "veo-3"
    ensures DaydreamsModelIds[id] != "google/veo-3"
            ==> DaydreamsModelIds[id] == "google/veo-3-fast" && DaydreamsSlugs[id] == "veo-3-fast"
  {
  }

  /**
   * A router id is itself a model name that maps to the same router id and
   * the same slug: converting twice changes nothing.
   */
  lemma RouterIdsAreStable(model: string)
    requires ToDaydreamsModel(model).Some?
    ensures var id := ToDaydreamsModel(model).value;
      ToDaydreamsModel(id) == Some(id) && ToDaydreamsSlug(id) == ToDaydreamsSlug(model)
  {
    var n := NormalizeModel(model);
    RouterTablesAgree(n);
    assert ToDaydreamsSlug(model) == Some(DaydreamsSlugs[n]);
    if DaydreamsModelIds[n] == "google/veo-3" {
      RouterIdConverts();
    } else {
      FastRouterIdConverts();
    }
  }

  /** `get_config`: total, falling back to the default model's entry. */
  function GetConfig(model: string): (r: Capabilities)
    ensures var n := NormalizeModel(model);
      && (n in Models ==> r == Models[n])
      && (n !in Models ==> r == Models[DefaultModel])
  {
    var n := NormalizeModel(model);
    if n in Models then Models[n] else Models[DefaultModel]
  }

  /** The aspect ratios `build_generation_config` accepts for a normalised id. */
  function AllowedAspectRatios(normalized: string): (allowed: set<string>)
    ensures "16:9" in allowed && allowed <= {"16:9", "9:16"}
    ensures "9:16" in allowed <==> StartsWith(normalized, "veo-2.0")
  {
    if StartsWith(normalized, "veo-3.0") then {"16:9"}
    else if StartsWith(normalized, "veo-2.0") then {"16:9", "9:16"}
    else {"16:9"}
  }

  /** Python's `str(v)` for the values a caller may pass as `aspect_ratio`. */
  function Str(v: Value): string {
    match v
    case VNone => "None"
    case VBool(b) => if b then "True" else "False"
    case VInt(i) => IntToString(i)
    case VReal(_) => "<float>"
    case VStr(s) => s
    case VItems(_) => "[...]"
    case VSettings(_) => "[...]"
  }

  /** The caller asks for an aspect ratio that the model supports in principle but not in this value. */
  predicate AspectRejected(normalized: string, config: Capabilities, kwargs: Kwargs) {
    config.supportsAspectRatio && Has(kwargs, AspectRatio)
    && Str(kwargs[AspectRatio]) !in AllowedAspectRatios(normalized)
  }

  /**
   * Iterating `safety_settings`: a list iterates its items, a string its
   * characters (none of which is a setting), an int or bool cannot be iterated.
   */
  function SafetyItems(v: Value): (r: Result<seq<SafetyItem>>)
    ensures r.Err? <==> v.VNone? || v.VBool? || v.VInt? || v.VReal?
    ensures v.VItems? ==> r == Ok(v.items)
    ensures v.VSettings? ==> r.Ok? && |r.value| == |v.settings|
                             && forall i :: 0 <= i < |v.settings| ==> r.value[i] == SettingObject(v.settings[i])
    ensures v.VStr? ==> r.Ok? && |r.value| == |v.s| && forall i :: 0 <= i < |v.s| ==> !Usable(r.value[i])
  {
    match v
    case VItems(xs) => Ok(xs)
    case VSettings(ss) => Ok(seq(|ss|, i requires 0 <= i < |ss| => SettingObject(ss[i])))
    case VStr(s) => Ok(seq(|s|, _ => OtherItem))
    case _ => Err(TypeError("object is not iterable"))
  }

  /** The settings kept from `items`: objects as they are, dicts the SDK accepts converted, the rest dropped. */
  function KeptSettings(items: seq<SafetyItem>): (kept: seq<SafetySetting>)
    ensures |kept| <= |items|
  {
    if items == [] then []
    else KeptSettings(items[..|items| - 1]) + Kept(items[|items| - 1])
  }

  function Kept(item: SafetyItem): seq<SafetySetting> {
    match item
    case SettingObject(s) => [s]
    case SettingDict(c, t, ok) => if ok then [SafetySetting(c, t)] else []
    case OtherItem => []
  }

  predicate Usable(item: SafetyItem) {
    item.SettingObject? || (item.SettingDict? && item.convertible)
  }

  /** No setting survives exactly when no item is an object or an acceptable dict. */
  lemma {:induction false} KeptSettingsEmpty(items: seq<SafetyItem>)
    ensures KeptSettings(items) == [] <==> forall i :: 0 <= i < |items| ==> !Usable(items[i])
  {
    if items != [] {
      var init := items[..|items| - 1];
      KeptSettingsEmpty(init);
      assert forall i :: 0 <= i < |init| ==> init[i] == items[i];
    }
  }

  /** A list of setting objects is kept whole and in order. */
  lemma {:induction false} SettingObjectsKept(ss: seq<SafetySetting>)
    ensures KeptSettings(SafetyItems(VSettings(ss)).value) == ss
  {
    if ss != [] {
      var init := ss[..|ss| - 1];
      SettingObjectsKept(init);
      assert SafetyItems(VSettings(ss)).value[..|ss| - 1] == SafetyItems(VSettings(init)).value;
    }
  }

  /** The loop over `safety_settings`: keep objects, convert dicts, skip what fails. */
  method NormalizeSafetySettings(items: seq<SafetyItem>) returns (settings: seq<SafetySetting>)
    ensures settings == KeptSettings(items)
  {
    settings := [];
    var i := 0;
    while i < |items|
      invariant 0 <= i <= |items|
      invariant settings == KeptSettings(items[..i])
    {
      assert items[..i + 1][..i] == items[..i];
      match items[i] {
        case SettingObject(s) =>
          settings := settings + [s];
        case SettingDict(c, t, ok) =>
          if ok {
            settings := settings + [SafetySetting(c, t)];
          }
        case OtherItem =>
      }
      i := i + 1;
    }
    assert items[..i] == items;
  }

  const KnownParams: set<Key> := {
    NumberOfVideos, DurationSeconds, EnhancePrompt, Fps, AspectRatio,
    NegativePrompt, PersonGeneration, SafetySettings, CachedContent}

  /**
   * The `params` dictionary `build_generation_config` fills in from the model's
   * capabilities `config` and the caller's keyword arguments, before the SDK
   * config is built; `normalized` is the normalised model id.
   */
  method CollectParams(normalized: string, config: Capabilities, kwargs: Kwargs) returns (r: Result<Kwargs>)
    ensures r.Err? <==> AspectRejected(normalized, config, kwargs)
                        || (Has(kwargs, SafetySettings) && SafetyItems(kwargs[SafetySettings]).Err?)
    ensures AspectRejected(normalized, config, kwargs) ==> r.Err? && r.error.ValueError?
    ensures r.Ok? ==> r.value.Keys <= KnownParams
    ensures r.Ok? ==> NumberOfVideos in r.value
                      && r.value[NumberOfVideos] == Get(kwargs, NumberOfVideos, VInt(1))
    ensures r.Ok? ==> (DurationSeconds in r.value <==> config.supportsDuration && DurationSeconds in kwargs)
    ensures r.Ok? && DurationSeconds in r.value ==> r.value[DurationSeconds] == kwargs[DurationSeconds]
    ensures r.Ok? ==> (EnhancePrompt in r.value <==> config.supportsEnhance)
    ensures r.Ok? && EnhancePrompt in r.value ==> r.value[EnhancePrompt] == Get(kwargs, EnhancePrompt, VBool(false))
    ensures r.Ok? ==> (Fps in r.value <==> config.supportsFps && Fps in kwargs)
    ensures r.Ok? && Fps in r.value ==> r.value[Fps] == kwargs[Fps]
    ensures r.Ok? ==> (AspectRatio in r.value <==> config.supportsAspectRatio && Has(kwargs, AspectRatio))
    ensures r.Ok? && AspectRatio in r.value
            ==> r.value[AspectRatio] == VStr(Str(kwargs[AspectRatio]))
                && Str(kwargs[AspectRatio]) in AllowedAspectRatios(normalized)
    ensures r.Ok? ==> (NegativePrompt in r.value <==> Has(kwargs, NegativePrompt))
    ensures r.Ok? && NegativePrompt in r.value ==> r.value[NegativePrompt] == kwargs[NegativePrompt]
    ensures r.Ok? ==> (PersonGeneration in r.value <==> Has(kwargs, PersonGeneration))
    ensures r.Ok? && PersonGeneration in r.value ==> r.value[PersonGeneration] == kwargs[PersonGeneration]
    ensures r.Ok? ==> (SafetySettings in r.value
                       <==> Has(kwargs, SafetySettings) && KeptSettings(SafetyItems(kwargs[SafetySettings]).value) != [])
    ensures r.Ok? && SafetySettings in r.value
            ==> r.value[SafetySettings] == VSettings(KeptSettings(SafetyItems(kwargs[SafetySettings]).value))
    ensures r.Ok? ==> (CachedContent in r.value <==> Has(kwargs, CachedContent))
    ensures r.Ok? && CachedContent in r.value ==> r.value[CachedContent] == kwargs[CachedContent]
  {
    var base := CapabilityParams(normalized, config, kwargs);
    if base.Err? {
      return base;
    }
    r := OptionalParams(base.value, kwargs);
  }

  const OptionalKeys: set<Key> := {NegativePrompt, PersonGeneration, SafetySettings, CachedContent}

  /** The parameters that depend on the model's capabilities: count, duration, enhancement, fps, aspect ratio. */
  method CapabilityParams(normalized: string, config: Capabilities, kwargs: Kwargs) returns (r: Result<Kwargs>)
    ensures r.Err? <==> AspectRejected(normalized, config, kwargs)
    ensures r.Err? ==> r.error.ValueError?
    ensures r.Ok? ==> r.value.Keys <= KnownParams - OptionalKeys
    ensures r.Ok? ==> NumberOfVideos in r.value
                      && r.value[NumberOfVideos] == Get(kwargs, NumberOfVideos, VInt(1))
    ensures r.Ok? ==> (DurationSeconds in r.value <==> config.supportsDuration && DurationSeconds in kwargs)
    ensures r.Ok? && DurationSeconds in r.value ==> r.value[DurationSeconds] == kwargs[DurationSeconds]
    ensures r.Ok? ==> (EnhancePrompt in r.value <==> config.supportsEnhance)
    ensures r.Ok? && EnhancePrompt in r.value ==> r.value[EnhancePrompt] == Get(kwargs, EnhancePrompt, VBool(false))
    ensures r.Ok? ==> (Fps in r.value <==> config.supportsFps && Fps in kwargs)
    ensures r.Ok? && Fps in r.value ==> r.value[Fps] == kwargs[Fps]
    ensures r.Ok? ==> (AspectRatio in r.value <==> config.supportsAspectRatio && Has(kwargs, AspectRatio))
    ensures r.Ok? && AspectRatio in r.value
            ==> r.value[AspectRatio] == VStr(Str(kwargs[AspectRatio]))
                && Str(kwargs[AspectRatio]) in AllowedAspectRatios(normalized)
  {
    var params: Kwargs := map[NumberOfVideos := Get(kwargs, NumberOfVideos, VInt(1))];

    if config.supportsDuration && DurationSeconds in kwargs {
      params := params[DurationSeconds := kwargs[DurationSeconds]];
    }
    if config.supportsEnhance {
      params := params[EnhancePrompt := Get(kwargs, EnhancePrompt, VBool(false))];
    }
    if config.supportsFps && Fps in kwargs {
      params := params[Fps := kwargs[Fps]];
    }
    if config.supportsAspectRatio && Has(kwargs, AspectRatio) {
      var ar := Str(kwargs[AspectRatio]);
      if ar !in AllowedAspectRatios(normalized) {
        var allowedText := if StartsWith(normalized, "veo-2.0") then "['16:9', '9:16']" else "['16:9']";
        return Err(ValueError("aspect_ratio '" + ar + "' not supported for model '" + normalized
                              + "'. Allowed: " + allowedText));
      }
      params := params[AspectRatio := VStr(ar)];
    }
    r := Ok(params);
  }

  /**
   * The parameters copied when the caller gives a truthy value: negative prompt,
   * person generation, safety settings (normalised) and cached content.
   * Everything already in `params` under another key is kept.
   */
  method OptionalParams(params: Kwargs, kwargs: Kwargs) returns (r: Result<Kwargs>)
    ensures r.Err? <==> Has(kwargs, SafetySettings) && SafetyItems(kwargs[SafetySettings]).Err?
    ensures r.Ok? ==> r.value.Keys <= params.Keys + OptionalKeys
    ensures r.Ok? ==> forall k :: k in params && k !in OptionalKeys ==> k in r.value && r.value[k] == params[k]
    ensures r.Ok? ==> (NegativePrompt in r.value <==> NegativePrompt in params || Has(kwargs, NegativePrompt))
    ensures r.Ok? && Has(kwargs, NegativePrompt) ==> r.value[NegativePrompt] == kwargs[NegativePrompt]
    ensures r.Ok? ==> (PersonGeneration in r.value <==> PersonGeneration in params || Has(kwargs, PersonGeneration))
    ensures r.Ok? && Has(kwargs, PersonGeneration) ==> r.value[PersonGeneration] == kwargs[PersonGeneration]
    ensures r.Ok? ==> (SafetySettings in r.value
                       <==> SafetySettings in params
                            || (Has(kwargs, SafetySettings) && KeptSettings(SafetyItems(kwargs[SafetySettings]).value) != []))
    ensures r.Ok? && Has(kwargs, SafetySettings) && KeptSettings(SafetyItems(kwargs[SafetySettings]).value) != []
            ==> r.value[SafetySettings] == VSettings(KeptSettings(SafetyItems(kwargs[SafetySettings]).value))
    ensures r.Ok? ==> (CachedContent in r.value <==> CachedContent in params || Has(kwargs, CachedContent))
    ensures r.Ok? && Has(kwargs, CachedContent) ==> r.value[CachedContent] == kwargs[CachedContent]
  {
    var out := params;
    if Has(kwargs, NegativePrompt) {
      out := out[NegativePrompt := kwargs[NegativePrompt]];
    }
    if Has(kwargs, PersonGeneration) {
      out := out[PersonGeneration := kwargs[PersonGeneration]];
    }
    if Has(kwargs, SafetySettings) {
      var iterated := SafetyItems(kwargs[SafetySettings]);
      if iterated.Err? {
        return Err(iterated.error);
      }
      var settings := NormalizeSafetySettings(iterated.value);
      if settings != [] {
        out := out[SafetySettings := VSettings(settings)];
      }
    }
    if Has(kwargs, CachedContent) {
      out := out[CachedContent := kwargs[CachedContent]];
    }
    r := Ok(out);
  }

  /** The parameters of the retry: `safety_settings` and `cached_content` popped. */
  function Reduced(params: Kwargs): Kwargs {
    params - {SafetySettings, CachedContent}
  }

  /**
   * `types.GenerateVideosConfig(**params)` with its `except TypeError` retry.
   * `sdk` stands for the SDK's constructor: `None` when it accepts the
   * parameters, otherwise the exception it raises. Only a `TypeError` leads to
   * the second attempt without `safety_settings` and `cached_content`; any other
   * exception, and whatever the second attempt raises, reaches the caller.
   */
  function ConstructConfig(params: Kwargs, sdk: Kwargs -> Option<Raised>): (r: Result<Kwargs>)
    ensures r.Ok? ==> sdk(r.value).None?
    ensures sdk(params).None? ==> r == Ok(params)
    ensures sdk(params).Some? && !sdk(params).value.TypeError? ==> r == Err(sdk(params).value)
    ensures r.Ok? && r.value != params ==> r.value == Reduced(params) && sdk(params).Some? && sdk(params).value.TypeError?
    ensures sdk(params).Some? && sdk(params).value.TypeError? && sdk(Reduced(params)).Some?
            ==> r == Err(sdk(Reduced(params)).value)
    ensures sdk(params).Some? && sdk(params).value.TypeError? && sdk(Reduced(params)).None?
            ==> r == Ok(Reduced(params))
  {
    match sdk(params)
    case None => Ok(params)
    case Some(e) =>
      if !e.TypeError? then Err(e)
      else
        match sdk(Reduced(params))
        case None => Ok(Reduced(params))
        case Some(e2) => Err(e2)
  }

  /**
   * What `build_generation_config` promises of each key of the configuration it
   * builds from the capabilities `config` of the normalised model `normalized`:
   * a count (default 1), duration and fps only when supported and given,
   * enhancement exactly when supported (default false), a given aspect ratio
   * only when supported and allowed, the truthy optional keys as given. The
   * safety settings and the cached content are kept when present, but the
   * `TypeError` retry may have dropped them.
   */
  predicate ConfigFrom(p: Kwargs, normalized: string, config: Capabilities, kwargs: Kwargs) {
    && p.Keys <= KnownParams
    && NumberOfVideos in p && p[NumberOfVideos] == Get(kwargs, NumberOfVideos, VInt(1))
    && (DurationSeconds in p <==> config.supportsDuration && DurationSeconds in kwargs)
    && (DurationSeconds in p ==> p[DurationSeconds] == kwargs[DurationSeconds])
    && (EnhancePrompt in p <==> config.supportsEnhance)
    && (EnhancePrompt in p ==> p[EnhancePrompt] == Get(kwargs, EnhancePrompt, VBool(false)))
    && (Fps in p <==> config.supportsFps && Fps in kwargs)
    && (Fps in p ==> p[Fps] == kwargs[Fps])
    && (AspectRatio in p <==> config.supportsAspectRatio && Has(kwargs, AspectRatio))
    && (AspectRatio in p ==>
          p[AspectRatio] == VStr(Str(kwargs[AspectRatio])) && Str(kwargs[AspectRatio]) in AllowedAspectRatios(normalized))
    && (NegativePrompt in p <==> Has(kwargs, NegativePrompt))
    && (NegativePrompt in p ==> p[NegativePrompt] == kwargs[NegativePrompt])
    && (PersonGeneration in p <==> Has(kwargs, PersonGeneration))
    && (PersonGeneration in p ==> p[PersonGeneration] == kwargs[PersonGeneration])
    && (SafetySettings in p ==>
          && Has(kwargs, SafetySettings) && SafetyItems(kwargs[SafetySettings]).Ok?
          && p[SafetySettings] == VSettings(KeptSettings(SafetyItems(kwargs[SafetySettings]).value)))
    && (CachedContent in p ==> Has(kwargs, CachedContent) && p[CachedContent] == kwargs[CachedContent])
  }

  /**
   * The parameters exactly as `build_generation_config` collects them before
   * the SDK is called: `ConfigFrom`, with the safety settings present exactly
   * when some are kept and the cached content exactly when it is truthy.
   */
  predicate CollectedFrom(p: Kwargs, normalized: string, config: Capabilities, kwargs: Kwargs) {
    && ConfigFrom(p, normalized, config, kwargs)
    && (SafetySettings in p <==>
          Has(kwargs, SafetySettings) && SafetyItems(kwargs[SafetySettings]).Ok?
          && KeptSettings(SafetyItems(kwargs[SafetySettings]).value) != [])
    && (CachedContent in p <==> Has(kwargs, CachedContent))
  }

  /** The safety settings are given but cannot be iterated. */
  predicate SafetyUnreadable(kwargs: Kwargs) {
    Has(kwargs, SafetySettings) && SafetyItems(kwargs[SafetySettings]).Err?
  }

  /** `build_generation_config`: normalise the model, look up its capabilities, collect the parameters, build the SDK config. */
  method BuildGenerationConfig(model: string, kwargs: Kwargs, sdk: Kwargs -> Option<Raised>) returns (r: Result<Kwargs>)
    ensures AspectRejected(NormalizeModel(model), GetConfig(NormalizeModel(model)), kwargs)
            ==> r.Err? && r.error.ValueError?
    ensures SafetyUnreadable(kwargs) ==> r.Err?
    ensures !AspectRejected(NormalizeModel(model), GetConfig(NormalizeModel(model)), kwargs) && !SafetyUnreadable(kwargs)
            ==> exists p :: CollectedFrom(p, NormalizeModel(model), GetConfig(NormalizeModel(model)), kwargs)
                            && r == ConstructConfig(p, sdk)
    ensures (forall p :: sdk(p).None?) && !SafetyUnreadable(kwargs)
            && !AspectRejected(NormalizeModel(model), GetConfig(NormalizeModel(model)), kwargs)
            ==> r.Ok?
    ensures r.Ok? ==> sdk(r.value).None?
    ensures r.Ok? ==> ConfigFrom(r.value, NormalizeModel(model), GetConfig(NormalizeModel(model)), kwargs)
  {
    var normalized := NormalizeModel(model);
    r := BuildForConfig(normalized, GetConfig(normalized), kwargs, sdk);
  }

  /** The steps of `build_generation_config` after the model's capabilities are looked up. */
  method BuildForConfig(normalized: string, config: Capabilities, kwargs: Kwargs, sdk: Kwargs -> Option<Raised>)
    returns (r: Result<Kwargs>)
    ensures AspectRejected(normalized, config, kwargs) ==> r.Err? && r.error.ValueError?
    ensures SafetyUnreadable(kwargs) ==> r.Err?
    ensures !AspectRejected(normalized, config, kwargs) && !SafetyUnreadable(kwargs)
            ==> exists p :: CollectedFrom(p, normalized, config, kwargs) && r == ConstructConfig(p, sdk)
    ensures !AspectRejected(normalized, config, kwargs) && !SafetyUnreadable(kwargs) && (forall p :: sdk(p).None?)
            ==> r.Ok?
    ensures r.Ok? ==> sdk(r.value).None?
    ensures r.Ok? ==> ConfigFrom(r.value, normalized, config, kwargs)
  {
    var collected := CollectParams(normalized, config, kwargs);
    if collected.Err? {
      return collected;
    }
    assert CollectedFrom(collected.value, normalized, config, kwargs);
    r := ConstructConfig(collected.value, sdk);
    ConstructKeepsConfig(collected.value, normalized, config, kwargs, sdk);
  }

  /** The SDK construction, with or without its retry, keeps every promise `ConfigFrom` makes of the collected parameters. */
  lemma ConstructKeepsConfig(p: Kwargs, normalized: string, config: Capabilities, kwargs: Kwargs,
                             sdk: Kwargs -> Option<Raised>)
    requires ConfigFrom(p, normalized, config, kwargs)
    ensures ConstructConfig(p, sdk).Ok? ==> ConfigFrom(ConstructConfig(p, sdk).value, normalized, config, kwargs)
  {
    var r := ConstructConfig(p, sdk);
    if r.Ok? && r.value != p {
      assert r.value == Reduced(p);
    }
  }

  /**
   * `ProgressTracker`: holds the last reported percentage and hands every
   * update to its callback. `reported` is the sequence of `(message, percent)`
   * pairs the callback has received, whether a caller's callback or the default
   * logger.
   */
  class ProgressTracker {
    var currentProgress: int
    var reported: seq<(string, int)>

    constructor ()
      ensures currentProgress == 0 && reported == []
    {
      currentProgress := 0;
      reported := [];
    }

    /** Store `percent` as given (no clamping) and call the callback once. */
    method Update(message: string, percent: int)
      modifies this
      ensures currentProgress == percent
      ensures reported == old(reported) + [(message, percent)]
    {
      currentProgress := percent;
      reported := reported + [(message, percent)];
    }

    method Start(message: string)
      modifies this
      ensures currentProgress == 0
      ensures reported == old(reported) + [(message, 0)]
    {
      Update(message, 0);
    }

    method Complete(message: string)
      modifies this
      ensures currentProgress == 100
      ensures reported == old(reported) + [(message, 100)]
    {
      Update(message, 100);
    }
  }

}
