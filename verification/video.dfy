/**
 * `generate/video.py`: the person-generation policy shared by the generation
 * entry points, and the Daydreams Router text-to-video path (router model and
 * slug choice, payload assembly, the status poll loop with its progress
 * reports, and the choice of the downloadable asset). The router's answers
 * are oracles: the job returned on submission, the sequence of jobs returned
 * by successive polls, and the two refreshes asked for when a finished job
 * lists no assets.
 */
module Video {
  import opened Wrappers
  import opened Text
  import opened Values
  import opened ModelConfig
  import Extractor

  /** The generation mode the callers pass: `"text"`, `"image"` or `"video"`. */
  datatype Mode = TextMode | ImageMode | VideoMode {
    function Name(): string {
      match this
      case TextMode => "text"
      case ImageMode => "image"
      case VideoMode => "video"
    }
  }

  /** `model.replace("models/", "") if model else ""`: every occurrence of the prefix goes. */
  function ModelKey(model: string): string {
    if model == [] then [] else RemoveAll(model, ModelsPrefix)
  }

  /** A leading `models/` makes no difference to the key. */
  lemma ModelKeyIgnoresPrefix(m: string)
    ensures ModelKey(ModelsPrefix + m) == ModelKey(m)
  {
    var s := ModelsPrefix + m;
    StartsWithIsPrefix(s, ModelsPrefix);
    assert s[|ModelsPrefix|..] == m;
    assert RemoveAll(s, ModelsPrefix) == RemoveAll(m, ModelsPrefix);
  }

  /** Veo 3.0 and Veo 2.0 keys are told apart by their fifth character. */
  lemma VersionPrefixesExclusive(key: string)
    ensures !(StartsWith(key, "veo-3.0") && StartsWith(key, "veo-2.0"))
  {
    StartsWithIsPrefix(key, "veo-3.0");
    StartsWithIsPrefix(key, "veo-2.0");
  }

  /**
   * The `person_generation` values allowed for a model key and mode. Veo 3.0
   * allows `allow_all` for text only and `allow_adult` otherwise; Veo 2.0 also
   * allows `dont_allow`, and `allow_all` only for text; any other key follows
   * the Veo 3 rules.
   */
  function AllowedPersonGeneration(key: string, mode: Mode): (allowed: set<string>)
    ensures allowed <= {"allow_all", "allow_adult", "dont_allow"}
    ensures "allow_all" in allowed <==> mode == TextMode
    ensures "allow_adult" in allowed <==> mode != TextMode || StartsWith(key, "veo-2.0")
    ensures "dont_allow" in allowed <==> StartsWith(key, "veo-2.0")
  {
    VersionPrefixesExclusive(key);
    if StartsWith(key, "veo-3.0") then
      if mode == TextMode then {"allow_all"} else {"allow_adult"}
    else if StartsWith(key, "veo-2.0") then
      if mode == TextMode then {"allow_all", "allow_adult", "dont_allow"} else {"allow_adult", "dont_allow"}
    else
      if mode == TextMode then {"allow_all"} else {"allow_adult"}
  }

  /** `sorted(allowed)` as Python prints the list. */
  function AllowedText(key: string, mode: Mode): string {
    if StartsWith(key, "veo-2.0") then
      if mode == TextMode then "['allow_adult', 'allow_all', 'dont_allow']" else "['allow_adult', 'dont_allow']"
    else if mode == TextMode then "['allow_all']" else "['allow_adult']"
  }

  /** The message of the ValueError raised for a rejected value. */
  function PersonGenerationMessage(model: string, mode: Mode, value: Value): string {
    var key := ModelKey(model);
    "person_generation='" + Str(value) + "' not allowed for " + (if key == [] then "veo-3.0" else key)
    + " in " + mode.Name() + " mode. Allowed: " + AllowedText(key, mode)
  }

  /**
   * `_validate_person_generation`: a falsy value is accepted as it is; any other
   * value must be one of the allowed strings.
   */
  function ValidatePersonGeneration(model: string, mode: Mode, value: Value): (r: Result<()>)
    ensures !Truthy(value) ==> r.Ok?
    ensures r.Ok? <==> !Truthy(value) || (value.VStr? && value.s in AllowedPersonGeneration(ModelKey(model), mode))
    ensures r.Err? ==> r.error == ValueError(PersonGenerationMessage(model, mode, value))
  {
    if !Truthy(value) then Ok(())
    else if value.VStr? && value.s in AllowedPersonGeneration(ModelKey(model), mode) then Ok(())
    else Err(ValueError(PersonGenerationMessage(model, mode, value)))
  }

  /** Validation gives the same answer, message included, with or without a `models/` prefix. */
  lemma ValidationIgnoresModelsPrefix(m: string, mode: Mode, value: Value)
    ensures ValidatePersonGeneration(ModelsPrefix + m, mode, value) == ValidatePersonGeneration(m, mode, value)
  {
    ModelKeyIgnoresPrefix(m);
  }

  /** The default `_apply_default_person_generation` writes for a Veo 3 model. */
  function DefaultPersonGeneration(mode: Mode): string {
    if mode == TextMode then "allow_all" else "allow_adult"
  }

  /**
   * What `_apply_default_person_generation` leaves in `config_params`: a truthy
   * value stays; otherwise a model whose key starts with `veo-3.` gets the
   * default for the mode, and any other model is left alone.
   */
  function WithDefaultPersonGeneration(model: string, mode: Mode, params: Kwargs): (r: Kwargs)
    ensures forall k :: k != PersonGeneration ==> (k in r <==> k in params)
    ensures forall k :: k != PersonGeneration && k in params ==> r[k] == params[k]
    ensures Has(params, PersonGeneration) ==> r == params
    ensures !Has(params, PersonGeneration) ==> (Has(r, PersonGeneration) <==> StartsWith(ModelKey(model), "veo-3."))
    ensures Has(r, PersonGeneration) && !Has(params, PersonGeneration) ==>
      r[PersonGeneration] == VStr(DefaultPersonGeneration(mode))
  {
    if Has(params, PersonGeneration) then params
    else if StartsWith(ModelKey(model), "veo-3.") then params[PersonGeneration := VStr(DefaultPersonGeneration(mode))]
    else params
  }

  /** A key starting with `veo-3.` is not a Veo 2.0 key. */
  lemma Veo3IsNotVeo2(key: string)
    requires StartsWith(key, "veo-3.")
    ensures !StartsWith(key, "veo-2.0")
  {
    StartsWithIsPrefix(key, "veo-3.");
    StartsWithIsPrefix(key, "veo-2.0");
  }

  /**
   * Filling in the default and then validating never raises when the caller
   * gave no value, whatever the model and mode: Veo 3 models receive a value
   * their own rule allows, and other models receive nothing.
   */
  lemma DefaultPassesValidation(model: string, mode: Mode, params: Kwargs)
    requires !Has(params, PersonGeneration)
    ensures ValidatePersonGeneration(model, mode, Get(WithDefaultPersonGeneration(model, mode, params), PersonGeneration, VNone)).Ok?
  {
    var key := ModelKey(model);
    if StartsWith(key, "veo-3.") {
      Veo3IsNotVeo2(key);
    }
  }

  /** The `config_params` dictionary the generation entry points fill in place. */
  class ConfigParams {
    var entries: Kwargs

    constructor (entries: Kwargs)
      ensures this.entries == entries
    {
      this.entries := entries;
    }

    /** `_apply_default_person_generation(model, mode, config_params)`. */
    method ApplyDefaultPersonGeneration(model: string, mode: Mode)
      modifies this
      ensures entries == WithDefaultPersonGeneration(model, mode, old(entries))
    {
      if PersonGeneration in entries && Truthy(entries[PersonGeneration]) {
        return;
      }
      var key := if model != [] then RemoveAll(model, ModelsPrefix) else [];
      assert key == ModelKey(model);
      if StartsWith(key, "veo-3.") {
        if mode == TextMode {
          entries := entries[PersonGeneration := VStr("allow_all")];
        } else {
          entries := entries[PersonGeneration := VStr("allow_adult")];
        }
      }
    }
  }

  /**
   * The call sequence of the generation entry points: fill in the default, then
   * validate what is there. With no value from the caller this never raises.
   */
  method DefaultThenValidate(params: ConfigParams, model: string, mode: Mode) returns (r: Result<()>)
    modifies params
    ensures params.entries == WithDefaultPersonGeneration(model, mode, old(params.entries))
    ensures r == ValidatePersonGeneration(model, mode, Get(params.entries, PersonGeneration, VNone))
    ensures !Has(old(params.entries), PersonGeneration) ==> r.Ok?
  {
    ghost var before := params.entries;
    params.ApplyDefaultPersonGeneration(model, mode);
    r := ValidatePersonGeneration(model, mode, Get(params.entries, PersonGeneration, VNone));
    if !Has(before, PersonGeneration) {
      DefaultPassesValidation(model, mode, before);
    }
  }

  // ---------------------------------------------------------------------
  // Daydreams Router text path
  // ---------------------------------------------------------------------

  /** Python's `a or b` on optional strings: `a` unless it is None or empty. */
  function OrElse(a: Option<string>, b: Option<string>): Option<string> {
    if a.Some? && a.value != [] then a else b
  }

  /**
   * `to_daydreams_model(normalized) or to_daydreams_model(model) or model`.
   */
  function RouterModel(model: string): string {
    var n := NormalizeModel(model);
    var routed := OrElse(ToDaydreamsModel(n), ToDaydreamsModel(model));
    if routed.Some? && routed.value != [] then routed.value else model
  }

  /**
   * The router model is never empty, so the "not supported by Daydreams Router"
   * ValueError cannot be raised: an empty model normalises to the default model,
   * which has a router id, and any other model is its own fallback.
   */
  lemma RouterModelNeverEmpty(model: string)
    ensures RouterModel(model) != []
    ensures NormalizeModel(NormalizeModel(model)) in DaydreamsModelIds ==>
      RouterModel(model) in {"google/veo-3", "google/veo-3-fast"}
  {
    if model == [] {
      DefaultIsFixed();
      assert NormalizeModel(model) == DefaultModel;
    }
  }

  /** The default model is a fixed point of normalisation with a router id. */
  lemma DefaultIsFixed()
    ensures NormalizeModel(DefaultModel) == DefaultModel && DefaultModel in DaydreamsModelIds
  {
    CanonicalIdsAreFixedPoints(DefaultModel);
  }

  /** `to_daydreams_slug(normalized) or to_daydreams_slug(model)`. */
  function RouterSlug(model: string): Option<string> {
    OrElse(ToDaydreamsSlug(NormalizeModel(model)), ToDaydreamsSlug(model))
  }

  predicate IsDigit(c: char) {
    '0' <= c <= '9'
  }

  /** A run of ASCII decimal digits. */
  predicate AllDigits(s: string) {
    forall i :: 0 <= i < |s| ==> IsDigit(s[i])
  }

  lemma DigitIsNotSpace(c: char)
    requires IsDigit(c)
    ensures !IsSpace(c) && c != '-' && c != '+'
  {
  }

  function DigitValue(c: char): nat
    requires IsDigit(c)
  {
    c as int - '0' as int
  }

  /** The value of a string of decimal digits. */
  function DigitsValue(s: string): nat
    requires AllDigits(s)
  {
    if s == [] then 0 else DigitsValue(s[..|s| - 1]) * 10 + DigitValue(s[|s| - 1])
  }

  function InvalidLiteral(s: string): Raised {
    ValueError("invalid literal for int() with base 10: '" + s + "'")
  }

  /** An optional sign followed by ASCII digits, as a value; None for anything else. */
  function SignedValue(t: string): Option<int> {
    var signed := t != [] && (t[0] == '-' || t[0] == '+');
    var digits := if signed then t[1..] else t;
    if digits == [] || !AllDigits(digits) then None
    else
      var magnitude: int := DigitsValue(digits);
      Some(if signed && t[0] == '-' then -magnitude else magnitude)
  }

  /** `int(s)` for a string: surrounding whitespace, an optional sign, then ASCII digits. */
  function ParseInt(s: string): Result<int> {
    match SignedValue(Strip(s))
    case Some(n) => Ok(n)
    case None => Err(InvalidLiteral(s))
  }

  /** The TypeError `int()` raises for an argument of the named type. */
  function NotANumber(typeName: string): Raised {
    TypeError("int() argument must be a string, a bytes-like object or a real number, not '" + typeName + "'")
  }

  /** Python's `int(v)` for the values a caller may pass. */
  function IntOf(v: Value): Result<int> {
    match v
    case VNone => Err(NotANumber("NoneType"))
    case VBool(b) => Ok(if b then 1 else 0)
    case VInt(i) => Ok(i)
    case VReal(x) => Ok(Extractor.Trunc(x))
    case VStr(s) => ParseInt(s)
    case VItems(_) => Err(NotANumber("list"))
    case VSettings(_) => Err(NotANumber("list"))
  }

  /** Reading back the decimal digits of a natural number gives the number. */
  lemma {:induction false} DigitsRoundTrip(n: nat)
    ensures AllDigits(NatToString(n))
    ensures DigitsValue(NatToString(n)) == n
  {
    var d := [(n % 10) as char + '0'];
    if n >= 10 {
      DigitsRoundTrip(n / 10);
      var s := NatToString(n);
      assert s == NatToString(n / 10) + d;
      assert s[..|s| - 1] == NatToString(n / 10);
    }
  }

  /** `int()` reads an unsigned run of digits as its value. */
  lemma ParseDigits(s: string)
    requires s != [] && AllDigits(s)
    ensures ParseInt(s) == Ok(DigitsValue(s))
  {
    DigitIsNotSpace(s[0]);
    DigitIsNotSpace(s[|s| - 1]);
    StripKeepsTrimmed(s);
    assert SignedValue(s) == Some(DigitsValue(s));
  }

  /** `int()` reads a minus sign followed by digits as the negated value. */
  lemma ParseNegativeDigits(s: string)
    requires s != [] && AllDigits(s)
    ensures ParseInt("-" + s) == Result<int>.Ok(-(DigitsValue(s) as int))
  {
    var t := "-" + s;
    DigitIsNotSpace(s[|s| - 1]);
    assert t[|t| - 1] == s[|s| - 1];
    StripKeepsTrimmed(t);
    assert t[1..] == s;
    assert SignedValue(t) == Some(-(DigitsValue(s) as int));
  }

  /** `int(str(n))` is `n` for a natural number. */
  lemma ParseRendered(n: nat)
    ensures ParseInt(NatToString(n)) == Ok(n)
  {
    DigitsRoundTrip(n);
    ParseDigits(NatToString(n));
  }

  /** `int("-" + str(n))` is `-n`. */
  lemma ParseRenderedNegative(n: nat)
    ensures ParseInt("-" + NatToString(n)) == Result<int>.Ok(-(n as int))
  {
    DigitsRoundTrip(n);
    ParseNegativeDigits(NatToString(n));
  }

  /** Parsing the decimal rendering of any integer gives it back. */
  lemma ParseIntRendered(i: int)
    ensures ParseInt(IntToString(i)) == Ok(i)
  {
    if i < 0 {
      ParseRenderedNegative(-i);
    } else {
      ParseRendered(i);
    }
  }

  /** `int(str(i)) == i`. */
  lemma IntOfRendered(i: int)
    ensures IntOf(VStr(IntToString(i))) == Ok(i)
  {
    ParseIntRendered(i);
  }



  /** `max(int(kwargs.get("poll_interval", 5)), 2)`. */
  function PollSeconds(kwargs: Kwargs): (r: Result<int>)
    ensures r.Ok? ==> r.value >= 2
    ensures PollInterval !in kwargs ==> r == Ok(5)
    ensures var v := Get(kwargs, PollInterval, VInt(5));
      && (r.Err? <==> IntOf(v).Err?)
      && (r.Ok? && IntOf(v).value >= 2 ==> r.value == IntOf(v).value)
  {
    var seconds :- IntOf(Get(kwargs, PollInterval, VInt(5)));
    Ok(if seconds < 2 then 2 else seconds)
  }

  /** A float poll interval is truncated by `int()` before the floor of 2 applies: 0.5 waits 2 seconds, 7.9 waits 7. */
  lemma FloatPollSeconds()
    ensures PollSeconds(map[PollInterval := VReal(0.5)]) == Ok(2)
    ensures PollSeconds(map[PollInterval := VReal(7.9)]) == Ok(7)
    ensures PollSeconds(map[PollInterval := VReal(-3.5)]) == Ok(2)
  {
    assert Extractor.Trunc(7.9) == 7;
    assert Extractor.Trunc(-3.5) == -3;
  }

  /** `kwargs.get(k) is not None`. */
  predicate IsSet(kwargs: Kwargs, k: Key) {
    k in kwargs && kwargs[k] != VNone
  }

  /** The keys a router payload can hold. */
  const PayloadKeys: set<Key> := {Prompt, DurationSeconds, AspectRatio, Resolution, EnableAudio, WebhookUrl, User}

  /** `duration_seconds or kwargs.get("duration_seconds")`. */
  function RequestedDuration(durationSeconds: Value, kwargs: Kwargs): Value {
    if Truthy(durationSeconds) then durationSeconds else Get(kwargs, DurationSeconds, VNone)
  }

  /** The options copied into the payload as given when they are truthy. */

  /**
   * The payload `_generate_from_text_daydreams` builds in place: the prompt, a
   * duration (the caller's, converted with `int()`, else the model's default),
   * the truthy options copied as given, and `enable_audio` (falling back to
   * `audio`) as a boolean when it is not None.
   */
  method BuildPayload(prompt: string, durationSeconds: Value, config: Capabilities, kwargs: Kwargs)
    returns (r: Result<Kwargs>)
    ensures var requested := RequestedDuration(durationSeconds, kwargs);
      && (r.Err? <==> Truthy(requested) && IntOf(requested).Err?)
      && (r.Err? ==> r.error == IntOf(requested).error)
      && (r.Ok? ==> (DurationSeconds in r.value <==> Truthy(requested) || config.defaultDuration != 0))
      && (r.Ok? && Truthy(requested) ==> r.value[DurationSeconds] == VInt(IntOf(requested).value))
      && (r.Ok? && !Truthy(requested) && config.defaultDuration != 0 ==>
            r.value[DurationSeconds] == VInt(config.defaultDuration))
    ensures r.Ok? ==> r.value.Keys <= PayloadKeys && Prompt in r.value && r.value[Prompt] == VStr(prompt)
    ensures r.Ok? ==> CopiedIfSet(r.value, kwargs, AspectRatio) && CopiedIfSet(r.value, kwargs, Resolution)
    ensures r.Ok? ==> CopiedIfSet(r.value, kwargs, WebhookUrl) && CopiedIfSet(r.value, kwargs, User)
    ensures r.Ok? ==> (EnableAudio in r.value <==> IsSet(kwargs, EnableAudio) || IsSet(kwargs, Audio))
    ensures r.Ok? && EnableAudio in r.value ==>
      r.value[EnableAudio] == VBool(Truthy(if IsSet(kwargs, EnableAudio) then kwargs[EnableAudio] else kwargs[Audio]))
  {
    var payload: Kwargs := map[Prompt := VStr(prompt)];
    var requested := RequestedDuration(durationSeconds, kwargs);
    if Truthy(requested) {
      var seconds := IntOf(requested);
      if seconds.Err? {
        return Err(seconds.error);
      }
      payload := payload[DurationSeconds := VInt(seconds.value)];
    } else if config.defaultDuration != 0 {
      payload := payload[DurationSeconds := VInt(config.defaultDuration)];
    }
    payload := AddOptions(payload, kwargs);
    r := Ok(payload);
  }

  /** `k` is in `p` exactly when the caller passed a truthy value for it, and then with that value. */
  predicate CopiedIfSet(p: Kwargs, kwargs: Kwargs, k: Key) {
    (k in p <==> Has(kwargs, k)) && (k in p ==> p[k] == kwargs[k])
  }

  /** The option and audio steps of the payload assembly, on a payload holding at most the prompt and duration. */
  method AddOptions(payload: Kwargs, kwargs: Kwargs) returns (p: Kwargs)
    requires payload.Keys <= {Prompt, DurationSeconds}
    ensures p.Keys <= PayloadKeys
    ensures forall k :: k in payload ==> k in p && p[k] == payload[k]
    ensures DurationSeconds in p <==> DurationSeconds in payload
    ensures CopiedIfSet(p, kwargs, AspectRatio) && CopiedIfSet(p, kwargs, Resolution)
    ensures CopiedIfSet(p, kwargs, WebhookUrl) && CopiedIfSet(p, kwargs, User)
    ensures EnableAudio in p <==> IsSet(kwargs, EnableAudio) || IsSet(kwargs, Audio)
    ensures EnableAudio in p ==>
      p[EnableAudio] == VBool(Truthy(if IsSet(kwargs, EnableAudio) then kwargs[EnableAudio] else kwargs[Audio]))
  {
    p := payload;
    if Has(kwargs, AspectRatio) {
      p := p[AspectRatio := kwargs[AspectRatio]];
    }
    if Has(kwargs, Resolution) {
      p := p[Resolution := kwargs[Resolution]];
    }
    if IsSet(kwargs, EnableAudio) {
      p := p[EnableAudio := VBool(Truthy(kwargs[EnableAudio]))];
    } else if IsSet(kwargs, Audio) {
      p := p[EnableAudio := VBool(Truthy(kwargs[Audio]))];
    }
    if Has(kwargs, WebhookUrl) {
      p := p[WebhookUrl := kwargs[WebhookUrl]];
    }
    if Has(kwargs, User) {
      p := p[User := kwargs[User]];
    }
  }

  /** An asset as the router lists it; a missing or null member is the empty string. */
  datatype Asset = Asset(mimeType: string, url: string)

  /**
   * The members of a router job that the text path reads. `jobId`, `id`,
   * `error` and `statusUrl` are "" when missing or null; `status` is None when
   * the member is missing; a missing or null `assets` is the empty list.
   */
  datatype Job = Job(jobId: string, id: string, status: Option<string>, error: string, statusUrl: string, assets: seq<Asset>)

  predicate Pending(status: string) {
    status == "queued" || status == "processing"
  }

  /** `{"queued": 5, "processing": 55}.get(status, fallback)`. */
  function StatusProgress(status: string, fallback: int): (percent: int)
    ensures status == "queued" ==> percent == 5
    ensures status == "processing" ==> percent == 55
    ensures !Pending(status) ==> percent == fallback
  {
    if status == "queued" then 5 else if status == "processing" then 55 else fallback
  }

  function Upper(c: char): char {
    if 'a' <= c <= 'z' then (c as int - 32) as char else c
  }

  function Lower(c: char): char {
    if 'A' <= c <= 'Z' then (c as int + 32) as char else c
  }

  /** `str.lower()` on ASCII letters: every character lower-cased, in place. */
  function LowerAll(s: string): (r: string)
    ensures |r| == |s|
    ensures forall i :: 0 <= i < |s| ==> r[i] == Lower(s[i])
  {
    if s == [] then [] else [Lower(s[0])] + LowerAll(s[1..])
  }

  /** `str.capitalize()` on ASCII letters: first upper case, the rest lower case. */
  function Capitalize(s: string): (r: string)
    ensures |r| == |s|
    ensures s != [] ==> r[0] == Upper(s[0])
    ensures forall i :: 1 <= i < |s| ==> r[i] == Lower(s[i])
  {
    if s == [] then [] else [Upper(s[0])] + LowerAll(s[1..])
  }

  /** The status after reading the polled jobs in order: a job without a `status` keeps the previous one. */
  function StatusAfter(initial: string, polls: seq<Result<Job>>): string
    decreases |polls|
  {
    if polls == [] then initial
    else
      var before := StatusAfter(initial, polls[..|polls| - 1]);
      match polls[|polls| - 1]
      case Ok(job) => job.status.GetOr(before)
      case Err(_) => before
  }

  /** The job in hand after the polls: the last polled job, or the submitted one. */
  function JobAfter(submitted: Job, polls: seq<Result<Job>>): Job
    decreases |polls|
  {
    if polls == [] then submitted
    else match polls[|polls| - 1]
      case Ok(job) => job
      case Err(_) => JobAfter(submitted, polls[..|polls| - 1])
  }

  /** The progress reports made in the poll loop, one per polled job. */
  function PollReports(initial: string, polls: seq<Result<Job>>): (reports: seq<(string, int)>)
    ensures |reports| == |polls|
    decreases |polls|
  {
    if polls == [] then []
    else
      var s := StatusAfter(initial, polls);
      PollReports(initial, polls[..|polls| - 1]) + [(Capitalize(s), StatusProgress(s, 60))]
  }

  /**
   * Every report in the loop is 5, 55 or 60, and it is 60 exactly when the
   * status it reports is neither `queued` nor `processing`.
   */
  lemma {:induction false} PollReportsRange(initial: string, polls: seq<Result<Job>>)
    ensures forall k :: 0 <= k < |polls| ==>
      && PollReports(initial, polls)[k].1 in {5, 55, 60}
      && (PollReports(initial, polls)[k].1 == 60 <==> !Pending(StatusAfter(initial, polls[..k + 1])))
    decreases |polls|
  {
    if polls != [] {
      var prefix := polls[..|polls| - 1];
      PollReportsRange(initial, prefix);
      forall j | 1 <= j <= |prefix|
        ensures StatusAfter(initial, polls[..j]) == StatusAfter(initial, prefix[..j])
      {
        assert polls[..j] == prefix[..j];
      }
      assert polls[..|polls|] == polls;
    }
  }

  /** The first `n` polls all returned a job, and each was made while the status was still pending. */
  predicate PolledWhilePending(initial: string, polls: seq<Result<Job>>, n: nat)
    requires n <= |polls|
  {
    forall k :: 0 <= k < n ==> polls[k].Ok? && Pending(StatusAfter(initial, polls[..k]))
  }

  /** One more successful poll made while pending extends the status, the job in hand and the reports by that poll. */
  lemma PollStep(initial: string, submitted: Job, polls: seq<Result<Job>>, n: nat)
    requires n < |polls| && polls[n].Ok?
    requires PolledWhilePending(initial, polls, n) && Pending(StatusAfter(initial, polls[..n]))
    ensures PolledWhilePending(initial, polls, n + 1)
    ensures StatusAfter(initial, polls[..n + 1]) == polls[n].value.status.GetOr(StatusAfter(initial, polls[..n]))
    ensures JobAfter(submitted, polls[..n + 1]) == polls[n].value
    ensures var s := StatusAfter(initial, polls[..n + 1]);
      PollReports(initial, polls[..n + 1]) == PollReports(initial, polls[..n]) + [(Capitalize(s), StatusProgress(s, 60))]
  {
    assert polls[..n + 1][..n] == polls[..n];
  }

  /** How the poll loop ends. `OutOfPolls` marks that the oracle ran out while the job was still pending. */
  datatype PollOutcome =
    | Settled(status: string, job: Job)
    | PollFailed(error: Raised)
    | OutOfPolls(status: string)

  /**
   * `while status in ("queued", "processing")`: poll, take the new status
   * (keeping the old one when the job has none), and report progress. `n` is
   * the number of polls that returned a job; a failed poll is `polls[n]`.
   */
  method PollJob(progress: ProgressTracker, submitted: Job, initial: string, polls: seq<Result<Job>>)
    returns (outcome: PollOutcome, n: nat)
    modifies progress
    ensures n <= |polls| && PolledWhilePending(initial, polls, n)
    ensures progress.reported == old(progress.reported) + PollReports(initial, polls[..n])
    ensures outcome.Settled? ==>
      && outcome.status == StatusAfter(initial, polls[..n]) && !Pending(outcome.status)
      && outcome.job == JobAfter(submitted, polls[..n])
    ensures outcome.PollFailed? ==>
      && n < |polls| && polls[n].Err? && outcome.error == polls[n].error
      && Pending(StatusAfter(initial, polls[..n]))
    ensures outcome.OutOfPolls? ==>
      n == |polls| && outcome.status == StatusAfter(initial, polls[..n]) && Pending(outcome.status)
  {
    var job := submitted;
    var status := initial;
    n := 0;
    while Pending(status) && n < |polls| && polls[n].Ok?
      invariant n <= |polls|
      invariant PolledWhilePending(initial, polls, n)
      invariant status == StatusAfter(initial, polls[..n]) && job == JobAfter(submitted, polls[..n])
      invariant progress.reported == old(progress.reported) + PollReports(initial, polls[..n])
      decreases |polls| - n
    {
      PollStep(initial, submitted, polls, n);
      job := polls[n].value;
      n := n + 1;
      status := job.status.GetOr(status);
      progress.Update(Capitalize(status), StatusProgress(status, 60));
    }
    if !Pending(status) {
      outcome := Settled(status, job);
    } else if n == |polls| {
      outcome := OutOfPolls(status);
    } else {
      outcome := PollFailed(polls[n].error);
    }
  }

  /** `job.get("job_id") or job.get("id")`. */
  function JobIdentifier(job: Job): string {
    if job.jobId != [] then job.jobId else job.id
  }

  const NoJobIdMessage: string := "Daydreams Router did not return a job identifier"
  const NoAssetMessage: string := "Video generation succeeded but no downloadable asset was returned"

  /** The RuntimeError message for a job that ended in a status other than `succeeded`: its error, else a default naming the status. */
  function FailureMessage(job: Job, status: string): string {
    if job.error != [] then job.error else "Video generation failed with status '" + status + "'"
  }

  predicate IsVideoAsset(a: Asset) {
    Contains(a.mimeType, "video") || EndsWith(a.url, ".mp4")
  }

  /** The index of the first asset whose MIME type mentions video or whose URL ends in `.mp4`. */
  function FirstVideoAsset(assets: seq<Asset>): (r: Option<nat>)
    ensures r.Some? ==> r.value < |assets| && IsVideoAsset(assets[r.value])
    ensures r.Some? ==> forall j :: 0 <= j < r.value ==> !IsVideoAsset(assets[j])
    ensures r.None? ==> forall j :: 0 <= j < |assets| ==> !IsVideoAsset(assets[j])
    decreases |assets|
  {
    if assets == [] then None
    else if IsVideoAsset(assets[0]) then Some(0)
    else match FirstVideoAsset(assets[1..])
      case None => None
      case Some(i) => Some(i + 1)
  }

  /** The URL to download: that of the first video asset, which must have one. */
  function ChooseAssetUrl(assets: seq<Asset>): (r: Result<string>)
    ensures r.Err? ==> r.error == RuntimeError(NoAssetMessage)
    ensures r.Ok? <==> exists i :: 0 <= i < |assets| && FirstVideoAsset(assets) == Some(i) && assets[i].url != []
    ensures r.Ok? ==> r.value != [] && exists a :: a in assets && IsVideoAsset(a) && a.url == r.value
  {
    match FirstVideoAsset(assets)
    case None => Err(RuntimeError(NoAssetMessage))
    case Some(i) => if assets[i].url == [] then Err(RuntimeError(NoAssetMessage)) else Ok(assets[i].url)
  }

  /**
   * The assets of a finished job: its own list, else those of the job fetched
   * from its `status_url` (when it has one), else those of the job fetched
   * again by id. A failed fetch raises.
   */
  function ResolveAssets(job: Job, byStatusUrl: Result<Job>, byId: Result<Job>): (r: Result<seq<Asset>>)
    ensures job.assets != [] ==> r == Ok(job.assets)
    ensures job.assets == [] && job.statusUrl != [] && byStatusUrl.Err? ==> r == Err(byStatusUrl.error)
    ensures job.assets == [] && job.statusUrl != [] && byStatusUrl.Ok? && byStatusUrl.value.assets != [] ==>
      r == Ok(byStatusUrl.value.assets)
    ensures r.Ok? && r.value != [] && job.assets == [] ==>
      (job.statusUrl != [] && byStatusUrl.Ok? && r.value == byStatusUrl.value.assets)
      || (byId.Ok? && r.value == byId.value.assets)
    ensures job.assets == [] && (job.statusUrl == [] || (byStatusUrl.Ok? && byStatusUrl.value.assets == [])) ==>
      r == (if byId.Ok? then Ok(byId.value.assets) else Err(byId.error))
  {
    if job.assets != [] then Ok(job.assets)
    else
      var fromUrl :- if job.statusUrl != [] then
        (if byStatusUrl.Ok? then Ok(byStatusUrl.value.assets) else Err(byStatusUrl.error))
      else Ok([]);
      if fromUrl != [] then Ok(fromUrl)
      else if byId.Ok? then Ok(byId.value.assets) else Err(byId.error)
  }

  /**
   * What follows a settled poll loop: a status other than `succeeded` raises
   * with the job's error or the default message; otherwise the assets are
   * resolved and the download URL chosen.
   */
  function SettledJobUrl(status: string, job: Job, byStatusUrl: Result<Job>, byId: Result<Job>): (r: Result<string>)
    ensures status != "succeeded" ==> r == Err(RuntimeError(FailureMessage(job, status)))
    ensures r.Ok? ==> status == "succeeded" && r.value != []
    ensures status == "succeeded" && ResolveAssets(job, byStatusUrl, byId).Ok? ==>
      r == ChooseAssetUrl(ResolveAssets(job, byStatusUrl, byId).value)
    ensures status == "succeeded" && ResolveAssets(job, byStatusUrl, byId).Err? ==>
      r == Err(ResolveAssets(job, byStatusUrl, byId).error)
  {
    if status != "succeeded" then Err(RuntimeError(FailureMessage(job, status)))
    else
      var assets :- ResolveAssets(job, byStatusUrl, byId);
      ChooseAssetUrl(assets)
  }

  /** Every percentage in `reports` lies between `lo` and `hi`. */
  predicate PercentsWithin(reports: seq<(string, int)>, lo: int, hi: int) {
    forall k :: 0 <= k < |reports| ==> lo <= reports[k].1 <= hi
  }

  lemma PercentsWithinAppend(a: seq<(string, int)>, b: seq<(string, int)>, lo: int, hi: int)
    requires PercentsWithin(a, lo, hi) && PercentsWithin(b, lo, hi)
    ensures PercentsWithin(a + b, lo, hi)
  {
    forall k | 0 <= k < |a + b|
      ensures lo <= (a + b)[k].1 <= hi
    {
      if k >= |a| {
        assert (a + b)[k] == b[k - |a|];
      }
    }
  }

  /** A log that grew from `before` by `entry` and then by more entries ends with `entry` and those entries. */
  /** `log` is `before` followed by reports whose percentages all lie in `lo..hi`. */
  predicate GrowsWithin(log: seq<(string, int)>, before: seq<(string, int)>, lo: int, hi: int) {
    |before| <= |log| && log[..|before|] == before && PercentsWithin(log[|before|..], lo, hi)
  }

  /** A log that grew within bounds and then had more in-bound reports appended still grew within bounds. */
  lemma GrowsFurther(before: seq<(string, int)>, mid: seq<(string, int)>, extra: seq<(string, int)>, lo: int, hi: int)
    requires GrowsWithin(mid, before, lo, hi) && PercentsWithin(extra, lo, hi)
    ensures GrowsWithin(mid + extra, before, lo, hi)
  {
    assert (mid + extra)[..|before|] == mid[..|before|];
    assert (mid + extra)[|before|..] == mid[|before|..] + extra;
    PercentsWithinAppend(mid[|before|..], extra, lo, hi);
  }

  /** An unchanged log grew within any bounds. */
  lemma GrowsNothing(log: seq<(string, int)>, lo: int, hi: int)
    ensures GrowsWithin(log, log, lo, hi)
  {
    assert log[|log|..] == [];
  }

  /** Growth within bounds is transitive. */
  lemma GrowsThrough(log: seq<(string, int)>, mid: seq<(string, int)>, before: seq<(string, int)>, lo: int, hi: int)
    requires GrowsWithin(mid, before, lo, hi) && GrowsWithin(log, mid, lo, hi)
    ensures GrowsWithin(log, before, lo, hi)
  {
    assert log == mid + log[|mid|..];
    GrowsFurther(before, mid, log[|mid|..], lo, hi);
  }

  /** The poll loop reports only 5, 55 or 60. */
  lemma PollReportsWithin(initial: string, polls: seq<Result<Job>>)
    ensures PercentsWithin(PollReports(initial, polls), 5, 60)
  {
    PollReportsRange(initial, polls);
  }

  /** How a Daydreams text generation ends in the model; `StillPending` marks that the poll oracle ran out. */
  datatype Outcome =
    | Downloading(router: string, url: string)
    | Raises(error: Raised)
    | StillPending(status: string)

  /**
   * The submission step: report `Submitting` at 0, build the payload, submit
   * it, and insist on a job identifier.
   */
  method SubmitJob(
    progress: ProgressTracker, router: string, slug: Option<string>, config: Capabilities,
    prompt: string, durationSeconds: Value, kwargs: Kwargs,
    submit: (string, Kwargs, Option<string>) -> Result<Job>)
    returns (r: Result<Job>)
    modifies progress
    ensures progress.reported == old(progress.reported) + [("Submitting", 0)]
    ensures r.Ok? ==> JobIdentifier(r.value) != []
  {
    progress.Start("Submitting");
    var payload := BuildPayload(prompt, durationSeconds, config, kwargs);
    if payload.Err? {
      return Err(payload.error);
    }
    var submitted := submit(router, payload.value, slug);
    if submitted.Err? {
      return submitted;
    }
    if JobIdentifier(submitted.value) == [] {
      return Err(RuntimeError(NoJobIdMessage));
    }
    r := submitted;
  }

  /**
   * From an accepted job to the URL to download: report the initial status
   * (a status the table does not know at 5), poll until it settles, then
   * choose the asset and report `Downloading` at 95. The percentages reported
   * are all between 5 and 95.
   */
  method AwaitAsset(
    progress: ProgressTracker, job: Job, polls: seq<Result<Job>>, byStatusUrl: Result<Job>, byId: Result<Job>)
    returns (r: Result<string>, pending: Option<string>)
    modifies progress
    ensures GrowsWithin(progress.reported, old(progress.reported), 5, 95)
    ensures |progress.reported| > |old(progress.reported)|
            && progress.reported[|old(progress.reported)|]
               == (Capitalize(job.status.GetOr("queued")), StatusProgress(job.status.GetOr("queued"), 5))
    ensures pending.Some? ==> Pending(pending.value) && r.Ok? && r.value == []
    ensures pending.None? && r.Ok? ==> r.value != []
  {
    ghost var before := progress.reported;
    GrowsNothing(before, 5, 95);
    var status := job.status.GetOr("queued");
    progress.Update(Capitalize(status), StatusProgress(status, 5));
    GrowsFurther(before, before, [(Capitalize(status), StatusProgress(status, 5))], 5, 95);
    ghost var mid := progress.reported;
    var polled, n := PollJob(progress, job, status, polls);
    PollReportsWithin(status, polls[..n]);
    GrowsFurther(before, mid, PollReports(status, polls[..n]), 5, 95);
    if polled.PollFailed? {
      r, pending := Err(polled.error), None;
    } else if polled.OutOfPolls? {
      r, pending := Ok([]), Some(polled.status);
    } else {
      r, pending := SettledJobUrl(polled.status, polled.job, byStatusUrl, byId), None;
      if r.Ok? {
        ghost var polled := progress.reported;
        progress.Update("Downloading", 95);
        GrowsFurther(before, polled, [("Downloading", 95)], 5, 95);
      }
    }
  }


  /** The router model and slug, and the configuration of the normalised model. */
  method ChooseRouter(model: string) returns (router: string, slug: Option<string>, config: Capabilities)
    ensures router == RouterModel(model) && router != []
    ensures slug == RouterSlug(model)
    ensures config == GetConfig(NormalizeModel(model))
  {
    var normalized := NormalizeModel(model);
    router := RouterModel(model);
    slug := RouterSlug(model);
    RouterModelNeverEmpty(model);
    config := GetConfig(normalized);
  }

  /**
   * `_generate_from_text_daydreams` up to the download: choose the router model
   * and slug, check the poll interval, submit, poll until the job settles, and
   * pick the asset to download. `submit` is the router's answer to the
   * submission; `polls`, `byStatusUrl` and `byId` its answers to the later
   * reads. The progress log only grows, and every percentage it receives up to
   * the download lies between 0 and 95; the download itself, the metadata read
   * and the completion report at 100 are not part of this model.
   */
  method GenerateFromTextDaydreams(
    progress: ProgressTracker, prompt: string, model: string, durationSeconds: Value, kwargs: Kwargs,
    submit: (string, Kwargs, Option<string>) -> Result<Job>,
    polls: seq<Result<Job>>, byStatusUrl: Result<Job>, byId: Result<Job>)
    returns (r: Outcome)
    modifies progress
    ensures r.Downloading? ==> r.router == RouterModel(model) && r.router != [] && r.url != []
    ensures GrowsWithin(progress.reported, old(progress.reported), 0, 95)
  {
    var router, slug, config := ChooseRouter(model);
    r := SubmitAndAwait(progress, router, slug, config, prompt, durationSeconds, kwargs, submit, polls, byStatusUrl, byId);
  }

  /**
   * The rest of `_generate_from_text_daydreams` once the router model is known:
   * the poll interval is read first, then the `try` block runs up to the
   * download.
   */
  method SubmitAndAwait(
    progress: ProgressTracker, router: string, slug: Option<string>, config: Capabilities,
    prompt: string, durationSeconds: Value, kwargs: Kwargs,
    submit: (string, Kwargs, Option<string>) -> Result<Job>,
    polls: seq<Result<Job>>, byStatusUrl: Result<Job>, byId: Result<Job>)
    returns (r: Outcome)
    modifies progress
    ensures r.Downloading? ==> r.router == router && r.url != []
    ensures GrowsWithin(progress.reported, old(progress.reported), 0, 95)
  {
    ghost var before := progress.reported;
    GrowsNothing(before, 0, 95);
    var interval := PollSeconds(kwargs);
    if interval.Err? {
      return Raises(interval.error);
    }
    var submitted := SubmitJob(progress, router, slug, config, prompt, durationSeconds, kwargs, submit);
    GrowsFurther(before, before, [("Submitting", 0)], 0, 95);
    if submitted.Err? {
      r := Raises(submitted.error);
    } else {
      ghost var mid := progress.reported;
      var url, pending := AwaitAsset(progress, submitted.value, polls, byStatusUrl, byId);
      GrowsThrough(progress.reported, mid, before, 0, 95);
      r := if pending.Some? then StillPending(pending.value)
        else if url.Err? then Raises(url.error)
        else Downloading(router, url.value);
    }
  }

}
