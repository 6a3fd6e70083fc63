/**
 * Python keyword-argument dictionaries (`**kwargs`, `config_params`, `params`, `payload`)
 * as maps from key to a tagged value, with Python's truthiness.
 */
module Values {
  import opened Wrappers

  /** A safety setting as the SDK's `SafetySetting` record holds it. */
  datatype SafetySetting = SafetySetting(category: Option<string>, threshold: Option<string>)

  /**
   * An element of a caller's `safety_settings` list: an object that already has
   * `category` and `threshold`, a dict (which the SDK may or may not accept when
   * it is converted), or anything else.
   */
  datatype SafetyItem =
    | SettingObject(setting: SafetySetting)
    | SettingDict(category: Option<string>, threshold: Option<string>, convertible: bool)
    | OtherItem

  datatype Value =
    | VNone
    | VBool(b: bool)
    | VInt(i: int)
    | VReal(x: real)
    | VStr(s: string)
    | VItems(items: seq<SafetyItem>)
    | VSettings(settings: seq<SafetySetting>)

  /**
   * Dictionary keys. The keys the modelled code reads or writes are
   * constructors; `Other` stands for any other key a caller passes along.
   */
  datatype Key =
    | NumberOfVideos | DurationSeconds | EnhancePrompt | Fps | AspectRatio
    | NegativePrompt | PersonGeneration | SafetySettings | CachedContent
    | PollInterval | Resolution | EnableAudio | Audio | WebhookUrl | User
    | Model | Prompt
    | Other(name: string)

  type Kwargs = map<Key, Value>

  /** Python's `bool(v)`. */
  predicate Truthy(v: Value) {
    match v
    case VNone => false
    case VBool(b) => b
    case VInt(i) => i != 0
    case VReal(x) => x != 0.0
    case VStr(s) => s != []
    case VItems(xs) => xs != []
    case VSettings(xs) => xs != []
  }

  /** `d.get(k, default)`. */
  function Get(d: Kwargs, k: Key, default: Value): Value {
    if k in d then d[k] else default
  }

  /** `bool(d.get(k))`: the key is present with a truthy value. */
  predicate Has(d: Kwargs, k: Key) {
    k in d && Truthy(d[k])
  }
}
