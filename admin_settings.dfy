/**
 * AdminSettings: the sanitize callback of the plugin's settings page, which
 * turns the submitted form fields into the three stored options.
 */
module AdminSettings {
  import opened Wrappers
  import opened Json

  /** The default pair list used when the form sends none. */
  const DEFAULT_SYMBOLS: string := "BTC/USDT,ETH/USDT"

  /** The accepted cache modes. */
  const CACHE_MODES: seq<string> := ["fast", "normal", "slow"]

  /** The stored option array: `default_symbols`, `cache_mode` and `enable_tailwind`. */
  datatype Settings = Settings(defaultSymbols: string, cacheMode: string, enableTailwind: string)

  /** The form value `$input[$key] ?? $default`. */
  function Field(input: map<string, Json>, key: string, default: Json): (r: Json)
    ensures key in input && input[key] != JNull ==> r == input[key]
    ensures !(key in input && input[key] != JNull) ==> r == default
  {
    Get(JDict(input), key).GetOr(default)
  }

  /**
   * sanitize($input). `sanitizeText` stands for WordPress's
   * sanitize_text_field. The cache mode is kept only when it is one of the
   * three mode strings (a strict comparison); the Tailwind flag is '1' as
   * soon as the field is set, whatever its value.
   */
  function Sanitize(input: map<string, Json>, sanitizeText: Json -> string): (out: Settings)
    ensures out.defaultSymbols == sanitizeText(Field(input, "default_symbols", JStr(DEFAULT_SYMBOLS)))
    ensures out.cacheMode in CACHE_MODES
    ensures "cache_mode" in input && input["cache_mode"].JStr? && input["cache_mode"].s in CACHE_MODES
            ==> out.cacheMode == input["cache_mode"].s
    ensures !("cache_mode" in input && input["cache_mode"].JStr? && input["cache_mode"].s in CACHE_MODES)
            ==> out.cacheMode == "normal"
    ensures out.enableTailwind == "1" <==> "enable_tailwind" in input && input["enable_tailwind"] != JNull
    ensures out.enableTailwind == "0" <==> !("enable_tailwind" in input && input["enable_tailwind"] != JNull)
  {
    var mode := Field(input, "cache_mode", JStr(""));
    Settings(
      sanitizeText(Field(input, "default_symbols", JStr(DEFAULT_SYMBOLS))),
      if mode.JStr? && mode.s in CACHE_MODES then mode.s else "normal",
      if Get(JDict(input), "enable_tailwind").Some? then "1" else "0")
  }

  /** The stored settings as the array WordPress keeps (and hands back to the callback on a later save). */
  function AsInput(s: Settings): map<string, Json> {
    map["default_symbols" := JStr(s.defaultSymbols), "cache_mode" := JStr(s.cacheMode),
        "enable_tailwind" := JStr(s.enableTailwind)]
  }

  /**
   * Sanitizing the stored array again keeps the pair list (when
   * sanitize_text_field leaves its own output alone) and the cache mode, but
   * turns a cleared Tailwind flag '0' into '1': isset() is true for the
   * string '0'. So the callback is a fixpoint on its output only when the
   * flag is on.
   */
  lemma ResanitizeSetsTailwind(input: map<string, Json>, sanitizeText: Json -> string)
    requires var out := Sanitize(input, sanitizeText);
      sanitizeText(JStr(out.defaultSymbols)) == out.defaultSymbols
    ensures var out := Sanitize(input, sanitizeText);
      var again := Sanitize(AsInput(out), sanitizeText);
      again.defaultSymbols == out.defaultSymbols && again.cacheMode == out.cacheMode &&
      again.enableTailwind == "1" &&
      (again == out <==> out.enableTailwind == "1")
  {
  }
}
