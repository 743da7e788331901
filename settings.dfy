/** The plugin's settings: one WordPress option ('aibw_settings') holding a
    string-keyed map, read and written by key, sanitised before it is saved,
    and reset to a fixed table of defaults. */
module Settings {
  import opened Strings

  /** A setting's value: text, an integer or a floating-point number. */
  datatype Value = Text(s: string) | Int(n: int) | Float(x: real)

  /** PHP's `empty` on a setting's value. */
  predicate IsEmptyValue(v: Value) {
    match v
    case Text(s) => IsEmpty(s)
    case Int(n) => n == 0
    case Float(x) => x == 0.0
  }

  /** `empty($settings[$key])`: a missing key is empty as well. */
  predicate IsEmptyAt(settings: map<string, Value>, key: string) {
    key !in settings || IsEmptyValue(settings[key])
  }

  /** array_merge on string-keyed arrays: the updates win, every other key
      keeps its value. */
  function Merge(current: map<string, Value>, updates: map<string, Value>): (r: map<string, Value>)
    ensures r.Keys == current.Keys + updates.Keys
    ensures forall k :: k in updates ==> r[k] == updates[k]
    ensures forall k :: k in current && k !in updates ==> r[k] == current[k]
  {
    current + updates
  }

  /** An API key looks usable: something is left after trimming (PHP's
      `empty` also rejects "0") and the untrimmed key has 10 or more
      characters. */
  function ValidateApiKey(key: string): (ok: bool)
    ensures ok <==> |key| >= 10 && Trim(key) != "" && Trim(key) != "0"
  {
    if IsEmpty(Trim(key)) then false
    else if |key| < 10 then false
    else true
  }

  /** The max_tokens setting is kept within [100, 4000]. */
  function ClampMaxTokens(n: int): (r: int)
    ensures 100 <= r <= 4000
    ensures 100 <= n <= 4000 ==> r == n
    ensures n < 100 ==> r == 100
    ensures n > 4000 ==> r == 4000
  {
    if n < 100 then 100 else if n > 4000 then 4000 else n
  }

  lemma ClampMaxTokensIdempotent(n: int)
    ensures ClampMaxTokens(ClampMaxTokens(n)) == ClampMaxTokens(n)
  {
  }

  /** The temperature setting is kept within [0, 2]. */
  function ClampTemperature(t: real): (r: real)
    ensures 0.0 <= r <= 2.0
    ensures 0.0 <= t <= 2.0 ==> r == t
    ensures t < 0.0 ==> r == 0.0
    ensures t > 2.0 ==> r == 2.0
  {
    if t < 0.0 then 0.0 else if t > 2.0 then 2.0 else t
  }

  /** in_array($status, ['draft', 'publish', 'pending']). */
  predicate AllowedStatus(v: Value) {
    v == Text("draft") || v == Text("publish") || v == Text("pending")
  }

  /** The keys sanitize_settings keeps, in the order it handles them. */
  function SanitizedKeyOrder(): (keys: seq<string>)
    ensures |keys| == 7
  {
    ["openrouter_api_key", "perplexity_api_key", "default_model", "temperature",
     "max_tokens", "post_category", "post_status"]
  }

  function SanitizedKeys(): set<string> {
    {"openrouter_api_key", "perplexity_api_key", "default_model", "temperature",
     "max_tokens", "post_category", "post_status"}
  }

  /** What sanitize_settings stores under one of its keys, given the input's
      value there: API keys and the model name go through
      sanitize_text_field, the temperature is clamped into [0, 2], max_tokens
      into [100, 4000], the category is converted with intval and a status
      outside the whitelist becomes 'draft'. `textField`, `intval` and
      `floatval` stand for PHP's sanitize_text_field, intval and floatval. */
  function SanitizedValue(key: string, v: Value, textField: Value -> string,
                          intval: Value -> int, floatval: Value -> real): (r: Value)
    ensures key == "max_tokens" ==> r == Int(ClampMaxTokens(intval(v)))
    ensures key == "temperature" ==> r == Float(ClampTemperature(floatval(v)))
    ensures key == "post_status" ==> AllowedStatus(r) && (AllowedStatus(v) ==> r == v)
    ensures key == "post_status" && !AllowedStatus(v) ==> r == Text("draft")
    ensures key == "post_category" ==> r == Int(intval(v))
    ensures key == "openrouter_api_key" || key == "perplexity_api_key" || key == "default_model" ==>
              r == Text(textField(v))
  {
    if key == "temperature" then
      var t := floatval(v);
      var t := if t < 0.0 then 0.0 else t;
      Float(if t > 2.0 then 2.0 else t)
    else if key == "max_tokens" then
      var n := intval(v);
      var n := if n < 100 then 100 else n;
      Int(if n > 4000 then 4000 else n)
    else if key == "post_category" then Int(intval(v))
    else if key == "post_status" then (if AllowedStatus(v) then v else Text("draft"))
    else Text(textField(v))
  }

  /** sanitize_settings: only the listed keys that the input has are kept,
      each sanitised; anything else (perplexity_model, default_author, ...)
      is dropped. */
  method SanitizeSettings(input: map<string, Value>, textField: Value -> string,
                          intval: Value -> int, floatval: Value -> real)
    returns (sanitized: map<string, Value>)
    ensures sanitized.Keys == input.Keys * SanitizedKeys()
    ensures forall k :: k in sanitized ==> sanitized[k] == SanitizedValue(k, input[k], textField, intval, floatval)
    ensures "perplexity_model" !in sanitized && "default_author" !in sanitized
  {
    sanitized := map[];
    var keys := SanitizedKeyOrder();
    for i := 0 to |keys|
      invariant forall k :: k in sanitized <==> k in input && k in keys[..i]
      invariant forall k :: k in sanitized ==> sanitized[k] == SanitizedValue(k, input[k], textField, intval, floatval)
    {
      var key := keys[i];
      if key in input {
        sanitized := sanitized[key := SanitizedValue(key, input[key], textField, intval, floatval)];
      }
      assert keys[..i + 1] == keys[..i] + [key];
    }
    assert keys[..|keys|] == keys;
  }

  /** get_defaults. The defaults cover exactly the keys sanitisation keeps,
      and are values sanitisation leaves alone. */
  function Defaults(): (d: map<string, Value>)
    ensures d.Keys == SanitizedKeys()
    ensures d["max_tokens"].Int? && ClampMaxTokens(d["max_tokens"].n) == d["max_tokens"].n
    ensures d["temperature"].Float? && ClampTemperature(d["temperature"].x) == d["temperature"].x
    ensures AllowedStatus(d["post_status"])
    ensures IsEmptyAt(d, "openrouter_api_key") && IsEmptyAt(d, "perplexity_api_key")
  {
    map[
      "openrouter_api_key" := Text(""),
      "perplexity_api_key" := Text(""),
      "default_model" := Text("openrouter/" + "meta-llama/" + "llama-3.1-8b-instruct"),
      "temperature" := Float(0.7),
      "max_tokens" := Int(2000),
      "post_category" := Int(1),
      "post_status" := Text("draft")
    ]
  }

  /** The stored option 'aibw_settings' (AIBW_Settings). */
  class Store {
    var options: map<string, Value>

    /** `stored` is what WordPress holds for the option (an empty map when it
        was never saved). */
    constructor (stored: map<string, Value>)
      ensures options == stored
    {
      options := stored;
    }

    /** get_option: the stored value when the key is set, otherwise the
        caller's default. */
    function GetOption(key: string, default: Value): (v: Value)
      reads this
      ensures key in options ==> v == options[key]
      ensures key !in options ==> v == default
    {
      if key in options then options[key] else default
    }

    /** WordPress's update_option on the whole map: the map is written when
        the database write succeeds (`written`), and the answer is true only
        when a write happened and changed the stored value. */
    method Save(next: map<string, Value>, written: bool) returns (updated: bool)
      modifies this
      ensures options == if written then next else old(options)
      ensures updated <==> written && next != old(options)
    {
      updated := written && next != options;
      if written {
        options := next;
      }
    }

    /** update_option: this key now holds `value`; no other key changes. */
    method UpdateOption(key: string, value: Value, written: bool) returns (updated: bool)
      modifies this
      ensures options == if written then old(options)[key := value] else old(options)
      ensures updated <==> written && old(options)[key := value] != old(options)
      ensures !(key in old(options) && old(options)[key] == value) ==> (updated <==> written)
      ensures written ==> GetOption(key, value) == value
      ensures forall k, d :: k != key ==> GetOption(k, d) == old(GetOption(k, d))
    {
      if key in options && options[key] == value {
        assert options[key := value] == options;
      } else {
        assert key in options[key := value] && options[key := value][key] == value;
      }
      updated := Save(options[key := value], written);
    }

    /** update_options: the updates are merged over the stored map. */
    method UpdateOptions(updates: map<string, Value>, written: bool) returns (updated: bool)
      modifies this
      ensures options == if written then Merge(old(options), updates) else old(options)
      ensures updated <==> written && Merge(old(options), updates) != old(options)
    {
      updated := Save(Merge(options, updates), written);
    }

    /** reset_to_defaults: the stored map becomes exactly the defaults. */
    method ResetToDefaults(written: bool) returns (updated: bool)
      modifies this
      ensures options == if written then Defaults() else old(options)
      ensures updated <==> written && Defaults() != old(options)
    {
      updated := Save(Defaults(), written);
    }
  }
}
