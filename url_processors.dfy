/** The language URL processors of app/url_processors.py. `processor` takes
    the "lang" URL argument out of a matched URL's values and keeps it as
    the request's language; `add_language_code` puts the request's language
    back into the values of a URL being built for an endpoint that expects
    it. */
module UrlProcessors {
  import opened Store

  const LangKey: string := "lang"

  /** The URL values dictionary Flask hands to the processors. */
  class UrlValues {
    var entries: map<string, Value>

    constructor (entries: map<string, Value>)
      ensures this.entries == entries
    {
      this.entries := entries;
    }
  }

  /** Flask's `g` for one request: the request's language. */
  class RequestGlobals {
    var lang: Value

    constructor (lang: Value)
      ensures this.lang == lang
    {
      this.lang := lang;
    }
  }

  /** The values and the language after `processor`: "lang" is taken out
      and becomes the language; without it the values stay as they are and
      the language is the fallback. */
  function Preprocessed(entries: map<string, Value>, fallback: Value): (r: (map<string, Value>, Value))
    ensures LangKey !in r.0
    ensures forall k | k in entries && k != LangKey :: k in r.0 && r.0[k] == entries[k]
    ensures r.0.Keys <= entries.Keys
    ensures r.1 == if LangKey in entries then entries[LangKey] else fallback
  {
    if LangKey in entries then (entries - {LangKey}, entries[LangKey]) else (entries, fallback)
  }

  /** The values after `add_language_code`: the language is added when the
      endpoint expects it and the values do not carry one already. */
  function WithLanguage(entries: map<string, Value>, lang: Value, expecting: bool): (r: map<string, Value>)
    ensures LangKey in entries || !expecting ==> r == entries
    ensures LangKey !in entries && expecting ==> r.Keys == entries.Keys + {LangKey} && r[LangKey] == lang
    ensures forall k | k in entries :: k in r && r[k] == entries[k]
  {
    if LangKey in entries || !expecting then entries else entries[LangKey := lang]
  }

  /** Building a URL for an endpoint that expects a language and then
      matching it gives back the values without the language, and the
      language the URL carried: the request's own one unless the caller
      passed another. */
  lemma LanguageRoundTrip(entries: map<string, Value>, lang: Value, fallback: Value)
    ensures Preprocessed(WithLanguage(entries, lang, true), fallback) ==
      (entries - {LangKey}, if LangKey in entries then entries[LangKey] else lang)
  {
    if LangKey !in entries {
      assert entries[LangKey := lang] - {LangKey} == entries == entries - {LangKey};
    }
  }

  /** `processor(endpoint, values)` (app/url_processors.py:5-10). `values`
      is None when no rule matched; the bare `except` then falls back too.
      The endpoint is not consulted. */
  method Processor(values: UrlValues?, g: RequestGlobals, languages: seq<Value>)
    requires |languages| > 0
    modifies values, g
    ensures values != null ==> (values.entries, g.lang) == Preprocessed(old(values.entries), languages[0])
    ensures values == null ==> g.lang == languages[0]
  {
    if values != null && LangKey in values.entries {
      g.lang := values.entries[LangKey];
      values.entries := values.entries - {LangKey};
    } else {
      // KeyError on the pop, or AttributeError on None
      g.lang := languages[0];
    }
  }

  /** `add_language_code(endpoint, values)` (app/url_processors.py:12-17).
      `expecting` is `url_map.is_endpoint_expecting(endpoint, "lang")`. */
  method AddLanguageCode(values: UrlValues, g: RequestGlobals, expecting: bool)
    modifies values
    ensures values.entries == WithLanguage(old(values.entries), g.lang, expecting)
  {
    if LangKey in values.entries {
      return;
    }
    if expecting {
      values.entries := values.entries[LangKey := g.lang];
    }
  }
}
