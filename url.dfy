/** The facade's normalisation of the server URL (`cleanUnleashUrl` in src/unleash.ts). */
module UnleashUrl {
  import opened Wrappers

  /** The suffix that older configurations put on the URL and that is stripped. */
  const FeaturesSuffix: string := "/features"

  /** JavaScript's `String.prototype.endsWith`. */
  predicate EndsWith(s: string, suffix: string) {
    |suffix| <= |s| && s[|s| - |suffix|..] == suffix
  }

  /** The warning emitted when the configured URL still ends in `/features`. */
  function FeaturesWarning(oldUrl: string): string {
    "Unleash server URL \"" + oldUrl + "\" should no longer link directly to /features"
  }

  /** `s.replace(/\/features$/, '')`: the regex is anchored at the end of the input and has
      no `g` flag, so at most the one occurrence that ends the string is removed. */
  function ReplaceFeaturesAtEnd(s: string): (r: string)
    ensures EndsWith(s, FeaturesSuffix) ==> r + FeaturesSuffix == s
    ensures !EndsWith(s, FeaturesSuffix) ==> r == s
  {
    if EndsWith(s, FeaturesSuffix) then s[..|s| - |FeaturesSuffix|] else s
  }

  /** The cleaned URL and the warning that cleaning it scheduled, if any. */
  datatype CleanedUrl = CleanedUrl(url: string, warning: Option<string>)

  /** The URL with a trailing `/features` dropped and a trailing slash guaranteed. The result
      is what remains of the input plus at most one slash, and a warning is issued exactly
      when the input ended in `/features`. */
  function CleanUnleashUrl(url: string): (r: CleanedUrl)
    ensures EndsWith(r.url, "/")
    ensures r.url[..|r.url| - 1] <= url
    ensures EndsWith(url, FeaturesSuffix) ==> r.warning == Some(FeaturesWarning(url))
    ensures !EndsWith(url, FeaturesSuffix) ==> r.warning == None
  {
    var warned := EndsWith(url, FeaturesSuffix);
    var unleashUrl := if warned then ReplaceFeaturesAtEnd(url) else url;
    var slashed := if EndsWith(unleashUrl, "/") then unleashUrl else unleashUrl + "/";
    CleanedUrl(slashed, if warned then Some(FeaturesWarning(url)) else None)
  }

  /** A URL that already ends in a slash is returned as it is, without a warning. */
  lemma CleanUrlKeepsCleanUrl(url: string)
    requires EndsWith(url, "/")
    ensures CleanUnleashUrl(url) == CleanedUrl(url, None)
  {
    assert url[|url| - 1] == '/';
  }

  /** Cleaning is idempotent: a cleaned URL is left alone and draws no second warning. */
  lemma CleanUrlIdempotent(url: string)
    ensures CleanUnleashUrl(CleanUnleashUrl(url).url) == CleanedUrl(CleanUnleashUrl(url).url, None)
  {
    CleanUrlKeepsCleanUrl(CleanUnleashUrl(url).url);
  }

  /** A URL ending in `/features` loses exactly that one suffix; a slash is then appended
      unless what remains already ends in one. */
  lemma CleanUrlStripsOneSuffix(url: string, base: string)
    requires url == base + FeaturesSuffix
    ensures CleanUnleashUrl(url).url == if EndsWith(base, "/") then base else base + "/"
  {
    assert url[|url| - |FeaturesSuffix|..] == FeaturesSuffix;
    assert url[..|url| - |FeaturesSuffix|] == base;
  }

  /** A URL ending neither in a slash nor in `/features` only gains a slash. */
  lemma CleanUrlAppendsSlash(url: string)
    requires !EndsWith(url, "/") && !EndsWith(url, FeaturesSuffix)
    ensures CleanUnleashUrl(url) == CleanedUrl(url + "/", None)
  {
  }

  /** A doubled suffix is stripped only once: when what precedes the final `/features` ends
      in `/features` itself, that inner suffix is kept and a slash is appended. */
  lemma CleanUrlKeepsInnerSuffix(base: string)
    requires EndsWith(base, FeaturesSuffix)
    ensures CleanUnleashUrl(base + FeaturesSuffix).url == base + "/"
  {
    CleanUrlStripsOneSuffix(base + FeaturesSuffix, base);
    assert base[|base| - 1] == 's';
  }

  /** An instance: `.../api/features/features` becomes `.../api/features/`. */
  lemma CleanUrlDoubledSuffix()
    ensures CleanUnleashUrl("http://unleash.example/api/features/features").url
         == "http://unleash.example/api/features/"
  {
    CleanUrlKeepsInnerSuffix("http://unleash.example/api/features");
  }
}
