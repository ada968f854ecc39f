/** How the bot normalises the chat and search endpoints it is configured with (app.py:57-61, 81-85, 101-102). */
module Endpoints {
  import opened Text

  const HttpsScheme: string := "https://"
  const OpenAIHost: string := "openai.azure.com"
  const FoundryHost: string := "ai.azure.com"

  /** Prefix `https://` unless the endpoint already starts with it. */
  function WithHttps(e: string): (r: string)
    ensures StartsWith(r, HttpsScheme)
    ensures StartsWith(e, HttpsScheme) ==> r == e
    ensures r == e || r == HttpsScheme + e
  {
    if StartsWith(e, HttpsScheme) then e else HttpsScheme + e
  }

  /** The chat endpoint: `https://` added if missing, then every trailing `/` removed. */
  function NormalizeEndpoint(e: string): string {
    TrimTrailing(WithHttps(e), '/')
  }

  /**
   * A normalised endpoint begins with `https:` and never ends with `/`; one that
   * already started with `https://` only lost its trailing slashes.
   */
  lemma NormalizedEndpointShape(e: string)
    ensures StartsWith(NormalizeEndpoint(e), "https:")
    ensures !EndsWith(NormalizeEndpoint(e), '/')
    ensures StartsWith(e, HttpsScheme) ==> NormalizeEndpoint(e) == TrimTrailing(e, '/')
  {
    var s := WithHttps(e);
    var r := TrimTrailing(s, '/');
    assert s[..|HttpsScheme|] == HttpsScheme;
    assert s[5] == ':';
    assert |r| >= 6;
    assert r[..6] == s[..6];
  }

  /**
   * Normalising again changes nothing, provided the normalised endpoint still
   * starts with `https://`; the one exception is an endpoint that is only the
   * scheme and slashes, whose normal form `https:` is not stable.
   */
  lemma NormalizeIdempotent(e: string)
    requires StartsWith(NormalizeEndpoint(e), HttpsScheme)
    ensures NormalizeEndpoint(NormalizeEndpoint(e)) == NormalizeEndpoint(e)
  {
    NormalizedEndpointShape(e);
  }

  /** The bare scheme: `https://` normalises to `https:`, which normalises to `https://https:`. */
  lemma BareSchemeNotStable()
    ensures NormalizeEndpoint("https://") == "https:"
    ensures NormalizeEndpoint("https:") == "https://https:"
  {
    assert StartsWith("https://", HttpsScheme);
    assert TrimTrailing("https://", '/') == TrimTrailing("https:/", '/') == TrimTrailing("https:", '/');
    assert !StartsWith("https:", HttpsScheme);
    assert HttpsScheme + "https:" == "https://https:";
    assert !EndsWith("https://https:", '/');
  }

  /**
   * The endpoint handed to the Azure OpenAI client: unchanged when it already
   * names `openai.azure.com`, otherwise with every `ai.azure.com` rewritten.
   */
  function OpenAIEndpoint(e: string): string {
    if Contains(e, OpenAIHost) then e else ReplaceAll(e, FoundryHost, OpenAIHost)
  }

  /** The OpenAI endpoint differs from its input only when the input names the AI Foundry host but not the OpenAI host. */
  lemma OpenAIEndpointUnchanged(e: string)
    requires Contains(e, OpenAIHost) || !Contains(e, FoundryHost)
    ensures OpenAIEndpoint(e) == e
  {
    if !Contains(e, OpenAIHost) {
      ReplaceAbsent(e, FoundryHost, OpenAIHost);
    }
  }

  /** The OpenAI endpoint names `openai.azure.com` exactly when the input names `ai.azure.com`. */
  lemma OpenAIEndpointNamesOpenAI(e: string)
    ensures Contains(OpenAIEndpoint(e), OpenAIHost) <==> Contains(e, FoundryHost)
  {
    assert OccursAt(OpenAIHost, FoundryHost, 4);
    ContainsAt(OpenAIHost, FoundryHost, 4);
    if Contains(e, OpenAIHost) {
      ContainsTransitive(e, OpenAIHost, FoundryHost);
    } else if Contains(e, FoundryHost) {
      ReplacePresent(e, FoundryHost, OpenAIHost);
    } else {
      ReplaceAbsent(e, FoundryHost, OpenAIHost);
    }
  }

  /**
   * Without `openai.azure.com` in the endpoint, its first `ai.azure.com` is
   * rewritten in place and the rest is rewritten the same way; together with
   * OpenAIEndpointUnchanged this determines the endpoint for every input.
   */
  lemma OpenAIEndpointRewritesFirst(x: string, y: string)
    requires !Contains(x + FoundryHost[..|FoundryHost| - 1], FoundryHost)
    requires !Contains(x + FoundryHost + y, OpenAIHost)
    ensures OpenAIEndpoint(x + FoundryHost + y) == x + OpenAIHost + ReplaceAll(y, FoundryHost, OpenAIHost)
  {
    ReplaceFirst(x, y, FoundryHost, OpenAIHost);
  }

  /** The search endpoint only gets the scheme prefix; trailing slashes are kept. */
  function SearchEndpoint(e: string): (r: string)
    ensures StartsWith(r, HttpsScheme)
    ensures StartsWith(e, HttpsScheme) <==> r == e
    ensures !StartsWith(e, HttpsScheme) ==> r == HttpsScheme + e
  {
    WithHttps(e)
  }
}
