/**
 * The provider registry: the settings name a VLM provider and an image
 * provider, and the registry picks the client and the key each one uses.
 * Clients are represented by the values they are constructed with.
 */
module Registry {
  import opened Base
  import opened Strings

  /** The settings the registry reads. */
  datatype ProviderSettings = ProviderSettings(
    vlmProvider: string,
    vlmModel: string,
    imageProvider: string,
    imageModel: string,
    googleApiKey: Option<string>,
    openrouterApiKey: Option<string>,
    apicoreApiKey: Option<string>,
    kieApiKey: Option<string>,
    vlmBaseUrl: Option<string>)

  datatype VlmClient =
    | GeminiVlm(apiKey: Option<string>, model: string)
    | OpenRouterVlm(apiKey: Option<string>, model: string, baseUrl: Option<string>)

  datatype ImageClient =
    | GoogleImagen(apiKey: Option<string>, model: string)
    | OpenRouterImagen(apiKey: Option<string>, model: string)
    | NanoBanana(apiKey: Option<string>, model: string)

  const ApicoreBaseUrl := "https://api.apicore.ai/v1"

  /** Python's `value or default` on an optional string. */
  function OrDefault(value: Option<string>, default: string): (r: string)
    ensures value.Some? && value.value != "" ==> r == value.value
    ensures value.None? || value.value == "" ==> r == default
  {
    if value.Some? && value.value != "" then value.value else default
  }

  /** `create_vlm`: the provider name is compared in lower case. */
  function CreateVlm(settings: ProviderSettings): (r: Result<VlmClient>)
    ensures r.Ok? <==> Lower(settings.vlmProvider) in {"gemini", "openrouter", "apicore"}
    ensures Lower(settings.vlmProvider) == "gemini" ==> r == Ok(GeminiVlm(settings.googleApiKey, settings.vlmModel))
    ensures Lower(settings.vlmProvider) == "openrouter" ==>
      r == Ok(OpenRouterVlm(settings.openrouterApiKey, settings.vlmModel, settings.vlmBaseUrl))
    ensures Lower(settings.vlmProvider) == "apicore" ==>
      r == Ok(OpenRouterVlm(settings.apicoreApiKey, settings.vlmModel, Some(OrDefault(settings.vlmBaseUrl, ApicoreBaseUrl))))
    ensures r.Err? ==> r.error.kind == "ValueError" && StartsWith(r.error.message, "Unknown VLM provider")
  {
    var provider := Lower(settings.vlmProvider);
    if provider == "gemini" then Ok(GeminiVlm(settings.googleApiKey, settings.vlmModel))
    else if provider == "openrouter" then Ok(OpenRouterVlm(settings.openrouterApiKey, settings.vlmModel, settings.vlmBaseUrl))
    else if provider == "apicore" then
      Ok(OpenRouterVlm(settings.apicoreApiKey, settings.vlmModel, Some(OrDefault(settings.vlmBaseUrl, ApicoreBaseUrl))))
    else
      var message := "Unknown VLM provider: " + provider + ". Available: gemini, openrouter, apicore";
      assert message[..20] == "Unknown VLM provider";
      Err(Exception("ValueError", message))
  }

  /** `create_image_gen`: the provider name is compared in lower case. */
  function CreateImageGen(settings: ProviderSettings): (r: Result<ImageClient>)
    ensures r.Ok? <==> Lower(settings.imageProvider) in {"google_imagen", "openrouter_imagen", "nanobanana"}
    ensures Lower(settings.imageProvider) == "google_imagen" ==> r == Ok(GoogleImagen(settings.googleApiKey, settings.imageModel))
    ensures Lower(settings.imageProvider) == "openrouter_imagen" ==> r == Ok(OpenRouterImagen(settings.openrouterApiKey, settings.imageModel))
    ensures Lower(settings.imageProvider) == "nanobanana" ==> r == Ok(NanoBanana(settings.kieApiKey, settings.imageModel))
    ensures r.Err? ==> r.error.kind == "ValueError" && StartsWith(r.error.message, "Unknown image provider")
  {
    var provider := Lower(settings.imageProvider);
    if provider == "google_imagen" then Ok(GoogleImagen(settings.googleApiKey, settings.imageModel))
    else if provider == "openrouter_imagen" then Ok(OpenRouterImagen(settings.openrouterApiKey, settings.imageModel))
    else if provider == "nanobanana" then Ok(NanoBanana(settings.kieApiKey, settings.imageModel))
    else
      var message := "Unknown image provider: " + provider + ". Available: google_imagen, openrouter_imagen, nanobanana";
      assert message[..22] == "Unknown image provider";
      Err(Exception("ValueError", message))
  }

  /** Lower-casing twice is lower-casing once. */
  lemma LowerIdempotent(s: string)
    ensures Lower(Lower(s)) == Lower(s)
  {
    forall i | 0 <= i < |s|
      ensures Lower(Lower(s))[i] == Lower(s)[i]
    {
      var c := s[i];
      if 'A' <= c <= 'Z' {
        assert 'a' <= LowerChar(c) <= 'z';
      }
    }
  }

  /** Provider names are case-insensitive: a name and its lower-case form pick the same clients. */
  lemma {:induction false} ProviderNamesCaseInsensitive(settings: ProviderSettings)
    ensures CreateVlm(settings) == CreateVlm(settings.(vlmProvider := Lower(settings.vlmProvider)))
    ensures CreateImageGen(settings) == CreateImageGen(settings.(imageProvider := Lower(settings.imageProvider)))
  {
    LowerIdempotent(settings.vlmProvider);
    LowerIdempotent(settings.imageProvider);
  }

  /**
   * The mask under which the APICore key is logged: the first 8 and last 4
   * characters of a key longer than 12, otherwise a word saying the key is
   * empty or short. An absent key counts as empty.
   */
  function KeyMask(key: Option<string>): (r: string)
    ensures var k := if key.Some? then key.value else "";
      && (|k| > 12 ==> |r| == 15 && r[..8] == k[..8] && r[8..11] == "..." && r[11..] == k[|k| - 4..])
      && (k == "" ==> r == "(empty)")
      && (0 < |k| <= 12 ==> r == "(short)")
  {
    var k := if key.Some? then key.value else "";
    if |k| > 12 then k[..8] + "..." + TakeLast(k, 4)
    else if k == "" then "(empty)"
    else "(short)"
  }
}
