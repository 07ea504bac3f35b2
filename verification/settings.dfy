/** The configuration gate of the plugin's constructor: the OpenAI key, the Dify key
    and the Dify endpoint are read from the environment, and construction is refused
    unless every one of them is set and non-empty. */
module Settings {
  import opened Results

  /** What `os.environ.get` returned for each variable: None when it is unset. */
  datatype Environment = Environment(
    openaiApiKey: Option<string>,   // OPENAI_API_KEY
    difyApiKey: Option<string>,     // DIFY_API_KEY
    difyApiUrl: Option<string>)     // DIFY_API_URL

  /** The settings of a constructed plugin; read-only for its whole life. */
  datatype Keys = Keys(openaiApiKey: string, difyApiKey: string, difyApiUrl: string)

  const MissingSettings := "API keys and URL must be set in environment variables."

  /** Python truthiness of a `str | None`: present and not the empty string. */
  predicate Truthy(v: Option<string>) {
    v.Some? && v.value != ""
  }

  /** Python's `all(...)` over a list of `str | None`. */
  function All(vs: seq<Option<string>>): (b: bool)
    ensures b <==> forall i :: 0 <= i < |vs| ==> Truthy(vs[i])
  {
    if vs == [] then true else Truthy(vs[0]) && All(vs[1..])
  }

  /** The constructor's check: the three settings become the plugin's keys, or the
      constructor raises ValueError and no plugin exists. */
  function Resolve(env: Environment): (r: Result<Keys, string>)
    ensures r.Success? <==> Truthy(env.openaiApiKey) && Truthy(env.difyApiKey) && Truthy(env.difyApiUrl)
    ensures r.Success? ==>
              && r.value.openaiApiKey == env.openaiApiKey.value
              && r.value.difyApiKey == env.difyApiKey.value
              && r.value.difyApiUrl == env.difyApiUrl.value
    ensures r.Success? ==> r.value.openaiApiKey != "" && r.value.difyApiKey != "" && r.value.difyApiUrl != ""
    ensures r.Failure? ==> r.error == MissingSettings
  {
    var settings := [env.openaiApiKey, env.difyApiKey, env.difyApiUrl];
    if All(settings) then
      assert Truthy(settings[0]) && Truthy(settings[1]) && Truthy(settings[2]);
      Success(Keys(env.openaiApiKey.value, env.difyApiKey.value, env.difyApiUrl.value))
    else
      Failure(MissingSettings)
  }

  /** Each setting alone can refuse construction: leaving any one unset or empty fails
      the gate whatever the other two hold. */
  lemma AnyMissingRefuses(env: Environment)
    requires !Truthy(env.openaiApiKey) || !Truthy(env.difyApiKey) || !Truthy(env.difyApiUrl)
    ensures Resolve(env) == Failure(MissingSettings)
  {
  }
}
