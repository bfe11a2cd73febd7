/**
 * `get_required_api_key` of agent_basic_v1.py and the two keys the script
 * requires at start-up. The process environment is an explicit map.
 */
module ApiKeys {
  import opened Wrappers

  /** The only exception raised: a `ValueError` with a message naming the key. */
  datatype KeyError = ValueError(message: string)

  const Prefix: string := "Please set "
  const Suffix: string := " in your .env file"

  /** The message raised when `keyName` is unset or empty. */
  function MissingKeyMessage(keyName: string): string
  {
    Prefix + keyName + Suffix
  }

  /** Reads back the key named by a missing-key message, if `message` is one. */
  function NamedKey(message: string): Option<string>
  {
    if |message| >= |Prefix| + |Suffix|
      && message[..|Prefix|] == Prefix
      && message[|message| - |Suffix|..] == Suffix
    then Some(message[|Prefix|..|message| - |Suffix|])
    else None
  }

  /** The missing-key message names exactly the key that was looked up. */
  lemma MissingKeyMessageNamesKey(keyName: string)
    ensures NamedKey(MissingKeyMessage(keyName)) == Some(keyName)
  {
  }

  /** Different keys give different messages. */
  lemma MissingKeyMessageInjective(k1: string, k2: string)
    requires MissingKeyMessage(k1) == MissingKeyMessage(k2)
    ensures k1 == k2
  {
    MissingKeyMessageNamesKey(k1);
    MissingKeyMessageNamesKey(k2);
  }

  /**
   * `get_required_api_key`: the environment's value when it is set and
   * non-empty (Python treats "" as false), otherwise a ValueError naming the key.
   */
  function GetRequiredApiKey(env: map<string, string>, keyName: string): (r: Result<string, KeyError>)
    ensures r.Ok? <==> keyName in env && env[keyName] != ""
    ensures r.Ok? ==> r.value == env[keyName]
    ensures r.Err? ==> NamedKey(r.error.message) == Some(keyName)
  {
    if keyName in env && env[keyName] != "" then Ok(env[keyName])
    else
      MissingKeyMessageNamesKey(keyName);
      Err(ValueError(MissingKeyMessage(keyName)))
  }

  const OpenAiKey: string := "OPENAI_API_KEY"
  const TavilyKey: string := "TAVILY_API_KEY"

  /**
   * The script's start-up: the OpenAI key is fetched first, then the Tavily
   * key, so a missing OpenAI key is the one reported even if both are missing.
   */
  function RequiredKeys(env: map<string, string>): (r: Result<(string, string), KeyError>)
    ensures r.Ok? <==> GetRequiredApiKey(env, OpenAiKey).Ok? && GetRequiredApiKey(env, TavilyKey).Ok?
    ensures r.Ok? ==> r.value == (env[OpenAiKey], env[TavilyKey])
    ensures r.Err? && (OpenAiKey !in env || env[OpenAiKey] == "") ==>
      NamedKey(r.error.message) == Some(OpenAiKey)
    ensures r.Err? && OpenAiKey in env && env[OpenAiKey] != "" ==>
      NamedKey(r.error.message) == Some(TavilyKey)
  {
    match GetRequiredApiKey(env, OpenAiKey)
    case Err(e) => Err(e)
    case Ok(openAi) =>
      match GetRequiredApiKey(env, TavilyKey)
      case Err(e) => Err(e)
      case Ok(tavily) => Ok((openAi, tavily))
  }
}
