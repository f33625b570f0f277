/** Start-up configuration of the bot: the three environment variables must
    all be set and non-empty, and the configured Telegram chat id is brought
    into the "-100..." form of a channel id. */
module ChatId {
  import opened Wrappers

  /** The two ways start-up can abort. */
  datatype ConfigError =
    | MissingVariables   // a token, chat id or API key that is unset or empty
    | ChannelUsername    // a chat id given as an "@name" channel username

  /** The three environment variables, each possibly unset. */
  datatype Env = Env(token: Option<string>, chatId: Option<string>, apiKey: Option<string>)

  /** The configuration a successful start-up hands to the rest of the bot. */
  datatype Config = Config(token: string, chatId: string, apiKey: string)

  /** The prefix Telegram gives the numeric id of a channel. */
  const ChannelPrefix: string := "-100"

  /** A value counts as present exactly when Python finds it truthy:
      set, and not the empty string. */
  predicate Present(v: Option<string>) {
    v.Some? && v.value != ""
  }

  predicate AllPresent(env: Env) {
    Present(env.token) && Present(env.chatId) && Present(env.apiKey)
  }

  /** The id without its leading minus sign, if it has one. */
  function Unsigned(id: string): string {
    if StartsWith(id, "-") then id[1..] else id
  }

  /** The rebinding of the chat id at start-up, lifted into a function. */
  function NormalizeChatId(id: string): (r: Result<string, ConfigError>)
    ensures r.Failure? <==> StartsWith(id, "@")
    ensures r.Failure? ==> r.error == ChannelUsername
    ensures r.Success? ==> StartsWith(r.value, ChannelPrefix)
    ensures r.Success? ==> EndsWith(r.value, Unsigned(id))
    ensures r.Success? ==> (r.value == id <==> StartsWith(id, ChannelPrefix))
    ensures r.Success? && r.value != id ==> r.value == ChannelPrefix + Unsigned(id)
  {
    if StartsWith(id, "@") then
      Failure(ChannelUsername)
    else if !StartsWith(id, "-100") && StartsWith(id, "-") then
      Success("-100" + id[1..])
    else if !StartsWith(id, "-") then
      Success("-100" + id)
    else
      Success(id)
  }

  /** Normalising an id that has already been normalised changes nothing. */
  lemma NormalizeIdempotent(id: string)
    requires NormalizeChatId(id).Success?
    ensures NormalizeChatId(NormalizeChatId(id).value) == NormalizeChatId(id)
  {
    var n := NormalizeChatId(id).value;
    assert n[..4] == "-100";
    assert n[0] == '-';
    assert n[..1] == "-";
    assert !StartsWith(n, "@");
  }

  /** An id that is a minus sign followed by anything other than "100..."
      has its minus sign replaced by "-100"; an id with neither a minus sign
      nor an "@" gets "-100" in front. */
  lemma NormalizeRewrites(x: string)
    ensures !StartsWith(x, "100") ==> NormalizeChatId("-" + x) == Success(ChannelPrefix + x)
    ensures !StartsWith(x, "-") && !StartsWith(x, "@") ==> NormalizeChatId(x) == Success(ChannelPrefix + x)
  {
    var s := "-" + x;
    assert s[1..] == x;
    if StartsWith(s, "-100") {
      assert s[1..4] == x[..3];
    }
  }

  /** Start-up: the presence check, then the chat-id normalisation. */
  function LoadConfig(env: Env): (r: Result<Config, ConfigError>)
    ensures r == Failure(MissingVariables) <==> !AllPresent(env)
    ensures AllPresent(env) ==> (r.Success? <==> !StartsWith(env.chatId.value, "@"))
    ensures r.Failure? && AllPresent(env) ==> r.error == ChannelUsername
    ensures r.Success? ==>
      && r.value.token == env.token.value
      && r.value.apiKey == env.apiKey.value
      && NormalizeChatId(env.chatId.value) == Success(r.value.chatId)
      && StartsWith(r.value.chatId, ChannelPrefix)
  {
    if !AllPresent(env) then
      Failure(MissingVariables)
    else
      match NormalizeChatId(env.chatId.value)
      case Failure(e) => Failure(e)
      case Success(id) => Success(Config(env.token.value, id, env.apiKey.value))
  }
}
