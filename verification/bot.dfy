/** A whole run of the bot: start-up configuration, then send_news with the
    normalised chat id. */
module Bot {
  import opened Wrappers
  import opened ChatId
  import opened Formatting
  import opened Translation
  import opened Sending

  datatype RunOutcome =
    | Aborted(error: ConfigError)          // start-up raised; nothing fetched, nothing sent
    | Finished(attempts: seq<Attempt>)     // send_news ran

  method Run(env: Env, resp: Response, tokenize: Tokenizer,
             translations: seq<Translations>, sends: seq<SendOutcome>) returns (outcome: RunOutcome)
    requires Tokenizable(FetchNews(resp), tokenize)
    requires |translations| == |FetchNews(resp)| && |sends| == |FetchNews(resp)|
    ensures !AllPresent(env) ==> outcome == Aborted(MissingVariables)
    ensures AllPresent(env) && StartsWith(env.chatId.value, "@") ==> outcome == Aborted(ChannelUsername)
    ensures outcome.Finished? <==> LoadConfig(env).Success?
    ensures outcome.Finished? ==>
      outcome.attempts == Dispatch(LoadConfig(env).value.chatId, FetchNews(resp), tokenize, translations, sends)
    ensures outcome.Finished? ==>
      forall i :: 0 <= i < |outcome.attempts| ==> StartsWith(outcome.attempts[i].chatId, ChannelPrefix)
  {
    var config := LoadConfig(env);
    if config.Failure? {
      return Aborted(config.error);
    }
    var attempts := SendNews(config.value.chatId, resp, tokenize, translations, sends);
    DispatchAt(config.value.chatId, FetchNews(resp), tokenize, translations, sends);
    outcome := Finished(attempts);
  }
}
