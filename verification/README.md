# NASDAQ news bot, modelled in Dafny

The bot (`bot.py`) runs once. At start-up it checks that three environment
variables are set: the Telegram token, the Telegram chat id and the NewsAPI
key. It then brings the chat id into the `-100…` form of a Telegram channel
id. Next it fetches NASDAQ news. For every fetched article, in order, it
builds a topic and a summary from the article's title and description with
a sentence tokenizer. It translates both to Russian and sends one Markdown
message, `*topic*` then a newline then the summary, to the channel.

The model has six modules, one file each:

- `Wrappers` (`wrappers.dfy`): `Option`, `Result`, and Python's `startswith`/`endswith`.
- `ChatId` (`chat_id.dfy`): the presence check and the chat-id rewrite, lifted
  out of the module-level code into the functions `LoadConfig` and `NormalizeChatId`.
- `Formatting` (`formatting.dfy`): `format_news`. The sentence tokenizer is a
  parameter, `string -> seq<string>`. `sep.join` is the function `Join`.
- `Translation` (`translation.dfy`): `translate_to_russian`. It is given the
  outcome of the translation call.
- `Sending` (`sending.dfy`): `fetch_nasdaq_news` on a given HTTP response, the
  message composition, and the `send_news` loop as the method `SendNews`. The
  method is proved against the function `Dispatch`, which lists the send calls a run makes.
- `Bot` (`bot.dfy`): one whole run, which is start-up followed by `send_news`.

The foreign services are given as outcome sequences. Each article has one
`Translations` value, holding the outcomes of its topic translation and then
its summary translation. Each article also has one `SendOutcome` for its
`send_message` call. The sink's effect is the list of `Attempt`s that
`SendNews` returns. An `Attempt` holds the chat id, the text, the parse mode
and whether the call went through.

An article value can be missing, JSON null, or a string. In Python,
`dict.get(key, default)` gives the default only when the key is missing. A
JSON null comes back as `None`, and the f-string renders it as `"None"`. The
model does the same (`Formatting.Rendered`).

The model follows `bot.py`.

## Model

| member | source | states |
|---|---|---|
| `ChatId.NormalizeChatId` | bot.py:15-22 | An id starting with `@` is rejected with `ChannelUsername`, and every other id is accepted. An accepted id starts with `-100` and ends with the input minus its leading `-`. It equals the input exactly when the input already starts with `-100`, and otherwise it is `-100` followed by the input minus its leading `-`. |
| `ChatId.NormalizeRewrites` | bot.py:19-22 | `"-" + x`, where `x` does not start with `100`, becomes `"-100" + x`. An `x` with no leading `-` or `@` becomes `"-100" + x`. |
| `ChatId.NormalizeIdempotent` | bot.py:19-22 | Normalising an already normalised id gives back the same id. |
| `ChatId.LoadConfig` | bot.py:11-22 | Start-up fails with `MissingVariables` exactly when the token, chat id or API key is unset or empty. With all three present, it fails with `ChannelUsername` exactly when the chat id starts with `@`. On success the token and key pass through unchanged, and the chat id is the normalised one, starting with `-100`. |
| `Formatting.TokenizerInput` | bot.py:58-60 | The text given to the tokenizer starts with the rendered title followed by `". "`, and ends with the rendered description. Its length is the two lengths plus 2. `TokenizerInputLayout` gives the exact layout and the defaults. |
| `Formatting.TokenizerInputLayout` | bot.py:58-60 | The tokenizer's input is exactly the title text, then `". "`, then the description text. A missing title gives `"No Title"`, a null title gives `"None"`, and a missing description gives `""`. |
| `Formatting.JoinSnoc` | bot.py:66 | Joining parts with a separator is the same as appending them one at a time, with one separator between neighbours. |
| `Formatting.JoinPartAt` | bot.py:66 | In a join, every part appears in order at its offset. Exactly one separator follows every part except the last. The join ends with the last part. |
| `Formatting.TopicAndSummary` | bot.py:61-66 | The topic is the first sentence. The summary is sentences 2 to min(n, 10) joined with single spaces. With exactly one sentence, the summary is `""`. |
| `Formatting.OnlyTenSentencesUsed` | bot.py:63 | Sentences after the tenth have no effect on the topic or the summary. |
| `Formatting.SummaryHoldsSentence` | bot.py:63-66 | Each used sentence i (1 ≤ i < 10) appears in the summary, in order, at the offset given by the sentences before it, each followed by one space. |
| `Formatting.FormatNews` | bot.py:47-67 | The topic is the tokenizer's first sentence for `title. description`. The summary is sentences 2 to min(n, 10) of that output joined with single spaces, and a one-sentence result gives an empty summary. |
| `Translation.TranslateToRussian` | bot.py:69-78 | A translation call that raises yields its input text unchanged. A successful call yields the translated text. |
| `Sending.FetchNews` | bot.py:39-45 | A status other than 200 yields no articles. A 200 yields the `articles` list, or none if that list is missing or null. |
| `Sending.ComposeMessage` | bot.py:91 | The message is `*`, the translated topic, `*` and a newline, then the translated summary, each at its stated position. Its length is the two lengths plus 3. |
| `Sending.ReadBackMessage` | bot.py:91 | When the topic contains no `*`, the message's opening bold span is exactly the topic, and the text after `*\n` is exactly the summary. |
| `Sending.ArticleMessage` | bot.py:87-91 | The message for one article: `*`, then the topic after its translation (or the untranslated topic when that call raises), then `*` and a newline, and it ends with the summary after its translation. `FallbackKeepsOriginal` covers the case where both calls raise. |
| `Sending.AttemptFor` | bot.py:93 | The `send_message` call for one article goes to the given chat id, with parse mode Markdown and the article's message. It counts as delivered exactly when the send outcome is `Sent`. |
| `Sending.FallbackKeepsOriginal` | bot.py:87-91 | When both translations of an article raise, its message carries the untranslated topic and summary from `format_news`. |
| `Sending.Dispatch` | bot.py:86-96 | The send attempts a run makes over the fetched articles. There are as many attempts as articles, and the first one is the first article's attempt. `DispatchIndex` and `DispatchAt` give every later index. |
| `Sending.DispatchIndex` | bot.py:86-96 | Send attempt i of a run belongs to article i, with that article's translation and send outcomes. |
| `Sending.DispatchAt` | bot.py:86-96 | A run makes exactly one send attempt per article, in fetched order. Each attempt goes to the configured chat id, with parse mode Markdown and the article's composed message. |
| `Sending.SendFailuresIsolated` | bot.py:92-96 | Whichever sends fail, every article still gets its attempt with the same chat id and the same message. The parse mode is also the same. Only the delivered flags differ, and each follows that article's own send outcome. |
| `Sending.SendNews` | bot.py:80-96 | No articles means no send attempt. Otherwise the loop makes one attempt per article in order, with text `"*" + topic_ru + "*\n" + summary_ru` built from the article's own translations. A failing send is recorded and the loop goes on. The result equals `Dispatch`. |
| `Bot.Run` | bot.py:98-99 | A missing variable aborts with `MissingVariables`, and an `@` chat id aborts with `ChannelUsername`. Either way nothing is sent. Otherwise the run's attempts are `Dispatch` over the fetched articles with the normalised chat id, so every attempt goes to an id starting with `-100`. |

## Left out

- The HTTP request in `fetch_nasdaq_news`, its query parameters and its JSON parsing are I/O. The model is given the status and the parsed `articles` list.
- A raise from `requests.get` or `response.json()`, or an article that is not a dictionary, ends the run uncaught. The `Response` type cannot express any of these, so none is modelled.
- NLTK's `sent_tokenize` is foreign library code, so it is a parameter. The model requires it to yield at least one sentence for each article. `sentences[0]` would raise otherwise, and that raise would end `send_news`.
- The `googletrans.Translator` and `telegram.Bot` clients are network services. Only the success or failure of each call is modelled.
- The environment reads and `print` logging are I/O with no other effect on behaviour.
- Article values that are neither strings nor null, such as numbers, are not modelled. The news service sends strings or null for `title` and `description`.
- Markdown escaping and Telegram's rendering are not modelled, because the bot performs neither. `ReadBackMessage` therefore assumes a topic without `*`.
- The sink's log of calls is an ordinary result of `SendNews` rather than ghost state. It stands for the `send_message` calls the sink receives.
