/** send_news: fetch the articles, then for each one in order format it,
    translate its topic and its summary, compose the message and make one
    send attempt. The news service's response, the translator's outcomes and
    the Telegram sink's outcomes are all given; the sink's side effect is the
    log of send attempts the method returns. */
module Sending {
  import opened Wrappers
  import opened Formatting
  import opened Translation

  /** The news service's answer: an HTTP status and, when the JSON body has
      a list under "articles", that list. */
  datatype Response = Response(status: int, articles: Option<seq<Article>>)

  /** The outcomes of the two translation calls made for one article: its
      topic first, then its summary. */
  datatype Translations = Translations(topic: Outcome, summary: Outcome)

  /** What one send_message call does. */
  datatype SendOutcome = Sent | SendRaised

  /** One send_message call: its arguments, and whether it went through. */
  datatype Attempt = Attempt(chatId: string, text: string, parseMode: string, delivered: bool)

  const ParseMode: string := "Markdown"

  /** fetch_nasdaq_news on a given response. A missing or null "articles"
      list stands for []: send_news treats both as "no articles". */
  function FetchNews(resp: Response): (r: seq<Article>)
    ensures resp.status != 200 ==> r == []
    ensures resp.status == 200 ==> r == if resp.articles.Some? then resp.articles.value else []
  {
    if resp.status == 200 && resp.articles.Some? then resp.articles.value else []
  }

  /** The message text: the translated topic in Markdown bold, a newline,
      then the translated summary. */
  function ComposeMessage(topicRu: string, summaryRu: string): (m: string)
    ensures |m| == |topicRu| + |summaryRu| + 3
    ensures StartsWith(m, "*") && EndsWith(m, summaryRu)
    ensures m[1..|topicRu| + 1] == topicRu
    ensures m[|topicRu| + 1..|topicRu| + 3] == "*\n"
  {
    "*" + topicRu + "*\n" + summaryRu
  }

  /** The text up to, not including, the first '*'. */
  function UpToStar(s: string): (r: string)
    ensures '*' !in r && StartsWith(s, r)
  {
    if s == [] || s[0] == '*' then [] else [s[0]] + UpToStar(s[1..])
  }

  /** The bold span a message opens with. */
  function MessageTopic(m: string): string {
    if |m| > 0 && m[0] == '*' then UpToStar(m[1..]) else ""
  }

  lemma {:induction false} UpToStarStops(t: string, rest: string)
    requires '*' !in t
    ensures UpToStar(t + "*" + rest) == t
  {
    if t != [] {
      assert (t + "*" + rest)[1..] == t[1..] + "*" + rest;
      UpToStarStops(t[1..], rest);
    }
  }

  /** A composed message can be read back: its bold span is the topic, when
      the topic holds no '*', and what follows the "*\n" is the summary. */
  lemma ReadBackMessage(topicRu: string, summaryRu: string)
    requires '*' !in topicRu
    ensures MessageTopic(ComposeMessage(topicRu, summaryRu)) == topicRu
    ensures ComposeMessage(topicRu, summaryRu)[|topicRu| + 3..] == summaryRu
  {
    var m := ComposeMessage(topicRu, summaryRu);
    assert m[1..] == topicRu + "*" + ("\n" + summaryRu);
    UpToStarStops(topicRu, "\n" + summaryRu);
  }

  /** Every article yields a topic: the tokenizer gives it a sentence. */
  predicate Tokenizable(articles: seq<Article>, tokenize: Tokenizer) {
    forall i :: 0 <= i < |articles| ==> |tokenize(TokenizerInput(articles[i]))| > 0
  }

  /** The message sent for one article, given the outcomes of translating
      its topic and then its summary. */
  function ArticleMessage(a: Article, tokenize: Tokenizer, t: Translations): (m: string)
    requires |tokenize(TokenizerInput(a))| > 0
    ensures var news := FormatNews(a, tokenize);
      var topicRu, summaryRu := TranslateToRussian(news.topic, t.topic), TranslateToRussian(news.summary, t.summary);
      && |m| == |topicRu| + |summaryRu| + 3
      && StartsWith(m, "*")
      && m[1..|topicRu| + 1] == topicRu
      && m[|topicRu| + 1..|topicRu| + 3] == "*\n"
      && EndsWith(m, summaryRu)
    ensures t.topic.Raised? ==> m[1..|FormatNews(a, tokenize).topic| + 1] == FormatNews(a, tokenize).topic
  {
    var news := FormatNews(a, tokenize);
    ComposeMessage(TranslateToRussian(news.topic, t.topic), TranslateToRussian(news.summary, t.summary))
  }

  /** When both translations raise, the message carries the untranslated
      topic and summary. */
  lemma FallbackKeepsOriginal(a: Article, tokenize: Tokenizer)
    requires |tokenize(TokenizerInput(a))| > 0
    ensures var news := FormatNews(a, tokenize);
      ArticleMessage(a, tokenize, Translations(Raised, Raised)) == ComposeMessage(news.topic, news.summary)
  {
  }

  /** The send attempt made for one article. */
  function AttemptFor(chatId: string, a: Article, tokenize: Tokenizer, t: Translations, send: SendOutcome): (r: Attempt)
    requires |tokenize(TokenizerInput(a))| > 0
    ensures r.chatId == chatId && r.parseMode == ParseMode
    ensures r.text == ArticleMessage(a, tokenize, t)
    ensures r.delivered <==> send == Sent
  {
    Attempt(chatId, ArticleMessage(a, tokenize, t), ParseMode, send.Sent?)
  }

  /** The send attempts of a run over the given articles: each article
      consumes its pair of translation outcomes and one send outcome. */
  function Dispatch(chatId: string, articles: seq<Article>, tokenize: Tokenizer,
                    translations: seq<Translations>, sends: seq<SendOutcome>): (r: seq<Attempt>)
    requires Tokenizable(articles, tokenize)
    requires |translations| == |articles| && |sends| == |articles|
    ensures |r| == |articles|
    ensures articles != [] ==>
      r[0] == AttemptFor(chatId, articles[0], tokenize, translations[0], sends[0])
  {
    if articles == [] then []
    else
      [AttemptFor(chatId, articles[0], tokenize, translations[0], sends[0])]
      + Dispatch(chatId, articles[1..], tokenize, translations[1..], sends[1..])
  }

  lemma TokenizableTail(articles: seq<Article>, tokenize: Tokenizer)
    requires articles != [] && Tokenizable(articles, tokenize)
    ensures Tokenizable(articles[1..], tokenize)
  {
    forall i | 0 <= i < |articles| - 1
      ensures |tokenize(TokenizerInput(articles[1..][i]))| > 0
    {
      assert articles[1..][i] == articles[i + 1];
    }
  }

  lemma {:induction false} DispatchIndex(chatId: string, articles: seq<Article>, tokenize: Tokenizer,
                                         translations: seq<Translations>, sends: seq<SendOutcome>, i: nat)
    requires Tokenizable(articles, tokenize)
    requires |translations| == |articles| && |sends| == |articles|
    requires i < |articles|
    ensures |Dispatch(chatId, articles, tokenize, translations, sends)| == |articles|
    ensures Dispatch(chatId, articles, tokenize, translations, sends)[i]
      == AttemptFor(chatId, articles[i], tokenize, translations[i], sends[i])
  {
    TokenizableTail(articles, tokenize);
    if i > 0 {
      DispatchIndex(chatId, articles[1..], tokenize, translations[1..], sends[1..], i - 1);
      assert articles[1..][i - 1] == articles[i];
      assert translations[1..][i - 1] == translations[i];
      assert sends[1..][i - 1] == sends[i];
    }
  }

  /** One attempt per article, in fetched order, each made with the
      article's own translation and send outcomes. */
  lemma DispatchAt(chatId: string, articles: seq<Article>, tokenize: Tokenizer,
                   translations: seq<Translations>, sends: seq<SendOutcome>)
    requires Tokenizable(articles, tokenize)
    requires |translations| == |articles| && |sends| == |articles|
    ensures |Dispatch(chatId, articles, tokenize, translations, sends)| == |articles|
    ensures forall i :: 0 <= i < |articles| ==>
      Dispatch(chatId, articles, tokenize, translations, sends)[i]
        == AttemptFor(chatId, articles[i], tokenize, translations[i], sends[i])
  {
    forall i | 0 <= i < |articles|
      ensures Dispatch(chatId, articles, tokenize, translations, sends)[i]
        == AttemptFor(chatId, articles[i], tokenize, translations[i], sends[i])
    {
      DispatchIndex(chatId, articles, tokenize, translations, sends, i);
    }
  }

  /** A failing send stops nothing: whichever sends fail, every article gets
      its attempt, with the same message; only the delivered flags differ. */
  lemma SendFailuresIsolated(chatId: string, articles: seq<Article>, tokenize: Tokenizer,
                             translations: seq<Translations>, sends: seq<SendOutcome>, sends': seq<SendOutcome>)
    requires Tokenizable(articles, tokenize)
    requires |translations| == |articles| && |sends| == |articles| && |sends'| == |articles|
    ensures var d, d' := Dispatch(chatId, articles, tokenize, translations, sends),
                         Dispatch(chatId, articles, tokenize, translations, sends');
      && |d| == |d'| == |articles|
      && forall i :: 0 <= i < |articles| ==>
           && d[i].text == d'[i].text && d[i].chatId == d'[i].chatId && d[i].parseMode == d'[i].parseMode
           && (d[i].delivered <==> sends[i] == Sent) && (d'[i].delivered <==> sends'[i] == Sent)
  {
    DispatchAt(chatId, articles, tokenize, translations, sends);
    DispatchAt(chatId, articles, tokenize, translations, sends');
  }

  /** send_news. */
  method SendNews(chatId: string, resp: Response, tokenize: Tokenizer,
                  translations: seq<Translations>, sends: seq<SendOutcome>) returns (attempts: seq<Attempt>)
    requires Tokenizable(FetchNews(resp), tokenize)
    requires |translations| == |FetchNews(resp)| && |sends| == |FetchNews(resp)|
    ensures attempts == Dispatch(chatId, FetchNews(resp), tokenize, translations, sends)
    ensures |attempts| == |FetchNews(resp)|
    ensures forall i :: 0 <= i < |attempts| ==>
      var a := FetchNews(resp)[i];
      var news := FormatNews(a, tokenize);
      && attempts[i].chatId == chatId
      && attempts[i].parseMode == ParseMode
      && attempts[i].text == ComposeMessage(TranslateToRussian(news.topic, translations[i].topic),
                                            TranslateToRussian(news.summary, translations[i].summary))
      && (attempts[i].delivered <==> sends[i] == Sent)
  {
    var articles := FetchNews(resp);
    if |articles| == 0 {
      // no articles: nothing is sent
      return [];
    }
    attempts := [];
    for i := 0 to |articles|
      invariant |attempts| == i
      invariant forall k :: 0 <= k < i ==>
        attempts[k] == AttemptFor(chatId, articles[k], tokenize, translations[k], sends[k])
    {
      var news := FormatNews(articles[i], tokenize);
      var topicRu := TranslateToRussian(news.topic, translations[i].topic);
      var summaryRu := TranslateToRussian(news.summary, translations[i].summary);
      var message := ComposeMessage(topicRu, summaryRu);
      // the send is attempted whatever its outcome; a raise is caught
      var delivered := sends[i] == Sent;
      attempts := attempts + [Attempt(chatId, message, ParseMode, delivered)];
    }
    DispatchAt(chatId, articles, tokenize, translations, sends);
  }
}
