/** format_news: the text handed to the sentence tokenizer, and the split of
    the tokenizer's sentences into a topic and a summary. The tokenizer itself
    (NLTK's sent_tokenize) is a parameter. */
module Formatting {
  import opened Wrappers

  /** The value an article dictionary holds under one key: the key may be
      missing, hold JSON null, or hold a string. */
  datatype Field = Absent | Null | Str(s: string)

  /** The two keys of a fetched article that format_news reads. */
  datatype Article = Article(title: Field, description: Field)

  /** What format_news returns. */
  datatype News = News(topic: string, summary: string)

  /** A sentence tokenizer: text in, sentences out. */
  type Tokenizer = string -> seq<string>

  const TitleDefault: string := "No Title"
  const DescriptionDefault: string := ""
  const MaxSentences: nat := 10

  /** `article.get(key, default)` rendered by an f-string: a missing key gives
      the default, a JSON null gives Python's "None". */
  function Rendered(f: Field, default: string): string {
    match f
    case Absent => default
    case Null => "None"
    case Str(s) => s
  }

  /** The text given to the tokenizer: `f"{title}. {description}"`. */
  function TokenizerInput(a: Article): (text: string)
    ensures |text| == |Rendered(a.title, TitleDefault)| + 2 + |Rendered(a.description, DescriptionDefault)|
    ensures StartsWith(text, Rendered(a.title, TitleDefault) + ". ")
    ensures EndsWith(text, Rendered(a.description, DescriptionDefault))
  {
    Rendered(a.title, TitleDefault) + ". " + Rendered(a.description, DescriptionDefault)
  }

  /** The tokenizer input is the title, then ". ", then the description,
      with the defaults standing in for missing keys. */
  lemma TokenizerInputLayout(a: Article)
    ensures var text, t, d := TokenizerInput(a), Rendered(a.title, TitleDefault), Rendered(a.description, DescriptionDefault);
      && |text| == |t| + 2 + |d|
      && text[..|t|] == t
      && text[|t|..|t| + 2] == ". "
      && text[|t| + 2..] == d
    ensures a.title.Absent? ==> StartsWith(TokenizerInput(a), "No Title. ")
    ensures a.title.Null? ==> StartsWith(TokenizerInput(a), "None. ")
    ensures a.description.Absent? ==> EndsWith(TokenizerInput(a), ". ")
  {
    var text, t, d := TokenizerInput(a), Rendered(a.title, TitleDefault), Rendered(a.description, DescriptionDefault);
    assert text == t + ". " + d;
    assert text[..|t|] == t;
    assert text[|t|..|t| + 2] == ". ";
    assert text[|t| + 2..] == d;
  }

  /** Python's `sep.join(parts)`. */
  function Join(parts: seq<string>, sep: string): string {
    if |parts| == 0 then ""
    else if |parts| == 1 then parts[0]
    else parts[0] + sep + Join(parts[1..], sep)
  }

  /** Where part i starts in `Join(parts, sep)`: the lengths of the parts
      before it, each followed by one separator. */
  function Offset(parts: seq<string>, sep: string, i: nat): nat
    requires i < |parts|
  {
    if i == 0 then 0 else |parts[0]| + |sep| + Offset(parts[1..], sep, i - 1)
  }

  /** Joining is appending one part at a time, with a separator between. */
  lemma {:induction false} JoinSnoc(parts: seq<string>, sep: string, x: string)
    requires |parts| > 0
    ensures Join(parts + [x], sep) == Join(parts, sep) + sep + x
  {
    if |parts| == 1 {
      assert (parts + [x])[1..] == [x];
    } else {
      assert (parts + [x])[1..] == parts[1..] + [x];
      JoinSnoc(parts[1..], sep, x);
    }
  }

  lemma SliceAfter(a: string, b: string, i: nat, j: nat)
    requires i <= j <= |b|
    ensures (a + b)[|a| + i..|a| + j] == b[i..j]
  {
  }

  /** The layout of a join: every part appears, in order, at its offset,
      followed by exactly one separator unless it is the last part, and the
      join ends with the last part. */
  lemma {:induction false} JoinPartAt(parts: seq<string>, sep: string, i: nat)
    requires i < |parts|
    ensures Offset(parts, sep, i) + |parts[i]| <= |Join(parts, sep)|
    ensures Join(parts, sep)[Offset(parts, sep, i)..Offset(parts, sep, i) + |parts[i]|] == parts[i]
    ensures i + 1 < |parts| ==>
      && Offset(parts, sep, i + 1) == Offset(parts, sep, i) + |parts[i]| + |sep|
      && Offset(parts, sep, i + 1) <= |Join(parts, sep)|
      && Join(parts, sep)[Offset(parts, sep, i) + |parts[i]|..Offset(parts, sep, i + 1)] == sep
    ensures i + 1 == |parts| ==> |Join(parts, sep)| == Offset(parts, sep, i) + |parts[i]|
  {
    var j := Join(parts, sep);
    if |parts| == 1 {
    } else {
      var rest := Join(parts[1..], sep);
      var head := parts[0] + sep;
      assert j == head + rest;
      if i == 0 {
        assert j[..|parts[0]|] == parts[0];
        assert j[|parts[0]|..|parts[0]| + |sep|] == sep;
        assert Offset(parts, sep, 1) == |parts[0]| + |sep| + Offset(parts[1..], sep, 0);
      } else {
        JoinPartAt(parts[1..], sep, i - 1);
        var o := Offset(parts[1..], sep, i - 1);
        assert parts[1..][i - 1] == parts[i];
        assert Offset(parts, sep, i) == |head| + o;
        SliceAfter(head, rest, o, o + |parts[i]|);
        if i + 1 < |parts| {
          assert Offset(parts, sep, i + 1) == |head| + Offset(parts[1..], sep, i);
          SliceAfter(head, rest, o + |parts[i]|, o + |parts[i]| + |sep|);
        }
      }
    }
  }

  /** The split format_news makes of the tokenizer's sentences: at most ten
      are used, the first is the topic, the rest joined by single spaces is
      the summary. */
  function TopicAndSummary(sentences: seq<string>): (r: News)
    requires |sentences| > 0
    ensures r.topic == sentences[0]
    ensures r.summary == Join(sentences[1..if |sentences| < MaxSentences then |sentences| else MaxSentences], " ")
    ensures |sentences| == 1 ==> r.summary == ""
  {
    var kept := sentences[..if |sentences| < MaxSentences then |sentences| else MaxSentences];
    var topic := kept[0];
    var summary := if |kept| > 1 then Join(kept[1..], " ") else "";
    News(topic, summary)
  }

  /** Sentences after the tenth have no effect on the result. */
  lemma OnlyTenSentencesUsed(sentences: seq<string>, more: seq<string>)
    requires |sentences| >= MaxSentences
    ensures TopicAndSummary(sentences + more) == TopicAndSummary(sentences)
  {
    assert (sentences + more)[1..MaxSentences] == sentences[1..MaxSentences];
  }

  /** Sentence i (for 1 <= i < 10) sits in the summary at the offset given by
      the sentences before it, each followed by a single space. */
  lemma SummaryHoldsSentence(sentences: seq<string>, i: nat)
    requires 1 <= i < |sentences| && i < MaxSentences
    ensures var k := if |sentences| < MaxSentences then |sentences| else MaxSentences;
      var o := Offset(sentences[1..k], " ", i - 1);
      && o + |sentences[i]| <= |TopicAndSummary(sentences).summary|
      && TopicAndSummary(sentences).summary[o..o + |sentences[i]|] == sentences[i]
  {
    var k := if |sentences| < MaxSentences then |sentences| else MaxSentences;
    JoinPartAt(sentences[1..k], " ", i - 1);
    assert sentences[1..k][i - 1] == sentences[i];
  }

  /** format_news on one article, given the tokenizer. */
  function FormatNews(a: Article, tokenize: Tokenizer): (r: News)
    requires |tokenize(TokenizerInput(a))| > 0
    ensures r.topic == tokenize(TokenizerInput(a))[0]
    ensures var s := tokenize(TokenizerInput(a));
      r.summary == Join(s[1..if |s| < MaxSentences then |s| else MaxSentences], " ")
    ensures |tokenize(TokenizerInput(a))| == 1 ==> r.summary == ""
  {
    TopicAndSummary(tokenize(TokenizerInput(a)))
  }
}
