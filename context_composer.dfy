/** The system prompt and its knowledge-base context block (app.py:155-172). */
module ContextComposer {
  import opened Text
  import opened KnowledgeSearch

  const ContextHeader: string := "Based on the following knowledge base articles:\n\n"
  const ContentLimit: nat := 500
  const TruncationMarker: string := "..."

  /** The fixed instructions that open every system prompt; the surrounding whitespace of the template is not reproduced. */
  const Instructions: string :=
    "You are a helpful AI assistant that answers questions based on a knowledge base. " +
    "When answering questions, prioritize information from the provided knowledge base articles. " +
    "If the knowledge base doesn't contain relevant information, clearly state that and provide general guidance. " +
    "Always be concise, accurate, and helpful.\n\n"

  /** Python's `content[:500]`. */
  function Truncate(content: string): (r: string)
    ensures |r| == Min(|content|, ContentLimit)
    ensures r == content[..|r|]
  {
    if |content| <= ContentLimit then content else content[..ContentLimit]
  }

  function TitleLine(n: nat, d: KnowledgeDocument): string {
    "Article " + NatToString(n) + ": " + d.title + "\n"
  }

  /** The marker follows the content whether or not anything was cut. */
  function ContentLine(d: KnowledgeDocument): string {
    "Content: " + Truncate(d.content) + TruncationMarker + "\n"
  }

  /** Present only for a non-empty URL. */
  function ReferenceLine(d: KnowledgeDocument): string {
    if d.url != "" then "Reference: " + d.url + "\n" else ""
  }

  /** The text for the `n`-th article. */
  function ArticleText(n: nat, d: KnowledgeDocument): string {
    TitleLine(n, d) + ContentLine(d) + ReferenceLine(d) + "\n"
  }

  /** The article texts, the `i`-th numbered `i + 1`. */
  function ArticleTexts(docs: seq<KnowledgeDocument>): seq<string> {
    seq(|docs|, i requires 0 <= i < |docs| => ArticleText(i + 1, docs[i]))
  }

  /** The context block: empty without documents, else the header and every article numbered from 1. */
  function ContextBlock(docs: seq<KnowledgeDocument>): (c: string)
    ensures c == "" <==> docs == []
    ensures docs != [] ==> StartsWith(c, ContextHeader)
  {
    if docs == [] then "" else ContextHeader + Join(ArticleTexts(docs), 0, |docs|)
  }

  function SystemPrompt(context: string): string {
    Instructions + context
  }

  /**
   * Document `i` (from 0, in search order) appears as article `i + 1`, after
   * the header and the articles before it and before the articles after it.
   */
  lemma ContextBlockArticle(docs: seq<KnowledgeDocument>, i: nat)
    requires i < |docs|
    ensures var texts := ArticleTexts(docs);
      ContextBlock(docs) == ContextHeader + Join(texts, 0, i) + ArticleText(i + 1, docs[i]) + Join(texts, i + 1, |docs|)
  {
    var texts := ArticleTexts(docs);
    var a, t, b := Join(texts, 0, i), texts[i], Join(texts, i + 1, |docs|);
    JoinSplit(texts, 0, i, |docs|);
    JoinSplit(texts, i, i + 1, |docs|);
    assert Join(texts, i, i + 1) == "" + t == t;
    calc {
      ContextBlock(docs);
      ContextHeader + (a + (t + b));
      { ConcatAssoc(a, t, b); }
      ContextHeader + (a + t + b);
      { ConcatAssoc(ContextHeader, a + t, b); ConcatAssoc(ContextHeader, a, t); }
      ContextHeader + a + t + b;
    }
  }

  /** Hence the system prompt contains every article's text. */
  lemma SystemPromptContainsArticle(docs: seq<KnowledgeDocument>, i: nat)
    requires i < |docs|
    ensures Contains(SystemPrompt(ContextBlock(docs)), ArticleText(i + 1, docs[i]))
  {
    ContextBlockArticle(docs, i);
    var texts := ArticleTexts(docs);
    var a, t, b := Join(texts, 0, i), ArticleText(i + 1, docs[i]), Join(texts, i + 1, |docs|);
    ContainsAt(t, t, 0);
    ContainsConcat(ContextHeader + a, t, t);
    ContainsConcat(ContextHeader + a + t, b, t);
    ContainsConcat(Instructions, ContextBlock(docs), t);
  }

  /** An article's text holds its numbered title line, its content line and, for a non-empty URL, its reference line. */
  lemma ArticleTextLines(n: nat, d: KnowledgeDocument)
    ensures Contains(ArticleText(n, d), TitleLine(n, d))
    ensures Contains(ArticleText(n, d), ContentLine(d))
    ensures d.url != "" ==> Contains(ArticleText(n, d), "Reference: " + d.url + "\n")
  {
    var title, content, reference := TitleLine(n, d), ContentLine(d), ReferenceLine(d);
    ContainsAt(title, title, 0);
    ContainsAt(content, content, 0);
    ContainsAt(reference, reference, 0);
    ContainsConcat(title, content, title);
    ContainsConcat(title, content, content);
    ContainsConcat(title + content, reference, title);
    ContainsConcat(title + content, reference, content);
    ContainsConcat(title + content, reference, reference);
    ContainsConcat(title + content + reference, "\n", title);
    ContainsConcat(title + content + reference, "\n", content);
    ContainsConcat(title + content + reference, "\n", reference);
  }

  /**
   * For document `i` (from 0) the system prompt contains `Article i+1: <title>`,
   * `Content: <content[:500]>...` and, when its URL is non-empty, `Reference: <url>`,
   * each on its own line.
   */
  lemma SystemPromptMentionsDocument(docs: seq<KnowledgeDocument>, i: nat)
    requires i < |docs|
    ensures var prompt := SystemPrompt(ContextBlock(docs));
      Contains(prompt, "Article " + NatToString(i + 1) + ": " + docs[i].title + "\n") &&
      Contains(prompt, "Content: " + Truncate(docs[i].content) + TruncationMarker + "\n") &&
      (docs[i].url != "" ==> Contains(prompt, "Reference: " + docs[i].url + "\n"))
  {
    var prompt, t := SystemPrompt(ContextBlock(docs)), ArticleText(i + 1, docs[i]);
    SystemPromptContainsArticle(docs, i);
    ArticleTextLines(i + 1, docs[i]);
    ContainsTransitive(prompt, t, TitleLine(i + 1, docs[i]));
    ContainsTransitive(prompt, t, ContentLine(docs[i]));
    if docs[i].url != "" {
      ContainsTransitive(prompt, t, "Reference: " + docs[i].url + "\n");
    }
  }

  /** A single document titled "Returns" yields a prompt containing "Article 1: Returns". */
  lemma ReturnsScenario(d: KnowledgeDocument)
    requires d.title == "Returns"
    ensures Contains(SystemPrompt(ContextBlock([d])), "Article 1: Returns")
  {
    var x := "Article 1: Returns";
    var line := "Article " + NatToString(1) + ": " + d.title + "\n";
    SystemPromptMentionsDocument([d], 0);
    assert NatToString(1) == "1";
    assert line == x + "\n";
    ContainsAt(x, x, 0);
    ContainsConcat(x, "\n", x);
    ContainsTransitive(SystemPrompt(ContextBlock([d])), line, x);
  }

  /** Appending an article's lines one after another appends its text. */
  lemma AppendArticle(before: string, n: nat, d: KnowledgeDocument)
    ensures before + TitleLine(n, d) + ContentLine(d) + ReferenceLine(d) + "\n" == before + ArticleText(n, d)
  {
    var t, c, r := TitleLine(n, d), ContentLine(d), ReferenceLine(d);
    ConcatAssoc(before, t, c);
    ConcatAssoc(before, t + c, r);
    ConcatAssoc(before, t + c + r, "\n");
  }

  /** Accumulates the block piece by piece, as the composer's loop does. */
  method BuildContext(docs: seq<KnowledgeDocument>) returns (context: string)
    ensures context == ContextBlock(docs)
  {
    context := "";
    if docs != [] {
      context := ContextHeader;
      var i := 0;
      assert ContextHeader + Join(ArticleTexts(docs), 0, 0) == ContextHeader + "" == ContextHeader;
      while i < |docs|
        invariant 0 <= i <= |docs|
        invariant context == ContextHeader + Join(ArticleTexts(docs), 0, i)
      {
        var doc := docs[i];
        ghost var before := context;
        context := context + TitleLine(i + 1, doc);
        context := context + ContentLine(doc);
        ghost var lines := context;
        if doc.url != "" {
          context := context + ("Reference: " + doc.url + "\n");
        } else {
          assert context == lines + "";
        }
        assert context == lines + ReferenceLine(doc);
        context := context + "\n";
        AppendArticle(before, i + 1, doc);
        assert Join(ArticleTexts(docs), 0, i + 1) == Join(ArticleTexts(docs), 0, i) + ArticleText(i + 1, doc);
        ConcatAssoc(ContextHeader, Join(ArticleTexts(docs), 0, i), ArticleText(i + 1, doc));
        i := i + 1;
      }
    }
  }
}
