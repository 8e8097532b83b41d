/**
 * What `fetchArticle` does with the readability service's reply: the status
 * check, the minimum-length check, truncation at a fixed cap with a marker,
 * and the title/subtitle/author defaults. The HTTP request itself is an input.
 */
module FetchArticle {
  import opened Wrappers
  import Strings

  const MinContentLength: nat := 50
  const MaxContentLength: nat := 15000
  const TruncationMarker: string := "\n\n[Content truncated...]"
  const DefaultTitle: string := "Untitled"
  const StatusErrorPrefix: string := "Failed to fetch article: HTTP "
  const UnextractableError: string :=
    "Could not extract article content. The article may be behind a paywall or the page structure was unrecognized."

  /** The record handed back to the model; `None` stands for `null`. */
  datatype Article = Article(title: string, subtitle: Option<string>, author: Option<string>, content: string)

  /** The `data` object of the service's JSON body; an absent field reads as "". */
  datatype ReaderData = ReaderData(title: string, description: string, url: string, content: string)

  /** The parts of the HTTP response that `fetchArticle` looks at. */
  datatype ReaderResponse = ReaderResponse(ok: bool, status: nat, data: ReaderData)

  /** The message of the error thrown for a non-OK response. */
  function StatusError(status: nat): (message: string)
    ensures |message| > |StatusErrorPrefix| && message[..|StatusErrorPrefix|] == StatusErrorPrefix
  {
    StatusErrorPrefix + Strings.NatToDecimal(status)
  }

  /** The status error names the status: it can be read back from the message. */
  lemma StatusErrorNamesStatus(status: nat)
    ensures |StatusError(status)| > |StatusErrorPrefix|
    ensures StatusError(status)[..|StatusErrorPrefix|] == StatusErrorPrefix
    ensures var digits := StatusError(status)[|StatusErrorPrefix|..];
            (forall i :: 0 <= i < |digits| ==> Strings.IsDigit(digits[i])) &&
            Strings.DecimalValue(digits) == status
  {
    var digits := StatusError(status)[|StatusErrorPrefix|..];
    assert digits == Strings.NatToDecimal(status);
    Strings.DecimalRoundTrip(status);
  }

  /** Two different statuses never give the same error message. */
  lemma StatusErrorInjective(a: nat, b: nat)
    requires StatusError(a) == StatusError(b)
    ensures a == b
  {
    assert StatusError(a)[|StatusErrorPrefix|..] == Strings.NatToDecimal(a);
    assert StatusError(b)[|StatusErrorPrefix|..] == Strings.NatToDecimal(b);
    Strings.NatToDecimalInjective(a, b);
  }

  /** Content beyond the cap is cut off and marked; shorter content is kept whole. */
  function Truncate(content: string): (r: string)
    ensures |r| <= MaxContentLength + |TruncationMarker|
    ensures |r| <= MaxContentLength <==> |content| <= MaxContentLength
    ensures var kept := if |content| <= MaxContentLength then |content| else MaxContentLength;
            kept <= |r| && r[..kept] == content[..kept]
  {
    if |content| > MaxContentLength then content[..MaxContentLength] + TruncationMarker else content
  }

  /** Truncating twice is truncating once: a truncated text already fits the cap plus its marker. */
  lemma TruncateIdempotent(content: string)
    ensures Truncate(Truncate(content)) == Truncate(content)
  {
    if |content| > MaxContentLength {
      var once := content[..MaxContentLength] + TruncationMarker;
      assert once[..MaxContentLength] == content[..MaxContentLength];
    }
  }

  /** The post-response part of `fetchArticle`: an article, or the message of the error it throws. */
  function Normalize(response: ReaderResponse): (r: Result<Article, string>)
    ensures r.Ok? <==> response.ok && |response.data.content| >= MinContentLength
    ensures !response.ok ==> r == Err(StatusError(response.status))
    ensures response.ok && |response.data.content| < MinContentLength ==> r == Err(UnextractableError)
  {
    if !response.ok then
      Err(StatusError(response.status))
    else if response.data.content == "" || |response.data.content| < MinContentLength then
      Err(UnextractableError)
    else
      Ok(Article(
        if response.data.title != "" then response.data.title else DefaultTitle,
        if response.data.description != "" then Some(response.data.description) else None,
        None,
        Truncate(response.data.content)))
  }

  /** A successful article keeps the first characters of the extracted text, at least the minimum, and is bounded. */
  lemma NormalizedContent(response: ReaderResponse)
    requires Normalize(response).Ok?
    ensures var content := response.data.content;
            var article := Normalize(response).value;
            var kept := if |content| <= MaxContentLength then |content| else MaxContentLength;
            && MinContentLength <= kept <= |article.content| <= MaxContentLength + |TruncationMarker|
            && article.content[..kept] == content[..kept]
            && (|content| <= MaxContentLength ==> article.content == content)
            && (|content| > MaxContentLength ==>
                  article.content == content[..MaxContentLength] + TruncationMarker &&
                  |article.content| == MaxContentLength + |TruncationMarker|)
  {
  }

  /** Title and subtitle defaults; the author is never known. */
  lemma NormalizedHeadings(response: ReaderResponse)
    requires Normalize(response).Ok?
    ensures var article := Normalize(response).value;
            && article.title != ""
            && (response.data.title != "" ==> article.title == response.data.title)
            && (response.data.title == "" ==> article.title == DefaultTitle)
            && (article.subtitle.Some? <==> response.data.description != "")
            && (article.subtitle.Some? ==> article.subtitle.value == response.data.description)
            && article.author == None
  {
  }
}
