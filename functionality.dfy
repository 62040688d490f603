/** The application-specific check: fetch the base URL once more and decide
    from the status and the page text whether the fortune-telling cow is
    being served. */
module Functionality {
  import opened Strings
  import Http

  datatype Verdict = Healthy | Degraded | Failed

  /** The record the check produces: either the observations on a page that
      was fetched, or the error that prevented fetching it. */
  datatype FunctionalityCheck =
    | Checked(
        httpStatus: int,
        responseSize: nat,
        contentType: string,
        fortuneDetected: bool,
        cowDetected: bool,
        htmlFormat: bool,
        functionality: Verdict)
    | Errored(error: string)
  {
    /** The value under the key 'functionality'. */
    function Outcome(): Verdict {
      if Checked? then functionality else Failed
    }
  }

  /** What a working deployment serves: status 200, a text that mentions
      "fortune" and a cow ("cow" or "moo") in any letter case, inside a
      `<pre>`...`</pre>` block written in lower case. */
  ghost predicate LooksLikeWisecow(status: int, content: string) {
    && status == 200
    && OccursIgnoringCase(content, "fortune")
    && (OccursIgnoringCase(content, "cow") || OccursIgnoringCase(content, "moo"))
    && Occurs(content, "<pre>")
    && Occurs(content, "</pre>")
  }

  /** Classifies one fetch. A page that was received is HEALTHY exactly when
      all four observations hold and DEGRADED otherwise; a fetch that raised
      (including an HTTP error status) is FAILED with the error's message. */
  function CheckFunctionality(f: Http.Fetch): (r: FunctionalityCheck)
    ensures r.Errored? <==> !f.Response?
    ensures !f.Response? ==> r.error == f.text
    ensures f.Response? ==>
      && r.httpStatus == f.status
      && r.responseSize == |f.body|
      && r.contentType == (if f.contentType.Some? then f.contentType.value else "unknown")
      && (r.fortuneDetected <==> OccursIgnoringCase(f.body, "fortune"))
      && (r.cowDetected <==> OccursIgnoringCase(f.body, "cow") || OccursIgnoringCase(f.body, "moo"))
      && (r.htmlFormat <==> Occurs(f.body, "<pre>") && Occurs(f.body, "</pre>"))
      && r.functionality != Failed
      && (r.functionality == Healthy <==> LooksLikeWisecow(f.status, f.body))
  {
    match f
    case Response(status, _, content, contentType) =>
      var lower := Lower(content);
      LowerOccurs(content, "fortune");
      LowerOccurs(content, "cow");
      LowerOccurs(content, "moo");
      var fortune := Contains(lower, "fortune");
      var cow := Contains(lower, "cow") || Contains(lower, "moo");
      var html := Contains(content, "<pre>") && Contains(content, "</pre>");
      Checked(
        status,
        |content|,
        if contentType.Some? then contentType.value else "unknown",
        fortune,
        cow,
        html,
        if status == 200 && fortune && cow && html then Healthy else Degraded)
    case HttpError(_, _, text) => Errored(text)
    case UrlError(text) => Errored(text)
    case OtherError(text) => Errored(text)
  }

  /** The page the server is meant to produce, art wrapped in
      `<pre>`...`</pre>`, is classified HEALTHY whenever the art mentions a
      fortune and a cow. */
  lemma WrappedArtIsHealthy(art: string, elapsed: real, contentType: Option<string>)
    requires OccursIgnoringCase(art, "fortune")
    requires OccursIgnoringCase(art, "cow") || OccursIgnoringCase(art, "moo")
    ensures CheckFunctionality(Http.Response(200, elapsed, "<pre>" + art + "</pre>", contentType)).Outcome() == Healthy
  {
    var page := "<pre>" + art + "</pre>";
    var i :| MatchesIgnoringCaseAt(art, "fortune", i);
    MatchesInContext("<pre>", art, "</pre>", "fortune", i);
    if OccursIgnoringCase(art, "cow") {
      var j :| MatchesIgnoringCaseAt(art, "cow", j);
      MatchesInContext("<pre>", art, "</pre>", "cow", j);
    } else {
      var j :| MatchesIgnoringCaseAt(art, "moo", j);
      MatchesInContext("<pre>", art, "</pre>", "moo", j);
    }
    assert OccursAt(page, "<pre>", 0);
    assert OccursAt(page, "</pre>", |page| - 6);
  }

  /** No window of an upper-case `<PRE>` block spells `<pre>` unless the
      art inside it does. */
  lemma UpperMarkersHidePre(art: string)
    requires !Occurs(art, "<pre>")
    ensures !Occurs("<PRE>" + art + "</PRE>", "<pre>")
  {
    var page := "<PRE>" + art + "</PRE>";
    var close := 5 + |art|;
    forall i
      ensures !OccursAt(page, "<pre>", i)
    {
      if 0 <= i && i + 5 <= |page| {
        if i < 4 {
          // the 'p' would fall inside the opening marker
          assert page[i + 1] == "<PRE>"[i + 1];
          assert 'p' !in "<PRE>";
          assert page[i..i + 5][1] != 'p';
        } else if i == 4 {
          assert page[i..i + 5][0] == '>';
        } else if i + 5 <= close {
          // the window lies inside the art
          assert page[i..i + 5] == art[i - 5..i];
          assert !OccursAt(art, "<pre>", i - 5);
        } else if i + 4 < close + 5 {
          // the '>' would fall inside the closing marker, before its end
          assert page[i + 4] == "</PRE>"[i + 4 - close];
          assert '>' !in "</PRE>"[..5];
          assert page[i..i + 5][4] != '>';
        } else {
          assert page[i..i + 5][0] == page[close + 1] == '/';
        }
      }
    }
  }

  /** The `<pre>` test is case-sensitive: a page whose only block markers
      are upper case is DEGRADED, whatever the art between them says. */
  lemma UpperCaseMarkersAreDegraded(art: string, elapsed: real, contentType: Option<string>)
    requires !Occurs(art, "<pre>")
    ensures CheckFunctionality(Http.Response(200, elapsed, "<PRE>" + art + "</PRE>", contentType)).Outcome() == Degraded
  {
    UpperMarkersHidePre(art);
  }
}
