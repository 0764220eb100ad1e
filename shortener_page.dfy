/** The single-link form (app/shortener/page.tsx): its two validators, the custom-slug
    switch and the submit handler, which sends nothing while either field is invalid.
    `new URL(...)` is an oracle giving the parsed protocol, or `None` when parsing
    throws; the endpoint's reply is a parameter. */
module ShortenerPage {
  import opened Js
  import opened Text

  const UrlRequired := "URL is required"
  const UrlBadProtocol := "URL must use HTTP or HTTPS protocol"
  const UrlUnparsable := "Please enter a valid URL (e.g., https://example.com)"
  const SlugRequired := "Custom slug is required when enabled"
  const SlugBadChars := "Slug can only contain letters, numbers, hyphens, and underscores"
  const SlugTooShort := "Slug must be at least 3 characters long"

  /** The protocol `new URL(...)` found is HTTP or HTTPS. */
  predicate WebProtocol(p: Option<string>) {
    p == Some("http:") || p == Some("https:")
  }

  /** `validateUrl`: "" when the URL is acceptable, otherwise the message to show. */
  function ValidateUrl(url: string, protocolOf: string -> Option<string>): (msg: string)
    ensures msg == "" <==> Trim(url) != [] && WebProtocol(protocolOf(url))
    ensures Trim(url) == [] ==> msg == UrlRequired
    ensures Trim(url) != [] && protocolOf(url).None? ==> msg == UrlUnparsable
    ensures Trim(url) != [] && protocolOf(url).Some? && !WebProtocol(protocolOf(url)) ==> msg == UrlBadProtocol
  {
    if Trim(url) == [] then UrlRequired
    else match protocolOf(url)
      case None => UrlUnparsable
      case Some(p) => if p != "http:" && p != "https:" then UrlBadProtocol else ""
  }

  /** A character of the class `[a-zA-Z0-9-_]`. */
  predicate IsSlugFormChar(c: char) {
    'a' <= c <= 'z' || 'A' <= c <= 'Z' || '0' <= c <= '9' || c == '-' || c == '_'
  }

  /** `/^[a-zA-Z0-9-_]+$/.test(slug)`. */
  predicate SlugPattern(slug: string) {
    |slug| >= 1 && forall i :: 0 <= i < |slug| ==> IsSlugFormChar(slug[i])
  }

  /** `validateSlug`: "" when the slug is acceptable, otherwise the message to show. */
  function ValidateSlug(slug: string): string {
    if Trim(slug) == [] then SlugRequired
    else if !SlugPattern(slug) then SlugBadChars
    else if |slug| < 3 then SlugTooShort
    else ""
  }

  /** A slug passes exactly when it is at least three characters, all from the class;
      the blank check then adds nothing, as such a slug has no whitespace. */
  lemma SlugAcceptedIff(slug: string)
    ensures ValidateSlug(slug) == "" <==> |slug| >= 3 && forall i :: 0 <= i < |slug| ==> IsSlugFormChar(slug[i])
  {
    BlankIffAllSpace(slug);
    if |slug| >= 3 && forall i :: 0 <= i < |slug| ==> IsSlugFormChar(slug[i]) {
      assert !IsSpace(slug[0]);
    }
  }

  /** The messages come in a fixed order: a blank slug is "required" whatever else is
      wrong with it, a bad character is reported before the length, and a short slug of
      good characters gets the length message. */
  lemma SlugErrorPrecedence(slug: string)
    ensures (forall i :: 0 <= i < |slug| ==> IsSpace(slug[i])) ==> ValidateSlug(slug) == SlugRequired
    ensures (exists i :: 0 <= i < |slug| && !IsSpace(slug[i])) && (exists i :: 0 <= i < |slug| && !IsSlugFormChar(slug[i]))
      ==> ValidateSlug(slug) == SlugBadChars
    ensures 1 <= |slug| < 3 && (forall i :: 0 <= i < |slug| ==> IsSlugFormChar(slug[i])) ==> ValidateSlug(slug) == SlugTooShort
  {
    BlankIffAllSpace(slug);
    if 1 <= |slug| && forall i :: 0 <= i < |slug| ==> IsSlugFormChar(slug[i]) {
      assert !IsSpace(slug[0]);
    }
  }

  /** The body the form posts to the single-link endpoint; absent optional fields are
      `undefined` there. */
  datatype ShortenRequest = ShortenRequest(
    url: string, custom: Option<string>, domain: string, campaign: Option<int>,
    description: Option<string>, metatitle: Option<string>)

  /** The endpoint's answer as the page sees it: a response (`response.ok` and the body,
      `None` when it is not JSON), or a rejected `fetch`. */
  datatype SubmitReply = Answer(ok: bool, body: Option<Value>) | NetworkFailure

  /** The `try` block throws before a banner is chosen: the fetch rejected, or
      `response.json()` failed, or the parsed body is `null`, so reading `data.ok` or
      `data.message` throws. */
  predicate Unreadable(reply: SubmitReply) {
    reply.NetworkFailure? || reply.body.None? || reply.body.value == Null || reply.body.value == Undefined
  }

  /** The banner under the form. */
  datatype LinkResult = LinkResult(ok: bool, shortUrl: Value, error: Value)

  /** The endpoint accepted the link: `response.ok` and a truthy `data.ok`. */
  predicate Accepted(reply: SubmitReply) {
    && reply.Answer? && reply.ok && reply.body.Some?
    && reply.body.value != Null && reply.body.value != Undefined
    && Truthy(OptGet(reply.body.value, "ok"))
  }

  /** The form's state. */
  class ShortenerForm {
    var originalUrl: string
    var name: string
    var useCustomSlug: bool
    var customSlug: string
    var domain: string
    var selectedCampaign: Option<int>
    var urlError: string
    var slugError: string
    var loading: bool
    var result: Option<LinkResult>

    /** With the custom slug off no slug error is shown. */
    predicate Valid()
      reads this
    {
      !useCustomSlug ==> slugError == ""
    }

    constructor ()
      ensures Valid()
      ensures originalUrl == "" && name == "" && !useCustomSlug && customSlug == "" && domain == ""
      ensures selectedCampaign.None? && urlError == "" && slugError == "" && !loading && result.None?
    {
      originalUrl, name, useCustomSlug, customSlug, domain := "", "", false, "", "";
      selectedCampaign, urlError, slugError, loading, result := None, "", "", false, None;
    }

    /** `handleUrlChange`: the new URL, its message, and no banner. */
    method HandleUrlChange(url: string, protocolOf: string -> Option<string>)
      requires Valid()
      modifies this
      ensures Valid()
      ensures originalUrl == url && urlError == ValidateUrl(url, protocolOf) && result.None?
      ensures useCustomSlug == old(useCustomSlug) && customSlug == old(customSlug) && slugError == old(slugError)
      ensures name == old(name) && domain == old(domain) && selectedCampaign == old(selectedCampaign)
      ensures loading == old(loading)
    {
      originalUrl := url;
      urlError := ValidateUrl(url, protocolOf);
      result := None;
    }

    /** `handleSlugChange`. */
    method HandleSlugChange(slug: string)
      requires Valid()
      modifies this
      ensures Valid()
      ensures customSlug == slug
      ensures slugError == (if useCustomSlug then ValidateSlug(slug) else "")
      ensures useCustomSlug == old(useCustomSlug) && originalUrl == old(originalUrl) && urlError == old(urlError)
      ensures name == old(name) && domain == old(domain) && selectedCampaign == old(selectedCampaign)
      ensures loading == old(loading) && result == old(result)
    {
      customSlug := slug;
      slugError := if useCustomSlug then ValidateSlug(slug) else "";
    }

    /** `handleCustomSlugToggle`: off clears the slug and its error; on validates the slug
      already typed. */
    method HandleCustomSlugToggle(checked: bool)
      requires Valid()
      modifies this
      ensures Valid()
      ensures useCustomSlug == checked
      ensures !checked ==> customSlug == "" && slugError == ""
      ensures checked ==> customSlug == old(customSlug) && slugError == ValidateSlug(old(customSlug))
      ensures originalUrl == old(originalUrl) && urlError == old(urlError) && name == old(name)
      ensures domain == old(domain) && selectedCampaign == old(selectedCampaign)
      ensures loading == old(loading) && result == old(result)
    {
      useCustomSlug := checked;
      if !checked {
        customSlug := "";
        slugError := "";
      } else {
        slugError := ValidateSlug(customSlug);
      }
    }

    /** The request `handleSubmit` posts for the current fields. */
    function Request(): (req: ShortenRequest)
      reads this
      ensures req.url == originalUrl && req.domain == domain
      ensures req.custom == (if useCustomSlug then Some(customSlug) else None)
      ensures req.description == req.metatitle
      ensures req.description.Some? <==> name != []
      ensures req.description.Some? ==> req.description.value == name
      ensures req.campaign.Some? <==> selectedCampaign.Some? && selectedCampaign.value != 0
      ensures req.campaign.Some? ==> req.campaign == selectedCampaign
    {
      ShortenRequest(
        originalUrl,
        if useCustomSlug then Some(customSlug) else None,
        domain,
        if selectedCampaign.Some? && selectedCampaign.value != 0 then selectedCampaign else None,
        if name != [] then Some(name) else None,
        if name != [] then Some(name) else None)
    }

    /** `handleSubmit`: validate both fields (the slug only when the custom slug is on) and
      stop there if either is invalid; otherwise post `Request()` and show the outcome,
      clearing the URL, name and slug after a success. */
    method HandleSubmit(protocolOf: string -> Option<string>, reply: SubmitReply)
      returns (sent: Option<ShortenRequest>)
      requires Valid()
      modifies this
      ensures Valid()
      ensures urlError == ValidateUrl(old(originalUrl), protocolOf)
      ensures slugError == (if old(useCustomSlug) then ValidateSlug(old(customSlug)) else "")
      ensures sent.Some? <==> urlError == "" && slugError == ""
      ensures sent.None? ==>
        && originalUrl == old(originalUrl) && name == old(name) && customSlug == old(customSlug)
        && useCustomSlug == old(useCustomSlug) && result == old(result) && loading == old(loading)
      ensures sent.Some? ==>
        && sent.value == old(Request())
        && !loading && result.Some?
        && (result.value.ok <==> Accepted(reply))
        && (result.value.ok ==>
              result.value.shortUrl == OptGet(reply.body.value, "shortUrl")
              && originalUrl == "" && name == "" && customSlug == "" && !useCustomSlug)
        && (!result.value.ok ==>
              originalUrl == old(originalUrl) && name == old(name) && customSlug == old(customSlug)
              && useCustomSlug == old(useCustomSlug))
        && (Unreadable(reply) ==> !result.value.ok && result.value.error == Str("Network error occurred"))
        && (!Unreadable(reply) && !Accepted(reply) ==>
              result.value.error == Or(OptGet(reply.body.value, "message"), Str("Failed to create short link")))
      ensures domain == old(domain) && selectedCampaign == old(selectedCampaign)
    {
      var urlValidationError := ValidateUrl(originalUrl, protocolOf);
      var slugValidationError := if useCustomSlug then ValidateSlug(customSlug) else "";
      urlError := urlValidationError;
      slugError := slugValidationError;
      if urlValidationError != "" || slugValidationError != "" {
        return None;
      }
      loading := true;
      result := None;
      sent := Some(Request());
      ShowReply(reply);
      loading := false;
    }

    /** What `handleSubmit` does with the endpoint's reply: a success banner and cleared
        fields, or a failure banner with the service's message, its fallback, or the
        network error when the fetch, `response.json()` or reading `data.ok` throws. */
    method ShowReply(reply: SubmitReply)
      requires slugError == ""
      modifies this
      ensures Valid() && slugError == ""
      ensures result.Some? && (result.value.ok <==> Accepted(reply))
      ensures result.value.ok ==>
        && result.value.shortUrl == OptGet(reply.body.value, "shortUrl")
        && originalUrl == "" && name == "" && customSlug == "" && !useCustomSlug
      ensures !result.value.ok ==>
        && originalUrl == old(originalUrl) && name == old(name) && customSlug == old(customSlug)
        && useCustomSlug == old(useCustomSlug)
      ensures Unreadable(reply) ==> !result.value.ok && result.value.error == Str("Network error occurred")
      ensures !Unreadable(reply) && !Accepted(reply) ==>
        result.value.error == Or(OptGet(reply.body.value, "message"), Str("Failed to create short link"))
      ensures urlError == old(urlError) && domain == old(domain) && selectedCampaign == old(selectedCampaign)
      ensures loading == old(loading)
    {
      if Unreadable(reply) {
        result := Some(LinkResult(false, Str(""), Str("Network error occurred")));
      } else {
        var data := reply.body.value;
        if reply.ok && Truthy(OptGet(data, "ok")) {
          result := Some(LinkResult(true, OptGet(data, "shortUrl"), Undefined));
          originalUrl := "";
          name := "";
          customSlug := "";
          useCustomSlug := false;
        } else {
          result := Some(LinkResult(false, Str(""), Or(OptGet(data, "message"), Str("Failed to create short link"))));
        }
      }
    }
  }
}
