/** The public landing page: shorten one link anonymously and copy the result. */
module Home {
  import opened Text
  import opened Replies

  /** The fixed prefix the page puts in front of the identifier the service returns. */
  const ShortUrlBase := "https://url-shortener-api-rj6k.onrender.com/url/"
  const ShortenFallback := "Something went wrong!"
  /** Delay of every copy reset on this page (longer than the dashboard's). */
  const CopyResetDelayMs := 2000

  /** The short link shown for the identifier `id`: the fixed base followed by `id`. */
  function DisplayUrl(id: string): (u: string)
    ensures |u| == |ShortUrlBase| + |id|
    ensures u[..|ShortUrlBase|] == ShortUrlBase && u[|ShortUrlBase|..] == id
  {
    ShortUrlBase + id
  }

  /** Distinct identifiers give distinct short links, so the link determines the identifier. */
  lemma DisplayUrlInjective(a: string, b: string)
    ensures DisplayUrl(a) == DisplayUrl(b) ==> a == b
  {
    if DisplayUrl(a) == DisplayUrl(b) {
      assert a == DisplayUrl(a)[|ShortUrlBase|..] == DisplayUrl(b)[|ShortUrlBase|..] == b;
    }
  }

  /** The panel with the short link, its copy button and the "Copied!" label. */
  datatype ResultPanel = ResultPanel(shortUrl: string, showsCopied: bool)

  datatype HomeScreen = HomeScreen(input: string, buttonEnabled: bool, buttonLabel: string,
                                   errorLine: Option<string>, result: Option<ResultPanel>)

  class HomePage {
    // component state
    var urlInput: string
    var shortUrl: string
    var isCopied: bool
    var isLoading: bool
    var error: string
    // what the browser holds around it
    var requestsInFlight: nat  // shorten requests sent and not yet settled
    var pendingResets: nat     // copy resets scheduled and not yet fired

    /** The button is disabled only while a request is unsettled, a "Copied!" label only
        shows while a reset is still to come, and any short link shown is on the service. */
    ghost predicate Valid()
      reads this
    {
      (isLoading ==> requestsInFlight > 0) &&
      (isCopied ==> pendingResets > 0) &&
      (shortUrl != "" ==> |shortUrl| >= |ShortUrlBase| && shortUrl[..|ShortUrlBase|] == ShortUrlBase)
    }

    constructor ()
      ensures Valid()
      ensures urlInput == "" && shortUrl == "" && !isCopied && !isLoading && error == ""
      ensures requestsInFlight == 0 && pendingResets == 0
    {
      urlInput, shortUrl, isCopied, isLoading, error := "", "", false, false, "";
      requestsInFlight, pendingResets := 0, 0;
    }

    /** Typing in the URL field. */
    method EditInput(value: string)
      requires Valid()
      modifies this
      ensures Valid() && urlInput == value
      ensures shortUrl == old(shortUrl) && isCopied == old(isCopied) && isLoading == old(isLoading)
      ensures error == old(error) && requestsInFlight == old(requestsInFlight) && pendingResets == old(pendingResets)
    {
      urlInput := value;
    }

    /** Clicking "Shorten": a blank input is ignored; otherwise the request is sent, the
        button disabled and the error line cleared. The handler does not look at `isLoading`. */
    method StartShorten() returns (sent: bool)
      requires Valid()
      modifies this
      ensures Valid()
      ensures sent <==> !IsBlank(old(urlInput))
      ensures sent ==> isLoading && error == "" && requestsInFlight == old(requestsInFlight) + 1
      ensures !sent ==> isLoading == old(isLoading) && error == old(error) && requestsInFlight == old(requestsInFlight)
      ensures urlInput == old(urlInput) && shortUrl == old(shortUrl) && isCopied == old(isCopied)
      ensures pendingResets == old(pendingResets)
    {
      if urlInput == "" || Trim(urlInput) == "" {
        sent := false;
        return;
      }
      sent := true;
      requestsInFlight := requestsInFlight + 1;
      isLoading := true;
      error := "";
    }

    /** One shorten request settles with the service's identifier or a failure. Success
        shows the composed short link; failure keeps the previous one and shows the
        server's text or the fallback. The typed input is never touched. */
    method SettleShorten(reply: Reply<string>)
      requires Valid() && requestsInFlight > 0
      modifies this
      ensures Valid() && !isLoading && requestsInFlight == old(requestsInFlight) - 1
      ensures reply.Ok? ==> shortUrl == DisplayUrl(reply.data) && error == old(error)
      ensures reply.Failed? ==> shortUrl == old(shortUrl) && error == MessageOr(reply.message, ShortenFallback)
      ensures urlInput == old(urlInput) && isCopied == old(isCopied) && pendingResets == old(pendingResets)
    {
      requestsInFlight := requestsInFlight - 1;
      match reply {
        case Ok(id) =>
          shortUrl := DisplayUrl(id);
        case Failed(message) =>
          error := MessageOr(message, ShortenFallback);
      }
      isLoading := false;
    }

    /** Clicking the copy button: show "Copied!" and schedule one more reset. Earlier
        resets stay scheduled. */
    method Copy()
      requires Valid()
      modifies this
      ensures Valid() && isCopied && pendingResets == old(pendingResets) + 1
      ensures urlInput == old(urlInput) && shortUrl == old(shortUrl) && isLoading == old(isLoading)
      ensures error == old(error) && requestsInFlight == old(requestsInFlight)
    {
      isCopied := true;
      pendingResets := pendingResets + 1;
    }

    /** The oldest scheduled copy reset fires and hides "Copied!". */
    method ExpireCopyReset()
      requires Valid() && pendingResets > 0
      modifies this
      ensures Valid() && !isCopied && pendingResets == old(pendingResets) - 1
      ensures urlInput == old(urlInput) && shortUrl == old(shortUrl) && isLoading == old(isLoading)
      ensures error == old(error) && requestsInFlight == old(requestsInFlight)
    {
      isCopied := false;
      pendingResets := pendingResets - 1;
    }

    /** A disabled button always has a reply still to come, "Copied!" always has a reset
        still to come, and any link shown is on the shortening service. */
    lemma ShownStateIsBacked()
      requires Valid()
      ensures !Render().buttonEnabled ==> requestsInFlight > 0
      ensures Render().result.Some? && Render().result.value.showsCopied ==> pendingResets > 0
      ensures Render().result.Some? ==>
        |Render().result.value.shortUrl| >= |ShortUrlBase| &&
        Render().result.value.shortUrl[..|ShortUrlBase|] == ShortUrlBase
    {
    }

    /** What the page shows: the error line exactly when there is error text, the result
        panel exactly when there is a short link, "Copied!" only inside that panel. */
    function Render(): (v: HomeScreen)
      reads this
      ensures v.input == urlInput && v.buttonEnabled == !isLoading
      ensures v.buttonLabel == "Shortening..." <==> isLoading
      ensures v.errorLine.Some? <==> error != ""
      ensures v.errorLine.Some? ==> v.errorLine.value == error
      ensures v.result.Some? <==> shortUrl != ""
      ensures v.result.Some? ==> v.result.value.shortUrl == shortUrl && v.result.value.showsCopied == isCopied
    {
      HomeScreen(urlInput, !isLoading, if isLoading then "Shortening..." else "Shorten",
                 if error != "" then Some(error) else None,
                 if shortUrl != "" then Some(ResultPanel(shortUrl, isCopied)) else None)
    }
  }

  /** A shorten that fails always shows an error line, even when the server sends no
      text, and re-enables the button; the typed input is still there. */
  method FailedShortenShowsError(input: string, message: Option<string>) returns (screen: HomeScreen)
    requires !IsBlank(input)
    ensures screen.errorLine.Some? && screen.buttonEnabled && screen.input == input
    ensures screen.result.None?
  {
    var page := new HomePage();
    page.EditInput(input);
    var sent := page.StartShorten();
    page.SettleShorten(Failed(message));
    screen := page.Render();
  }

  /** A shorten that succeeds always shows the result panel, with a link on the service,
      even when the returned identifier is empty. */
  method SucceededShortenShowsLink(input: string, id: string) returns (screen: HomeScreen)
    requires !IsBlank(input)
    ensures screen.result.Some? && screen.result.value.shortUrl == DisplayUrl(id)
    ensures screen.errorLine.None? && screen.buttonEnabled && screen.input == input
  {
    var page := new HomePage();
    page.EditInput(input);
    var sent := page.StartShorten();
    page.SettleShorten(Ok(id));
    screen := page.Render();
  }

  /** After a successful shorten, two copies, then the first reset fires: "Copied!"
      disappears although the second copy's reset is still scheduled. */
  method EarlierResetHidesLaterCopy(input: string, id: string)
    returns (shownBefore: bool, shownAfter: bool, stillScheduled: nat)
    requires !IsBlank(input)
    ensures shownBefore && !shownAfter && stillScheduled == 1
  {
    var page := new HomePage();
    page.EditInput(input);
    var sent := page.StartShorten();
    page.SettleShorten(Ok(id));
    page.Copy();
    page.Copy();
    var screen := page.Render();
    shownBefore := screen.result.Some? && screen.result.value.showsCopied;
    page.ExpireCopyReset();
    screen := page.Render();
    shownAfter, stillScheduled := screen.result.Some? && screen.result.value.showsCopied, page.pendingResets;
  }
}
