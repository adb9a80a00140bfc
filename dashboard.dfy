/** The signed-in user's dashboard: its link list, the shorten form, copy feedback and logout. */
module Dashboard {
  import opened Text
  import opened Replies

  const ShortenFallback := "Failed to shorten URL"
  const LoadFailedNotice := "Failed to fetch dashboard data"
  const ShortenedNotice := "URL shortened!"
  const CopiedNotice := "Copied to clipboard!"
  const LogoutNotice := "Logged out successfully!"
  const LogoutFailedNotice := "Logout failed"
  /** Delay of every copy reset on this page; all resets share it, so they fire in the
      order they were scheduled. */
  const CopyResetDelayMs := 1500

  /** A record's key: the server's identifier for fetched links, or the client clock
      reading taken when a newly shortened link was prepended (nothing makes it unique). */
  datatype LinkId = ServerId(key: string) | TempId(millis: int)

  datatype Link = Link(id: LinkId, originalUrl: string, shortUrl: string, clicks: int, qrCode: Option<string>)

  /** Body of a successful dashboard fetch. */
  datatype DashboardData = DashboardData(user: Option<User>, urls: seq<Link>)

  /** Body of a successful authenticated shorten; `clicks` and `qrCode` may be missing. */
  datatype ShortenData = ShortenData(shortUrl: string, clicks: Option<int>, qrCode: Option<string>)

  /** The record prepended after a successful shorten of `draft`, at clock reading `now`. */
  function NewLink(draft: string, data: ShortenData, now: int): (l: Link)
    ensures l.id == TempId(now) && l.originalUrl == draft
    ensures l.shortUrl == data.shortUrl && l.qrCode == data.qrCode
    ensures data.clicks.None? || data.clicks.value == 0 ==> l.clicks == 0
    ensures data.clicks.Some? ==> l.clicks == data.clicks.value
  {
    Link(TempId(now), draft, data.shortUrl, if data.clicks.Some? then data.clicks.value else 0, data.qrCode)
  }

  /** One link card: the copy button shows a check instead of the copy icon. */
  datatype Card = Card(originalUrl: string, shortUrl: string, showsCheck: bool, qrCode: Option<string>, clicks: int)

  datatype DashboardScreen =
    | LoadingPlaceholder
    | Main(welcomeName: Option<string>, draft: string, shortenEnabled: bool, shortenLabel: string, cards: seq<Card>)

  class DashboardPage {
    // component state
    var user: Option<User>
    var urls: seq<Link>
    var loading: bool
    var newUrl: string
    var shortening: bool
    var copiedUrl: string
    // what the browser holds around it
    var shortensInFlight: seq<string>  // the draft each unsettled shorten request captured
    var pendingResets: nat             // copy resets scheduled and not yet fired
    var navigatedTo: Option<Route>
    var notice: Notice

    /** The button is disabled only while a shorten is unsettled, and a check mark on a
        link with a non-empty short URL is only shown while some reset is still to come.
        (A link whose short URL is empty matches the empty `copiedUrl` and shows the check
        with no reset scheduled.) */
    ghost predicate Valid()
      reads this
    {
      (shortening ==> |shortensInFlight| > 0) &&
      (copiedUrl != "" ==> pendingResets > 0)
    }

    /** Mounting: the initial state, with the dashboard fetch under way. */
    constructor ()
      ensures Valid()
      ensures user == None && urls == [] && loading && newUrl == "" && !shortening && copiedUrl == ""
      ensures shortensInFlight == [] && pendingResets == 0 && navigatedTo == None && notice == NoNotice
    {
      user, urls, loading, newUrl, shortening, copiedUrl := None, [], true, "", false, "";
      shortensInFlight, pendingResets, navigatedTo, notice := [], 0, None, NoNotice;
    }

    /** The dashboard fetch settles: the reply replaces user and list wholesale, a failure
        sends the browser to the login page; either way loading ends. */
    method SettleLoad(reply: Reply<DashboardData>)
      requires Valid() && loading
      modifies this
      ensures Valid() && !loading
      ensures reply.Ok? ==> user == reply.data.user && urls == reply.data.urls
      ensures reply.Ok? ==> navigatedTo == old(navigatedTo) && notice == old(notice)
      ensures reply.Failed? ==> user == old(user) && urls == old(urls)
      ensures reply.Failed? ==> navigatedTo == Some(LoginRoute) && notice == Toast(ErrorToast, LoadFailedNotice)
      ensures newUrl == old(newUrl) && shortening == old(shortening) && copiedUrl == old(copiedUrl)
      ensures shortensInFlight == old(shortensInFlight) && pendingResets == old(pendingResets)
    {
      match reply {
        case Ok(data) =>
          user := data.user;
          urls := data.urls;
        case Failed(_) =>
          notice := Toast(ErrorToast, LoadFailedNotice);
          navigatedTo := Some(LoginRoute);
      }
      loading := false;
    }

    /** Typing in the URL field. */
    method EditDraft(value: string)
      requires Valid()
      modifies this
      ensures Valid() && newUrl == value
      ensures user == old(user) && urls == old(urls) && loading == old(loading)
      ensures shortening == old(shortening) && copiedUrl == old(copiedUrl)
      ensures shortensInFlight == old(shortensInFlight) && pendingResets == old(pendingResets)
      ensures navigatedTo == old(navigatedTo) && notice == old(notice)
    {
      newUrl := value;
    }

    /** Clicking "Shorten": a blank draft is ignored; otherwise the draft is sent and the
        button disabled. The handler itself does not look at `shortening`. */
    method StartShorten() returns (sent: bool)
      requires Valid()
      modifies this
      ensures Valid()
      ensures sent <==> !IsBlank(old(newUrl))
      ensures shortening == (sent || old(shortening))
      ensures shortensInFlight == old(shortensInFlight) + (if sent then [old(newUrl)] else [])
      ensures user == old(user) && urls == old(urls) && loading == old(loading)
      ensures newUrl == old(newUrl) && copiedUrl == old(copiedUrl) && pendingResets == old(pendingResets)
      ensures navigatedTo == old(navigatedTo) && notice == old(notice)
    {
      sent := !IsBlank(newUrl);
      if sent {
        shortening := true;
        shortensInFlight := shortensInFlight + [newUrl];
      }
    }

    /** The `k`-th unsettled shorten settles at clock reading `now`. Success prepends the
        new record and clears the draft; failure keeps list and draft and reports the
        server's text or the fallback; either way the button is enabled again. */
    method SettleShorten(k: nat, reply: Reply<ShortenData>, now: int)
      requires Valid() && k < |shortensInFlight|
      modifies this
      ensures Valid() && !shortening
      ensures shortensInFlight == old(shortensInFlight[..k] + shortensInFlight[k + 1..])
      ensures reply.Ok? ==> urls == [NewLink(old(shortensInFlight[k]), reply.data, now)] + old(urls)
      ensures reply.Ok? ==> newUrl == "" && notice == Toast(SuccessToast, ShortenedNotice)
      ensures reply.Failed? ==> urls == old(urls) && newUrl == old(newUrl)
      ensures reply.Failed? ==> notice == Toast(ErrorToast, MessageOr(reply.message, ShortenFallback))
      ensures user == old(user) && loading == old(loading) && copiedUrl == old(copiedUrl)
      ensures pendingResets == old(pendingResets) && navigatedTo == old(navigatedTo)
    {
      var draft := shortensInFlight[k];
      shortensInFlight := shortensInFlight[..k] + shortensInFlight[k + 1..];
      match reply {
        case Ok(data) =>
          urls := [NewLink(draft, data, now)] + urls;
          notice := Toast(SuccessToast, ShortenedNotice);
          newUrl := "";
        case Failed(message) =>
          notice := Toast(ErrorToast, MessageOr(message, ShortenFallback));
      }
      shortening := false;
    }

    /** Clicking a card's copy button: mark it copied and schedule one more reset.
        Earlier resets stay scheduled. */
    method Copy(shortUrl: string)
      requires Valid()
      modifies this
      ensures Valid() && copiedUrl == shortUrl && pendingResets == old(pendingResets) + 1
      ensures notice == Toast(SuccessToast, CopiedNotice)
      ensures user == old(user) && urls == old(urls) && loading == old(loading)
      ensures newUrl == old(newUrl) && shortening == old(shortening)
      ensures shortensInFlight == old(shortensInFlight) && navigatedTo == old(navigatedTo)
    {
      copiedUrl := shortUrl;
      notice := Toast(SuccessToast, CopiedNotice);
      pendingResets := pendingResets + 1;
    }

    /** The oldest scheduled copy reset fires: whatever is marked copied is cleared. */
    method ExpireCopyReset()
      requires Valid() && pendingResets > 0
      modifies this
      ensures Valid() && copiedUrl == "" && pendingResets == old(pendingResets) - 1
      ensures user == old(user) && urls == old(urls) && loading == old(loading)
      ensures newUrl == old(newUrl) && shortening == old(shortening)
      ensures shortensInFlight == old(shortensInFlight)
      ensures navigatedTo == old(navigatedTo) && notice == old(notice)
    {
      copiedUrl := "";
      pendingResets := pendingResets - 1;
    }

    /** The logout request settles: success goes to the login page, failure only reports. */
    method SettleLogout(reply: Reply<()>)
      requires Valid()
      modifies this
      ensures Valid()
      ensures reply.Ok? ==> navigatedTo == Some(LoginRoute) && notice == Toast(SuccessToast, LogoutNotice)
      ensures reply.Failed? ==> navigatedTo == old(navigatedTo) && notice == Toast(ErrorToast, LogoutFailedNotice)
      ensures user == old(user) && urls == old(urls) && loading == old(loading)
      ensures newUrl == old(newUrl) && shortening == old(shortening) && copiedUrl == old(copiedUrl)
      ensures shortensInFlight == old(shortensInFlight) && pendingResets == old(pendingResets)
    {
      if reply.Ok? {
        notice := Toast(SuccessToast, LogoutNotice);
        navigatedTo := Some(LoginRoute);
      } else {
        notice := Toast(ErrorToast, LogoutFailedNotice);
      }
    }

    /** A disabled shorten button always has a reply still to come, and a check mark on a
        link with a non-empty short URL always has a reset still to come. */
    lemma DisabledOrCheckedHasPending()
      requires Valid()
      ensures Render().Main? && !Render().shortenEnabled ==> |shortensInFlight| > 0
      ensures Render().Main? && (exists i :: 0 <= i < |Render().cards| && Render().cards[i].showsCheck && Render().cards[i].shortUrl != "")
        ==> pendingResets > 0
    {
    }

    /** What the page shows: only the placeholder while loading; otherwise one card per
        link, in list order, with the check mark exactly on the links equal to the copied one. */
    function Render(): (v: DashboardScreen)
      reads this
      ensures v.LoadingPlaceholder? <==> loading
      ensures v.Main? ==> v.draft == newUrl && v.shortenEnabled == !shortening
      ensures v.Main? ==> (v.shortenLabel == "Shortening..." <==> shortening)
      ensures v.Main? ==> v.welcomeName == (if user.Some? then Some(user.value.name) else None)
      ensures v.Main? ==> |v.cards| == |urls|
      ensures v.Main? ==> forall i :: 0 <= i < |urls| ==>
        v.cards[i].originalUrl == urls[i].originalUrl && v.cards[i].shortUrl == urls[i].shortUrl &&
        v.cards[i].clicks == urls[i].clicks && v.cards[i].qrCode == urls[i].qrCode &&
        (v.cards[i].showsCheck <==> urls[i].shortUrl == copiedUrl)
    {
      if loading then LoadingPlaceholder
      else
        var links, copied := urls, copiedUrl;
        Main(if user.Some? then Some(user.value.name) else None,
             newUrl, !shortening, if shortening then "Shortening..." else "Shorten",
             seq(|links|, i requires 0 <= i < |links| =>
               Card(links[i].originalUrl, links[i].shortUrl, links[i].shortUrl == copied, links[i].qrCode, links[i].clicks)))
    }
  }

  /** On a loaded page with two links, copying the first and then the second, after which
      the first copy's reset fires: the second link's check mark disappears although its
      own reset is still scheduled. */
  method EarlierResetClearsLaterCopy(first: Link, second: Link)
    returns (checkedBefore: bool, checkedAfter: bool, stillScheduled: nat)
    requires second.shortUrl != ""
    ensures checkedBefore && !checkedAfter && stillScheduled == 1
  {
    var page := new DashboardPage();
    page.SettleLoad(Ok(DashboardData(None, [first, second])));
    page.Copy(first.shortUrl);
    page.Copy(second.shortUrl);
    var screen := page.Render();
    checkedBefore := screen.cards[1].showsCheck;
    page.ExpireCopyReset();
    screen := page.Render();
    checkedAfter, stillScheduled := screen.cards[1].showsCheck, page.pendingResets;
  }

  /** Calling the shorten handler twice, without the disabled button in between, sends
      two requests: nothing in the handler suppresses the second. */
  method HandlerSendsWhileShortening(draft: string) returns (first: bool, second: bool, inFlight: seq<string>)
    requires !IsBlank(draft)
    ensures first && second && inFlight == [draft, draft]
  {
    var page := new DashboardPage();
    page.SettleLoad(Ok(DashboardData(None, [])));
    page.EditDraft(draft);
    first := page.StartShorten();
    second := page.StartShorten();
    inFlight := page.shortensInFlight;
  }

  /** A successful shorten puts the new record at the head of the list, keeps the old
      list behind it and empties the draft; a failed one leaves list and draft as they were. */
  method ShortenRoundTrip(links: seq<Link>, draft: string, reply: Reply<ShortenData>, now: int)
    returns (screen: DashboardScreen, draftAfter: string, listAfter: seq<Link>)
    requires !IsBlank(draft)
    ensures reply.Ok? ==> listAfter == [NewLink(draft, reply.data, now)] + links && draftAfter == ""
    ensures reply.Failed? ==> listAfter == links && draftAfter == draft
    ensures screen.Main? && screen.shortenEnabled && |screen.cards| == |listAfter|
  {
    var page := new DashboardPage();
    page.SettleLoad(Ok(DashboardData(None, links)));
    page.EditDraft(draft);
    var sent := page.StartShorten();
    page.SettleShorten(0, reply, now);
    screen, draftAfter, listAfter := page.Render(), page.newUrl, page.urls;
  }

  /** Until the dashboard fetch settles only the placeholder shows; a failed fetch sends
      the browser to login and leaves the list empty. */
  method FailedLoadRedirects(message: Option<string>)
    returns (before: DashboardScreen, after: DashboardScreen, route: Option<Route>)
    ensures before.LoadingPlaceholder?
    ensures after.Main? && after.cards == [] && route == Some(LoginRoute)
  {
    var page := new DashboardPage();
    before := page.Render();
    page.SettleLoad(Failed(message));
    after, route := page.Render(), page.navigatedTo;
  }

  /** Two successful shortens settled at the same clock reading give two records with the
      same key: the temporary identifier is not unique. */
  method SameClockSameKey(links: seq<Link>, first: string, second: string, data: ShortenData, now: int)
    returns (head: Link, next: Link)
    requires !IsBlank(first) && !IsBlank(second)
    ensures head.id == next.id == TempId(now)
    ensures head.originalUrl == second && next.originalUrl == first
  {
    var page := new DashboardPage();
    page.SettleLoad(Ok(DashboardData(None, links)));
    page.EditDraft(first);
    var sent := page.StartShorten();
    page.SettleShorten(0, Ok(data), now);
    page.EditDraft(second);
    sent := page.StartShorten();
    page.SettleShorten(0, Ok(data), now);
    head, next := page.urls[0], page.urls[1];
  }

  /** A fetched link whose short URL is empty shows the copied check mark on a freshly
      loaded page, with nothing copied and no reset scheduled. */
  method EmptyShortUrlShowsCheck(link: Link) returns (checked: bool, scheduled: nat)
    requires link.shortUrl == ""
    ensures checked && scheduled == 0
  {
    var page := new DashboardPage();
    page.SettleLoad(Ok(DashboardData(None, [link])));
    var screen := page.Render();
    checked, scheduled := screen.cards[0].showsCheck, page.pendingResets;
  }
}
