# URL shortener client: page state machines

A model of the view state of the four pages of a React client for a hosted URL-shortening
service, and of how each event handler changes it:

- the **dashboard** (`src/Pages/Dashboard.jsx`): the signed-in user's link list, the shorten
  form, the copy check mark with its reset timer, and logout;
- the **public page** (`src/Pages/Home.jsx`): shorten one link anonymously, show the composed
  short link, copy it;
- the **login** and **signup** forms (`src/Pages/Login.jsx`, `src/Pages/Signup.jsx`): an
  "already signed in?" check on mount that shows a placeholder until it settles, field edits that
  clear the error, and a submit with a loading flag and a fallback error text.

Each page is a class whose fields are the component's `useState` values, plus what the browser
holds around the component: the requests sent and not yet settled, the copy resets scheduled and
not yet fired, where `navigate` last sent the browser, and the last toast. Every asynchronous
handler is split into a `Start…` event (what happens before the `await`) and a `Settle…` event
that takes the server's reply as a parameter (`Reply.Ok(body)` or `Reply.Failed(message)`).
Each `setTimeout` reset is an explicit `ExpireCopyReset` event. Each page's `Render` function
says what the page shows for its state. Module-level methods run short event sequences on a new
page and state what results; they capture the behaviours that need more than one event.

Modules: `Text` (JavaScript's `trim` and the blank-input guard), `Replies` (reply, route and
notice values shared by the pages, and the `message || fallback` rule), `Dashboard`, `Home`,
`Login`, `Signup`.

Behaviours of the code that one might not expect, modelled as written:

- A second copy does not cancel the first copy's reset (`Dashboard.jsx:86`, `Home.jsx:39`), so the
  first reset clears the mark set by the second copy early (`EarlierResetClearsLaterCopy`,
  `EarlierResetHidesLaterCopy`). One might expect a newer copy to supersede the pending reset;
  the code does not.
- The shorten handlers do not check `shortening`/`isLoading`; only the button's `disabled`
  attribute (`Dashboard.jsx:131`, `Home.jsx:82`) keeps a second request from being sent
  (`HandlerSendsWhileShortening`). With two requests in flight, the first to settle re-enables the button.
- On the login and signup pages a failed authentication check redirects nowhere and shows no
  notice: the page just shows its form. Only a reply that carries a user redirects, and it
  redirects to the dashboard.
- The dashboard has no separate session check: a failed dashboard fetch is what sends the
  browser to the login page.
- A fetched link whose short URL is the empty string shows the copied check mark whenever
  nothing is copied, since the check compares it with the empty `copiedUrl` (`Dashboard.jsx:201`;
  `EmptyShortUrlShowsCheck`).
- The temporary identifier of a new record is the clock reading; nothing makes it unique
  (`SameClockSameKey`).

## Model

| member | source | states |
|---|---|---|
| `Text.IsJsWhitespace` | src/Pages/Dashboard.jsx:55 | the characters `trim()` strips: ECMAScript white space and line terminators; space, tab, line feed and carriage return are among them, letters, digits and the URL punctuation `:` `/` `.` are not |
| `Text.LeadingWhitespace` | src/Pages/Dashboard.jsx:55 | the whitespace run at the front of a string: every character before it is whitespace, the one after it is not |
| `Text.TrailingWhitespace` | src/Pages/Dashboard.jsx:55 | the whitespace run at the end of a string: every character in it is whitespace, the one before it is not |
| `Text.Trim` | src/Pages/Dashboard.jsx:55 | `trim()` is empty exactly when every character is whitespace; a non-empty result neither starts nor ends with whitespace; it is the input with exactly its leading and trailing whitespace runs removed |
| `Text.IsBlank` | src/Pages/Dashboard.jsx:55 | the guard `!newUrl.trim()` holds exactly when every character is whitespace, and in particular for the empty draft |
| `Text.BlankGuards` | src/Pages/Home.jsx:16 | the public page's guard `!s \|\| s.trim() === ""` and the dashboard's `!s.trim()` agree, and both hold exactly for whitespace-only text |
| `Replies.MessageOr` | src/Pages/Dashboard.jsx:76 | the server's error text when present and non-empty, else the fallback; never empty when the fallback is not |
| `Dashboard.NewLink` | src/Pages/Dashboard.jsx:63-72 | the new record: clock-reading id, the untrimmed draft, the reply's short URL and QR code, the reply's clicks or 0 when missing or zero |
| `Dashboard.DashboardPage.constructor` | src/Pages/Dashboard.jsx:9-14 | initial state: no user, empty list, loading, empty draft, not shortening, nothing copied |
| `Dashboard.DashboardPage.SettleLoad` | src/Pages/Dashboard.jsx:17-37 | loading ends either way; success replaces user and list wholesale; failure redirects to login with a notice and changes no data |
| `Dashboard.DashboardPage.EditDraft` | src/Pages/Dashboard.jsx:123 | typing sets the draft and nothing else |
| `Dashboard.DashboardPage.StartShorten` | src/Pages/Dashboard.jsx:54-56 | a request is sent exactly when the draft is not blank; a blank draft changes nothing; sending sets `shortening` without checking it first |
| `Dashboard.DashboardPage.SettleShorten` | src/Pages/Dashboard.jsx:57-79 | `shortening` ends; success prepends the record built from the captured draft to the unchanged old list and clears the draft; failure keeps list and draft and reports the server's `err` or "Failed to shorten URL" |
| `Dashboard.DashboardPage.Copy` | src/Pages/Dashboard.jsx:82-87 | the copied URL becomes the given one and one more reset is scheduled, none cancelled |
| `Dashboard.DashboardPage.ExpireCopyReset` | src/Pages/Dashboard.jsx:86 | a reset fires and clears the copied URL, whichever copy set it |
| `Dashboard.DashboardPage.SettleLogout` | src/Pages/Dashboard.jsx:39-52 | success redirects to login with a notice; failure only reports "Logout failed"; no page data changes |
| `Dashboard.DashboardPage.Render` | src/Pages/Dashboard.jsx:89-206 | only the placeholder while loading; otherwise one card per link in list order, the check mark exactly on links whose short URL equals the copied one, the button disabled and relabelled exactly while shortening |
| `Dashboard.DashboardPage.DisabledOrCheckedHasPending` | src/Pages/Dashboard.jsx:129-201 | on any valid state, a disabled shorten button has a reply still to come, and a shown check mark on a link with a non-empty short URL has a reset still to come |
| `Dashboard.EarlierResetClearsLaterCopy` | src/Pages/Dashboard.jsx:82-87 | on a loaded page, after copying two links, the first reset removes the second link's rendered check mark while its own reset is still scheduled |
| `Dashboard.HandlerSendsWhileShortening` | src/Pages/Dashboard.jsx:54-56 | calling the handler twice sends two requests carrying the same draft |
| `Dashboard.ShortenRoundTrip` | src/Pages/Dashboard.jsx:54-80 | after a non-blank shorten settles the button is enabled; on success the list is the new record before the old list and the draft is empty; on failure list and draft are as they were |
| `Dashboard.FailedLoadRedirects` | src/Pages/Dashboard.jsx:19-34 | the placeholder shows until the fetch settles; a failed fetch redirects to login and leaves the list empty |
| `Dashboard.SameClockSameKey` | src/Pages/Dashboard.jsx:63-72 | two successful shortens settled at the same clock reading give two records with the same key, newest first |
| `Dashboard.EmptyShortUrlShowsCheck` | src/Pages/Dashboard.jsx:201 | a loaded link with an empty short URL shows the check mark while nothing is copied and no reset is scheduled |
| `Home.DisplayUrl` | src/Pages/Home.jsx:26-28 | the shown link is the fixed service base followed by exactly the returned identifier |
| `Home.DisplayUrlInjective` | src/Pages/Home.jsx:27 | distinct identifiers give distinct shown links |
| `Home.HomePage.constructor` | src/Pages/Home.jsx:9-13 | initial state: empty input, no link, not copied, not loading, no error |
| `Home.HomePage.EditInput` | src/Pages/Home.jsx:77 | typing sets the input and nothing else |
| `Home.HomePage.StartShorten` | src/Pages/Home.jsx:15-18 | a request is sent exactly when the input is not blank; then loading is set and the error cleared; a blank input changes nothing |
| `Home.HomePage.SettleShorten` | src/Pages/Home.jsx:19-33 | loading ends; success shows the composed link; failure keeps the previous link and sets the error to the server's `err` or "Something went wrong!"; the input is never changed |
| `Home.HomePage.Copy` | src/Pages/Home.jsx:36-40 | "Copied!" is set and one more reset is scheduled, none cancelled |
| `Home.HomePage.ExpireCopyReset` | src/Pages/Home.jsx:39 | a reset fires and clears "Copied!" whichever copy set it |
| `Home.HomePage.Render` | src/Pages/Home.jsx:73-117 | the error line shows exactly when the error is non-empty, the result panel exactly when the short link is non-empty, the button is disabled exactly while loading |
| `Home.HomePage.ShownStateIsBacked` | src/Pages/Home.jsx:80-117 | on any valid state, a disabled button has a reply still to come, a shown "Copied!" has a reset still to come, and a shown link starts with the service base |
| `Home.FailedShortenShowsError` | src/Pages/Home.jsx:15-34 | a failed shorten always shows an error line and keeps the typed input, even with no server text |
| `Home.SucceededShortenShowsLink` | src/Pages/Home.jsx:26-28 | a successful shorten always shows the result panel with the composed link and no error |
| `Home.EarlierResetHidesLaterCopy` | src/Pages/Home.jsx:36-40 | after a successful shorten and two copies, the first reset hides the rendered "Copied!" while the second reset is still scheduled |
| `Login.WithField` | src/Pages/Login.jsx:39 | the named field takes the value and the other field keeps its own |
| `Login.LoginPage.constructor` | src/Pages/Login.jsx:9-15 | initial state: empty form, no error, not loading, checking authentication |
| `Login.LoginPage.SettleAuthCheck` | src/Pages/Login.jsx:20-36 | the check ends whether it succeeds or fails; only a reply carrying a user redirects to the dashboard |
| `Login.LoginPage.Change` | src/Pages/Login.jsx:38-41 | exactly the named field changes and the error is cleared |
| `Login.LoginPage.StartSubmit` | src/Pages/Login.jsx:43-46 | the form is sent as it stands, loading is set and the error cleared |
| `Login.LoginPage.SettleSubmit` | src/Pages/Login.jsx:48-60 | loading ends; success redirects to the dashboard; failure sets the error to the server's `message` or "Login failed"; the form is kept |
| `Login.LoginPage.Render` | src/Pages/Login.jsx:67-118 | only the placeholder while checking; the error banner exactly when the error is non-empty; the button disabled exactly while loading |
| `Login.LoginPage.DisabledHasPending` | src/Pages/Login.jsx:112-118 | on any valid state, a disabled submit button has a reply still to come |
| `Login.FailedLoginKeepsForm` | src/Pages/Login.jsx:52-60 | a failed login shows an error banner and the typed email and password |
| `Signup.WithField` | src/Pages/Signup.jsx:39 | the named one of name, email and password takes the value and the other two keep theirs |
| `Signup.SignupPage.constructor` | src/Pages/Signup.jsx:9-16 | initial state: empty three-field form, no error, not loading, checking authentication |
| `Signup.SignupPage.SettleAuthCheck` | src/Pages/Signup.jsx:21-36 | the check ends whether it succeeds or fails; only a reply carrying a user redirects to the dashboard |
| `Signup.SignupPage.Change` | src/Pages/Signup.jsx:38-41 | exactly the named field changes and the error is cleared |
| `Signup.SignupPage.StartSubmit` | src/Pages/Signup.jsx:43-46 | the form is sent as it stands, loading is set and the error cleared |
| `Signup.SignupPage.SettleSubmit` | src/Pages/Signup.jsx:48-64 | loading ends; success redirects to the login page; failure sets the error to the server's `message` or "Signup failed"; the form is kept |
| `Signup.SignupPage.Render` | src/Pages/Signup.jsx:72-132 | only the placeholder while checking; the error banner exactly when the error is non-empty; the button disabled exactly while loading |
| `Signup.SignupPage.DisabledHasPending` | src/Pages/Signup.jsx:126-132 | on any valid state, a disabled submit button has a reply still to come |
| `Signup.AuthCheckGate` | src/Pages/Signup.jsx:21-36 | the placeholder shows until the check settles, then the form; the page is redirected exactly when the reply carried a user |

## Left out

- Network requests, cookies and backend origins: every reply is a parameter. The one origin that
  appears in page state is the public page's short-link base. The login page's hard-coded local
  origin (`Login.jsx:24`, `Login.jsx:49`) therefore plays no part.
- Reply shapes the code does not guard: a missing `shortUrl` in a shorten reply is not modelled
  (the public page would show `https://url-shortener-api-rj6k.onrender.com/url/undefined`; a
  dashboard card would show an empty link, and copying it would put "undefined" on the
  clipboard); `clicks` is a number or missing, and other falsy values (`null`, `NaN`) count as
  missing.
- Toasts are recorded as the page's last notice; `console.log` is left out. Clipboard writes are
  fire-and-forget browser calls and are left out.
- Timing: the 1500 ms and 2000 ms delays are constants only. Within one page all resets share one
  delay, so they fire in the order they were scheduled, and a count of pending resets stands for the timers.
- `Date.now()` is the `now` parameter of `SettleShorten`.
- Logout changes no state before its reply, so it is one event, `SettleLogout`.
- The Google sign-in buttons (`handleGoogleLogin`, `handleGoogleSignup`), which only set
  `window.location`.
- Markup, animation, styling, the colour chosen by `idx % 3`, and the static feature tiles of the public page.
- The route table in `src/App.jsx`, which only wires paths to pages.
- React's scheduling: batched updates, effects run twice in development, and the unmounting of a
  page after `navigate`. The model keeps accepting events after a redirect.
- The browser's own form validation: the login and signup inputs are `required` and the email
  inputs have `type="email"` (`Login.jsx:93-109`, `Signup.jsx:98-123`), so the browser does not
  submit an empty or malformed field. `StartSubmit` accepts any form.
- The failed authentication check on the login and signup pages rejects with no `catch`. The
  model covers what the page does (no redirect, no notice), not the unhandled rejection.
