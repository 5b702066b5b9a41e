# URL shortener: client state machines and in-memory store

This project models the core of a small URL shortener. The browser client is an Angular application.
Its logic is a set of components whose signals change on discrete events:

- the three shortening orchestrators: the url-shortener container, the url-shortener component and the app shell;
- the three redirect resolvers: the container and the component under `components/redirect`, and the container under `containers/redirect`;
- the three QR reactors;
- the two statistics pollers: the quick stats of the url-shortener container and the statistics dashboard.

Around these sit pure helpers: the error-message extraction, the status texts, the statistics aggregates and the statistics table's string helpers.
The backend is a FastAPI application, `src/backend/main.py`. It keeps short codes in a dictionary.

Each component that updates its signals in place is a Dafny `class`. Each of its signals is a field.
Every `await` splits an operation into two methods. One starts the operation, and the other delivers the gateway's settled reply (`Reply<T>`: resolved with a value, or rejected with a thrown value).
Browser timers and intervals are events too. A `...Fires` or `...Tick` method may be called only while such a timer is armed or such an interval is running.
Which event comes next is left open. Each method's `ensures` states the component's whole new state.

The pure helpers are functions with lemmas about them:

- the most popular entry is the first entry with the largest click count;
- the click total distributes over concatenation;
- `truncateUrl` is idempotent;
- `ensureProtocol` agrees with `addHttps`;
- two different statuses never show the same text, and two failure messages are equal only for the same error;
- the code generator can produce every code;
- the backend store stays injective and keyed by valid codes.

The model follows the code as written, including these weaknesses of the code:

- A 3000 ms status-reset timer is not tied to the status that armed it. A stale timer clears a newer status (`Status.StaleResetClearsNewerStatus`).
- No QR reactor discards a stale fetch. The last fetch to settle wins, even for a url that is no longer the input (`ComponentsQrCode.StaleFetchOverwritesContainer`, `ContainersQrCode.LateFetchAfterClear`).
- Interval polls have no overlap guard. A tick issues a load while earlier ones are still outstanding.
- In the redirect containers, an empty long url from the gateway is a failure. It is not special-cased any further.
- A destroy that arrives before the initial stats load settles stops nothing. The load then starts an interval that nothing stops (`ShortenerContainer.DestroyDuringInitialLoadLeavesInterval`, `StatisticsDashboard.DestroyDuringLoadLeavesInterval`).

## Model

| member | source | states |
|---|---|---|
| Common.AddHttps | src/frontend/app/components/redirect/redirect.container.ts:62-64 | the result always starts with "http://" or "https://"; a url that already does is kept, any other gets "https://" in front |
| Common.AddHttpsIdempotent | src/frontend/app/containers/redirect/redirect.container.ts:62-64 | normalising an already normalised url changes nothing |
| Errors.ExtractErrorMessage | src/frontend/app/components/url-shortener/url-shortener.container.ts:184-192 | the message is the `error.detail` of an object with an `error` key when that detail is non-empty, and "An unexpected error occurred" otherwise; it is never empty |
| Status.FailureMessage | src/frontend/app/components/status/status.component.ts:22-30 | the text starts with "Failed to shorten URL"; it is longer exactly when there is a non-empty error message, and then it continues with ": " and that message |
| Status.FailureMessageInjective | src/frontend/app/components/status/status.component.ts:22-30 | two failure texts are equal only when both have no error message or both have the same one |
| Status.StatusText | src/frontend/app/components/status/status.component.ts:8-15 | nothing is shown for no status or for success; a missing url shows "Please enter an URL"; a failure shows the failure message |
| Status.StatusTextDistinguishes | src/frontend/app/components/status/status.component.ts:8-15 | a shown text determines the status that produced it |
| Status.StatusCell.Set | src/frontend/app/components/url-shortener/url-shortener.component.ts:59-65 | the new status is stored; a reset timer is armed exactly when the value changes to a defined status; a shown status always has a reset timer pending |
| Status.StatusCell.ResetFires | src/frontend/app/components/url-shortener/url-shortener.component.ts:61-63 | a reset timer fires: the status becomes undefined and one fewer timer is pending |
| Status.StaleResetClearsNewerStatus | src/frontend/app/app.component.ts:51-57 | after two different statuses are set, the first timer clears the second status while its own timer is still pending |
| Backend.AlphabetChar | src/backend/main.py:18-19 | every alphabet position below 62 yields an ASCII letter or digit |
| Backend.AlphabetIndex | src/backend/main.py:18-19 | every ASCII letter or digit has a position below 62 that yields it back |
| Backend.GenerateShortCode | src/backend/main.py:18-19 | the code has the requested length, and each character is the alphabet character drawn for that position |
| Backend.GenerateShortCodeCoversAll | src/backend/main.py:18-19 | every string of letters and digits is the code of some draws |
| Backend.UrlStore.constructor | src/backend/main.py:12-13 | the store starts empty |
| Backend.UrlStore.ShortenUrl | src/backend/main.py:21-32 | a url already stored gives 400 "URL was already shortened previously" and leaves the store alone; otherwise the first drawn code not yet used is stored for the url, the store grows by one, stays injective and the code resolves to the url |
| Backend.UrlStore.GetLongUrl | src/backend/main.py:34-39 | a known code gives its url and anything else gives 404 "Short URL not found" |
| Backend.UrlStore.LookupDeterminesCode | src/backend/main.py:21-32 | two codes that resolve to the same url are the same code |
| Backend.ExampleEndpoint | src/backend/main.py:60-64 | exactly the parameter "error" gives 400 "Invalid parameter value"; any other parameter gives the message prefix followed by the parameter |
| Statistics.TotalClicksAppend | src/frontend/app/components/statistics-overview/statistics-overview.component.ts:30-32 | the click total of two lists one after the other is the sum of their totals |
| Statistics.TotalClicksFromFront | src/frontend/app/components/statistics-overview/statistics-overview.component.ts:30-32 | the click total is the first count plus the total of the rest |
| Statistics.TotalClicksBoundsEach | src/frontend/app/components/statistics-overview/statistics-overview.component.ts:30-32 | with no negative counts, every single count lies between 0 and the total |
| Statistics.TotalClicks | src/frontend/app/components/statistics-overview/statistics-overview.component.ts:30-32 | with no negative click count the total is not negative; the quick stats compute the same total (url-shortener.container.ts lines 107 and 119) |
| Statistics.MostPopular | src/frontend/app/components/statistics-overview/statistics-overview.component.ts:34-41 | there is no most popular entry exactly when the list is empty |
| Statistics.ReduceFindsFirstMaximum | src/frontend/app/components/statistics-overview/statistics-overview.component.ts:38-40 | folding the rest of the list into the first maximum of a prefix gives the first maximum of the whole list |
| Statistics.FirstMaximumExists | src/frontend/app/components/statistics-overview/statistics-overview.component.ts:34-41 | a non-empty list has a first maximum, and it is the most popular entry |
| Statistics.MostPopularIsFirstMaximum | src/frontend/app/components/statistics-overview/statistics-overview.component.ts:34-41 | the most popular entry is the first one whose count no entry exceeds; on a tie the earliest entry wins |
| Statistics.MostPopularLabel | src/frontend/app/components/statistics-overview/statistics-overview.component.ts:20 | the label is the most popular entry's short code when there is such an entry and its code is non-empty, and "N/A" otherwise; an empty list shows "N/A"; anything else shown is the code of an entry of the list |
| StatisticsTable.TruncateUrl | src/frontend/app/components/statistics-table/statistics-table.component.ts:48-50 | urls of at most 50 characters are kept; longer ones become their first 50 characters followed by "..."; the result never exceeds 53 characters |
| StatisticsTable.TruncateUrlIdempotent | src/frontend/app/components/statistics-table/statistics-table.component.ts:48-50 | truncating a truncated url changes nothing |
| StatisticsTable.EnsureProtocol | src/frontend/app/components/statistics-table/statistics-table.component.ts:52-60 | the link always has an http(s) scheme; a url with one is kept, and any other url, "www." or not, gets "https://" in front |
| StatisticsTable.EnsureProtocolIsAddHttps | src/frontend/app/components/statistics-table/statistics-table.component.ts:52-60 | the table's link and the redirect target agree on every url, and the normalisation is idempotent |
| StatisticsTable.GetShortUrl | src/frontend/app/components/statistics-table/statistics-table.component.ts:62-65 | the short url is the origin, a slash and the code, and the code can be read back from it |
| ShortenerContainer.UrlShortenerContainer.constructor | src/frontend/app/components/url-shortener/url-shortener.container.ts:28-35 | all signals start undefined, false or 0, and no interval runs |
| ShortenerContainer.UrlShortenerContainer.OnUrlChanged | src/frontend/app/components/url-shortener/url-shortener.container.ts:52-54 | the url becomes the emitted value |
| ShortenerContainer.UrlShortenerContainer.Shorten | src/frontend/app/components/url-shortener/url-shortener.container.ts:127-144 | the short path is cleared on every call; a call made while a request is in flight issues nothing; an empty url sets MISSING_URL; otherwise the flag is raised and exactly that url is sent; the stats are untouched |
| ShortenerContainer.UrlShortenerContainer.ShortenResponse | src/frontend/app/components/url-shortener/url-shortener.container.ts:146-182 | a non-empty short path is shown with REQUEST_SUCCESS and arms a stats reload when stats are available; an empty one fails with "The returned short path is empty"; a rejection fails with the extracted message; the flag is lowered and the url kept on every path |
| ShortenerContainer.UrlShortenerContainer.NgOnInit | src/frontend/app/components/url-shortener/url-shortener.container.ts:44-46 | the availability probe is issued |
| ShortenerContainer.UrlShortenerContainer.ProbeResolved | src/frontend/app/components/url-shortener/url-shortener.container.ts:60-76 | stats are available exactly when the probe resolved true; only then is the initial load issued |
| ShortenerContainer.UrlShortenerContainer.ApplyQuickStats | src/frontend/app/components/url-shortener/url-shortener.container.ts:103-112 | a loaded list sets the url count to its length and the click total to its total; a failed load changes neither |
| ShortenerContainer.UrlShortenerContainer.InitialStatsLoaded | src/frontend/app/components/url-shortener/url-shortener.container.ts:67-71 | a loaded list sets the url count and the click total, and a failure keeps them; the auto-refresh then starts whatever the load's outcome, as the one running interval under a fresh id; the shortening state, the availability flag, the armed reload timers and the outstanding loads are untouched |
| ShortenerContainer.UrlShortenerContainer.StartStatsAutoRefresh | src/frontend/app/components/url-shortener/url-shortener.container.ts:78-93 | a fresh interval is running afterwards, and it is the only one |
| ShortenerContainer.UrlShortenerContainer.StopStatsAutoRefresh | src/frontend/app/components/url-shortener/url-shortener.container.ts:95-101 | no interval runs afterwards; stopping a stopped container changes nothing |
| ShortenerContainer.UrlShortenerContainer.NgOnDestroy | src/frontend/app/components/url-shortener/url-shortener.container.ts:48-50 | no interval runs afterwards |
| ShortenerContainer.UrlShortenerContainer.IntervalTick | src/frontend/app/components/url-shortener/url-shortener.container.ts:82-90 | a tick issues one more quiet load exactly when stats are available, whether or not earlier loads are still outstanding |
| ShortenerContainer.UrlShortenerContainer.StatsReloadTimerFires | src/frontend/app/components/url-shortener/url-shortener.container.ts:166-171 | the 100 ms timer after a successful shortening issues one load |
| ShortenerContainer.UrlShortenerContainer.StatsLoadSettled | src/frontend/app/components/url-shortener/url-shortener.container.ts:114-125 | a settled load replaces both counters or leaves both, even after the interval was stopped |
| ShortenerContainer.DestroyDuringInitialLoadLeavesInterval | src/frontend/app/components/url-shortener/url-shortener.container.ts:44-50 | a destroy during the initial load leaves an interval running |
| ShortenerComponent.UrlShortenerComponent.constructor | src/frontend/app/components/url-shortener/url-shortener.component.ts:53-57 | all signals start undefined or false |
| ShortenerComponent.UrlShortenerComponent.OnUrlInput | src/frontend/app/components/url-shortener/url-shortener.component.ts:31 | the url becomes the typed value |
| ShortenerComponent.UrlShortenerComponent.Shorten | src/frontend/app/components/url-shortener/url-shortener.component.ts:70-87 | the short path is cleared on every call; a call made while a request is in flight issues nothing; an empty url sets MISSING_URL through the reset effect; otherwise the flag is raised and exactly that url is sent |
| ShortenerComponent.UrlShortenerComponent.ShortenResponse | src/frontend/app/components/url-shortener/url-shortener.component.ts:88-98 | success shows the returned short code, clears the url and sets REQUEST_SUCCESS; failure sets REQUST_FAILURE and keeps the url; the flag is lowered on both paths |
| ShortenerComponent.UrlShortenerComponent.StatusResetFires | src/frontend/app/components/url-shortener/url-shortener.component.ts:59-65 | a pending reset timer clears whatever status is shown |
| App.AppComponent.constructor | src/frontend/app/app.component.ts:45-49 | all signals start undefined or false |
| App.AppComponent.OnUrlInput | src/frontend/app/app.component.ts:31 | the url becomes the typed value |
| App.AppComponent.Shorten | src/frontend/app/app.component.ts:62-77 | a call made while a request is in flight changes nothing at all; an empty url sets MISSING_URL; otherwise the flag is raised and exactly that url is sent |
| App.AppComponent.ShortenResponse | src/frontend/app/app.component.ts:78-90 | success arms the placeholder timer, clears the url and sets REQUEST_SUCCESS; failure sets REQUST_FAILURE and keeps the url; the flag is lowered and the shown code untouched on both paths |
| App.AppComponent.PlaceholderTimerFires | src/frontend/app/app.component.ts:80-82 | the 1000 ms timer writes the fixed text "Shortened URL code", not the returned code |
| App.AppComponent.StatusResetFires | src/frontend/app/app.component.ts:51-57 | a pending reset timer clears whatever status is shown |
| StatisticsDashboard.StatisticsDashboardContainer.constructor | src/frontend/app/components/statistics-dashboard/statistics-dashboard.container.ts:22-27 | not available, no stats, not loading, no interval |
| StatisticsDashboard.StatisticsDashboardContainer.NgOnInit | src/frontend/app/components/statistics-dashboard/statistics-dashboard.container.ts:29-30 | the availability probe is issued |
| StatisticsDashboard.StatisticsDashboardContainer.ProbeResolved | src/frontend/app/components/statistics-dashboard/statistics-dashboard.container.ts:66-74 | stats are available exactly when the probe resolved true, and only then does the loud load start with the spinner on |
| StatisticsDashboard.StatisticsDashboardContainer.StatsLoaded | src/frontend/app/components/statistics-dashboard/statistics-dashboard.container.ts:76-86 | a loaded list replaces the stats and a failure keeps them; the spinner goes off on both paths, and the auto-refresh then starts as the one running interval under a fresh id; the outstanding quiet loads are untouched |
| StatisticsDashboard.StatisticsDashboardContainer.StartAutoRefresh | src/frontend/app/components/statistics-dashboard/statistics-dashboard.container.ts:41-56 | a fresh interval is running afterwards, and it is the only one |
| StatisticsDashboard.StatisticsDashboardContainer.StopAutoRefresh | src/frontend/app/components/statistics-dashboard/statistics-dashboard.container.ts:58-64 | no interval runs afterwards; stopping a stopped dashboard changes nothing |
| StatisticsDashboard.StatisticsDashboardContainer.NgOnDestroy | src/frontend/app/components/statistics-dashboard/statistics-dashboard.container.ts:37-39 | no interval runs afterwards |
| StatisticsDashboard.StatisticsDashboardContainer.IntervalTick | src/frontend/app/components/statistics-dashboard/statistics-dashboard.container.ts:45-53 | a tick issues one more quiet load exactly when stats are available, with no overlap guard |
| StatisticsDashboard.StatisticsDashboardContainer.QuietLoadSettled | src/frontend/app/components/statistics-dashboard/statistics-dashboard.container.ts:88-97 | a quiet load replaces the stats or keeps them, and never touches the spinner |
| StatisticsDashboard.DestroyDuringLoadLeavesInterval | src/frontend/app/components/statistics-dashboard/statistics-dashboard.container.ts:29-39 | a destroy during the loud load leaves an interval running |
| ComponentsRedirect.RedirectContainer.constructor | src/frontend/app/components/redirect/redirect.container.ts:20-21 | no error message, redirecting |
| ComponentsRedirect.RedirectContainer.NgOnInit | src/frontend/app/components/redirect/redirect.container.ts:27-32 | the route's code is looked up, once |
| ComponentsRedirect.RedirectContainer.LookupResolved | src/frontend/app/components/redirect/redirect.container.ts:38-60 | a non-empty long url is normalised and held for the pause; an empty one fails with "An unexpected error occurred"; a rejection fails with the extracted message; redirecting stays on exactly when there is no error message |
| ComponentsRedirect.RedirectContainer.DelayElapsed | src/frontend/app/components/redirect/redirect.container.ts:51-59 | after the pause the browser goes to the normalised url, which has an http(s) scheme; when the browser cannot parse that url the assignment throws, and the container shows "An unexpected error occurred" and stops redirecting |
| ComponentsRedirect.RedirectContainer.OnGoHomeRequested | src/frontend/app/components/redirect/redirect.container.ts:34-36 | the browser goes to "/" |
| ComponentsRedirect.RedirectComponent.constructor | src/frontend/app/components/redirect/redirect.component.ts:19 | no error message, nothing looked up |
| ComponentsRedirect.RedirectComponent.OnParams | src/frontend/app/components/redirect/redirect.component.ts:26-31 | a missing or empty code sets "Invalid short URL" and looks nothing up; otherwise that code is looked up |
| ComponentsRedirect.RedirectComponent.LookupSettled | src/frontend/app/components/redirect/redirect.component.ts:32-38 | success goes at once to `long_url` as returned; a failed lookup, or a url the browser cannot parse, sets "Short URL not found."; an error message, once set, stays set |
| ComponentsRedirect.RedirectViewText | src/frontend/app/components/redirect/redirect.component.ts:10-15 | a non-empty error message is shown, otherwise "Redirecting..."; both of the component's messages replace the waiting text |
| ContainersRedirect.NotFoundMessage | src/frontend/app/containers/redirect/redirect.container.ts:57 | the message is "Short URL not found or invalid long URL: " followed by the long url, which can be read back from it |
| ContainersRedirect.RedirectContainer.constructor | src/frontend/app/containers/redirect/redirect.container.ts:20-21 | no error message, redirecting |
| ContainersRedirect.RedirectContainer.NgOnInit | src/frontend/app/containers/redirect/redirect.container.ts:27-32 | the route's code is looked up, once |
| ContainersRedirect.RedirectContainer.LookupResolved | src/frontend/app/containers/redirect/redirect.container.ts:38-60 | a non-empty long url is normalised and held for the pause; a rejection or an empty string ends the message with nothing, and an undefined url ends it with "undefined"; redirecting stays on exactly when there is no error message |
| ContainersRedirect.RedirectContainer.DelayElapsed | src/frontend/app/containers/redirect/redirect.container.ts:51-59 | after the pause the browser goes to the normalised url, which has an http(s) scheme; when the browser cannot parse that url the assignment throws, and the message is "Short URL not found or invalid long URL: " followed by the normalised url, with redirecting stopped |
| ContainersRedirect.RedirectContainer.OnGoHomeRequested | src/frontend/app/containers/redirect/redirect.container.ts:34-36 | the browser goes to "/" |
| ComponentsQrCode.ReceivedImage | src/frontend/app/components/qr-code/qr-code.container.ts:33-45 | a fetch yields an image exactly when it resolved with a response that has the `image_base64` key, and the image is that key's value |
| ComponentsQrCode.QrCodeContainer.constructor | src/frontend/app/components/qr-code/qr-code.container.ts:18-20 | no url, no image, no fetch |
| ComponentsQrCode.QrCodeContainer.SetUrl | src/frontend/app/components/qr-code/qr-code.container.ts:22-29 | an unchanged url does nothing; a new non-empty url issues one fetch for it; a new empty url clears the image at once |
| ComponentsQrCode.QrCodeContainer.FetchSettled | src/frontend/app/components/qr-code/qr-code.container.ts:31-51 | any settled fetch sets the image to what it yields, or clears it on failure, whatever url it was for |
| ComponentsQrCode.StaleFetchOverwritesContainer | src/frontend/app/components/qr-code/qr-code.container.ts:22-51 | the image of a superseded url is shown when its fetch settles last |
| ComponentsQrCode.ShowsImage | src/frontend/app/components/qr-code/qr-code.component.ts:9-11 | the image is rendered exactly when there is a non-empty `qrCodeBase64` |
| ComponentsQrCode.QrCodeComponent.constructor | src/frontend/app/components/qr-code/qr-code.component.ts:19-21 | no url, no image, no fetch |
| ComponentsQrCode.QrCodeComponent.SetUrl | src/frontend/app/components/qr-code/qr-code.component.ts:23-28 | a new non-empty url issues one fetch for it; an empty or unchanged url issues nothing and keeps the image |
| ComponentsQrCode.QrCodeComponent.FetchSettled | src/frontend/app/components/qr-code/qr-code.component.ts:30-46 | a yielded image replaces the current one; a failure keeps it |
| ComponentsQrCode.ClearedInputKeepsImage | src/frontend/app/components/qr-code/qr-code.component.ts:9-11 | after a failed fetch and an emptied input, the earlier image is still rendered |
| ContainersQrCode.QrCodeContainer.constructor | src/frontend/app/containers/qr-code/qr-code.container.ts:18-20 | no url, no image, no fetch |
| ContainersQrCode.QrCodeContainer.SetUrl | src/frontend/app/containers/qr-code/qr-code.container.ts:22-29 | an unchanged url does nothing; a new non-empty url issues one fetch for it; a new empty url clears the image at once |
| ContainersQrCode.QrCodeContainer.FetchSettled | src/frontend/app/containers/qr-code/qr-code.container.ts:31-48 | any settled fetch sets the image to what it yields, or clears it on failure, whatever url it was for |
| ContainersQrCode.LateFetchAfterClear | src/frontend/app/containers/qr-code/qr-code.container.ts:22-48 | a fetch settling after the input was cleared brings an image back while the input is empty |

## Left out

- `get_qr_code` and `example_image_endpoint` in `src/backend/main.py` are not modelled. They rely on QR and PNG encoding, base64 and file I/O.
- Backend.UrlStore.ShortenUrl: the random draws are a parameter. Only runs in which some draw gives an unused code are modelled, so a retry loop that never ends is not covered.
- The backend returns Python set literals (`{short_code}`, `{url}`) as bodies. The model returns the string itself and leaves JSON encoding out.
- HTTP transport, the services (`url-shortener.service.ts`, `statistics.service.ts`), routing and application configuration are not modelled. A gateway call is a settled `Reply` given to the component.
- The containers read the result of `getLongUrl` as a string, although the service declares `{ long_url }`. The model takes the value the container reads.
- `window.location.origin` is a parameter. `route.snapshot.url[0].path` is the argument of `NgOnInit`. A route with no segment, which makes the code throw, is not modelled.
- ComponentsRedirect.RedirectComponent.LookupSettled: a resolved response without `long_url` would navigate to "undefined". The model takes the `long_url` string as given.
- Logging through `NGXLogger` is not modelled. It changes no state.
- Timer delays (100 ms, 1000 ms, 3000 ms, 5000 ms) are not measured. A timer or interval is an event that may fire while it is armed, in any order relative to other events.
- Status.StatusCell.Set: Angular runs an effect once per change-detection pass. The model arms one reset timer per change of value, so several changes within one pass arm more timers in the model than in the browser.
- The container-to-component bindings of the templates (for example `[errorMessage]` passed from the url-shortener container) are not modelled. The components hold their own signals.
- Click counts are mathematical integers. JavaScript number arithmetic (floating point, overflow) is not modelled.
- StatisticsTable.TruncateUrl: lengths count Unicode characters. JavaScript's `length` and `substring` count UTF-16 code units, so a url holding characters outside the Basic Multilingual Plane (an emoji, say) is cut at a different place, possibly between the two halves of a surrogate pair. The model does not capture that.
- Status.StatusCell.Set: the source arms a reset timer only for a truthy status. The model arms one for every defined status, which assumes every `ShortenStatus` member is truthy. The file declaring the enum is not part of this model.
- Errors.ExtractErrorMessage: `error.detail` is taken to be a string or absent. A truthy detail of another type, such as a list of validation errors, would be stored as it is by the source. The model does not represent it.
- The browser's url parser is not modelled. Whether an assignment to `window.location.href` throws is the `hrefAccepted` argument of the redirect methods.
- `formatDate` in the statistics table is not modelled. It uses locale date formatting. The click-chart and statistics-dashboard presentation components are not part of this model.
- ComponentsQrCode.QrCodeContainer.FetchSettled: the `image_base64` value is taken to be a string. A response whose key holds another type is not modelled.
