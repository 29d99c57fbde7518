# floob-link decision rules in Dafny

floob-link is a small link-preview service. For a shared meal or user link it
renders a page carrying Open Graph title, description and image; for any other
URL it scrapes the page's own metadata. Almost all of `app.js` is HTTP, fetch
and template plumbing. This project models the decision rules inside it:

- `MealTime` (`meal_time.dfy`): `convertMealType` buckets an hour of the day
  into breakfast `[5,11)`, lunch `[11,17)`, dinner `[17,23)` or a midnight
  snack. `convertShortenMealDateString` writes `M월 D일 • <label>`. Month, day
  and hour are taken as integers. A decoder reads the text back, which proves
  that the text keeps the month, the day and the meal type.
- `Preview` (`preview.dfy`): the `/meal/:mealId` and `/story/:userId`
  handlers. Each is a method that starts from the three defaults and reassigns
  `title`, `description` and `imageUrl` as the source does. It returns the
  view object the template is filled from. The input is the parsed upstream
  body, or `None` for a non-2xx answer whose body is JSON. A body whose `data`
  member is null makes `data.data.getMeal` throw. The model takes the catch
  path then and renders the defaults.
- `SiteContent` (`site_content.dfy`): the `/site-content` handler. The result
  object is a class whose fields the method sets one by one: the request
  headers (with the `instagram.com` cookie rule), `isValid` and `error`
  through the status check, extraction and catch, and the icon-URL
  normalisation. The site's answer, the selector results and the parsed
  protocol and host are inputs.
- `Decimal`, `Text`, `Wrappers`: decimal rendering of numbers, `includes` and
  prefix/suffix tests, and optional values. "Present" is JavaScript
  truthiness of a string: `Some(s)` with `s != ""`.

In app.js the Korean literals are damaged: each character shows as `???`.
The meal labels, the bullet and the `월`/`일` marks use Korean text whose
UTF-8 byte counts match the damaged runs. The default title and description
cannot be recovered. They are kept verbatim as opaque constants.

Two behaviours of the code that the model keeps as written:

- On the normal path the meal page's deep link is rendered as
  `https://;link.floob.co.kr/meal/<id>`, with a stray `;`. The catch path
  renders `https://link.floob.co.kr/meal/<id>`. `RenderMealPreview` keeps both.
- The meal description always gets `" "` and the title or the date text
  appended, even when it starts from the default description.

## Model

| member | source | states |
|---|---|---|
| `MealTime.ConvertMealType` | app.js:377-389 | the meal type is breakfast iff 5 <= hour < 11, lunch iff 11 <= hour < 17, dinner iff 17 <= hour < 23, a midnight snack iff hour < 5 or hour >= 23; so every hour gets exactly one type |
| `MealTime.LabelMealType` | app.js:366-374 | a label read back names a meal type whose label it is |
| `MealTime.LabelMealTypeOfMealLabel` | app.js:366-374 | every meal type's label reads back to that type, so the four labels are pairwise distinct |
| `MealTime.MonthDayPrefix` | app.js:367 | the `M월 D일 • ` prefix starts with the month's decimal text and the month mark and ends with the day mark and bullet |
| `MealTime.ShortenMealDateString` | app.js:364-375 | the shortened text starts with the month/day prefix and ends with the label of the hour's meal type (that nothing lies between them follows from `ParseShortenMealDateStringRoundTrip`) |
| `MealTime.ParseShortenMealDateStringRoundTrip` | app.js:364-375 | reading the shortened text back gives the month, the day and the meal type it was built from |
| `MealTime.ShortenDependsOnlyOnMealType` | app.js:364-375 | for one day, two hours give the same text iff they fall in the same meal-type bucket |
| `MealTime.ShortenDistinguishesDays` | app.js:367 | meals on different month/day pairs never get the same text |
| `Decimal.NatToString` | app.js:367 | a number's decimal text is non-empty, all digits, without a leading zero |
| `Decimal.DigitsValueOfNatToString` | app.js:367 | reading a number's decimal text back gives the number |
| `Decimal.NatToStringInjective` | app.js:367 | distinct numbers have distinct decimal texts |
| `Text.Includes` | app.js:294 | `includes` holds iff the pattern occurs at some index of the text |
| `Preview.RenderMealPreview` | app.js:100-161 | the title is always the default; with no meal found, description and image are the defaults; with a meal, the description is `@nickname` (or the default) + `" "` + the title (or the date text), starts with that author part and ends with `" "` + title or date text; the image is the first file's URL iff files is a non-empty list whose first type is `image` or `emoji`, else the default; og fields copy the plain ones; the deep link has the stray `;` except on the catch path |
| `Preview.RenderStoryPreview` | app.js:213-272 | the title is `name • @nickname`, `name`, `@nickname` or the default according to which of name and nickname are present; the description is the introduction or the default; the image is the profile image or the default; no user found gives all defaults; og fields copy the plain ones |
| `SiteContent.ScrapeResult.constructor` | app.js:283-287 | a fresh result is not valid, carries the request's url and headers, and has no scraped field and no error |
| `SiteContent.ScrapeResult.Fill` | app.js:320-345 | the scraped fields become the page's title (always present) and attribute values, the icon normalized; validity, url, headers and error are unchanged |
| `SiteContent.ScrapeResult.Fail` | app.js:349-353 | the result becomes invalid with the given error message; every other field is unchanged |
| `SiteContent.RequestHeaders` | app.js:290-295 | the user agent is always `FloobLink/<version>`; a cookie header with the configured cookie is present iff the URL contains `instagram.com`; no other header is sent |
| `SiteContent.NormalizeIconUrl` | app.js:338-345 | an icon starting with `/` but not `//` becomes protocol + `//` + host + icon; every other value, absent included, is unchanged |
| `SiteContent.NormalizeIconUrlIdempotent` | app.js:338-345 | normalizing twice equals normalizing once when the protocol does not start with `/` |
| `SiteContent.NormalizeIconUrlExamples` | app.js:338-345 | `/favicon.ico` on `http:`/`example.com` becomes `http://example.com/favicon.ico`; `//cdn…` and `https://…` icons and an absent icon are unchanged |
| `SiteContent.StatusErrorMessage` | app.js:311-313 | the message starts with `Response status <status> ` and ends with `<statusText>.` |
| `SiteContent.ParseStatusErrorMessageRoundTrip` | app.js:311-313 | the status and the reason phrase can be read back from the message |
| `SiteContent.ScrapeSite` | app.js:282-357 | the user agent is always `FloobLink/<version>`; the cookie is sent and `result.headers` replaced by the request headers iff the URL contains `instagram.com`; `isValid` holds iff the status was 200 and the page was read, and then `error` is absent and the scraped fields are the page's with the icon normalized; otherwise `error` is the network message, the status message or the decoding message, and nothing is scraped |

## Left out

- Express routing, CORS and JSON-body middleware, `app.listen` and the static `/apple-app-site-association` answer: transport plumbing with no decision in it.
- The upstream `fetch` calls and their GraphQL query text: network I/O. The parsed upstream body is an input; `None` models only a non-2xx answer with a JSON body. A body that is not JSON, whatever its status, and a rejected upstream fetch make the promise chain reject with no handler, so the request is left unanswered. Those cases are not modelled; the model's defaults do not cover them.
- Template loading and Mustache rendering: file I/O and a foreign library whose escaping is not visible. The model stops at the view object handed to the template, so the round trip through the rendered HTML is not modelled.
- The HTML parser and its selectors: a foreign library. The attribute values they read are inputs.
- The date library: local-timezone conversion and formatting of `mealedDate`. Month, day and hour arrive as integers, so an absent or invalid `mealedDate` is not modelled.
- URL parsing: the site URL's protocol and host are inputs.
- The GET to the scraped site and the charset decoding of its body: their outcome (network failure, status with reason, decoded page or decoding failure) is an input. The model does not tie that outcome to the request headers it returns.
- Logging and telemetry (Application Insights, log4js, `console.error`) and the log configuration files: no effect on any result.
- Environment variables: the version and the Instagram cookie are a `Config` parameter. An unset cookie variable is not modelled.
- Upstream values of unexpected JSON types are not modelled: a non-string title or nickname, or a null element in `files`, which would throw when reading `type`. Files are records with a string type and URL.
- A request body without `url` makes `siteUrl.includes` throw before the promise chain, which Express turns into an error response. The model takes `url` as a string.
