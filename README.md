# Browser navigation state, in Dafny

This project models the back-end state object of a minimal web browser
(`Model` in `src/browser/Model.java`) and proves what it promises. The state holds:

- a navigation history;
- a cursor into that history;
- the current URL;
- a visit count per URL;
- a home slot and a favorite slot.

The operations on it are:

- recording a visit. This counts the URL, discards any forward branch, appends the URL and moves the cursor onto it.
- moving back and forward. A move out of range is refused.
- the five most frequently visited URLs.
- completing typed text into a URL. It tries three candidates in turn: the text as it is, the text with `http://` prefixed, and the text relative to the current URL.
- setting and reading the home and favorite slots.

`browser_model.dfy` (module `Browser`) holds the model:

- the class `Model`, with the source's fields;
- the ranking specification `IsTopFive`;
- the reference definition of URL completion, `FirstParse` over `Candidates`.

`browser_model_test.dfy` (module `BrowserTests`) replays the sessions of `test/browser/ModelTest.java` and a few more. Each session is a method whose `ensures` says what that session yields.

Representation choices:

- A URL is its text form (`type Url = string`).
- Parsing text into a URL (`new URL(s)`) is the function parameter `parse: string -> Option<Url>`. `None` stands for `MalformedURLException`.
- Java `null` becomes `None`. This covers the text given to completion, the current URL, and the home and favorite slots.
- `Model.Valid()` is the invariant: the cursor is a valid index, or it is -1 and the history is empty; and every count is at least 1.
- `Model.Tracked()` says that every URL in the history has been counted. Every operation preserves it.

In three places the code does something a caller might not expect. The model follows the code:

- With fewer than five distinct URLs, `getFiveMostFrequentURL` (`src/browser/Model.java:50-54`) returns them in ascending count order. A caller might expect most visited first. `BrowserTests.MostFrequentWhenRevisited` pins this down: after visits A, B, A the list is `[B, A]`.
- Back and forward (`getNextURL`, `src/browser/Model.java:82-90`) move only the cursor. Only `rememberURL` sets the current URL (`src/browser/Model.java:65`). So after a move, the current URL is still the last page remembered, not the page at the cursor. Three operations use the current URL: setting home (`src/browser/Model.java:119-121`), setting the favorite (`src/browser/Model.java:131-133`) and the relative candidate of URL completion (`src/browser/Model.java:109`). After a move, all three use that earlier page. `BrowserTests.HomeAfterBack` pins this down: after visits A, B and a move back to A, home is set to B, and text is completed relative to B.
- Empty text is not treated as "no URL". `completeURL` passes it to the parser like any other text.

## Model

| member | source | states |
|---|---|---|
| `Browser.Model.constructor` | src/browser/Model.java:30-36 | the fields take the given history, cursor and current URL; the count table is empty; home and favorite are unset; the invariant holds exactly when the cursor lies in -1 up to the last index, and is -1 only on an empty history |
| `Browser.Model.GetFiveMostFrequentURL` | src/browser/Model.java:40-56 | the result satisfies `IsTopFive` and the state is unchanged. That is: it has min(5, number of URLs) entries, with no duplicates, all of them visited URLs. With at least 5 URLs it is in non-increasing count order, and every URL left out has a count no greater than every listed one. With fewer than 5 it lists every URL, in non-decreasing count order |
| `Browser.SortByCount` | src/browser/Model.java:42-44 | the entry list sorted by value: every key of the count table exactly once, in non-decreasing count order |
| `Browser.InsertByCount` | src/browser/Model.java:44 | the step of the stable sort: inserting a URL into a count-sorted list keeps it count-sorted, adds exactly that URL, and keeps it duplicate-free |
| `Browser.TailIsTopFive` | src/browser/Model.java:46-49 | the last five entries of the sorted list, taken from the end, meet every condition of the top-five list for five or more URLs |
| `Browser.StrictlyMostVisitedIsListed` | test/browser/ModelTest.java:48-71 | in any top-five list, a URL with strictly more visits than every other URL is listed |
| `Browser.Model.HasNext` | src/browser/Model.java:59-61 | true exactly when a forward move from the cursor stays inside the history |
| `Browser.Model.RememberURL` | src/browser/Model.java:64-78 | the current URL becomes `u`; the counts become `Bump(old counts, u)`; the history becomes the old history up to and including the cursor, followed by `u`; the cursor becomes old cursor + 1, the last index. Both invariants are preserved |
| `Browser.Bump` | src/browser/Model.java:66-70 | the visited URL's count is old + 1 if it was present and 1 otherwise; the key set gains just that URL; every other count is unchanged |
| `Browser.Model.GetNextURL` | src/browser/Model.java:82-90 | if cursor + step is in range, the cursor moves there and that URL is returned; otherwise the cursor is left as it was and the URL at the cursor is returned. The result is `None` exactly on an empty history. Only the cursor changes: history, counts, the current URL, home and favorite are never changed |
| `Browser.Model.CompleteURL` | src/browser/Model.java:93-117 | no text gives no URL. Otherwise the result is `FirstParse` of the candidates: the text, then `http://` + text, then current URL + `/` + text. The relative candidate needs a current URL. The state is only read |
| `Browser.FirstParse` | src/browser/Model.java:96-116 | the result is `None` exactly when no candidate parses. Otherwise it is the parse of some candidate before which none parses |
| `Browser.Model.SetHomeToCurrentPage` | src/browser/Model.java:119-121 | the home slot becomes the current URL; nothing else changes |
| `Browser.Model.SetMyFavoriteToCurrentPage` | src/browser/Model.java:131-133 | the favorite slot becomes the current URL; nothing else changes |
| `BrowserTests.HomeIsASnapshot` | src/browser/Model.java:119-125 | home read back is the page that was current when it was set, even after later visits |
| `BrowserTests.FavoriteSetTwice` | src/browser/Model.java:126-133 | setting the favorite on A and then on B leaves B as the favorite |
| `BrowserTests.CompleteWhenNoProtocol` | test/browser/ModelTest.java:16-21 | `youtube.com`, which does not parse, completes to the parse of `http://youtube.com` |
| `BrowserTests.CompleteWhenAbsolute` | src/browser/Model.java:96-98 | text that parses as it is completes to its own parse |
| `BrowserTests.CompleteWhenNull` | test/browser/ModelTest.java:32-35 | no text completes to no URL |
| `BrowserTests.MostFrequentWhenNoPageVisited` | test/browser/ModelTest.java:73-78 | before any visit the frequently visited list is empty |
| `BrowserTests.MostFrequentWhenOnePageVisited` | test/browser/ModelTest.java:38-45 | after one visit the list is exactly that URL |
| `BrowserTests.MostFrequentWhenSevenPagesVisited` | test/browser/ModelTest.java:48-71 | six distinct pages are visited and the last is visited twice; that last page is listed |
| `BrowserTests.MostFrequentWhenRevisited` | src/browser/Model.java:50-54 | after visits A, B, A, the list is `[B, A]`: all URLs, least visited first |
| `BrowserTests.NextWhenNoNextURL` | test/browser/ModelTest.java:81-86 | moving forward from the only page returns that page |
| `BrowserTests.NextWhenNoPreviousURL` | test/browser/ModelTest.java:88-94 | moving back from the only page returns that page |
| `BrowserTests.NextWhenNothingVisited` | src/browser/Model.java:86-89 | before any visit, a move by any step fails |
| `BrowserTests.BranchDiscardsForwardHistory` | src/browser/Model.java:73-77 | visit A, B, C, go back twice and visit D: the history is `[A, D]`, and moving forward returns D |
| `BrowserTests.HomeAfterBack` | src/browser/Model.java:82-121 | visit A, B and move back: the move returns A, but the current URL stays B, so home is set to B and `page` is completed relative to B, through `http://b.com/page` |

## Left out

- `target/classes/browser/View.java` is not part of this model. It is the JavaFX window: page widget, buttons, dialogs, the DOM link listener, and the reachability check through `openStream`. `test/browser/ViewTest.java` is not part of this model either, because it needs a live JavaFX toolkit.
- The parsing, normalisation and `equals` of `java.net.URL` are not modelled; the parser is an uninterpreted parameter. So the test that the empty text completes to `http:` (`test/browser/ModelTest.java:24-29`) cannot be stated. It depends on the library's parsing rules.
- `Browser.Model.CompleteURL`: the `NullPointerException` raised when the relative candidate is reached with no current URL (`src/browser/Model.java:109`) is a precondition instead.
- `Browser.Model.RememberURL` takes a URL, never `null`. The window can pass `null` when Home is pressed before a home was set; the model does not capture that.
- `Browser.Model.RememberURL` and `Browser.Model.GetNextURL` use unbounded integers. Java's 32-bit `int` can wrap for the counts after 2^31 - 1 visits of one URL, and for the cursor under an extreme step.
- `Browser.Model.GetFiveMostFrequentURL` chooses the hash map's entry order arbitrarily. It sorts with a stable insertion of its own, so `IsTopFive` leaves the order of equal counts open.
- The history is a value sequence. The aliasing of the `subList` view at `src/browser/Model.java:74` is not modelled; only the resulting contents are.
- Operations require `Valid()`. A `Model` whose constructor arguments break the invariant is not covered by their contracts.
- `Browser.Model.GetHome` and `Browser.Model.GetMyFavorite` are plain reads without contracts of their own. What they return is stated by `BrowserTests.HomeIsASnapshot` and `BrowserTests.FavoriteSetTwice`.
