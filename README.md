# Mental-Health demo: account store and upload page, modelled in Dafny

This project models two small pieces of sequential logic from the Mental-Health
repository and proves properties about them.

- **The authentication demo API** (`FastAPI/main.py`), module `Accounts`.
  There are two in-memory dictionaries. `fake_users_db` maps a username to a
  user record. `fake_items_db` maps a username to that user's list of items.
  The model is the class `Accounts.AuthApp`, with fields `users`, `items` and
  `userOrder`. `userOrder` is the insertion order of `fake_users_db`'s keys:
  Python dictionaries keep that order, and `/debug/users` lists the keys in it.
  `Register` and `CreateItem` are methods that change the dictionaries. Login,
  profile, item listing and the debug endpoints are functions that only read.
  `Valid()` is the object invariant, and every method keeps it:
  - every record is filed under its own name;
  - only registered users own item lists;
  - every list has ids 1, 2, … in order, each item owned by that user and
    private;
  - `userOrder` lists every key exactly once.
- **The page script** (`style.js`), module `EmotionPage`. The pure parts are
  functions:
  - the upload decision `Validate`;
  - `Unshift`, the front-insertion done by `unshift`;
  - `ProfileEntries`, the profile's `slice(0, 5)`;
  - `EmotionColor`, the colour lookup;
  - `SessionId`, the session id format.

  The class `EmotionPage.Page` holds `userData` (current photo, emotion
  history, id) and the state of the analyse button and the panels.

The module `Decimal` gives JavaScript's `String(n)` (for integers below 10^21,
which covers the year and the suffix) and `padStart` on digit
strings, and the value a digit string denotes. `Wrappers` holds `Option` and
`Result`.

Abstractions:

- The password library (bcrypt through passlib) is a pair of function-valued
  parameters: `Hasher` and `Verifier`. `RoundTrips(hash, verify)` states that
  every string verifies against its own hash. The hash is passed per call,
  because bcrypt adds its own random salt each time.
- JWT encoding and decoding (python-jose) are not modelled. A token is its
  claims: `sub` and `exp`. `get_current_user` receives the decoded `sub` as an
  `Option<string>`. `None` stands for a bearer token that does not decode, and
  also for one that has no `sub`. Requests with no bearer token at all are
  rejected earlier, by `HTTPBearer` (see "## Left out").
- Parameters stand in for randomness, the clock and the environment:
  - `generate_salt` becomes the `salt` parameter;
  - `datetime.now` becomes `createdAt` and `now`;
  - `ACCESS_TOKEN_EXPIRE_MINUTES` becomes `expireMinutes`;
  - `DEBUG` becomes `debug`;
  - `new Date()` becomes `year` and `timestamp`;
  - `Math.random` becomes `suffix`, the value of `Math.floor(Math.random() * 999)`.
- In the upload handler, `FileReader` and `Image` finish asynchronously. The
  model collapses them into a `ReadOutcome`:
  - `ReadFailed`: the reader's `onerror` fired;
  - `LoadFailed`: the image did not load; the page installs no handler for
    this, so nothing happens;
  - `Loaded`: the image loaded, with its width and height.
- Strings are sequences of Unicode scalar values, so `|s|` is Python's
  `len(s)`.

Behaviour of the code worth knowing when reading the model:

- `analyzeEmotion` (style.js:94-98) waits and then returns nothing. The click
  handler then reads `result.emotion` of `undefined`. That throws, and the
  `catch` branch runs. `AnalyzeEmotion` returns `Undefined`, so
  `Page.AnalyzeClick` proves the following for the page as written: the result
  panel shows the failure message, the history does not change, and the button
  is re-enabled. `Page.FinishAnalysis` takes whatever the analysis resolved to,
  so the success branch (style.js:109-121) is modelled as well. The model has
  no random emotion generator.
- The session id suffix is `Math.floor(Math.random() * 999)`. That is a number
  from 0 to 998, so there are 999 possible suffixes, not 1000.
- `create_access_token` falls back to 15 minutes when `expires_delta` is falsy.
  A `timedelta` of zero is falsy, so `ACCESS_TOKEN_EXPIRE_MINUTES = 0` gives
  tokens that last 15 minutes (`TokenExpiry`).
- History entries are recorded by `addToHistory` from the analysis handler.
  No explicit "save" action exists in the code. No history deletion exists
  either.

## Model

| member | source | states |
|---|---|---|
| `Accounts.SaltedInput` | FastAPI/main.py:191-209 | hashing and verification both work on password + salt; an empty (falsy) salt means the bare password |
| `Accounts.PasswordHash` | FastAPI/main.py:201-209 | get_password_hash: the library hash of `SaltedInput(password, salt)`; no contract of its own, `HashThenVerify` states what it guarantees |
| `Accounts.VerifyPassword` | FastAPI/main.py:191-199 | verify_password: the library check of `SaltedInput(plain, salt)` against the hash; no contract of its own, `HashThenVerify` and `Authenticate` state what it guarantees |
| `Accounts.HashThenVerify` | FastAPI/main.py:191-209 | for a hash/verify pair that round-trips, a password verifies against the hash made of it with the same salt |
| `Accounts.Authenticate` | FastAPI/main.py:223-233 | None for an unknown username; the stored record exactly when the name is known and the password verifies with the stored hash and salt; None when verification fails |
| `Accounts.CurrentUser` | FastAPI/main.py:235-258 | a missing or undecodable subject, or an unknown user, gives 401 "Could not validate credentials"; otherwise the stored record |
| `Accounts.RegisterGate` | FastAPI/main.py:282-300 | the gates run in order: a taken name is rejected whatever the lengths; then a name shorter than 3; then a password shorter than 6; lengths of exactly 3 and 6 pass |
| `Accounts.AuthApp.Register` | FastAPI/main.py:278-319 | on rejection, the gate's error and no change to either dictionary; on success, the new record under the name (submitted name and email, salted hash, given salt, active), an empty item list for it, other keys unchanged, the name appended to the key order; keeps `Valid()` |
| `Accounts.NewUser` | FastAPI/main.py:303-314 | the record stored by register: the submitted name and email, the salted hash, the generated salt, the creation time, active; `RegisterThenAuthenticate` and `RegisterLoginProfile` state what it guarantees |
| `Accounts.RegisterThenAuthenticate` | FastAPI/main.py:303-314 | after the record register stores, authenticating with the same name and password returns that record, given a hash/verify pair that round-trips |
| `Accounts.RegisterLoginProfile` | FastAPI/main.py:321-348 | on the application after a registration, `Login` with the same name and password gives a token whose subject is that name; that subject leads back to the stored record (marked active) and to the profile with the submitted email |
| `Accounts.TokenExpiry` | FastAPI/main.py:211-217 | the expiry is now plus the given delta, or now plus 15 minutes when the delta is absent or zero |
| `Accounts.AuthApp.Login` | FastAPI/main.py:321-340 | a bearer token exactly when authentication succeeds, with subject the stored username and expiry `TokenExpiry(now, ACCESS_TOKEN_EXPIRE_MINUTES)`: that many minutes after now, or 15 when it is 0; otherwise 401 "Incorrect username or password" |
| `Accounts.AuthApp.GetProfile` | FastAPI/main.py:342-348 | the current user's username and email, or the 401 of get_current_user |
| `Accounts.ItemsOf` | FastAPI/main.py:354 | the stored list for a known key, the empty list for an absent one |
| `Accounts.Views` | FastAPI/main.py:356-364 | one response item per stored item, in stored order, with id, name, description and owner copied |
| `Accounts.AuthApp.GetItems` | FastAPI/main.py:350-364 | the caller's items in stored order with ids 1..n and owner the caller, the empty list when the caller has no entry, or the 401 of get_current_user |
| `Accounts.AuthApp.CreateItem` | FastAPI/main.py:366-391 | 401 "Could not validate credentials" and no change when the token has no subject or names an unknown user; otherwise the caller's list (created if absent) gains one item with id len+1, the caller as owner and is_public false; no other list and no user changes; keeps `Valid()` |
| `Accounts.NewItem` | FastAPI/main.py:375-386 | new_item: id len+1, the request's name and description, the caller as owner, private; `AppendKeepsWellFormed` states what it guarantees |
| `Accounts.AppendAll` | FastAPI/main.py:372-389 | an owner's list after create_item has served each request in turn has one more item per request and keeps the old items as its prefix |
| `Accounts.AppendAllStep` | FastAPI/main.py:372-389 | serving one more request appends exactly the item create_item adds to the list left by the earlier requests, so `AppendAll` is the list after repeated `CreateItem` calls |
| `Accounts.AppendKeepsWellFormed` | FastAPI/main.py:375-389 | one creation keeps an owner's list numbered 1..n, owned by that owner and private |
| `Accounts.AppendAllSequential` | FastAPI/main.py:372-389 | after n creations on a list of k items, the list has k+n items, the old ones unchanged, and item k+i has id k+i+1 and the i-th request's name and description |
| `Accounts.CreatedFromEmpty` | FastAPI/main.py:372-389 | a user's ids after n creations from an empty list are exactly 1..n in request order, all owned by that user |
| `Accounts.AuthApp.DebugUsers` | FastAPI/main.py:393-404 | 404 when debug is off; otherwise every registered name once, in registration order, with total_users equal to the number listed |
| `Accounts.AuthApp.DebugItems` | FastAPI/main.py:406-414 | 404 when debug is off; otherwise the whole item dictionary |
| `Accounts.AuthApp.constructor` | FastAPI/main.py:116-150 | both dictionaries start empty and the invariant holds |
| `EmotionPage.Validate` | style.js:50-91 | a type without the "image/" prefix is rejected first, whatever the size and image; then a size over 5·1024·1024 bytes, whatever the image; then a read error; then width or height under 100; accepted exactly when all gates pass, with the image data as the photo |
| `EmotionPage.GateOrder` | style.js:52-61 | the decision on a non-image type does not depend on size or content; on an oversized file it does not depend on the exact size or content |
| `EmotionPage.BoundariesAccepted` | style.js:58-73 | exactly 5,242,880 bytes and exactly 100×100 pixels pass; one byte more, or one pixel less in either dimension, is rejected |
| `EmotionPage.Page.HandleImageUpload` | style.js:50-91 | on acceptance, currentPhoto becomes the image data, the preview is shown and the previous result hidden; on any other outcome, nothing changes; an error message is shown exactly on rejection, and it is the rejecting gate's own message |
| `EmotionPage.Message` | style.js:53-87 | the four `showError` texts, one per rejection; `HandleImageUpload` and `MessagesDistinct` state what it guarantees |
| `EmotionPage.MessagesDistinct` | style.js:53-87 | the four error messages are pairwise different, so the message shown identifies the gate that rejected |
| `EmotionPage.AnalyzeEmotion` | style.js:94-98 | the page's analyser resolves to undefined, never to a result |
| `EmotionPage.Page.BeginAnalysis` | style.js:101-103 | the analyse button is disabled while the analysis is pending |
| `EmotionPage.Page.FinishAnalysis` | style.js:105-134 | the button is enabled again and the result panel shown; undefined gives the failure message with history and profile untouched; a result is displayed, put in front of the history with the current photo, and shown on the profile; while the preview is shown, the recorded and profiled photo is present (from `Valid()`) |
| `EmotionPage.Page.AnalyzeClick` | style.js:101-135 | a click with the page's own analyser ends with the button enabled, the failure message shown, and the history unchanged |
| `EmotionPage.Unshift` | style.js:140-145 | the history grows by one; the new entry is at index 0; every earlier entry moves from index i to i+1 unchanged |
| `EmotionPage.Page.AddToHistory` | style.js:138-148 | the history gains, in front, an entry with the given emotion, confidence and timestamp and the photo current at call time; nothing else changes; while the preview is shown that photo is present (from `Valid()`) |
| `EmotionPage.ProfileEntries` | style.js:178-179 | at most the first five entries, newest first, each equal to the history entry at the same index |
| `EmotionPage.ProfileAfterUnshift` | style.js:178-179 | after a new entry is recorded, the profile shows it first, followed by the previous profile entries, less the oldest once five were shown |
| `EmotionPage.Page.UpdateProfile` | style.js:165-195 | the profile shows the current photo, the latest emotion and the first five history entries; while the preview is shown the profile photo is present (from `Valid()`) |
| `EmotionPage.EmotionColor` | style.js:198-207 | getEmotionColor: the table's colour or '#000000'; `EmotionColorTable` states what it guarantees |
| `EmotionPage.EmotionColorTable` | style.js:198-207 | Happy, Sad, Neutral, Excited and Tired get their table colours; any other label gets '#000000'; every answer is a #RRGGBB colour |
| `Decimal.FromNat` | style.js:17 | `String(n)`: a non-empty digit string with no leading zero |
| `Decimal.PadStart` | style.js:17 | `padStart(width, fill)`: the original at the end, fill characters before it, length the larger of the two |
| `EmotionPage.SessionId` | style.js:17 | the `userData.id` expression; no contract of its own, `SessionIdShape`, `SessionIdRoundTrip` and `SessionIdInjective` state what it guarantees |
| `EmotionPage.SessionIdShape` | style.js:17 | the id is "MH-", the decimal year, "-" and exactly three digits |
| `EmotionPage.SessionIdRoundTrip` | style.js:17 | the id determines the year and the suffix it was made from, so the zero-padded suffix has value 0..998 |
| `EmotionPage.SessionIdInjective` | style.js:17 | different suffixes in the same year give different ids |
| `EmotionPage.Page.constructor` | style.js:14-21 | the initial userData: name, age, stability, the session id, empty history and no photo; the display flags start as the page markup is assumed to have them (see "## Left out") |
| `EmotionPage.Page.ResetUpload` | style.js:210-233 | currentPhoto becomes null, the upload area returns, the result is hidden and the button is enabled |

## Left out

- bcrypt and JWT internals: they are foreign libraries, replaced by the abstractions above. The model does not check the `exp` claim on decode.
- `secrets.token_hex`, `datetime.now`, `os.getenv`/`load_dotenv`, `uvicorn.run`, `new Date()` and `Math.random`: randomness, the clock, the environment and server start-up become parameters. Startup itself is not modelled.
- The `/blocking` and `/non-blocking` endpoints and `FastAPI/concurrency_test.py`: their subject is event-loop concurrency and wall-clock timing.
- The first `app`, its routes and the first `Item`/`create_item` (FastAPI/main.py:22-48): the later definitions replace them.
- The root endpoint's fixed message (FastAPI/main.py:264-276): it is constant text with no logic.
- `api/database/crud.py`, `api/test_database.py`, `api/schemas/mood.py`: ORM wrappers, a script that needs a live database, and declarations only.
- DOM wiring, `innerHTML` templates, `updateHistoryDisplay` and the injected CSS (style.js:23-47, 150-162, 236-270): rendering, not state. The model keeps only the state the renderers read.
- The button's label text and the spinner: presentation only. The button's disabled flag is modelled.
- `showError`, `getEmotionIcon` and `getRecommendations` are not part of this model. They are called but not defined in `style.js`. `HandleImageUpload` returns the text it passes to `showError` (`Message` of the rejection); how it is displayed, the icon and the recommendations are not modelled.
- `HTTPBearer` (FastAPI/main.py:90, the dependency at line 235): a request with no `Authorization` header, or with a scheme other than Bearer, is rejected by `HTTPBearer` itself ("Not authenticated" or "Invalid authentication credentials", status 403 in FastAPI releases of this code's time) before `get_current_user` runs. The `sub` parameter models only requests that do carry a bearer token.
- EmotionPage.Page.constructor: the initial display state is an assumption. The analyse button starts enabled, and the preview, the result panel and the profile start hidden. These come from page markup that is not part of this model; style.js:14-21 sets only `userData`.
- EmotionPage.Page.FinishAnalysis: the success branch assumes that another script defines getEmotionIcon (style.js:111) and getRecommendations (style.js:189), and that both return without throwing. With style.js alone, a resolved result would throw a ReferenceError at line 111 and end in the catch branch: the failure message, and no change to the history.
- EmotionPage.Page.UpdateProfile: assumes getRecommendations (style.js:189) is defined and returns normally. If it were missing, line 194 would not run, the profile would not be shown, and the catch branch would overwrite the detected result.
- Accounts.TokenExpiry: counts `now` and `exp` in minutes. The real "exp" claim is whole seconds since the epoch.
- Asynchrony: the 1.5 s delay, and events between the click and the end of the analysis. For example, `resetUpload` during the wait re-enables the button, and an earlier upload can finish after a later one. The model has the two halves of the click as separate methods, `BeginAnalysis` and `FinishAnalysis`, so events can come between them, but it does not model when callbacks run.
- EmotionPage.EmotionColorTable (and EmotionPage.EmotionColor): uses only the table's own keys. In JavaScript, a label naming an `Object.prototype` property (for example `"constructor"`) finds that inherited property instead of '#000000'.
- The history is a seq that the methods reassign, not a shared mutable array. No code in `style.js` holds a second reference to it.
