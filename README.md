# btc-auth-dashboard: request enrichment, price fallback and auth routes in Dafny

This project models the server-side core of btc-auth-dashboard, a small
Express application. It has three parts.

- **`parseUserInfo` in backend/utils/helpers.js.** This builds the client
  descriptor that is stored with every registration and login:
  - the client address: the first entry of `x-forwarded-for`, then the
    socket address, then the connection address, then `8.8.8.8`;
  - the address with its `::ffff:` prefix removed and then trimmed;
  - the loopback test, which swaps `8.8.8.8` in as the geolocation lookup
    key;
  - the `|| 'Unknown'` / `'UTC'` / `[0, 0]` geolocation defaults;
  - the user-agent library's baseline browser and OS;
  - the first-match-wins chain of substring overrides: Android and its
    brands, then iPhone, iPad, Windows, Macintosh, Linux, the CLI tokens,
    and finally `Mobile`;
  - the record returned by the `catch` block.
- **`parseUserInfo` in backend/utils/backup.helpers.js.** This shares the
  address and geolocation steps. A device detector describes the device
  instead, and the result gets the `deviceDisplay` rule and its own field
  defaults and error record.
- **backend/routes/auth.js.** This covers:
  - the `/btc-price` fallback from CoinGecko to Blockchain to the static
    price;
  - the `Bearer` header and admin-role gate of `/admin/users`;
  - the credential check of `/login` and its update of `lastLogin` and
    `loginHistory`;
  - the duplicate check of `/register`.

Modules, one per file:

| file | module | what it holds |
|---|---|---|
| wrappers.dfy | `Wrappers` | `Option` |
| text.dfy | `Text` | JavaScript string operations the source uses: `includes`, `replace` with a string pattern (first occurrence only), `trim`, `split`, and leftmost regular-expression capture |
| request_info.dfy | `RequestInfo` | the steps both helpers share (lines 9-19 and the geolocation defaults) |
| helpers.dfy | `Helpers` | the primary helper: regular-expression matchers, the override chain, the descriptor, and the chain as an ordered rule table with proofs that the nested conditions follow it |
| backup_helpers.dfy | `BackupHelpers` | the device-detector helper |
| auth_routes.dfy | `AuthRoutes` | the price fallback, and the user documents (`UserDoc`) and collection (`UserStore`) as classes whose methods update them in place |

Library calls become function parameters:
- `geoip.lookup`, `useragent.parse` and `DeviceDetector.parse` return
  `Call<T> = Returned(value) | Threw`, so the `catch` paths are modelled;
- `jwt.verify` returns `Option<Claims>`;
- `user.comparePassword` is a predicate parameter;
- the two price providers' replies are `Reply` values.

The route handlers take the descriptor `parseUserInfo` returns as a
parameter, and `Helpers.ParseUserInfo` states what that descriptor is.

Facts about the code that the model follows:
- the geolocation step is one offline lookup, with no live-service
  escalation;
- there are two price providers, CoinGecko and Blockchain;
- the static price is the literal `86629.41`;
- the helper's error record has `browser: 'Error Fallback'` and
  `device: 'Desktop'`, and `Unknown` only for the OS, country and city;
- the macOS version is read from the `Mac OS X` token;
- CoinGecko's price is used only when `if (response.data?.bitcoin?.usd)`
  finds it truthy, so a price of zero is refused from CoinGecko, while
  Blockchain's price is formatted without any test.

## Model

| member | source | states |
|---|---|---|
| Text.IndexOf | backend/utils/helpers.js:35 | `includes`/`indexOf`: the result is the leftmost position where the pattern occurs, and `None` means it occurs nowhere |
| Text.ReplaceFirst | backend/utils/helpers.js:15 | `replace` with a string pattern: the text is unchanged when the pattern is absent; otherwise only the leftmost occurrence is replaced |
| Text.Trim | backend/utils/helpers.js:15 | `trim` gives a text with no leading or trailing white space that is the input with white space removed from both ends (`Surrounds`), no longer than its input |
| Text.TrimCore | backend/utils/helpers.js:15 | trimming white space around an already trimmed text gives exactly that text |
| Text.Split | backend/utils/helpers.js:9 | `split(sep)`: at least one piece, no piece contains the separator, the first piece is a prefix of the text, and there is exactly one piece iff the separator is absent |
| Text.SplitFirst | backend/utils/helpers.js:9 | the first piece is the text before the first separator |
| Text.JoinSplit | backend/utils/helpers.js:9 | joining the pieces with the separator gives back the text |
| Text.ReplaceAll | backend/utils/helpers.js:94 | the intended version rewrite: same length, every `_` replaced by `.` and every other character kept |
| Text.CaptureFirst | backend/utils/helpers.js:37 | `match` returns the capture at the first position where the expression matches |
| Text.Capture | backend/utils/helpers.js:37 | `match` finds nothing iff the expression matches at no position; otherwise the capture is the one at the leftmost matching position |
| RequestInfo.RawIp | backend/utils/helpers.js:9-12 | a nonempty first forwarded-for entry wins; otherwise the first truthy of the socket address, the connection address and `8.8.8.8`; never empty |
| RequestInfo.NormalizeIp | backend/utils/helpers.js:15 | the normalised address is trimmed, and it is the trimmed input when the `::ffff:` prefix is absent |
| RequestInfo.NormalizeMapped | backend/utils/helpers.js:15 | `::ffff:` followed by an address normalises to that address, trimmed |
| RequestInfo.NormalizePlain | backend/utils/helpers.js:15 | white space around an unmapped address is dropped and nothing else is |
| RequestInfo.ForwardedForFirst | backend/utils/helpers.js:9 | the client address is the normalised text before the first comma of a nonempty forwarded-for entry |
| RequestInfo.LookupKey | backend/utils/helpers.js:18-19 | loopback addresses are looked up as `8.8.8.8` and every other address as itself; the key is `8.8.8.8` iff the address is loopback or `8.8.8.8` |
| RequestInfo.NormalizeMappedLoopback | backend/utils/helpers.js:15-18 | `::ffff:127.0.0.1` normalises to `127.0.0.1` |
| RequestInfo.MappedLoopbackIsLocal | backend/utils/helpers.js:9-19 | a forwarded IPv6-mapped loopback is local, and `8.8.8.8` is looked up instead |
| RequestInfo.NoAddressFallsBack | backend/utils/helpers.js:9-18 | a request naming no address is attributed to `8.8.8.8`, which is not local |
| RequestInfo.GeoDefaults | backend/utils/helpers.js:115-119 | each geolocation field is the record's truthy value, else `Unknown`, `UTC` or `[0, 0]`; no text field is empty |
| Helpers.TokenThenRun | backend/utils/helpers.js:37 | a capture of the literal-then-run expressions is nonempty and made only of characters of its class |
| Helpers.VersionPairAt | backend/utils/helpers.js:72 | `(\d+)_(\d+)` captures two nonempty digit strings |
| Helpers.AndroidVersion | backend/utils/helpers.js:37 | the version is empty iff `Android\s+([\d.]+)` matches nowhere; otherwise it is the capture of the leftmost match, made only of digits and dots |
| Helpers.WindowsVersion | backend/utils/helpers.js:84 | the NT version captured by `Windows NT ([\d.]+)` (or the empty default) holds only digits and dots |
| Helpers.TecnoDevice | backend/utils/helpers.js:43-44 | `TECNO Phone` without a match; otherwise `TECNO ` followed by the captured word, which is nonempty and made of word characters |
| Helpers.MacOsName | backend/utils/helpers.js:93-94 | corrected macOS name: `macOS` without a version, else `macOS ` and the version with every `_` made `.`, so no underscore remains |
| Helpers.ClassifyAgentIntended | backend/utils/helpers.js:91-95 | the classification with the corrected macOS name: the same device everywhere, the same OS outside the Mac branch, and a Mac OS name without underscores |
| Helpers.ParseUserInfo | backend/utils/helpers.js:7-141 | the descriptor has the client address; it is the error record iff the lookup or the agent parser throws; otherwise it holds the loopback verdict, the geolocation defaults, the raw agent, the library's browser, and the chain's OS and device as the code computes them (the macOS name included) |
| Helpers.FirstRuleSelects | backend/utils/helpers.js:34-109 | in an ordered rule table, the first rule with an occurring token gives the label |
| Helpers.FirstRuleNone | backend/utils/helpers.js:32 | when no rule's token occurs, the default label stands |
| Helpers.FirstRuleRange | backend/utils/helpers.js:34-109 | the table yields the default or one of its rules' labels |
| Helpers.FirstRuleIff | backend/utils/helpers.js:34-109 | with distinct labels, rule `k` is chosen iff one of its tokens occurs and no token of an earlier rule does |
| Helpers.OneToken | backend/utils/helpers.js:35 | a one-token rule fires iff its token occurs |
| Helpers.TwoTokens | backend/utils/helpers.js:63 | a two-token rule fires iff either token occurs |
| Helpers.ThreeTokens | backend/utils/helpers.js:101 | a three-token rule fires iff any of its tokens occurs |
| Helpers.OverrideChainFirst | backend/utils/helpers.js:35-90 | the nested conditions agree with the table when Android, iPhone, iPad or Windows occurs |
| Helpers.OverrideChainSecond | backend/utils/helpers.js:91-98 | they agree on Macintosh and Linux agents |
| Helpers.OverrideChainLast | backend/utils/helpers.js:100-109 | they agree on CLI, `Mobile` and unmatched agents |
| Helpers.BranchFollowsChain | backend/utils/helpers.js:34-109 | the branch the nested conditions take equals the first matching rule of the ordered override table, for every agent |
| Helpers.OverrideChainDistinct | backend/utils/helpers.js:34-109 | the override branches are distinct and differ from the default |
| Helpers.BranchIsFirstMatch | backend/utils/helpers.js:34-109 | an agent takes branch `k` iff it contains a token of branch `k` and none of an earlier branch |
| Helpers.BrandChainFirst | backend/utils/helpers.js:42-48 | the brand tests agree with the brand table for TECNO, Samsung and Xiaomi agents |
| Helpers.BrandChainSecond | backend/utils/helpers.js:49-54 | they agree for Redmi, Infinix and Oppo agents |
| Helpers.BrandChainThird | backend/utils/helpers.js:55-60 | they agree for Vivo, Realme and OnePlus agents |
| Helpers.BrandChainLast | backend/utils/helpers.js:61-66 | they agree for Google, Huawei/Honor and all other Android agents |
| Helpers.AndroidDeviceFollowsChain | backend/utils/helpers.js:41-66 | the Android device label is the label of the first matching rule of the brand table, else `Android Phone` |
| Helpers.AndroidWins | backend/utils/helpers.js:35-40 | any agent containing `Android` gets OS `Android <version>` and the brand table's device, whatever else it contains |
| Helpers.RunCapture | backend/utils/helpers.js:84 | a literal followed by a maximal nonempty run matches there with exactly that run as its capture |
| Helpers.SpacedLayout | backend/utils/helpers.js:37 | `lit + g + v` at a position puts each part at its place |
| Helpers.RunAt | backend/utils/helpers.js:37 | the run of a class at a position is exactly the text of that class that sits there |
| Helpers.SpacedRunCapture | backend/utils/helpers.js:37-43 | a literal, nonempty white space and a maximal nonempty run match there, capturing exactly that run |
| Helpers.AndroidVersionAt | backend/utils/helpers.js:35-38 | an agent whose first `Android` is followed by white space and version `v` has Android version `v` and OS `Android v` |
| Helpers.TecnoModelAt | backend/utils/helpers.js:42-44 | an Android agent whose first `TECNO` is followed by white space and word `w` gets device `TECNO w`, whatever other brand it names |
| Helpers.DigitRun | backend/utils/helpers.js:72 | the digit run at a position is exactly the digits that sit there |
| Helpers.NoEarlierMatch | backend/utils/helpers.js:72 | nothing matches before the first occurrence of the expression's literal |
| Helpers.PairLayout | backend/utils/helpers.js:72 | `lit major _ minor` at a position puts each part at its place |
| Helpers.PairCapture | backend/utils/helpers.js:72 | digits, `_` and a maximal digit run after the literal are captured as the (major, minor) pair |
| Helpers.PrefixContained | backend/utils/helpers.js:70 | a text containing `lit + rest` contains `lit` |
| Helpers.RunFirst | backend/utils/helpers.js:84 | an unspaced literal-then-run expression whose literal first occurs at `p`, followed by a maximal run `v`, matches at `p` capturing `v` and at no earlier position |
| Helpers.SpacedFirst | backend/utils/helpers.js:37-43 | the same for a literal, white space and a run: the match is at the literal's first occurrence and nowhere before it |
| Helpers.PairFirst | backend/utils/helpers.js:72-78 | `lit(\d+)_(\d+)` whose literal first occurs at `p` with `major_minor` after it matches at `p` with that pair and at no earlier position |
| Helpers.IPhoneBranch | backend/utils/helpers.js:70-74 | a non-Android agent containing `iPhone` takes the iPhone branch: device `iPhone`, OS from the `iPhone OS` capture |
| Helpers.IPadBranch | backend/utils/helpers.js:75-79 | an agent with `iPad` but no Android or iPhone token takes the iPad branch: device `iPad`, OS from the `CPU OS` capture |
| Helpers.WindowsBranch | backend/utils/helpers.js:82-90 | an agent with `Windows` and no mobile token takes the Windows branch: device `Windows PC`, OS from the NT version |
| Helpers.MacBranch | backend/utils/helpers.js:91 | an agent with `Macintosh` and none of the earlier tokens takes the Mac branch |
| Helpers.IPhoneVersion | backend/utils/helpers.js:70-74 | a non-Android agent whose first `iPhone OS ` carries `major_minor` gets OS `iOS major.minor` and device `iPhone` |
| Helpers.IPadVersion | backend/utils/helpers.js:75-79 | an iPad agent whose first `CPU OS ` carries `major_minor` gets `iOS major.minor` and device `iPad` |
| Helpers.WindowsNameTable | backend/utils/helpers.js:85-89 | the NT version chain is the table 10.0 to 10/11, 6.3 to 8.1, 6.2 to 8 and 6.1 to 7, with any other version shown as it is |
| Helpers.WindowsRelease | backend/utils/helpers.js:82-90 | a Windows agent whose first `Windows NT ` carries version `v` gets device `Windows PC` and the table's name for `v` |
| Helpers.MacVersion | backend/utils/helpers.js:93 | the macOS version is the run of digits and underscores after the first `Mac OS X ` |
| Helpers.MacOsAsWrittenReplacesOnce | backend/utils/helpers.js:94 | as written, version `a_b` (no `_` in `a`) is named `macOS a.b`, and `b` is left as it is |
| Helpers.MacOsUnderscoreKept | backend/utils/helpers.js:94 | a version with two underscores keeps one in the name as written; the corrected name keeps none |
| Helpers.MacRelease | backend/utils/helpers.js:91-95 | a Mac agent whose first `Mac OS X ` carries `a_b` is classified as written as `macOS a.b` on a `Mac`; a further underscore in `b` stays in that OS name and is absent from the intended one |
| Helpers.MacClassified | backend/utils/helpers.js:91-95 | a Mac-branch agent gets device `Mac` and the macOS name as written; the intended classification carries the corrected name |
| Helpers.MacNameAt | backend/utils/helpers.js:93-94 | an agent whose first `Mac OS X ` carries `a_b` (`a` digits) is named `macOS a.b` as written; when `b` holds an underscore it survives as written and not in the corrected name |
| Helpers.BaselineOnlyReachesOs | backend/utils/helpers.js:31-109 | the library's OS name never affects the device, and it is the OS exactly in the Linux, `Mobile` and unmatched branches |
| Helpers.EmptyAgentUnmatched | backend/utils/helpers.js:26-32 | an empty agent takes no override branch |
| Helpers.MissingUserAgent | backend/utils/helpers.js:26-32 | without a user agent the descriptor's agent is empty, the device is `Desktop` and the OS is the library's name for the empty agent |
| BackupHelpers.DeviceDisplay | backend/utils/backup.helpers.js:31-36 | with a truthy model, the display is `brand model` (brand defaulting to empty) with the white space at both ends removed: trimmed, and surrounded in that text only by white space; otherwise the truthy type, else `Desktop/Unknown` |
| BackupHelpers.DisplayWithoutBrand | backend/utils/backup.helpers.js:32-33 | without a brand, the display is the model with no leading blank |
| BackupHelpers.DisplayWithBrand | backend/utils/backup.helpers.js:32-33 | with a trimmed brand and model, the display is `brand model` |
| BackupHelpers.Describe | backend/utils/backup.helpers.js:38-60 | each detector field is kept when truthy, else set to its default (`Unknown`, empty or `desktop`); the fields that default to `Unknown` or `desktop` are never empty |
| BackupHelpers.ParseUserInfo | backend/utils/backup.helpers.js:7-73 | the descriptor has the client address; it is the error record iff the lookup or the detector throws; otherwise it is the detector's description |
| BackupHelpers.EmptyDetection | backend/utils/backup.helpers.js:49-56 | a detector that reports nothing leaves every field at its default |
| BackupHelpers.SameAddressAsPrimary | backend/utils/backup.helpers.js:9-46 | both helpers give the same address; when both succeed, the same loopback verdict, geolocation and raw agent; both give an error record when the lookup throws |
| AuthRoutes.BtcPrice | backend/routes/auth.js:116-143 | always a success reply. The source is CoinGecko iff its price is a nonzero number, Blockchain iff CoinGecko is unusable and Blockchain gives a number, and the static fallback otherwise. The price is the chosen provider's number, or the literal `86629.41` |
| AuthRoutes.SecondProviderIgnored | backend/routes/auth.js:126-133 | a usable CoinGecko price makes Blockchain's reply irrelevant |
| AuthRoutes.ZeroPrice | backend/routes/auth.js:126-141 | zero from CoinGecko counts as a failure, zero from Blockchain is used, and with no numbers the static price is sent |
| AuthRoutes.BearerToken | backend/routes/auth.js:153 | the token is the text after `Bearer ` up to the next blank, and contains no blank |
| AuthRoutes.BearerSplit | backend/routes/auth.js:149-153 | a `Bearer ` header splits into `Bearer` and the pieces of the rest, so `split(' ')[1]` is the first piece after `Bearer ` |
| AuthRoutes.UserDoc.constructor | backend/routes/auth.js:29-34 | a new document holds the given fields and the default role, with no login record and an empty history |
| AuthRoutes.UserDoc.RecordLogin | backend/routes/auth.js:71-92 | `lastLogin` is replaced, exactly one matching entry is appended to the history, and nothing else changes; the record and the newest entry stay consistent |
| AuthRoutes.UserStore.constructor | backend/routes/auth.js:23 | an empty collection with the schema's default role |
| AuthRoutes.UserStore.Find | backend/routes/auth.js:62 | `findOne`/`findById`: the first document whose key matches, and `None` only when none matches |
| AuthRoutes.UserStore.Listing | backend/routes/auth.js:162 | the listing is `NewestFirst` of the collection's profiles: every document without password or history, the last inserted first |
| AuthRoutes.NewestFirstAt | backend/routes/auth.js:162 | position `k` of the newest-first listing shows the document inserted `k`-th from last, and the listing has one view per document |
| AuthRoutes.NewestFirstAppend | backend/routes/auth.js:36-162 | a document appended to the collection (as `Register` does) heads the listing, in front of the listing as it was |
| AuthRoutes.UserStore.AdminUsers | backend/routes/auth.js:146-169 | 401 `Unauthorized` without a `Bearer ` header; 401 `Token invalid or expired` when the token fails to verify; 403 `Access denied: Admins only` when the verified token names no existing admin; otherwise the listing, which is given iff the token names an existing admin |
| AuthRoutes.UserStore.Login | backend/routes/auth.js:58-113 | an unknown email or a wrong password both give 401 `Invalid credentials` and change nothing. Otherwise the found user's document, and only it, records the login, and the reply carries its id, name, email and role |
| AuthRoutes.UserStore.Register | backend/routes/auth.js:19-55 | 400 `User exists` when any document has the email or the username, changing nothing. Otherwise a fresh document with the default role and no logins is appended, and a lookup by that email finds it |
| AuthRoutes.UserStore.Append | backend/routes/auth.js:36 | saving a new document appends it after every existing one and keeps the collection valid |

## Left out

- Timestamps (`new Date()`, `toISOString()`) in the descriptors, `lastLogin` and history entries are not modelled.
- The user-agent library, geoip-lite, device-detector-js, `jwt.verify` and `comparePassword` are parameters. Their internals (what `toAgent()` or `os.toString()` print, regular expressions inside the libraries) are not modelled.
- Network I/O for `/btc-price` is reduced to one `Reply` per provider: the axios requests, the 8000 ms timeout and the headers. The JSON paths `bitcoin.usd` and `last_trade_price` become that reply's price field.
- AuthRoutes.BtcPrice: `toFixed(2)` is represented as the number to be shown with two decimals (`Fixed2`), not as the resulting text. NaN and infinities are not distinguished from other numbers.
- The JavaScript regular-expression engine is modelled only for the expressions the helper uses. `\s` is the ECMAScript white-space and line-terminator set, and `\w` and `\d` are their ASCII classes, as without the `u` flag.
- Helpers.AndroidVersionAt, Helpers.TecnoModelAt, Helpers.IPhoneVersion, Helpers.IPadVersion, Helpers.WindowsRelease and Helpers.MacRelease name the exact capture only when the first occurrence of the expression's literal is the one followed by the version. An agent whose first occurrence is not followed by one is covered only by the leftmost-match contracts of `Text.Capture` and `Helpers.AndroidVersion`.
- MongoDB persistence is modelled as a collection held in memory. `save()` failures and other thrown errors (the 500 replies of `/register` and `/login`) are not modelled.
- AuthRoutes.UserStore.AdminUsers: `findById` on a malformed id throws in the source, which gives 401 `Token invalid or expired`; the model answers 403, as for an unknown id.
- AuthRoutes.UserStore.Listing: the `createdAt` sort is taken to be the reverse of insertion order.
- AuthRoutes.UserStore.Register: the new document's id is a parameter. The schema's default role is the store's `defaultRole`, because models/User.js is not part of this model; neither is its password hashing before save.
- AuthRoutes.UserStore.Login and AuthRoutes.UserStore.Register take the descriptor `parseUserInfo` returns as a parameter rather than the request.
- `generateToken` (`jwt.sign`) and the token in the login and register replies are not modelled.
- The duplicate check's `$or` query is modelled by `Taken`. Its result is the reply, not which document was found.
- `console.error` logging is not modelled.
- backend/middleware/UserInfo.js, the diagnostic and test scripts, server.js and the React pages are not part of this model.

## Findings

| source | as written | input that shows it | evidently intended | confidence | as-written member | corrected member |
|---|---|---|---|---|---|---|
| backend/utils/helpers.js:94 | `macVersion.replace('_', '.')` replaces only the first underscore | a Safari agent with `Mac OS X 10_15_7` is named `macOS 10.15_7` | every underscore becomes a dot: `macOS 10.15.7` | not executed | Helpers.MacRelease | Helpers.ClassifyAgentIntended |

`Helpers.MacOsNameAsWritten` is the name as the code computes it, and
`Helpers.ClassifyAgent` and `Helpers.ParseUserInfo` use it.
`Helpers.MacOsUnderscoreKept` and `Helpers.MacRelease` prove that it keeps
an underscore whenever the captured version has two.
`Helpers.ClassifyAgentIntended` is the classification with the corrected
`Helpers.MacOsName`, and it is proved to keep no underscore.
