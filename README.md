# big-community: verified model of the client's decision logic

BigCommunity is a React Native chat client whose screens mostly present mock
data. In a few places it makes a decision, and this project models those
places in Dafny and proves their properties:

- **Phone entry** (`app/otp.tsx`): what the user types is reduced to digits.
  A leading country code `255` is dropped, then one leading trunk `0`. The
  result is accepted when it has exactly nine digits. The international
  number, `+255` followed by those digits, is then formed and logged. The
  request that would send a code is only a placeholder comment in the source,
  so none is made. The Continue button is disabled unless the entry is
  non-empty and carries no error. The input mask is `+255 xxx xxx xxx`.
- **Auth redirect** (`app/_layout.tsx`): each run of the `AuthRedirect`
  effect looks at the first route segment and at the sign-in flags. It may
  replace the route with `/(tabs)/chats` or `/`. It records the segment it
  checked.
- **Swipeable row** (`components/SwiperableRow.tsx`): a release past the
  threshold leaves the row open at −120, any other release closes it. Reset
  and both action buttons close it too. The drawn offset is the raw offset
  mapped linearly and clamped.
- **Display rules**: the unread badge (`components/ChatRow.tsx`), the post
  grid arithmetic (`components/profile/PostGrid.tsx`), and the website line
  and verified mark of the profile header
  (`components/profile/ProfileHeader.tsx`).

Each source file is one module: `Otp`, `Layout`, `Swipeable`, `ChatRow`,
`PostGrid` and `ProfileHeader`. `Optional` holds the `Option` type, which
stands for JavaScript's `undefined`/`null`. `Strings` holds the digit and
prefix predicates that several screens share.

Code that keeps React state is modelled as a class. `Otp.Page` holds
`loading`, `phoneNumber` and `validationError`. `Layout.AuthRedirect` holds
`initialAuthChecked` and `currentMainSegment`. `Swipeable.Row` holds the
animated offset. The methods of `Otp.Page` and `Layout.AuthRedirect` are
proved against pure functions, and the properties are proved about those
functions. `Swipeable.Row.OnGestureEvent`, `Reset`, `PressArchive` and
`PressDelete` state the new fields outright; `OnHandlerStateChange` sets the
offset to `ReleaseTarget`, and what is drawn is `LimitedTranslateX` of the
offset. Side effects are returned as values instead of being performed: the
alert raised, the international number formed (the one `console.log`
prints), the route replaced. The callbacks a row has invoked are recorded in
a list.

Three details of the code are modelled as written:

- `sendOtp` builds its failure alert from the `validationError` the screen
  last rendered with. That is the closure's value, not the one `validatePhone`
  has just stored, so `SendOutcome` takes it as a separate argument.
- A swipe release looks only at the translation, not at the gesture's
  velocity.
- `handleContinuePress` raises an alert when the button is not enabled. The
  button is `disabled` in exactly that case, so a press never runs those alert
  branches. `Otp.ButtonPress` and `Otp.Page.PressContinue` model the press
  through the button, and every press that runs proceeds to `sendOtp`.

## Model

| member | source | states |
|---|---|---|
| `Otp.DigitsOnly` | app/otp.tsx:30 | the result holds only decimal digits and is no longer than the input |
| `Otp.DigitsOnlyOfDigits` | app/otp.tsx:30 | a string that is already all digits is returned unchanged |
| `Otp.DigitsOnlyAppend` | app/otp.tsx:30 | digit extraction distributes over concatenation |
| `Otp.DigitsOnlySingle` | app/otp.tsx:30 | a single character is kept iff it is a decimal digit, so every non-digit is dropped |
| `Otp.DigitsOnlyIdempotent` | app/otp.tsx:60-63 | extracting digits twice, as sendOtp and processPhoneInput do, equals extracting once |
| `Otp.ProcessPhoneInput` | app/otp.tsx:29-41 | the result is all digits; the input's digits are exactly `2550`, `255`, `0` or nothing followed by the result, chosen by what the digits begin with (country code first, then one trunk zero) |
| `Otp.ProcessDigits` | app/otp.tsx:32-38 | on an all-digit string the result is the suffix after 4, 3, 1 or 0 characters, by the same four cases |
| `Otp.CountryCodeThenTrunkZero` | app/otp.tsx:32-38 | `2550712345678` becomes `712345678` |
| `Otp.CountryCodeRemovedOnce` | app/otp.tsx:32-34 | `255255712345` loses only its first `255` |
| `Otp.TrunkZeroRemovedOnce` | app/otp.tsx:36-38 | `00712345678` loses only one `0` |
| `Otp.ProcessIgnoresNonDigits` | app/otp.tsx:30 | two inputs with the same digits are processed alike |
| `Otp.IsValidPhone` | app/otp.tsx:43-46 | an accepted input has between 9 and 13 digits, since at most `2550` is removed |
| `Otp.ValidationError` | app/otp.tsx:43-53 | no error exactly when the processed digits number 9; otherwise the error is "Phone number must be exactly 9 digits" |
| `Otp.FullEntryAccepted` | app/otp.tsx:43-53 | a nine-digit entry is accepted iff it begins neither with `0` nor with `255` |
| `Otp.DoubleZeroAccepted` | app/otp.tsx:36-38 | `0012345678` is accepted and processes to `012345678`, which still begins with `0` |
| `Otp.InternationalNumber` | app/otp.tsx:66 | `+255` and nine digits give 13 characters, begin with `+255`, contain the processed digits after the prefix, and are digits after the `+` |
| `Otp.InternationalRoundTrip` | app/otp.tsx:29-41 | processing the international number gives the subscriber digits back, minus a leading `0` if they had one |
| `Otp.FillMask` | app/otp.tsx:119-131 | the text a mask shows is never longer than the mask |
| `Otp.MaskAppend` | app/otp.tsx:11 | digit places and literals of concatenated masks add up |
| `Otp.TanzaniaMaskShape` | app/otp.tsx:9-11 | the mask has 16 positions: the literal `+255 ` and nine digit places in three groups of three, separated by spaces |
| `Otp.FillLiteralPrefix` | app/otp.tsx:11 | an all-literal mask prefix is shown verbatim before the rest |
| `Otp.FillMaskDigits` | app/otp.tsx:11 | with no digit literals, the digits of the filled text are exactly the entry |
| `Otp.MaskedEntryDigits` | app/otp.tsx:60 | the masked text of a complete entry has the digits `255` followed by the entry |
| `Otp.MaskedEntryProcesses` | app/otp.tsx:60-63 | the masked text of a complete entry processes back to the entry, minus a leading `0` |
| `Otp.SendOutcome` | app/otp.tsx:59-75 | the international number is formed iff the masked text validates; the number is then `+255` and the processed digits (13 characters); otherwise the alert is "Invalid Phone Number" with the rendered error if truthy, else the Tanzanian fallback message |
| `Otp.ContinueOutcome` | app/otp.tsx:89-98 | proceeds iff the phone number is non-empty and there is no error; a failure inside the send then always shows the fallback; otherwise alerts with the error when truthy, else "Please enter a valid phone number" |
| `Otp.ButtonEnabled` | app/otp.tsx:77-79 | an enabled button goes with a non-empty entry and no truthy error; an empty entry never enables it |
| `Otp.ButtonPress` | app/otp.tsx:153-156 | a press runs the handler iff the button is enabled, and a press that runs always proceeds to `sendOtp` with no error shown |
| `Otp.AcceptedEntryFormsNumber` | app/otp.tsx:89-98 | a complete entry the screen accepted forms the international number `+255` and that entry |
| `Otp.Page.constructor` | app/otp.tsx:14-16 | the screen starts not loading, with an empty number and no error |
| `Otp.Page.IsButtonEnabled` | app/otp.tsx:77-79 | when enabled, the screen's entry is non-empty and no truthy error is stored |
| `Otp.Page.ValidatePhone` | app/otp.tsx:43-53 | returns true iff the processed input has 9 digits; stores no error on success and the length message on failure |
| `Otp.Page.ChangeText` | app/otp.tsx:121-124 | stores the masked text and validates the unmasked one; the button is then enabled iff the masked text is non-empty and the unmasked one processes to 9 digits |
| `Otp.Page.SendOtp` | app/otp.tsx:59-75 | result as `SendOutcome` on the old state; the error becomes the verdict on the masked text; loading is cleared on failure and untouched on success |
| `Otp.Page.HandleContinuePress` | app/otp.tsx:89-98 | result as `ContinueOutcome` on the old state; when it proceeds, loading ends true iff the international number was formed; when it alerts, nothing changes |
| `Otp.Page.PressContinue` | app/otp.tsx:153-156 | result as `ButtonPress` on the old state; a disabled button changes nothing; an enabled one validates the entry and leaves loading true iff the number was formed |
| `Layout.MainSegment` | app/_layout.tsx:53 | undefined exactly when there are no segments, otherwise the first one |
| `Layout.LandingSegment` | app/_layout.tsx:66-68 | `/` lands on no segment, `/(tabs)/chats` on `(tabs)`, and only `/` on no segment |
| `Layout.IsAuthRoute` | app/_layout.tsx:61-63 | the welcome page (no segment) is a sign-in screen, and no sign-in screen is protected |
| `Layout.IsProtectedRoute` | app/_layout.tsx:59-60 | a protected segment is a present segment other than `otp` and `verify` |
| `Layout.Redirect` | app/_layout.tsx:59-69 | redirects to the chats iff signed in on `undefined`, `otp` or `verify`, and to `/` iff signed out on `(tabs)`; otherwise no redirect |
| `Layout.RedirectTargetIsStable` | app/_layout.tsx:65-68 | arriving where a redirect points calls for no further redirect |
| `Layout.PassesGuards` | app/_layout.tsx:51-55 | passing the guards needs a loaded session; a loaded run passes before the first check, and whenever the first segment changed |
| `Layout.Step` | app/_layout.tsx:50-74 | not loaded, or already checked on the same segment: no redirect, no change; otherwise the state becomes checked with the current segment, and a redirect happens iff the guards pass under exactly the rules of `Redirect` |
| `Layout.CheckedStaysChecked` | app/_layout.tsx:71-73 | once `initialAuthChecked` holds, no series of runs clears it |
| `Layout.StoppedRunsAreInert` | app/_layout.tsx:51-55 | runs stopped by the early returns, repeated, change nothing and redirect nowhere |
| `Layout.RepeatedRunRedirectsAtMostOnce` | app/_layout.tsx:50-74 | repeating a run with unchanged inputs issues at most one redirect |
| `Layout.SignOutOnTabsNotRedirected` | app/_layout.tsx:55 | a user who signed in on `(tabs)` and then signs out there is not redirected |
| `Layout.CorrectedStep` | app/_layout.tsx:55 | corrected effect: when loaded, it records the segment and the sign-in status it checked |
| `Layout.CorrectedStepRedirects` | app/_layout.tsx:59-69 | corrected effect: unless route and status are both unchanged, a signed-out run on `(tabs)` goes to `/` and a signed-in run on a sign-in screen goes to the chats |
| `Layout.CorrectedSignOutOnTabsRedirected` | app/_layout.tsx:55 | corrected effect: signing out on `(tabs)` redirects to `/` |
| `Layout.AuthRedirect.constructor` | app/_layout.tsx:47-48 | starts unchecked, with no recorded segment |
| `Layout.AuthRedirect.RunEffect` | app/_layout.tsx:50-74 | the new state and the redirect are exactly those of `Step` on the old state |
| `Swipeable.ReleaseTarget` | components/SwiperableRow.tsx:25-36 | the target is −120 iff the drag is below −120 (so exactly −120 closes), otherwise 0 |
| `Swipeable.InterpolateClamped` | components/SwiperableRow.tsx:47-51 | inputs at or beyond an end of the input range give that end of the output range |
| `Swipeable.LimitedTranslateX` | components/SwiperableRow.tsx:47-51 | the drawn offset lies in [−120, 0]; it is 6/5 of the raw offset on [−100, 0], −120 below and 0 above |
| `Swipeable.LimitedTranslateXMonotone` | components/SwiperableRow.tsx:47-51 | the drawn offset is monotone in the raw offset |
| `Swipeable.ReleaseShows` | components/SwiperableRow.tsx:21-51 | after a release the row is drawn fully open (−120) or fully closed (0) |
| `Swipeable.ActionButtons` | components/SwiperableRow.tsx:56-78 | Archive is shown iff its callback is given, Delete likewise, Archive first |
| `Swipeable.Row.DisplayedOffset` | components/SwiperableRow.tsx:88 | the row is drawn between the open position −120 and the closed position 0 |
| `Swipeable.Row.constructor` | components/SwiperableRow.tsx:14 | the row starts closed with no callback invoked |
| `Swipeable.Row.OnGestureEvent` | components/SwiperableRow.tsx:16-19 | while dragging, the offset follows the translation |
| `Swipeable.Row.OnHandlerStateChange` | components/SwiperableRow.tsx:21-38 | leaving the ACTIVE state (4) sets the offset to the release target, and the row is then drawn at −120 or 0; any other state change leaves it as it was |
| `Swipeable.Row.Reset` | components/SwiperableRow.tsx:40-45 | the offset becomes 0 and the row is drawn closed |
| `Swipeable.Row.PressArchive` | components/SwiperableRow.tsx:59-62 | the archive callback is invoked once, then the row is closed |
| `Swipeable.Row.PressDelete` | components/SwiperableRow.tsx:71-74 | the delete callback is invoked once, then the row is closed |
| `ChatRow.Decimal` | components/ChatRow.tsx:61 | a count renders as at least one decimal digit, without a leading zero |
| `ChatRow.DecimalRoundTrip` | components/ChatRow.tsx:61 | reading the rendered digits back gives the count |
| `ChatRow.DecimalLength` | components/ChatRow.tsx:61 | counts below 100 render in at most two digits |
| `ChatRow.BadgeText` | components/ChatRow.tsx:58-61 | a badge is shown iff the count is positive; above 99 it reads `99+`, otherwise the count's own digits; shown text has 1 to 3 characters |
| `ChatRow.PreviewStyle` | components/ChatRow.tsx:51 | the unread style applies iff the chat is not read |
| `ChatRow.RowOffersBothActions` | components/ChatRow.tsx:27-28 | a chat row offers Archive then Delete |
| `PostGrid.ResolveProps` | components/profile/PostGrid.tsx:24-25 | missing `spacing` and `numColumns` default to 2; given ones are kept |
| `PostGrid.PostWidth` | components/profile/PostGrid.tsx:30 | `numColumns` tiles and `numColumns − 1` gaps are exactly the window width |
| `PostGrid.IsLastInRow` | components/profile/PostGrid.tsx:34 | with one column every post ends its row; no post before index `numColumns − 1` ends one |
| `PostGrid.LastInRowIsLastColumn` | components/profile/PostGrid.tsx:34 | `(index + 1) % numColumns == 0` iff the index is in the last column |
| `PostGrid.Tile` | components/profile/PostGrid.tsx:41-43 | every tile is square with side `POST_WIDTH`; its right margin is 0 when last in its row and `spacing` otherwise |
| `PostGrid.LastInFullRow` | components/profile/PostGrid.tsx:34 | within a row, the tile in a column is last iff that column is the last one |
| `PostGrid.PartialRowExtent` | components/profile/PostGrid.tsx:41-43 | the first k < numColumns tiles of a row take k times tile plus spacing |
| `PostGrid.FullRowFillsWidth` | components/profile/PostGrid.tsx:30 | tiles and right margins of a full row add up to the window width |
| `PostGrid.OneLastTilePerRow` | components/profile/PostGrid.tsx:34-43 | in every full row exactly one tile, the last, is last in its row |
| `ProfileHeader.StripScheme` | components/profile/ProfileHeader.tsx:54 | `https://` or `http://` followed by the result gives back the address when it had that prefix; an address with neither is unchanged |
| `ProfileHeader.StripSchemeOnce` | components/profile/ProfileHeader.tsx:54 | exactly one leading scheme is removed, whatever follows it |
| `ProfileHeader.StripSchemeKeepsInnerScheme` | components/profile/ProfileHeader.tsx:54 | `https://http://…` keeps its inner `http://` |
| `ProfileHeader.WebsiteText` | components/profile/ProfileHeader.tsx:51-54 | the link row is drawn iff links and a non-empty website are present, showing the address without its scheme |
| `ProfileHeader.RenderNameBlock` | components/profile/ProfileHeader.tsx:44-54 | the verified mark is drawn iff the user is verified; name, occupation and bio pass through; the website line is as `WebsiteText` |

## Findings

| source | as written | input that shows it | evidently intended | confidence | as-written member | corrected member |
|---|---|---|---|---|---|---|
| app/_layout.tsx:55 | the effect returns early whenever it has checked once and the first segment is unchanged, even if the sign-in status changed | sign in on `(tabs)`, then sign out from the settings tab; `handleItemPress` in app/(tabs)/settings/index.tsx:36 calls `signOut()` and does not navigate; the segment stays `(tabs)`, so there is no redirect | a signed-out user on `(tabs)` is sent to `/`, which is why `isSignedIn` is among the effect's dependencies | medium, not executed | `Layout.SignOutOnTabsNotRedirected` | `Layout.CorrectedStepRedirects` |

The corrected effect, `Layout.CorrectedStep`, also records the sign-in status
it checked. It returns early only when neither the route nor that status has
changed. `Layout.AuthRedirect` still follows the code as written. Its
contract therefore describes how the app actually behaves.

## Left out

- The Clerk provider, `useAuth` and the SecureStore token cache are foreign
  asynchronous I/O. `isLoaded` and `isSignedIn` are inputs. The
  missing-publishable-key check at start-up is not modelled.
- `router.replace` and `Alert.alert` are returned as values, and the row
  callbacks are recorded in `invoked`. Nothing performs them.
- `router.push` is not modelled: the chat row's `handlePress`
  (components/ChatRow.tsx:21-23) pushes the fixed route `/` and makes no
  decision.
- `Linking.openURL` is not modelled: the privacy-policy and terms links of
  app/otp.tsx:21-27 open fixed addresses.
- React's scheduling of effects and state updates is not modelled. The model
  applies each update in place. Values a closure captured at render are read
  from the state before the call.
- `sendOtp` is asynchronous but awaits nothing. It is modelled as one
  synchronous step.
- After a valid number, `sendOtp` makes no request and does not navigate:
  both are placeholder comments in the source. `loading` then stays true,
  since only the failure branch clears it, and the model states that.
- Layout.LandingSegment: which first segment `/` and `/(tabs)/chats` land on
  is an assumption about expo-router's file-based routing. The source does
  not define it.
- `Animated.timing`, `Animated.spring` and the gesture stream are not
  modelled. Only the value an animation ends at is kept.
- The mask input's own editing rules belong to react-native-mask-input: how
  it formats a partial entry, handles deletion and pasted text, and computes
  the unmasked value. `Otp.FillMask` models only filling the digit places
  in order. The text stops at the first place without a digit.
- Date formatting (date-fns) and `toLocaleString` are foreign library calls.
  Font loading, the splash screen and the Stack configuration are platform
  set-up.
- Colours, styles and the other presentation components carry no decisions.
- Strings are sequences of characters. JavaScript measures string length in
  UTF-16 code units. The two agree on the digit and ASCII strings these rules
  work with.
- ChatRow.BadgeText: takes the unread count as an integer. A fractional
  count, which JavaScript would render with a decimal point, is not covered.
- PostGrid.PostWidth: the column count is at least one, as FlatList needs.
  With zero columns the source would divide by zero. Lengths are reals, not
  floating-point numbers.
- ProfileHeader: only the user fields the header decides on are modelled. The
  avatar, the counters and the links other than the website are left out.
