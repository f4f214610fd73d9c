# Sheet Prompt, modelled in Dafny

Sheet Prompt is a browser extension for a chat web application. It keeps a
two-field settings record (`enabled`, `sheetContent`) in browser storage,
mounts a small settings panel into the host page, and appends the trimmed
"sheet content" to outgoing chat messages. It hooks the host's send pathway in
four ways: it wraps the global `sendMessageAsUser` function, and it adds a
send-button click listener, a form submit listener and an Enter keydown
listener that rewrite the message field.

This project models the logic of `index.js`:

- `text.dfy` (module `Text`): `String.prototype.trim` over the ECMAScript
  whitespace set, and `includes` as substring membership.
- `config.dfy` (module `Config`): the settings record, the defaults,
  `loadSettings` (shallow merge over the defaults) and `saveSettings`. The
  stored entry is abstract: a read error, a missing key, the empty string, or
  a non-empty string described by what `JSON.parse` makes of it.
- `panel.dfy` (module `Panel`): the status classifier of `updateStatus`.
- `interceptor.dfy` (module `Interceptor`): `appendSheetContent`, the chain of
  stacked `sendMessageAsUser` wrappers, and the field-rewrite rule shared by
  the three listeners.
- `bootstrap.dfy` (module `Bootstrap`): the priority order of
  `findUILocation` and the bounded `retryInit`/`tryAgain` loop, as functions.
- `extension.dfy` (module `Extension`): class `SheetPrompt`, the mutable
  state of the extension (settings, storage entry, status line, panel flag,
  hook counts, message field) and the operations that change it. Its
  `Valid()` invariant says that at most one panel is ever mounted and that
  `interceptMessages` starts exactly once per mount, after it. `Init` keeps
  `Valid()` however often it is called.
- `options.dfy` (module `Options`): the Option datatype.

The main results:
- The transform is idempotent. So any number of stacked wrappers deliver the
  same text as one wrapper (`Deliver`).
- The listener rule changes the field exactly when the extension is active,
  the field is not blank and the field lacks the content.
- On a non-blank field, the listener rule agrees with the transform.
- The listener rule is idempotent, and a rewritten field sent through the
  wrapper still carries the content once.
- `findUILocation` picks the most preferred candidate present.
- The retry loop makes between 1 and 10 attempts and stops at the first
  success.

Three behaviours of the code are easy to misread:
- On a read failure, an empty entry or a parse failure, `loadSettings`
  leaves the current settings untouched. It does not reset them to the
  defaults. A parsed record, however, is merged over the defaults, not over
  the current settings.
- Re-attaching a hook is not a no-op. Every retry stacks another wrapper and
  adds another listener (index.js:145, 162, 184, 202). The model counts them,
  and proves them harmless because the transform and the listener rule are
  idempotent.
- `init` is triggered twice: once by `DOMContentLoaded` or a 2-second
  timeout, and once by jQuery's ready callback (index.js:330-340). The
  second call reloads the same entry and finds the panel present, so it
  changes nothing (`Extension.Startup`).

## Model

| member | source | states |
|---|---|---|
| `Text.Trim` | index.js:129 | the result of `trim` has no whitespace at either end and is no longer than its input |
| `Text.TrimSlice` | index.js:134 | `trim` returns a contiguous slice of its input, and everything it removed on both sides is whitespace |
| `Text.TrimOfTrimmed` | index.js:165 | trimming a string with no whitespace at its ends returns it unchanged |
| `Text.TrimIdempotent` | index.js:165-167 | trimming twice is trimming once, so re-trimming an already trimmed field changes nothing |
| `Text.TrimEmptyIff` | index.js:125 | `s.trim()` is empty (falsy) exactly when `s` is all whitespace |
| `Text.Contains` | index.js:130 | `includes` as substring membership: some index at which the pattern occurs; its properties are `ContainsSuffix` and `ContainsTrimIff` |
| `Text.ContainsSuffix` | index.js:134 | a string ending in the sheet content includes it |
| `Text.ContainsTrimIff` | index.js:166 | a pattern without whitespace at its ends is included in a string exactly when it is included in the trimmed string |
| `Config.Load` | index.js:20-29 | `loadSettings` as a function of the current settings and the stored entry; its properties are `LoadKeepsOnFailure`, `LoadMergesOverDefaults`, `LoadSaveRoundTrip` and `LoadIdempotent` |
| `Config.Save` | index.js:32-38 | the entry a successful `saveSettings` writes: a non-empty string that parses back to both fields; `LoadSaveRoundTrip` states what loading it gives |
| `Config.LoadKeepsOnFailure` | index.js:20-29 | a read failure, an absent or empty entry, or a parse failure leaves the settings exactly as they were |
| `Config.LoadMergesOverDefaults` | index.js:24 | each field present in the stored record overrides the default; each absent field takes the default, whatever the current settings were |
| `Config.LoadSaveRoundTrip` | index.js:20-38 | loading what was saved restores exactly the saved settings |
| `Config.LoadIdempotent` | index.js:20-29 | loading the same entry a second time, as the second `init` does, changes nothing |
| `Panel.StatusOf` | index.js:85-95 | status text and colour, computed by two separate conditionals as in the source; `StatusClassification` states the three-way classification |
| `Panel.StatusClassification` | index.js:85-95 | "Active"/#4CAF50 exactly when enabled with non-blank content, "Enabled (no content)"/#FF9800 exactly when enabled with blank content, "Disabled"/#666 exactly when disabled; text and colour always agree |
| `Interceptor.AppendSheetContent` | index.js:124-137 | `appendSheetContent` under the given settings; `AppendSheetContentSpec` states its cases and `AppendSheetContentIdempotent` its idempotence |
| `Interceptor.AppendSheetContentSpec` | index.js:124-137 | the text is returned unchanged exactly when the extension is inactive or the text already includes the trimmed content; otherwise the result is the trimmed text, a blank line and the trimmed content, and it includes that content |
| `Interceptor.AppendSheetContentIdempotent` | index.js:124-137 | applying the transform twice gives the same text as applying it once |
| `Interceptor.Deliver` | index.js:142-148 | with n stacked wrappers the text reaching the original send function is the input for n = 0 and the once-transformed input for every n >= 1 |
| `Interceptor.RewriteField` | index.js:163-168 | the rule of the click, submit and Enter listeners (also index.js:185-189 and 204-209); `RewriteFieldSpec`, `RewriteFieldAgrees` and `RewriteFieldIdempotent` state its properties |
| `Interceptor.RewriteFieldSpec` | index.js:163-168 | a click listener changes the field exactly when the extension is active, the field is not blank and does not include the trimmed content; the new value is the trimmed field, a blank line and the trimmed content |
| `Interceptor.RewriteFieldAgrees` | index.js:185-189 | on a non-blank field the submit listener's result equals the transform's; a blank field is left as it is |
| `Interceptor.RewriteFieldIdempotent` | index.js:204-209 | running the Enter listener's rule on a field it already rewrote changes nothing |
| `Interceptor.SendAfterRewrite` | index.js:142-148 | a field rewritten by a listener and then passed through a wrapper gets the content appended once, as if only the wrapper ran |
| `Interceptor.RewriteRepeated` | index.js:225-230 | n listeners of one kind, added by n hook attempts, leave the field as one listener would |
| `Interceptor.AppendToShortText` | index.js:134 | a trimmed message shorter than the trimmed content gets a blank line and the content appended |
| `Interceptor.AppendExample` | test.js:109-119 | "Hello there!" with the two-line sheet becomes the message, a blank line and the sheet |
| `Interceptor.ExampleTextsTrimmed` | test.js:94 | the example's sheet and message have no whitespace at their ends |
| `Interceptor.DisabledExample` | test.js:129-136 | with the extension disabled the message is unchanged whatever the sheet holds |
| `Bootstrap.FirstPresent` | index.js:261-265 | an or-chain of lookups yields None exactly when no candidate is present, otherwise a present candidate with no present candidate before it |
| `Bootstrap.FindUILocation` | index.js:259-284 | the three-stage lookup of `findUILocation`; `FindUILocationIsFirst` and `FindUILocationSpec` state that it picks the most preferred candidate present |
| `Bootstrap.FirstPresentConcat` | index.js:268-281 | falling back to a second chain when the first finds nothing is one chain over both lists |
| `Bootstrap.FirstPresentShift` | index.js:276-281 | a chain over the tail of a concatenated list is the chain over the second list |
| `Bootstrap.RankIsPosition` | index.js:259-284 | each candidate's rank is its position in the overall preference order |
| `Bootstrap.FindUILocationIsFirst` | index.js:259-284 | the three stages of `findUILocation` are one first-match over the whole preference order |
| `Bootstrap.FindUILocationSpec` | index.js:259-284 | a location is found exactly when the page has some candidate, and it is the most preferred candidate present |
| `Bootstrap.TryAgain` | index.js:311-321 | one `tryAgain` call and the chain it schedules, with `panelPresent` fixed for the whole chain; `TryAgainSpec` states its bound and first-success property |
| `Bootstrap.RetryInit` | index.js:307-324 | `retryInit`: a fresh counter, then the `tryAgain` chain; `RetryInitSpec` and `RetryInitMountsIff` state its properties |
| `Bootstrap.TryAgainSpec` | index.js:311-321 | from any attempt count below the bound, the chain of `tryAgain` calls ends within the bound, at the first success or after the last allowed failure |
| `Bootstrap.RetryInitSpec` | index.js:307-324 | the delayed loop calls `addUI` between 1 and 10 times, every attempt before the last failed, it mounted exactly when the last attempt succeeded, and it gave up only after 10 failures |
| `Bootstrap.RetryInitMountsIff` | index.js:289 | the loop mounts exactly when no panel exists and some attempt within the bound finds a target; with a panel present it never mounts and uses all 10 attempts |
| `Extension.SheetPrompt.constructor` | index.js:10-17 | at page load the settings are the defaults, no panel is mounted and no hook exists |
| `Extension.SheetPrompt.LoadSettings` | index.js:20-29 | the new settings are the load of the stored entry over the old settings |
| `Extension.SheetPrompt.SaveSettings` | index.js:32-38 | a successful write stores the current settings; a failed write leaves the entry as it was |
| `Extension.SheetPrompt.UpdateStatus` | index.js:85-95 | the status line shows the classification of the current settings |
| `Extension.SheetPrompt.OnToggleChange` | index.js:97-103 | the checkbox sets `enabled` and nothing else in the settings, saves, and refreshes the status |
| `Extension.SheetPrompt.OnSheetInput` | index.js:106-112 | the text area stores the raw, untrimmed value as `sheetContent`, saves, and refreshes the status |
| `Extension.SheetPrompt.AddUI` | index.js:287-297 | succeeds exactly when a location is found and no panel exists; only then is the panel marked present, so a second call returns false |
| `Extension.SheetPrompt.SetupHooks` | index.js:225-230 | every hook whose target exists is added once more; none is guarded against an earlier one |
| `Extension.SheetPrompt.InterceptMessages` | index.js:218-222 | called right after a successful mount, it starts interception once and adds the first round of hooks, restoring `Valid()` |
| `Extension.SheetPrompt.RetryInit` | index.js:307-324 | the loop's outcome and attempt count are those of the retry function; interception starts exactly when it mounts, and then the status is refreshed and the first round of hooks added; otherwise status and hooks are unchanged |
| `Extension.SheetPrompt.Init` | index.js:253-327 | settings are loaded, the panel is mounted at once or by the retry loop only if none existed, and interception starts exactly when it mounts, with a refreshed status and the first round of hooks; a call that does not mount leaves status and hooks unchanged; `Valid()` holds after any number of calls |
| `Extension.Startup` | index.js:330-340 | after both `init` calls the settings are the entry loaded over the defaults, the panel is present exactly when either call mounted it, and then interception started once, the status is current and exactly the first round of hooks exists |
| `Extension.SheetPrompt.RetryHooks` | index.js:232-249 | a periodic or mutation-driven retry adds hooks again and keeps `Valid()` |
| `Extension.SheetPrompt.SendMessageAsUser` | index.js:145-148 | the text passed on by the wrapped send function is the input when nothing is wrapped and the once-transformed input otherwise |
| `Extension.SheetPrompt.ClickSend` | index.js:162-171 | a click leaves the field as it was with no listener, and otherwise as one run of the rewrite rule leaves it |
| `Extension.SheetPrompt.SubmitForm` | index.js:184-191 | a submit leaves the field as it was with no listener, and otherwise as one run of the rewrite rule leaves it |
| `Extension.SheetPrompt.KeyDown` | index.js:202-213 | only a plain Enter without Shift, with a listener registered, rewrites the field, as one run of the rule does |

## Left out

- DOM construction (`createUI`, its `innerHTML` template) and element lookup by id or selector: each lookup is reduced to a "present" flag or a set of present candidates.
- `updateCount`, the character-count readout: it only displays `value.length` and decides nothing.
- `localStorage` and `JSON.parse`/`JSON.stringify` are abstract. A saved record is assumed to be a non-empty string that parses back to both fields. Unknown keys carried along by the spread, and stored fields of the wrong JSON type, are not represented.
- Timers, `setInterval`, `MutationObserver`, `DOMContentLoaded` and jQuery's ready callback: `Init` and `RetryHooks` may be called any number of times in any order; the 60-second limit on the interval is not modelled.
- Extension.SheetPrompt.ClickSend and Extension.SheetPrompt.KeyDown: the 10 ms delay before the rewrite is not modelled; the rewrite runs at once with the settings as they are at the event, and whether the host reads the field before the delay ends is outside the model.
- Extension.SheetPrompt.RetryInit, Extension.SheetPrompt.Init and Bootstrap.TryAgain: each delayed retry loop runs to completion inside one `init` call. In the program the two `init` calls run their own `tryAgain` chains at the same time, one attempt every 2 seconds, so one chain can see a panel that the other mounted part-way through, and hook retries or user input can run between attempts. `TryAgain` keeps `panelPresent` fixed for the whole chain and cannot express this interleaving. The single-panel invariant `Valid()` is unaffected, since every `AddUI` checks the flag.
- Extension.SheetPrompt.RetryInit: the host page offers no candidate at attempts beyond the given snapshots.
- The host removing the panel or replacing its send button, form or field: `panelPresent` only changes through `AddUI`, and listeners are counted per kind, not per element.
- The `this` value and extra arguments that a wrapper passes on to the original `sendMessageAsUser`.
- Strings are sequences of Unicode scalar values; JavaScript strings are UTF-16 code units, so lone surrogates are not represented.
- `console.log`, `console.warn` and `console.error` output.
