# English/Kurdish demo chat client — Dafny model

This project models the client-local logic of a demo chat web client. The client has a contact roster, per-contact message threads, a composer, an English/Kurdish translation layer, and simulated sign-in and sign-up forms. There is no backend. Sending a message only changes local state, and a timer later adds a canned reply.

The modules follow the source files:

- `ChatTypes` (`src/types/chat.ts`): the `Contact` and `Message` records. The sender is the two-valued `Sender`, with its `"me"`/`"them"` spelling.
- `Conversation` (`src/components/ChatApp.tsx`): the conversation store.
  - The store holds the roster, the histories keyed by contact id, the active contact id, and the queue of scheduled replies.
  - It has three transitions: `Select`, `Send` and `DeliverReply`.
  - It holds the seed data, the seven canned replies, and the invariants every run of events keeps.
- `Composer` (`src/components/ChatWindow.tsx`): the submit guard, the draft reset and the send button's `disabled` state. It also composes a submit with the store.
- `Translations` (`src/context/LanguageContext.tsx`): the two tables, the lookup `t` with its key fallback, and the current language, which defaults to English.
- `AuthSchemas` (`src/components/SignUpForm.tsx`, `src/components/SignInForm.tsx`): the two validation schemas as lists of per-field issues.
- `JsString`: the JavaScript string semantics the above depend on.
  - `length` counts UTF-16 code units; a Dafny `char` is a whole Unicode scalar value.
  - `trim()` strips the ECMAScript WhiteSpace and LineTerminator characters.
- `Wrappers`: `Option`.

Design choices:

- The reply timer is modelled as a queue of contact ids. The id is the contact that was active at send time. Any queued reply may fire next: `DeliverReply` takes its queue position `k`.
- The random reply pick is the parameter `choice`, an index below 7.
- Display times are opaque string parameters.
- The active contact is kept as an id. The source keeps a copy of the contact object taken at selection time. Its readers use `id`, `name`, `avatar` and `status`, none of which change after seeding, and none of them reads `unread`.

In two places the code behaves differently from what a reader might expect, and the model follows the code:

- A sent message stores the draft **untrimmed**. The trim only decides whether to send (`Composer.DraftNotTrimmed`).
- Selecting an id that is not in the roster still makes it active and leaves the roster unchanged. The source's `map` does not check membership.

## Model

| member | source | states |
|---|---|---|
| ChatTypes.SenderTag | src/types/chat.ts:11 | a sender is spelled exactly `"me"` or `"them"`, and `"me"` means the local user |
| ChatTypes.ParseSender | src/types/chat.ts:11 | only the two tags name a sender; parsing inverts `SenderTag` in both directions |
| Conversation.Initial | src/components/ChatApp.tsx:8-99 | the start state has five contacts with distinct ids `"1"`..`"5"`, unread counts 3,0,0,0,1, a seeded history for each, no active contact and no scheduled reply |
| Conversation.ClearUnread | src/components/ChatApp.tsx:107-110 | the roster keeps its length and order; entries with the id get `unread` 0, every other entry is unchanged |
| Conversation.Select | src/components/ChatApp.tsx:105-111 | the selected id becomes active; only that id's entries change, and only their unread count (now 0); an id absent from the roster leaves the roster as it was; histories and scheduled replies are untouched |
| Conversation.Send | src/components/ChatApp.tsx:118-133 | with no active contact nothing changes and no reply is scheduled; otherwise exactly one `Me` message with the given text and time is appended to the active contact's history (a missing history counts as empty), one reply is scheduled for that contact, and every other history, the roster and the active contact are unchanged |
| Conversation.DeliverReply | src/components/ChatApp.tsx:133-147 | the fired reply appends exactly one `Them` message, whose text is one of the seven canned replies, to the contact it was scheduled for, whatever is active now; it leaves the queue (one occurrence removed); other histories, the roster with its unread counts, and the active contact are unchanged |
| Conversation.RemoveAt | src/components/ChatApp.tsx:133-143 | a fired reply's removal from the queue removes exactly that one occurrence |
| Conversation.SelectPreserves | src/components/ChatApp.tsx:105-111 | selecting keeps unread counts non-negative, the roster's ids in order, every history as a prefix, and the per-contact balance of sends against replies |
| Conversation.SendPreserves | src/components/ChatApp.tsx:118-133 | a send keeps the invariants: the history only grows, and the new outbound message is matched by one new scheduled reply |
| Conversation.DeliverReplyPreserves | src/components/ChatApp.tsx:133-143 | a delivery keeps the invariants: the history only grows, and one scheduled reply turns into one inbound message |
| Conversation.ApplyPreserves | src/components/ChatApp.tsx:105-148 | any single event keeps the invariants |
| Conversation.RunPreserves | src/components/ChatApp.tsx:105-148 | after any sequence of selects, sends and reply deliveries, unread counts are non-negative, roster ids are unchanged, every earlier history is a prefix of the later one, and outbound minus inbound minus still-scheduled replies is unchanged for every contact |
| Conversation.EveryMessageAnswered | src/components/ChatApp.tsx:118-148 | from the start state, once no reply is scheduled, every contact has received exactly as many replies as messages it was sent |
| Conversation.SelectShowsThread | src/components/ChatApp.tsx:170 | after selecting a contact the chat window shows that contact's history (empty when it has none) |
| Conversation.SendShowsMessage | src/components/ChatApp.tsx:170 | after a send the shown thread ends with the message just sent |
| Composer.Submit | src/components/ChatWindow.tsx:22-28 | a draft that is empty or whitespace-only forwards nothing and stays as it is; any other draft is forwarded once, untrimmed, and the draft becomes `""` |
| Composer.SendDisabled | src/components/ChatWindow.tsx:132-135 | the button is disabled exactly when a submit would forward nothing, that is, when the draft is all whitespace |
| Composer.SubmitDraft | src/components/ChatWindow.tsx:22-44 | with no active contact no composer exists and nothing changes; a blank draft changes neither store nor draft; a non-blank draft appends itself untrimmed as the active contact's outbound message, schedules one reply, leaves every other contact's history, the roster and the active contact unchanged, and clears the draft |
| Composer.DraftNotTrimmed | src/components/ChatWindow.tsx:24-25 | submitting `" hi "` stores `" hi "`, although its trimmed form is `"hi"` |
| JsString.Trim | src/components/ChatWindow.tsx:24 | `trim()` yields `""` exactly when the text is all whitespace; otherwise the result starts and ends with non-whitespace, begins right after the leading whitespace, and everything after it is whitespace |
| JsString.LeadingWhitespace | src/components/ChatWindow.tsx:24 | the leading whitespace run is maximal: all whitespace, and followed by a non-whitespace character or the end |
| JsString.TrailingWhitespace | src/components/ChatWindow.tsx:24 | the trailing whitespace run is maximal in the same sense |
| JsString.Utf16Length | src/components/SignUpForm.tsx:14-16 | a string's JavaScript length is between its character count and twice that, and is zero only for `""` |
| JsString.Utf16LengthOfBmp | src/components/SignUpForm.tsx:14-16 | for text in the Basic Multilingual Plane the JavaScript length equals the character count |
| JsString.Utf16LengthAppend | src/components/SignUpForm.tsx:16 | JavaScript lengths add up over concatenation |
| Translations.Code | src/context/LanguageContext.tsx:4 | the language is exactly `"en"` or `"ku"` |
| Translations.ValuesNonEmpty | src/context/LanguageContext.tsx:13-74 | every translation in both tables is a non-empty string |
| Translations.T | src/context/LanguageContext.tsx:82-84 | a key present in the current table yields its entry, and an absent key yields the key itself |
| Translations.SameKeys | src/context/LanguageContext.tsx:13-74 | the English and Kurdish tables have the same key set |
| Translations.TranslatedInBoth | src/context/LanguageContext.tsx:13-74 | switching language never changes whether a key is translated |
| Translations.SignInLabel | src/context/LanguageContext.tsx:19-50 | `auth.signin` is `"Sign In"` in English and `"چوونە ژوورەوە"` in Kurdish; `nonexistent.key` comes back unchanged in both |
| Translations.InitialSettings | src/context/LanguageContext.tsx:80 | the language starts as `"en"` |
| Translations.SetLanguage | src/context/LanguageContext.tsx:80-84 | after setting a language, every lookup uses that language's table |
| AuthSchemas.PathsAppend | src/components/SignUpForm.tsx:13-21 | the fields with issues in two concatenated issue lists are those of either list |
| AuthSchemas.PathsOfCheck | src/components/SignUpForm.tsx:14-17 | a failed field check puts an issue on its own field, and a passing one puts none |
| AuthSchemas.SignUpIssues | src/components/SignUpForm.tsx:13-21 | the full name has an issue iff it is shorter than 3; the email iff the e-mail check rejects it; the password iff it is shorter than 8; confirmPassword iff it differs from password, with message "Passwords don't match" attached to confirmPassword |
| AuthSchemas.SignUpValid | src/components/SignUpForm.tsx:13-21 | a sign-up record is valid iff all four rules hold |
| AuthSchemas.SignUpDefaults | src/components/SignUpForm.tsx:35-40 | the all-empty defaults fail on the full name and the password, so they are invalid whatever the e-mail check says |
| AuthSchemas.PasswordMinimumCountsCodeUnits | src/components/SignUpForm.tsx:16 | the 8-character minimum counts characters for Basic Multilingual Plane text; four astral-plane characters already meet it |
| AuthSchemas.SignInIssues | src/components/SignInForm.tsx:13-16 | the email has an issue iff the e-mail check rejects it; the password iff it is empty ("Password is required"); no other field is checked |
| AuthSchemas.SignInValid | src/components/SignInForm.tsx:13-16 | a sign-in record is valid iff the e-mail check passes and the password is non-empty; any non-empty password passes |
| AuthSchemas.SignInDefaults | src/components/SignInForm.tsx:30-33 | the all-empty defaults fail on the password, so they are invalid |

## Left out

- Reply timing (`1000 + Math.random() * 2000` ms) is a floating-point delay. The model keeps only the queue, and any queued reply may fire next.
- The random reply pick is an index parameter below 7. The uniform distribution is not modelled.
- `date-fns` formatting of the current time: times are opaque string parameters, because a clock is not part of the model.
- Notifications: the "New message from …" toast is a display side effect and changes no state. The same goes for the toasts of the simulated sign-in, sign-up and Google paths.
- The mobile sidebar toggle, scroll-into-view and all rendering are presentation.
- Library-provided e-mail validation: the validation library's e-mail pattern is not visible, so `isEmail` is an abstract parameter.
- AuthSchemas.SignUpIssues: collecting all issues assumes the refinement runs even when field checks failed. For all-string input this is how the validation library handles non-fatal issues, but that library's code is not part of this model.
- Form wiring (react-hook-form), the pages, routing and navigation timers are plumbing.
- `src/components/ChatSidebar.tsx` and `src/components/LanguageSelector.tsx` only forward selections to the modelled operations.
- `src/components/ProfilePhoto.tsx` is file I/O around a single 5 MiB size comparison.
- `useLanguage` throwing outside its provider is framework plumbing.
- Translations.T: keys inherited from JavaScript's object prototype (such as `"toString"`) are not modelled. A plain object lookup would find those properties, but the model's tables hold only the 22 listed keys.
- JsString: JavaScript strings may contain lone surrogate code units, which a Dafny string cannot hold. Such strings are not modelled. The trim result is unaffected, because no surrogate is whitespace.
