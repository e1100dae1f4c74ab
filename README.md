# Session-generator bot: a Dafny model

`lonamibots.py` is a Telegram bot that gives administrators a Telethon
session file for a phone number. The conversation has three steps:

1. `/create_session` asks for a phone number.
2. The number is checked. A Telethon client is created under
   `business_sessions/business_<digits>` and a login code is requested.
3. The code the user types in is used to sign in. The session file is then
   sent back as `business_<digits>.session`.

A delivered session file appends a SUCCESS line to
`session_requests.log`. A `/cancel` appends a CANCELLED line when a phone is
stored. `/stats` reports how many `.session` files the session
directory holds and how many lines the log has.

The model has five modules. The `.dfy` files form one program and are
meant to be verified together.

- `Options` (options.dfy) holds the optional value used for missing
  `user_data` keys and failed calls.
- `Strings` (strings.dfy) holds the pure text rules:
  - Python's `str.strip` and `str.isdigit`;
  - the phone check of `get_phone`;
  - the code normalisation of `get_code`, `strip()` then `replace(' ', '')`;
  - the session and artifact names.
- `Audit` (audit.dfy) models the log:
  - `SessionManager.log_request` on a `LogFile` class, which holds the
    records written so far and renders them to the file's text;
  - reading the text back line by line the way Python's `readlines` does;
  - the session-file count of `stats`.
- `Bot` (bot.dfy) models one user's conversation as a class:
  - the conversation state, which is Idle, PHONE or CODE;
  - the four keys of `context.user_data`;
  - the Telethon client as a class whose calls are recorded;
  - the handlers `start`, `get_phone`, `get_code`, `cancel` and `stats`;
  - `Handle`, the `ConversationHandler` wiring of `main`, which routes one
    update to a handler and stores the state that handler returns.
- `Scenarios` (scenarios.dfy) drives whole conversations through `Handle`.
  Each scenario fixes the network outcomes.

Network outcomes are parameters of each update (`Outcomes`): whether the
client connects, the hash `send_code_request` returns (or none when it
raises), whether `sign_in` succeeds, whether the session file is found, and
the directory listing. The clock is a natural-number reading.

Some behaviours of the code are stated outright by the contracts:

- A phone that fails the check changes nothing.
- An accepted phone is stored together with its clock reading before the
  client is created.
- When connecting or requesting the code fails, the conversation ends but
  the phone and start time stay in `user_data`. A client that did connect
  is left connected and is not stored, so it is never disconnected.
- That stale phone makes a later `/cancel` log a CANCELLED record: the
  `/cancel` is given in the next conversation, before any phone is sent.
  `StalePhoneCancelled` shows this.
- `get_code` disconnects the client exactly once and empties `user_data`
  whatever the sign-in outcome. A SUCCESS record is written only for a
  delivered document.
- `/create_session` inside a running conversation is not routed. This is
  the `ConversationHandler` default: `allow_reentry` is off. `/cancel` and
  plain text outside a conversation are not routed either. `/stats` always
  is.
- The log is one line per record, because an accepted phone holds only
  `+` and digits. Its line count is therefore the number of records
  written.
- Splitting a line on commas gives back the four field texts it was
  written from: the time, the user id, the phone and the status.

The phone check accepts any character for which Python's `str.isdigit` is
true, not only ASCII digits. A number like `+١٢٣` written in Arabic-Indic
digits is accepted. `Strings.IsDigit` covers the ASCII digits and a
selection of the other Unicode digits, not all of them.

Where `get_code` looks for the session file (lonamibots.py:110), it appends
`.session` to `client.session.filename`. Telethon's file name already ends
in `.session`, so the path probed is `....session.session`. Telethon is not
part of this model. The model therefore takes "the file is found" as an
outcome of the update and makes no claim about how often it holds.

## Model

| member | source | states |
|---|---|---|
| Strings.StripRemovesSurroundingSpace | lonamibots.py:57 | `strip()` removes exactly the runs of whitespace at both ends: the input is the result framed by whitespace, and the result neither starts nor ends with whitespace |
| Strings.StripTrimmed | lonamibots.py:57 | a text with no whitespace at either end is left unchanged by `strip()` |
| Strings.RemoveSpaces | lonamibots.py:96 | `replace(' ', '')` leaves no space, never lengthens, and leaves a text without spaces unchanged |
| Strings.RemoveSpacesContents | lonamibots.py:96 | a character survives `replace(' ', '')` exactly when it was in the text and is not a space |
| Strings.RemoveSpacesMultiset | lonamibots.py:96 | `replace(' ', '')` keeps every other character as many times as it occurs and drops every space |
| Strings.RemoveSpacesAppend | lonamibots.py:96 | `replace(' ', '')` keeps the order: on a concatenation it gives the two parts' results in turn |
| Strings.RemoveSpacesKeepsEnds | lonamibots.py:96 | non-space first and last characters stay first and last after removing spaces |
| Strings.NormaliseCode | lonamibots.py:96 | the code handed to `sign_in` holds no space and is no longer than the stripped text |
| Strings.NormaliseCodeContents | lonamibots.py:96 | the normalised code holds exactly the non-space characters of the stripped message |
| Strings.NormaliseCodeMultiset | lonamibots.py:96 | the normalised code holds each non-space character of the stripped message as often as the message does |
| Strings.NormaliseCodeOrder | lonamibots.py:96 | the normalised code keeps the order of the stripped message: cut anywhere, it is the space-free first part followed by the space-free rest |
| Strings.SpacedCodeNormalised | lonamibots.py:84-96 | a code typed as `1 2 3 4 5`, the format the bot asks for, is handed on as `12345` |
| Strings.NormaliseCodeIdempotent | lonamibots.py:96 | normalising an already normalised code changes nothing |
| Strings.AcceptedPhoneIsStripped | lonamibots.py:57-61 | an accepted phone holds no whitespace, and stripping it again gives it back |
| Strings.AcceptedPhoneIsOneLine | lonamibots.py:61 | an accepted phone holds no line break, so its log record stays on one line |
| Strings.AcceptedPhoneHasNoComma | lonamibots.py:61 | an accepted phone holds no comma, so its log line splits back into exactly four fields |
| Strings.ArtifactNameRecoversPhone | lonamibots.py:118 | the phone is recovered from its artifact name: `+` followed by what lies between `business_` and `.session` |
| Strings.ArtifactNameInjective | lonamibots.py:118 | two accepted phones with the same artifact name are the same phone |
| Audit.LineBodyNoBreak | lonamibots.py:36 | a record whose phone has no line break is written without a line break before its final `\n` |
| Audit.LineFields | lonamibots.py:36 | splitting a written line on commas gives back the texts of the time, the user id, the phone and the status, when the phone has no comma |
| Audit.TextAppend | lonamibots.py:35-36 | appending a record to the file adds its line after the old text |
| Audit.RestAfterLineOf | lonamibots.py:176 | reading one line in universal-newline mode consumes a break-free body and its `\n`, and nothing more |
| Audit.CountLinesOfText | lonamibots.py:174-176 | `len(readlines())` of a log whose records each fit on one line is the number of records |
| Audit.LogFile.LogRequest | lonamibots.py:34-36 | the file exists afterwards; the new record follows the old ones and its line follows the old text; a one-line phone keeps the log one line per record |
| Audit.LogFile.CountRecords | lonamibots.py:174-178 | the log count is the file's line count, or 0 when there is no file; on a one-line-per-record log it is the number of records |
| Audit.CountSessionFiles | lonamibots.py:171 | the session count is at most the listing's length; it equals that length exactly when every name ends in `.session`, and is 0 exactly when none does |
| Audit.CountSessionFilesIsSetSize | lonamibots.py:171 | on a listing without repeated names, the count is the number of distinct session files |
| Audit.CountSessionFilesAppend | lonamibots.py:171 | one more `.session` name in the listing counts one more; any other name counts nothing |
| Bot.Client.Connect | lonamibots.py:75 | the client is connected exactly when the network lets it connect; nothing else about it changes |
| Bot.Client.SignIn | lonamibots.py:107 | `sign_in` is recorded with the phone, code and hash given, and the connection is left as it was |
| Bot.Client.Disconnect | lonamibots.py:135 | the client is disconnected, one more disconnect is counted, and the recorded sign-ins stay |
| Bot.Route | lonamibots.py:200-211 | `start` runs exactly for `/create_session` outside a conversation, `get_phone` exactly for text in PHONE, `get_code` exactly for text in CODE, `cancel` exactly for `/cancel` inside a conversation, and `stats` exactly for `/stats` |
| Bot.UserConversation.Start | lonamibots.py:38-53 | an admin is asked for the phone and the conversation moves to PHONE; anyone else is refused and it ends |
| Bot.UserConversation.GetPhone | lonamibots.py:55-91 | a rejected phone replies, stays in PHONE and changes nothing; an accepted one is stored with the clock reading and a client is created for its session path; there are separate outcomes for a refused connection, a failed code request and success, which alone stores the client and hash and moves to CODE |
| Bot.TrySignIn | lonamibots.py:105-130 | signing in records the stored phone, code and hash; a SUCCESS record and the document come only from a successful sign-in with the file present; the other outcomes reply with the missing file or the failed login |
| Bot.UserConversation.GetCode | lonamibots.py:93-140 | without complete stored data it only replies that the session expired; otherwise it signs in with the normalised code, disconnects the client once, empties `user_data` and ends, with the records and replies of the sign-in outcome |
| Bot.UserConversation.Cancel | lonamibots.py:142-159 | a stored client is disconnected once, a stored non-empty phone is logged as CANCELLED, `user_data` is emptied and the conversation ends |
| Bot.UserConversation.Stats | lonamibots.py:161-189 | a non-admin is refused before anything is read; an admin gets the session count of the listing and the number of records in the log, or the error reply when the directory cannot be listed |
| Bot.UserConversation.Handle | lonamibots.py:200-211 | one update runs the routed handler and the state becomes the one that handler returns; unrouted updates and `/stats` leave the conversation and the log alone; a phone step that reaches CODE stores a fresh client created under the phone's session path; a failed phone step keeps the earlier client and hash; a code message with an empty stored hash only replies that the session expired; otherwise a code message records the `sign_in` call with the normalised code and disconnects the client once; `/cancel` disconnects a stored client once; the conversation invariant is kept |
| Scenarios.NumberAccepted | lonamibots.py:61 | `+15551234567` passes the phone check |
| Scenarios.NumberStrips | lonamibots.py:57 | `+15551234567` is unchanged by `strip()` |
| Scenarios.PaddedNumberStrips | lonamibots.py:57 | the number with a space on each side strips to the number |
| Scenarios.NumberArtifact | lonamibots.py:118 | the number's artifact is named `business_15551234567.session` |
| Scenarios.ListingCount | lonamibots.py:171 | a listing with one session file and one other file counts 1 |
| Scenarios.MalformedRefused | lonamibots.py:57-63 | `+1abc` is unchanged by `strip()` and fails the phone check |
| Scenarios.NumberSessionPath | lonamibots.py:73 | the number's client is created under `business_sessions/business_15551234567` |
| Scenarios.CodeRequested | lonamibots.py:38-87 | `/create_session` and a padded number lead to CODE, with the stripped number and the hash stored, the client created under `business_sessions/business_15551234567`, and nothing logged |
| Scenarios.Issued | lonamibots.py:93-140 | after `CodeRequested`, the code typed as `1 2 3 4 5` signs in once as `12345`, the client is disconnected once, `user_data` is emptied, the document is sent and one SUCCESS record is logged |
| Scenarios.SuccessfulIssuance | lonamibots.py:93-140 | the whole issuance replies with the phone prompt, the code request and `business_15551234567.session`, logs exactly one SUCCESS record and makes one `sign_in` call with `12345` |
| Scenarios.StatsAfterIssuance | lonamibots.py:161-186 | after the issuance, the same admin's `/stats` reports the session files of the listing and one logged request; for a listing with one session file, one and one |
| Scenarios.StatsDeniedToOthers | lonamibots.py:165-167 | a non-admin's `/stats` is refused |
| Scenarios.UnauthorizedStart | lonamibots.py:43-45 | a non-admin's `/create_session` is refused; no conversation starts and `user_data` stays empty |
| Scenarios.RejectedPhone | lonamibots.py:61-63 | a malformed phone is refused, the conversation stays in PHONE and `user_data` stays empty |
| Scenarios.FailedSend | lonamibots.py:66-91 | a failed code request ends the conversation but keeps the phone in `user_data`, and logs nothing |
| Scenarios.StalePhoneCancelled | lonamibots.py:142-159 | after that, a `/cancel` outside a conversation does nothing; a `/cancel` in the next conversation logs CANCELLED with the earlier phone |

## Left out

- Strings.IsDigit: covers the ASCII digits, the superscript digits and the decimal-digit blocks of the main scripts, not Unicode's whole list of digit characters.
- StatsAfterIssuance: the directory listing is an input of the scenario, because the session file Telethon writes is not modelled.
- Telegram transport: the text of replies, Markdown and the caption are left out. Replies are tags.
- Failures of sending a reply or the document are left out. So are the exceptions they would raise inside `get_code`'s `try`.
- Telethon internals: the hash's content, the session file Telethon writes, and the path of the file probe are left out. Whether the file is found is an outcome of the update.
- File system: the creation of `SESSION_DIR` by `SessionManager()` is left out.
  - `os.listdir` is an input listing, and `None` stands for a directory that cannot be listed.
  - Failures to read or write the log other than a missing file are left out.
- The log file: Python writes `\n` as is (POSIX newline translation). The log starts absent.
- `datetime.now()` is a natural-number clock reading written in decimal, not its `str` format.
  - `start_time` is stored but never read by the source. The same holds for `SessionManager.user_sessions`.
- The logging module, the credentials, the bot token and `run_polling` are left out.
- async scheduling and concurrent updates are left out. Each `UserConversation` is one user's reply chain. Updates from one user are handled one at a time.
- Per-chat keys, timeouts and persistence of `ConversationHandler` are left out.
