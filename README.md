# Lead mailing bot: a verified model of its sequential core

The system is a Telegram bot (NestJS, Telegraf). A registered user uploads a spreadsheet of
leads and a text file of message templates. The bot then mails every lead twice: through
Telegram userbot accounts (gramjs) and through WhatsApp sessions (Baileys). Each batch walks the
client list over the non-banned userbots in round-robin order and paces itself with random
delays. It sends only between 09:00 and 21:00.

Two dialogs enrol new userbots:
- a Telegram login: phone, code and an optional two-factor password;
- a WhatsApp QR session: phone and a test message.

This project models the logic under that glue, module by module:

| module | file | models |
|---|---|---|
| `Mailing` | mailing.dfy | `MailingService`: both batch loops as methods over `seq<Client>` with loop invariants; working hours, pacing delay, next working time, the connection-error classifier |
| `WhatsappService` | whatsapp_service.dfy | `WhatsappService`: a `Registry` class with the socket map, auth state, auth folders, the userbot table, scheduled reconnects and sent messages; the reconnect predicate; phone-to-JID formatting |
| `TelegramService` | telegram_service.dfy | `TelegramService`: `normalizePhone`, the branches of `resolveEntity`, the guards and call order of `sendMessage` |
| `TelegramLoginScene` | telegram_scene.dfy | the `telegram_login` scene: a `Scene` class over the login session, validators, the sign-in error-to-step mapping |
| `WhatsappBotScene` | whatsapp_scene.dfy | the `whatsapp_create_bot` scene: a `Scene` class over the bot session, wired to a `WhatsappService.Registry` |
| `Users` | users.dfy | `UsersService.saveClients`: the record each uploaded row becomes |
| `BotService` | bot_service.dfy | `getUser` (cache, then database), the menu guard, `uploadLeadsTxt` line filtering, the `uploadLeads` mailing gate |
| `BotUpdate` | bot_update.dfy | the file-suffix routing of `onUploadLeads` |
| `TestWhatsapp` | test_whatsapp.dfy | the stand-alone test script's JID formatting, send wrapper and reconnect decision |
| `Strings`, `Wrappers` | strings.dfy, wrappers.dfy | the JavaScript string operations used (`replace(/\D/g, '')`, `trim`, `toLowerCase`, `includes`, `split`, `startsWith`/`endsWith`); `Option` and `Result` |

What comes from outside the process is a parameter of the operation that uses it:
- the clock hour and minute;
- each `Math.random` draw, as an index already in range;
- the result of each remote call (gramjs, Baileys, Prisma, the file system); its failure only where the model has a flag for it (the failures it has none for are listed under "## Left out");
- the Redis cache, as a map.

Stateful code is modelled as classes whose methods state their whole new state. The batch loops
are methods proved against a specification function of the attempt each client gets.

## Model

| member | source | states |
|---|---|---|
| Mailing.GetDelay | src/mailing/mailing.service.ts:253-256 | the pacing delay is a whole number of minutes from 3 to 30, in milliseconds: a multiple of 60000 in [180000, 1800000] |
| Mailing.GetDelayCoversRange | src/mailing/mailing.service.ts:253-256 | every such delay is produced by exactly one random draw in [0, 28) |
| Mailing.NextWorkingClockAsWritten | src/mailing/mailing.service.ts:264-281 | as written, the next working time is 09:00 from 21:00 on, otherwise one hour later, wrapping 21 to 09; always a valid clock |
| Mailing.GetNextWorkingTime | src/mailing/mailing.service.ts:264-281 | the "HH:MM" text it returns parses back to the as-written clock |
| Mailing.ParseFormatClock | src/mailing/mailing.service.ts:280 | the two-digit, zero-padded "HH:MM" rendering is lossless |
| Mailing.NextWorkingTimeAsWrittenLeavesWindow | src/mailing/mailing.service.ts:269-280 | before 08:00 the reported time is one hour later and outside the window; at 03:47 the text is "04:47" |
| Mailing.NextWorkingClock | src/mailing/mailing.service.ts:258-281 | corrected: inside the window it is now, outside it is 09:00; it is always inside the window |
| Mailing.NextWorkingClockIsFirst | src/mailing/mailing.service.ts:258-281 | the corrected time is the first working hour reached as the clock runs on; every hour passed on the way is outside the window |
| Mailing.IsWhatsAppConnectionError | src/mailing/mailing.service.ts:218-251 | false for a null or undefined error; true only for a present error |
| Mailing.ConnectionErrorIffListed | src/mailing/mailing.service.ts:218-251 | true exactly when one of the seven lower-case markers is in the lower-cased message, or the status code is 428, 408, 503, 502 or 504, or a Boom payload contains "Connection Closed" |
| Mailing.MessageMarkerIsConnectionError | src/mailing/mailing.service.ts:221-234 | a marker anywhere in the message, in lower or Latin upper case, makes it a connection error whatever the other fields |
| Mailing.StatusCodeIsConnectionError | src/mailing/mailing.service.ts:237-243 | each listed status code makes it a connection error |
| Mailing.OtherErrorsNeedBoomPayload | src/mailing/mailing.service.ts:226-250 | with no marker and no listed code, it is a connection error exactly when a Boom payload names "Connection Closed" |
| Mailing.NonBanned | src/mailing/mailing.service.ts:36-40 | the non-banned userbots: no banned one, every other one as often as in the table, in table order |
| Mailing.RoundRobin | src/mailing/mailing.service.ts:60-62 | one userbot index per client, each below the number of userbots |
| Mailing.RoundRobinFollowsCursor | src/mailing/mailing.service.ts:60-62 | the assignment for one more client is the old one followed by where the loop cursor goes next: up by one, reset to 0 at M |
| Mailing.RoundRobinFair | src/mailing/mailing.service.ts:51-91 | over n clients each of the M userbots serves n / M clients, or one more for the first n mod M userbots |
| Mailing.CursorStep | src/mailing/mailing.service.ts:60-62 | advancing the cursor by one and resetting it at M keeps client i on userbot i mod M |
| Mailing.BannedUserbotSkipped | src/mailing/mailing.service.ts:36-62 | with userbots A, B (banned) and C, three clients are served by A, C, A |
| Mailing.BannedUserbotFiltered | src/mailing/mailing.service.ts:36-40 | the table A, B (banned), C keeps A and C |
| Mailing.ChooseMessage | src/mailing/mailing.service.ts:35 | a random pick is one of the messages; it is undefined exactly when there are none |
| Mailing.SendMessageTelegram | src/mailing/mailing.service.ts:34-94 | no userbot means no send; otherwise the batch runs as TelegramLoop states, with the one message of the batch |
| Mailing.TelegramLoop | src/mailing/mailing.service.ts:47-91 | client i, in order, gets one attempt through the userbot RoundRobin assigns it; the pacing delay follows only a success; successes are counted and successCount + errorCount equals the number of clients |
| Mailing.TelegramBatchFair | src/mailing/mailing.service.ts:51-91 | over a Telegram batch each of the M userbots serves n / M of the n clients, or one more for the first n mod M |
| Mailing.SendToClientTelegram | src/mailing/mailing.service.ts:51-89 | one pass of the loop: client i goes through the userbot RoundRobin assigns it, the cursor moves on by one after a success and after a failure alike, and exactly one of the two tallies grows by one |
| Mailing.StartMessageTelegram | src/mailing/mailing.service.ts:15-32 | it waits exactly when started outside the window; no userbot means no send; otherwise client i gets the attempt ExpectedTelegramAttempt describes (its userbot, the one message of the batch, whether it was sent, the delay), successes are counted and successCount + errorCount equals the number of clients; with no messages or no API credentials nothing is sent |
| Mailing.NoneSent | src/mailing/mailing.service.ts:78-89 | attempts that all failed count zero successes |
| Mailing.SendMessageWhatsapp | src/mailing/mailing.service.ts:174-213 | delivered exactly when the service returned true; a connection failure exactly when it threw a classified connection error; a thrown null or undefined escapes, because its `message` is read in the last log line, and nothing else does |
| Mailing.StartMessageWhatsapp | src/mailing/mailing.service.ts:96-172 | it waits exactly when started outside the window; a health check that throws ends the batch before the userbots are read; no userbot means no send; otherwise the batch runs as WhatsappLoop states |
| Mailing.WhatsappLoop | src/mailing/mailing.service.ts:129-169 | client i, in order, gets the userbot RoundRobin assigns it and its own random message; a send that escapes counts as an error with no delay, any other as a success followed by a delay; successCount + errorCount equals the number of clients |
| Mailing.SendToClientWhatsapp | src/mailing/mailing.service.ts:133-166 | one pass of the loop: the cursor moves on by one either way, and exactly one tally grows, the error count exactly when the send escaped |
| Mailing.CompletedCount | src/mailing/mailing.service.ts:149-158 | the successes counted are at most the attempts |
| Mailing.WhatsappBatchFair | src/mailing/mailing.service.ts:133-169 | over a WhatsApp batch each of the M userbots serves n / M of the n clients, or one more for the first n mod M, whatever the sends do |
| Mailing.ReturningSendsCountNoError | src/mailing/mailing.service.ts:149-166 | when every send returns, as the service's sendMessage always does, no error is counted; an attempt escapes exactly when a null or undefined was thrown |
| Mailing.NoneRethrown | src/mailing/mailing.service.ts:149-158 | attempts none of which escaped are all counted as successes |
| Mailing.IsWithinWorkingHours | src/mailing/mailing.service.ts:258-262 | the window is the hours 9 to 20 of the day: from 09:00 up to but not including 21:00 |
| WhatsappService.JidDigits | src/whatsapp/whatsapp.service.ts:258-268 | the digit part is all digits and starts with '7': a leading '8' becomes '7', a leading '7' is kept, otherwise '7' is prepended to the input's digits |
| WhatsappService.FormatPhoneNumber | src/whatsapp/whatsapp.service.ts:256-271 | the JID is the digit part followed by "@c.us" |
| WhatsappService.JidKeepsDigits | src/whatsapp/whatsapp.service.ts:258-268 | every digit of the input survives in order, except a leading '8'; only a leading '7' is ever added |
| WhatsappService.JidDigitsIdempotent | src/whatsapp/whatsapp.service.ts:258-268 | formatting a digit part again changes nothing |
| WhatsappService.JidHasOneAt | src/whatsapp/whatsapp.service.ts:270 | the JID holds exactly one '@', right before "c.us" |
| WhatsappService.IncrementDailyCount | src/whatsapp/whatsapp.service.ts:295-304 | every row of the session counts one more message; all other rows and columns are kept |
| WhatsappService.DeleteRows | src/whatsapp/whatsapp.service.ts:352-354 | no row of the session remains; every other row remains as often as before, in order |
| WhatsappService.ActiveRows | src/whatsapp/whatsapp.service.ts:326-328 | the non-banned rows, each as often as in the table, in order, and no banned row |
| WhatsappService.QrOutcome | src/whatsapp/whatsapp.service.ts:228-251 | the new session's name exactly when the credentials load, the QR code comes, both replies go out and the row is saved; otherwise the first step that failed |
| WhatsappService.ShouldReconnect | src/whatsapp/whatsapp.service.ts:114-115 | a close event reconnects unless its status code is loggedOut, and a missing code reconnects; connectSession repeats the same test at line 176 |
| WhatsappService.DeletedSessionNotCounted | src/whatsapp/whatsapp.service.ts:295-304 | once a session's rows are deleted, incrementing its count changes nothing |
| WhatsappService.Registry.constructor | src/whatsapp/whatsapp.service.ts:29-31 | the three maps start empty |
| WhatsappService.Registry.CheckConnection | src/whatsapp/whatsapp.service.ts:367-370 | a socket is registered under the id and has a user id; ConnectSession and DeleteSession state how they change it |
| WhatsappService.Registry.GetSessionStatus | src/whatsapp/whatsapp.service.ts:309-319 | connected agrees with CheckConnection; the phone is the socket's user id, absent without a socket |
| WhatsappService.Registry.GetActiveSessions | src/whatsapp/whatsapp.service.ts:324-333 | the non-banned rows, each as often as in the table and in table order; none when the query fails |
| WhatsappService.Registry.ConnectSession | src/whatsapp/whatsapp.service.ts:148-191 | succeeds exactly when the auth folder (recorded or default) exists and the credentials load; then the credentials from that folder and the new socket replace the old under that id, and the id is connected exactly when the new socket is; otherwise nothing changes; no other id changes its connection state |
| WhatsappService.Registry.CreateNewSession | src/whatsapp/whatsapp.service.ts:74-143 | the session name is "whatsapp_", the phone's digits, "_" and the clock; its folder is created and recorded; with loaded credentials the socket is registered; the result is the name, or the auth failure, or the QR timeout |
| WhatsappService.Registry.SaveWhatsappSession | src/whatsapp/whatsapp.service.ts:276-290 | appends an unbanned row with a zero daily count, or fails and changes nothing |
| WhatsappService.Registry.SendMessageWithQr | src/whatsapp/whatsapp.service.ts:228-251 | the result is QrOutcome; the session folder, entry, credentials and socket are registered as createNewSession leaves them; the row is appended exactly on success; nothing else changes |
| WhatsappService.Registry.OnConnectionClose | src/whatsapp/whatsapp.service.ts:113-119 | a reconnect in 5000 ms is scheduled exactly when the status code is not loggedOut |
| WhatsappService.Registry.SendMessage | src/whatsapp/whatsapp.service.ts:196-223 | true exactly when a connected socket exists and delivers; only a connected socket is handed the message, addressed to the formatted JID; only a delivered message increments the daily count |
| WhatsappService.Registry.DeleteSession | src/whatsapp/whatsapp.service.ts:338-362 | removes the id from the sockets (after a logout) and from the auth folders (when its folder exists), deletes its rows, and touches no other key; once the logout step passes the id is no longer connected; a failure returns false with the earlier steps done; no other id changes its connection state |
| TelegramService.NormalizePhone | src/telegram/telegram.service.ts:41-46 | '+' followed by exactly the digits of the input; an input with no digit is an error |
| TelegramService.DigitsNeverStartWithPlus | src/telegram/telegram.service.ts:45 | the branch that keeps a leading '+' is unreachable |
| TelegramService.NormalizePhoneIdempotent | src/telegram/telegram.service.ts:41-46 | normalising a normalised phone gives it back |
| TelegramService.ResolveEntity | src/telegram/telegram.service.ts:21-39 | empty input is an error; '@' takes the trimmed rest as username, an empty rest is an error; otherwise a letter or '_' takes the trimmed input as username; otherwise the input is a phone for normalizePhone |
| TelegramService.UsernameCharSurvivesTrim | src/telegram/telegram.service.ts:32-33 | a username found by the letter test is never empty after trimming |
| TelegramService.SendMessage | src/telegram/telegram.service.ts:79-136 | missing credentials or a blank message fail before any client exists; a client, once created, is always disconnected last; success exactly when connecting, resolving, lookup and delivery all succeed, in that order |
| TelegramService.BlankMessageCreatesNoClient | src/telegram/telegram.service.ts:91-93 | an empty or whitespace-only message makes no client call |
| TelegramLoginScene.IsValidPhoneNumber | src/bot/scene/telegram-create-bot.scene.ts:337-341 | accepted exactly when '+', a non-zero digit, then only digits, 10 to 15 characters in all |
| TelegramLoginScene.IsValidCode | src/bot/scene/telegram-create-bot.scene.ts:122 | a code is 4 to 6 characters, all digits |
| TelegramLoginScene.MatchesPhonePattern | src/bot/scene/telegram-create-bot.scene.ts:339 | the pattern `^\+[1-9]\d{1,14}$`: '+', a non-zero digit, then one to fourteen digits |
| TelegramLoginScene.IsCancelText | src/bot/scene/telegram-create-bot.scene.ts:63-65 | the lowered text contains "отмена" or "cancel" |
| TelegramLoginScene.IsSkipText | src/bot/scene/telegram-create-bot.scene.ts:205 | the text is "skip" or its lowered form contains "пропустить" |
| TelegramLoginScene.ValidPhoneIsNormalized | src/bot/scene/telegram-create-bot.scene.ts:74-90 | an accepted phone is already what normalizePhone would make of it |
| TelegramLoginScene.DigitsAndPlusNeverCancel | src/bot/scene/telegram-create-bot.scene.ts:63-64 | text of digits and '+' never triggers cancel |
| TelegramLoginScene.AcceptedInputIsNotCancel | src/bot/scene/telegram-create-bot.scene.ts:54-71 | no acceptable phone or code is read as "/start" or as a cancel request |
| TelegramLoginScene.SignInErrorStep | src/bot/scene/telegram-create-bot.scene.ts:161-196 | first match on the message: SESSION_PASSWORD_NEEDED to the password step, PHONE_CODE_INVALID to the code step, PHONE_CODE_EXPIRED to the phone step, anything else to the code step |
| TelegramLoginScene.NoMarkerRetriesCode | src/bot/scene/telegram-create-bot.scene.ts:161-196 | a message without upper-case Latin letters goes back to the code step |
| TelegramLoginScene.MissingDataRetriesCode | src/bot/scene/telegram-create-bot.scene.ts:158-160 | the missing-data error goes back to the code step |
| TelegramLoginScene.SavedBy | src/bot/scene/telegram-create-bot.scene.ts:246-328 | a session string is stored exactly when one is returned and saving succeeds |
| TelegramLoginScene.Scene.constructor | src/bot/scene/telegram-create-bot.scene.ts:7-14 | no login session, not in the scene, nothing stored |
| TelegramLoginScene.Scene.OnSceneEnter | src/bot/scene/telegram-create-bot.scene.ts:21-50 | the login session is created if absent, keeps its fields, and its step becomes phone input |
| TelegramLoginScene.Scene.CleanupSession | src/bot/scene/telegram-create-bot.scene.ts:330-335 | the login session is deleted |
| TelegramLoginScene.Scene.CompleteLogin | src/bot/scene/telegram-create-bot.scene.ts:246-328 | the session string is stored when available and saved; whatever happened, the login session is deleted and the scene left |
| TelegramLoginScene.Scene.OnPhoneText | src/bot/scene/telegram-create-bot.scene.ts:74-119 | a valid phone is stored and the step moves to code input, or back to phone input when sendCode fails; a returned code hash is stored; an invalid phone changes nothing |
| TelegramLoginScene.Scene.OnCodeText | src/bot/scene/telegram-create-bot.scene.ts:121-202 | only 4 to 6 digits are taken; with phone and code hash present, a user completes the login, no user moves to the password step, an error picks the step by its message; missing data goes back to the code step |
| TelegramLoginScene.Scene.OnPasswordText | src/bot/scene/telegram-create-bot.scene.ts:204-224 | the password is stored unless the text asks to skip; the login completes either way |
| TelegramLoginScene.Scene.OnText | src/bot/scene/telegram-create-bot.scene.ts:52-226 | "/start" leaves and keeps the session; a cancel word in any step deletes it and leaves; otherwise the current step's handler runs; the confirmation step ignores text |
| TelegramLoginScene.Scene.OnCallbackQuery | src/bot/scene/telegram-create-bot.scene.ts:228-244 | the cancel button deletes the session and leaves; skip completes the login; other data changes nothing |
| TelegramLoginScene.Scene.OnStart | src/bot/scene/telegram-create-bot.scene.ts:343-348 | deletes the session and leaves |
| WhatsappBotScene.AcceptedPhoneJid | src/bot/scene/whatsapp-create-bot.scene.ts:72-87 | a phone starting with "+7" and all digits after the '+' is addressed as itself without the '+' |
| WhatsappBotScene.IsAcceptedPhone | src/bot/scene/whatsapp-create-bot.scene.ts:72 | the phone test: starts with "+7" and is twelve UTF-16 code units long |
| WhatsappBotScene.IsCancelText | src/bot/scene/whatsapp-create-bot.scene.ts:61-63 | the lowered text contains "отмена" or "cancel" |
| WhatsappBotScene.AcceptedPhoneWithoutDigits | src/bot/scene/whatsapp-create-bot.scene.ts:72-87 | the phone test checks only the prefix and length: a phone starting with "+7" and no digit after that is addressed as "7@c.us" |
| WhatsappBotScene.PhoneWithoutDigitsIsAccepted | src/bot/scene/whatsapp-create-bot.scene.ts:72-87 | "+7abcdefghij" passes the phone test |
| WhatsappBotScene.AstralPhoneIsAccepted | src/bot/scene/whatsapp-create-bot.scene.ts:72 | `length` counts UTF-16 code units: "+7" and five emoji, seven characters, passes the twelve-unit test |
| WhatsappBotScene.Scene.constructor | src/bot/scene/whatsapp-create-bot.scene.ts:7-12 | no bot session, not in the scene, bound to the given service |
| WhatsappBotScene.Scene.OnSceneEnter | src/bot/scene/whatsapp-create-bot.scene.ts:19-46 | the bot session is created if absent, keeps its fields, and its step becomes phone input |
| WhatsappBotScene.Scene.OnText | src/bot/scene/whatsapp-create-bot.scene.ts:48-107 | "/start" and cancel words leave and keep the session; at the phone step text is accepted exactly when it starts with "+7" and is twelve UTF-16 code units long; at the message step any text is stored and the step becomes confirmation; at confirmation nothing changes |
| WhatsappBotScene.Scene.OnCallbackQuery | src/bot/scene/whatsapp-create-bot.scene.ts:109-143 | cancel leaves; confirm calls sendMessageWithQR exactly when phone and message are both set, with its outcome and its changes to the service as SendMessageWithQr states, and leaves in every case; without that call the service is untouched |
| WhatsappBotScene.Scene.OnStart | src/bot/scene/whatsapp-create-bot.scene.ts:145-150 | leaves and keeps the session |
| Users.FieldText | src/users/users.service.ts:14-26 | a missing, empty or zero field becomes ""; text is kept; other numbers become their decimal text |
| Users.WithPlus | src/users/users.service.ts:15-19 | a non-empty phone without '+' gets one prepended; an empty phone or one with '+' is unchanged |
| Users.WithPlusIdempotent | src/users/users.service.ts:15-19 | normalising twice is normalising once |
| Users.NormalizeClient | src/users/users.service.ts:13-29 | the record carries the given user id, the normalised phone, the text of the other fields, and proccesed only for a true flag |
| Users.SaveClients | src/users/users.service.ts:11-34 | one record per row, same length and order |
| Users.SavedClientsNormalized | src/users/users.service.ts:11-34 | each record carries the user id and a phone that is empty or starts with '+', which normalising again leaves unchanged |
| Users.NumericPhoneGetsPlus | src/users/users.service.ts:14-19 | a numeric phone is stored as '+' and its decimal digits |
| BotService.FirstMatch | src/bot/bot.service.ts:46-48 | the index of the first row with the Telegram id, or the table length |
| BotService.FindFirst | src/bot/bot.service.ts:46-48 | a matching row, and the first one: no earlier row has the id; none exactly when no row matches |
| BotService.GetUser | src/bot/bot.service.ts:39-51 | a truthy cache entry under "user:" and the id answers (parsed, or a parse error) and the database is not asked; otherwise the database's first match is returned |
| BotService.CacheShadowsDatabase | src/bot/bot.service.ts:39-51 | a cached user is returned whatever the database holds |
| BotService.Authorize | src/bot/bot.service.ts:137-142 | a menu action proceeds exactly when the lookup found a user; a failed parse makes it fail |
| BotService.NonBlank | src/bot/bot.service.ts:203 | the lines that are not blank, each as often as given, untrimmed, in order; no blank line |
| Strings.TrimIsSlice | src/bot/bot.service.ts:203 | `trim()` keeps one slice of its input and cuts away only whitespace on either side |
| Strings.Trim | src/bot/bot.service.ts:203 | `trim()` is no longer than its input and neither starts nor ends with whitespace |
| Strings.BlankIffAllWhitespace | src/bot/bot.service.ts:203 | `text.trim() !== ''` fails exactly when the text is empty or whitespace only |
| Strings.NonWhitespaceSurvivesTrim | src/telegram/telegram.service.ts:91 | a string holding any non-whitespace character is not empty after `trim()` |
| Strings.Filter | src/bot/bot.service.ts:203 | `filter` keeps the accepted elements, each as often as given, in order, and nothing else |
| Strings.Digits | src/whatsapp/whatsapp.service.ts:258 | `replace(/\D/g, '')` leaves only digits, each one of the input's digits, and is no longer than its input |
| Strings.ToLower | src/bot/scene/telegram-create-bot.scene.ts:64-65 | `toLowerCase` keeps the length and works character by character: no capital letter remains and every other character is kept in place |
| Strings.LowerChar | src/bot/scene/telegram-create-bot.scene.ts:64-65 | a capital letter becomes a small one, every other character is kept, and no capital letter comes out |
| Strings.ToLowerAppend | src/mailing/mailing.service.ts:221 | lowering a concatenation lowers each piece |
| Strings.ToLowerIdempotent | src/bot/bot.update.ts:61 | lowering twice is lowering once |
| Strings.Split | src/bot/bot.service.ts:201 | `split` gives at least one piece and no piece contains the separator |
| Strings.Utf16Length | src/bot/scene/whatsapp-create-bot.scene.ts:72 | `length` is at least the number of characters and at most twice it, and equals it when every character is in the Basic Multilingual Plane |
| BotService.TextsOfFile | src/bot/bot.service.ts:199-203 | each stored text is a non-blank '\n'-free line of the file, as often as the file has it, in order |
| BotService.TextsOfFileComplete | src/bot/bot.service.ts:199-209 | every non-blank line is stored as often as the file has it, and the lines rejoined give the file back |
| BotService.UploadLeadsTxt | src/bot/bot.service.ts:177-214 | an unknown sender or a missing message stores nothing; otherwise the file's texts are stored |
| BotService.UploadLeads | src/bot/bot.service.ts:136-175 | an unknown sender or a missing message does nothing; otherwise the rows are saved as processed for the sender, and both mailings start with the same rows and texts exactly when a text exists |
| BotService.UploadedClientsProcessed | src/bot/bot.service.ts:160 | every saved client is processed and belongs to the sender |
| BotUpdate.RouteAsWritten | src/bot/bot.update.ts:54-68 | as written, the handler throws exactly for a document without a file name |
| BotUpdate.IsSpreadsheetName | src/bot/bot.update.ts:61 | a name ending in ".xml" or ".xlsx" in any letter case |
| BotUpdate.IsTextName | src/bot/bot.update.ts:64 | a name ending in ".txt" in any letter case |
| BotUpdate.MissingFileNameThrows | src/bot/bot.update.ts:61 | a nameless document throws as written and is ignored by the corrected routing |
| BotUpdate.Route | src/bot/bot.update.ts:54-68 | corrected: at most one handler; uploadLeads exactly for a name ending in ".xml" or ".xlsx", uploadLeadsTxt exactly for ".txt", in any case |
| BotUpdate.SuffixesDisjoint | src/bot/bot.update.ts:60-66 | no name routes to both handlers |
| BotUpdate.AsWrittenAgreesWhenNamed | src/bot/bot.update.ts:54-68 | when a document has a file name, the as-written and corrected routing agree |
| BotUpdate.UpperCaseSpreadsheetRoutes | src/bot/bot.update.ts:61 | "LEADS.XLSX" goes to uploadLeads |
| BotUpdate.NoDocumentIgnored | src/bot/bot.update.ts:58 | a message without a document is ignored |
| TestWhatsapp.FormatJid | test-whatsapp.js:59-71 | the script's JID starts with '7' and ends with "@c.us" |
| TestWhatsapp.FormatJidAgrees | test-whatsapp.js:59-69 | the script's step-by-step digit part is the service's digit part |
| TestWhatsapp.FormatJidMatchesService | test-whatsapp.js:59-71 | the script's JID equals the service's formatPhoneNumber for every input |
| TestWhatsapp.SendCustomMessage | test-whatsapp.js:56-80 | never throws: true exactly for a defined phone and a delivered message; the message goes to the formatted JID |
| TestWhatsapp.ReconnectMatchesService | test-whatsapp.js:34-40 | the script and the service decide a reconnect the same way, which is refused only for status 401 (loggedOut) |
| TestWhatsapp.ShouldReconnect | test-whatsapp.js:35 | the script reconnects unless the status code is 401; a missing code reconnects |

## Left out

- I/O is not modelled: Baileys sockets and QR generation, gramjs, Prisma, Redis, axios downloads, the spreadsheet reader, and every `ctx.reply`, photo and keyboard. The result of each remote call is a parameter; its failure only where modelled.
- TelegramService.SendMessage: a rejected `client.disconnect()` in the `finally` block (src/telegram/telegram.service.ts:134) is not modelled. It would turn a delivered message into a thrown error, and so into a counted error in the batch; the model always disconnects successfully.
- Mailing.SendMessageTelegram: a rejected `telegramsUserbots.findMany` (src/mailing/mailing.service.ts:36) would end the Telegram batch before any send; the model always reads the table.
- Mailing.StartMessageWhatsapp: likewise a rejected `whatsappUserbots.findMany` (src/mailing/mailing.service.ts:116) is not modelled.
- BotService.UploadLeads: a rejected `texts.findMany` (src/bot/bot.service.ts:162) would end the upload before either mailing starts; the model always reads the texts.
- Users.SaveClients: a rejected `clients.createMany` (src/users/users.service.ts:31) would end the upload; the model always saves the rows.
- Telegram replies are assumed to succeed, with one exception. The QR text and photo that `sendMessageWithQR` sends (src/whatsapp/whatsapp.service.ts:238-239) are the `repliesSent` flag: when they fail the row is not saved and the error is rethrown. A failing reply anywhere else is not modelled.
- Real time is not modelled. `setTimeout` sleeps and the 30 s QR timeout are recorded as flags or delays. `waitUntilWorkingHours` is reduced to "waited or not". `Date.now` in session names is a parameter.
- Randomness is not modelled: each `Math.random` draw is an index or minute count already in range.
- Concurrency is not modelled: `uploadLeads` starts both mailings without awaiting them, and Baileys event callbacks may interleave.
- `healthCheckAllSessions` is not defined in `WhatsappService`, so what it does is not modelled. It is called twice. At src/mailing/mailing.service.ts:114 the call is unconditional and outside any `try`: whether it returns is the `healthCheckReturns` parameter of StartMessageWhatsapp, and when it throws (as calling a missing method would) the batch ends before any send. At line 202 the call sits in its own `try` whose `catch` only logs, so its outcome changes nothing and it is treated as doing nothing.
- `WhatsappService.loadExistingSessions` is never called, and `onModuleDestroy` only logs out at shutdown; neither is modelled.
- WhatsappService.Registry.CreateNewSession: the `'open'` event handler, which saves the session row a second time, is not modelled. The model saves the row once, through SendMessageWithQr.
- WhatsappService.Registry.ConnectSession: the close handler it installs is modelled once, as OnConnectionClose, not per socket.
- WhatsappBotScene.Scene.OnCallbackQuery: the test message is never passed on, because `sendMessageWithQR` never sends it.
- Mailing.SendMessageWhatsapp: `WhatsappService.sendMessage` catches every error of its own, so in this system only `Returned` occurs. The `Threw` cases model what `sendMessageWhatsapp` itself does with a thrown value; ReturningSendsCountNoError states that with returning sends no error is counted.
- Strings.ToLower folds only ASCII and the basic Cyrillic letters (А–Я, Ё); that covers "отмена", "cancel" and "Пропустить". Full Unicode case mapping is not modelled.
- Mailing.Client: the mailings take every client's phone as text. In the source they get the raw spreadsheet rows (src/bot/bot.service.ts:166-167), whose phone cell may also be a number or missing, as Users.Field allows. For such a cell the Telegram send throws in `resolveEntity` (src/telegram/telegram.service.ts:20-23): a missing or zero phone fails the `!phoneOrUsername` test, and any other number has no `startsWith`. The batch counts that as an error. The WhatsApp service's `sendMessage` throws at `phone.replace` (src/whatsapp/whatsapp.service.ts:258) inside its own `try`, and returns false with nothing sent. The model is handed a string instead, so it can count such a client as served, and a missing phone passed as "" is addressed as "7@c.us".
- Numbers are integers: JavaScript floating point is not modelled.
- String `length` is counted in UTF-16 code units only at the WhatsApp phone test (src/bot/scene/whatsapp-create-bot.scene.ts:72). The other tests (src/bot/scene/telegram-create-bot.scene.ts:122 and 340) also check their text against an ASCII-only pattern, so for them code units and characters agree.
- `DisconnectReason.loggedOut` is taken as 401, its value in Baileys; the Baileys source is not part of this model.
- TelegramLoginScene.Scene.OnText: both "/start" paths are modelled. The one in `onText` leaves without deleting the session; the separate `/start` hears handler (OnStart) deletes it. Which one fires is up to Telegraf.
- The Excel import/export service, the Redis and database wrappers, the gramjs singleton in `api.ts` and the module wiring are not modelled.

## Findings

| source | as written | input that shows it | evidently intended | confidence | as-written member | corrected member |
|---|---|---|---|---|---|---|
| src/bot/bot.update.ts:61 | `fileName && A \|\| B` groups as `(fileName && A) \|\| B`, so `B` calls `toLowerCase` on `undefined` | a document whose `file_name` is undefined: the handler throws a TypeError | `fileName && (A \|\| B)`: a nameless document is ignored | high, not executed | BotUpdate.RouteAsWritten, BotUpdate.MissingFileNameThrows | BotUpdate.Route, BotUpdate.AsWrittenAgreesWhenNamed |
| src/mailing/mailing.service.ts:264-281 | before 21:00 the next working time is the current hour plus one, also before 08:00, when that hour is still outside the window | hour 3, minute 47: returns "04:47", outside the 09:00–21:00 window | the first time inside the window: 09:00 when outside it | medium, not executed | Mailing.NextWorkingClockAsWritten, Mailing.NextWorkingTimeAsWrittenLeavesWindow | Mailing.NextWorkingClock, Mailing.NextWorkingClockIsFirst |
