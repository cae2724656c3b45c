# A verified model of a Telegram chat-relay bot

`bot.py` is a Telegram bot that relays users' messages, together with their
stored conversation, to a hosted language model (Qwen through `dashscope`)
and sends the answer back. It keeps three PostgreSQL tables:

- `allowed_users`, the allow-list;
- `invite_codes`, one row per code with a `used` flag;
- `user_context`, one serialised conversation per chat.

Access is gained by redeeming an invite code with `/request_access`, or
through an admin's `/add_user`. Admins (`ADMIN_IDS`) can also generate codes
with `/generate_invite` or the `/admin` menu's buttons. `/clearhistory`
deletes the chat's stored conversation.

The model consists of five modules, plus `Sequences` (sequences.dfy), which holds the general facts about sequences that their proofs share:

- `Text` (text.dfy) covers the string handling the bot relies on: Python's
  `strip`, `split("\n")`, `replace(p, "")`, `in`, `startswith` and `int`. It
  also holds the two formatting helpers, `clean_markdown` and
  `format_list_as_markdown`. The helpers are pure functions, and the
  accumulating loop of `format_list_as_markdown` is a method proved against
  them.
- `Chunking` (chunking.dfy) holds the loop of `send_message_in_chunks` as a
  method. It is proved to send exactly the slices `content[i:i+size]`, which
  put back together give the content, are each between 1 and `size`
  characters long, and number `ceil(len/size)`.
- `Invites` (invites.dfy) is `generate_invite_code`. The random picks are a
  parameter `draw`.
- `Store` (store.dfy) has the tables as a value `Db` and one function per SQL
  statement the bot issues. `Database` is a class whose fields are the three
  tables. It has one method per coroutine or inline query, each proved to change its fields
  exactly as the function says.
- `Bot` (bot.dfy) has two layers:
  - each handler is a step function from the tables to a `Reply` and the new
    tables;
  - each handler is also a method over a `Database` that issues the same
    queries in the source's order and is proved to agree with its step.

  `Dispatch` is the routing of `main`, and `RunPolling` runs a finite
  sequence of updates. The step functions' contracts carry three kinds of
  rule:
  - the admin gate;
  - the group filter;
  - what is stored and sent for each branch.
- `BotProperties` (bot_properties.dfy) proves properties of whole runs:
  - the allow-list and the set of codes only grow, and used codes stay used;
  - access comes only from an invite or an admin;
  - every code grants access at most once;
  - a conversation only grows unless the chat clears it;
  - stored conversations are whole user/assistant exchanges;
  - the invite scenario works end to end.

## Model

| member | source | states |
|---|---|---|
| Text.LeadingSpace | bot.py:171-176 | the number of leading `isspace` characters: all of them are whitespace, and the next one is not |
| Text.TrailingSpace | bot.py:171-176 | the number of trailing `isspace` characters: all of them are whitespace, and the one before is not |
| Text.Strip | bot.py:171-176 | `str.strip()` is no longer than its input; it is empty iff the input is all whitespace; otherwise it neither starts nor ends with whitespace |
| Text.StripSlice | bot.py:171-176 | the stripped text is the slice of the input after its leading whitespace, and only whitespace follows that slice |
| Text.StripUnpadded | bot.py:171-176 | stripping text without surrounding whitespace returns it unchanged |
| Text.StripIdempotent | bot.py:170-176 | `strip` is idempotent |
| Text.Contains | bot.py:303 | `p in s` holds iff `p` occurs at some index of `s` |
| Text.StartsWith | bot.py:171-173 | `s.startswith(p)`: `p` is the first `len(p)` characters of `s`. A predicate without a contract of its own; `DashLine`, `DashFirst`, `PlainLine` and `PassesGroupFilter` use it |
| Text.RemoveAll | bot.py:312 | `s.replace(p, "")` never grows the text |
| Text.RemoveAllAbsent | bot.py:312 | text in which `p` does not occur comes back unchanged |
| Text.RemoveAt | bot.py:312 | when `p` first occurs at index `i`, the text before `i` is kept, that occurrence is dropped, and removal resumes right after it |
| Text.RemoveLeading | bot.py:312 | a leading `p` is dropped and removal resumes right after it |
| Text.RemoveFirst | bot.py:312 | the first occurrence of `p` is deleted, the text before it is kept, and the scan resumes right after it, so removal is left to right and non-overlapping |
| Text.CleanMarkdown | bot.py:164-165 | `clean_markdown` leaves no backslash, keeps the count of every other character, and shortens the text by exactly its number of backslashes |
| Text.CleanMarkdownAppend | bot.py:164-165 | cleaning distributes over concatenation, so the kept characters stay in their order |
| Text.CleanMarkdownKeeps | bot.py:164-165 | text without backslashes is unchanged by `clean_markdown`, so cleaning twice is cleaning once |
| Text.Split | bot.py:169 | `split("\n")` yields one piece more than there are newlines; no piece holds a newline; joining the pieces with "\n" gives the input back |
| Text.SplitJoin | bot.py:169 | the other round trip: joining newline-free lines and splitting gives the lines back |
| Text.SplitAfterPrefix | bot.py:169 | newline-free text put in front of a string joins the first piece of the split |
| Text.SplitNewline | bot.py:169 | a leading newline adds an empty first piece |
| Text.JoinSnoc | bot.py:169 | joining one more line appends "\n" and that line |
| Text.StripLine | bot.py:170-176 | stripping a newline-free line leaves it newline-free |
| Text.FormatLineIsLine | bot.py:170-176 | formatting one line never introduces a line break |
| Text.DashLine | bot.py:171-172 | a line "-" + rest becomes the bullet and the stripped rest |
| Text.DashFirst | bot.py:171-172 | a line whose stripped form starts with "-" becomes the bullet and the strip of everything after the line's first character |
| Text.IndentedDashLine | bot.py:171-172 | an indented "- item" keeps its dash: `line[1:]` drops the first blank, so the output is the bullet followed by "- item" stripped |
| Text.IndentedStrip | bot.py:171-172 | an indented dash line and that line without its first blank both strip to the item |
| Text.DashedStrip | bot.py:170-172 | blanks in front of a dash are stripped, and the dash stays first |
| Text.FormatLine | bot.py:171-176 | one line of `format_list_as_markdown`. No contract of its own; `DashFirst`, `DashLine`, `IndentedDashLine` and `PlainLine` state its two branches, and `FormatLineIsLine` that it adds no newline |
| Text.LeadingSpaceAfterSpace | bot.py:171-176 | whitespace put in front of text adds its length to the leading whitespace |
| Text.StripAfterBlank | bot.py:171-176 | `strip` ignores one whitespace character put in front of text |
| Text.StripAfterSpace | bot.py:171-176 | `strip` ignores whitespace put in front of text |
| Text.PlainLine | bot.py:173-176 | every line whose stripped form does not start with "-" is output stripped (numbered items included), with no surrounding whitespace |
| Text.FormatEach | bot.py:170-176 | one formatted line per input line, position by position |
| Text.FormatList | bot.py:167-177 | the value `format_list_as_markdown` returns. No contract of its own; `FormatListLines` states its lines and newlines, and `FormatListAsMarkdown` proves the loop equal to it |
| Text.TerminatedJoin | bot.py:168-177 | terminating every piece with "\n" is joining them with "\n" plus a final "\n" |
| Text.FormatListLines | bot.py:167-177 | the output, split on "\n", is the formatted input lines followed by one empty piece; the output has one more newline than the input |
| Text.FormatListAsMarkdown | bot.py:167-177 | the accumulating loop returns exactly `FormatList` of its input, with the line and newline properties above |
| Text.ShowNat | bot.py:230 | `str(n)` of a natural number is a non-empty digit string whose value is `n` |
| Text.ParseInt | bot.py:228 | `int(args[0])`. No contract of its own; `ParseShow` states `int(str(n)) == n` and `ParseRejectsDigitless` the error case |
| Text.ParseShow | bot.py:228-230 | `int(str(n)) == n` for every integer |
| Text.ParseRejectsDigitless | bot.py:228 | `int` of text without any digit raises (`None`) |
| Chunking.ChunksFromConcat | bot.py:359-360 | the slices from offset `i` put back together are `content[i:]` |
| Chunking.ChunksFromSizes | bot.py:359-360 | no slice is empty or longer than `max_chunk_size` |
| Chunking.ChunksFrom | bot.py:359-360 | the slices `content[i:i+size]` from offset `i` on. No contract of its own; `ChunksFromConcat`, `ChunksFromSizes` and `ChunkBounds` state it |
| Chunking.Chunks | bot.py:359-360 | the slices at offsets 0, `size`, 2·`size`, …. No contract of its own; `ChunksCover`, `ChunkCount` and `ChunkAt` state it |
| Chunking.ChunksCover | bot.py:358-361 | the chunks put back together are the content, and each holds between 1 and `max_chunk_size` characters |
| Chunking.ChunkBounds | bot.py:359 | the chunks from `i` are the fewest `size`-long pieces that cover `content[i:]` |
| Chunking.ChunkCount | bot.py:359 | there are `ceil(len/size)` chunks, and none exactly when the content is empty |
| Chunking.ChunkAt | bot.py:359-360 | chunk `k` is the slice starting at offset `k * size` |
| Chunking.SendMessageInChunks | bot.py:358-361 | the loop sends exactly `Chunks(content, size)`, which concatenate to the content and are each 1 to `size` long |
| Invites.IndexOf | bot.py:112 | every ASCII letter or digit sits in the alphabet, at the returned index |
| Invites.Alphabet | bot.py:112 | `string.ascii_letters + string.digits`. No contract of its own; `AlphabetIsAlphanumeric` states it is exactly the 62 ASCII letters and digits, and `IndexOf` where each sits |
| Invites.AlphabetIsAlphanumeric | bot.py:112 | the alphabet `ascii_letters + digits` has 62 characters, which are exactly the ASCII letters and digits |
| Invites.GenerateInviteCode | bot.py:111-113 | the code has `length` characters, each an ASCII letter or digit |
| Invites.EveryCodeCanBeDrawn | bot.py:111-113 | every alphanumeric string is the code for some sequence of picks |
| Store.Grant | bot.py:85-88 | after the insert the id is allowed; nothing else joins the list, and the other tables are unchanged |
| Store.Redeemable | bot.py:99-100 | the `SELECT ... WHERE code = $1 AND used = FALSE` finds a row: the code exists and is unused. No contract of its own; `UseCode`, `CheckInviteCode` and `RequestAccessStep` are stated through it |
| Store.UseCode | bot.py:96-103 | an unused code becomes used, after which it is no longer redeemable; any other code leaves the store unchanged; other codes and tables are untouched |
| Store.StoreInvite | bot.py:116-126 | an existing code (used or not) leaves the store unchanged; a new one is inserted unused; existing codes keep their flag |
| Store.LoadContext | bot.py:150-156 | a chat without a stored conversation reads as `[]` |
| Store.StoreContext | bot.py:136-142 | the upsert: the chat then reads back exactly what was saved, and every other chat reads as before |
| Store.DropContext | bot.py:195 | the delete: the chat then reads as `[]`, and every other chat reads as before |
| Store.Database.IsUserAllowed | bot.py:73-82 | true iff the id is on the allow-list |
| Store.Database.AddUserToAllowedList | bot.py:85-93 | the fields change as `Grant` says |
| Store.Database.CheckInviteCode | bot.py:96-108 | returns true iff the code was redeemable; the fields change as `UseCode` says |
| Store.Database.SaveInviteCode | bot.py:116-131 | the fields change as `StoreInvite` says |
| Store.Database.SaveContext | bot.py:136-146 | the fields change as `StoreContext` says |
| Store.Database.GetContext | bot.py:150-161 | returns `LoadContext` of the tables |
| Store.Database.DeleteContext | bot.py:195 | the fields change as `DropContext` says |
| Store.Database.AllowedUsers | bot.py:280 | returns the allow-list |
| Bot.StartStep | bot.py:180-185 | greets iff the chat is allowed, and refuses otherwise |
| Bot.ClearHistoryStep | bot.py:188-202 | a chat not on the list is refused with nothing changed; otherwise its conversation is gone and every other chat's is kept |
| Bot.RequestAccessStep | bot.py:205-216 | no argument is a usage reply; otherwise access is granted iff the code is redeemable, in which case the chat joins the list, the code is marked used and every other code keeps its flag; otherwise nothing changes |
| Bot.AddUserStep | bot.py:219-230 | a non-admin is refused; a missing argument gets a usage reply; an argument `int` cannot read raises with nothing changed; otherwise the parsed id joins the list and is echoed |
| Bot.NewInvite | bot.py:237-243 | the drawn code is reported and is in the table; a new code is stored unused; an existing code leaves the table unchanged |
| Bot.GenerateInviteStep | bot.py:233-244 | a non-admin is refused with nothing changed; for an admin, the step is `NewInvite`: an 8-character alphanumeric code is reported and stored unused unless it already existed, and no other code changes |
| Bot.AdminMenuStep | bot.py:247-260 | the menu is shown iff the chat is an admin's, and refused otherwise |
| Bot.ButtonStep | bot.py:263-294 | a non-admin is refused; "generate_invite" acts like `/generate_invite`; "view_users" lists the allow-list, or says it is empty iff it is; "close_menu" closes; no button other than "generate_invite" changes the tables |
| Bot.Mention | bot.py:303 | the mention is "@" followed by exactly the username |
| Bot.PassesGroupFilter | bot.py:301-304 | in a group or supergroup, the text must mention the bot or start with "/"; other chats always pass. No contract of its own; the first three ensures of `MessageStep` state the gate |
| Bot.Prompt | bot.py:312-321 | the prompt has no backslash and is no longer than the message |
| Bot.Request | bot.py:315-329 | the conversation sent to the model is the stored one followed by the prompt as the user's turn |
| Bot.CleanAnswer | bot.py:335-336 | the answer as sent and stored has no backslash |
| Bot.MessageStep | bot.py:296-355 | group messages without a mention or "/" are ignored, and non-allowed chats are refused, both with nothing changed. It answers iff the model returns an output. The chunks are then the 4096-character slices of the cleaned answer at offsets 0, 4096, …, which concatenate to it and are each 1 to 4096 long. No output from the model is the "API unavailable" reply and an exception the "request failed" reply. The stored conversation becomes the old one plus the user turn and exactly that answer. Otherwise nothing is stored, and no other chat or table changes |
| Bot.Step | bot.py:367-375 | no update takes an id off the allow-list, removes a code, or turns a used code back to unused |
| Bot.Start | bot.py:180-185 | performs `StartStep` |
| Bot.ClearHistory | bot.py:188-202 | performs `ClearHistoryStep` on the store |
| Bot.RequestAccess | bot.py:205-216 | performs `RequestAccessStep` on the store |
| Bot.AddUser | bot.py:219-230 | performs `AddUserStep` on the store |
| Bot.AdminMenu | bot.py:247-260 | performs `AdminMenuStep` |
| Bot.CreateInvite | bot.py:237-243 | performs `NewInvite` on the store |
| Bot.GenerateInvite | bot.py:233-244 | performs `GenerateInviteStep` on the store |
| Bot.ButtonHandler | bot.py:263-294 | performs `ButtonStep` on the store |
| Bot.HandleMessage | bot.py:296-355 | performs `MessageStep` on the store, through `FormatListAsMarkdown` and `SendMessageInChunks` |
| Bot.Dispatch | bot.py:367-375 | routes each update to its handler, with the effect of `Step` |
| Bot.RunPolling | bot.py:378 | after a run of updates the tables are `Run` of them and the replies are `Replies` of them |
| BotProperties.RunOnlyAdds | bot.py:85-131 | over any run, the allow-list and the set of codes only grow, and used codes stay used |
| BotProperties.AccessOnlyByInviteOrAdmin | bot.py:205-230 | an id joins the allow-list only by redeeming a redeemable code for its own chat, or by an admin's `/add_user` whose argument reads as that id |
| BotProperties.UsedCodeNeverRedeemed | bot.py:96-103 | a used code is never redeemed in any later run |
| BotProperties.RedeemedAtMostOnce | bot.py:96-103 | over any run, each code grants access at most once |
| BotProperties.StepKeepsHistory | bot.py:318-347 | without a `/clearhistory` from the chat, a step only extends the chat's conversation |
| BotProperties.HistoryOnlyGrows | bot.py:318-347 | without a `/clearhistory` from the chat, the stored conversation at the start of a run is a prefix of the one at its end |
| BotProperties.AlternatesAppend | bot.py:322-346 | appending a user turn and an assistant turn keeps a conversation made of whole exchanges |
| BotProperties.MessageKeepsExchanges | bot.py:322-347 | relaying a message keeps every stored conversation made of whole exchanges: at most one user/assistant pair is appended, to the message's own chat |
| BotProperties.StepKeepsExchanges | bot.py:322-347 | every step keeps every stored conversation a sequence of user/assistant exchanges |
| BotProperties.RunKeepsExchanges | bot.py:322-347 | so does every run |
| BotProperties.RunFromEmptyKeepsExchanges | bot.py:322-347 | every run that starts from the empty store stores only conversations of whole user/assistant exchanges |
| BotProperties.InviteScenario | bot.py:205-244 | an admin generates a code that is new to the table. The first request with it is granted and the second is refused, and only the first requester joins the list |
| BotProperties.PromptOfPlainText | bot.py:312-321 | a message without a mention and without backslashes reaches the model just stripped |
| BotProperties.PromptOfLeadingMention | bot.py:312-321 | a message "@username" + text, with no further mention, reaches the model as the text stripped and without backslashes |

## Left out

- Telegram transport is not modelled. An update arrives as an `Update` value, and what the bot sends or edits is a `Reply` value. Several things are left out:
  - message texts and keyboards;
  - `query.answer()`;
  - the "typing" message and its deletion;
  - any failure of Telegram calls.
- The database connection and its errors are not modelled. The model leaves out two things:
  - `get_db_connection`, with its connection parameters and closing;
  - every path where a statement raises.

  Each such path is caught and logged; `is_user_allowed` and `check_invite_code` then report False, and `get_context` reports `[]`. The `except` branch of `clear_history` catches a failing `DELETE`. The `except` branch of `generate_invite` never sees a storage error, because `save_invite_code` catches every exception itself.
- Bot.NewInvite: always stores the drawn code. In the bot, a storage error inside `save_invite_code` is only logged, so `/generate_invite` and the menu's button still report «Создан новый инвайт-код» ("new invite code created") for a code that was never stored; the model, which has no storage errors, does not capture that case.
- A duplicate insert into `allowed_users` violates the unique key, and the bot logs it. The model's set union leaves the table as it was, which has the same effect.
- `json.dumps`/`json.loads` of a conversation are taken as an exact round trip, so a conversation is stored as the list of turns itself.
- The language model is the `llm` function of an update. It receives the prompt and the conversation and answers with an output, no output, or an exception. Nothing about its behaviour is assumed. `QWEN_APP_ID` and the API key are not modelled.
- `random.choice` is the `draw` parameter of `GenerateInviteCode`, one pick per position, taken modulo 62. How uniform the picks are is not modelled.
- Concurrency is not modelled. The bot's handlers run as interleaved coroutines, and the select-then-update of `check_invite_code` and `save_invite_code` is not atomic. The model runs one update at a time, so `RedeemedAtMostOnce` holds for sequential runs only; two concurrent redemptions of one code could both succeed.
- The fallback in `handle_message` is not modelled. When sending the cleaned answer fails, the raw output is sent again in chunks. Sending is taken to succeed, and the conversation is stored as the source stores it.
- Logging and configuration are not modelled. The model leaves out the logger and the environment variables; `ADMIN_IDS` and the bot's username are the `Config`.
- Text.ParseInt: models `int` on ASCII decimal digits with an optional sign and surrounding whitespace. It does not model the underscores between digits or the non-ASCII decimal digits that Python's `int` also accepts, so those strings read as errors here.
- Chunking.SendMessageInChunks: requires `max_chunk_size > 0`, because `range` with step 0 raises. The bot always passes 4096.
- Text.FormatLine: the numbered-item branch ("1.", "2.", "3.") has the same output as the final `else`, exactly as in the source, so `PlainLine` states both together.
- Handler registration is not modelled. `handle_message` is registered for `filters.TEXT & ~filters.COMMAND`, so messages starting with "/" rarely reach it. The model keeps the group filter's `startswith('/')` test as written.
- Chat-level ids are used as in the source. Commands and messages use `message.chat_id`, so in a group both the access check and the admin check are made against the group's id. Buttons use the pressing user's id.
