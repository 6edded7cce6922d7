# Telegram ChatGPT / weather bot: the decision layer

The bot `telegram_chatgpt_bot.py` serves a Telegram chat. It has a two-button
main menu: one button opens a ChatGPT mode, the other sends the weather in
Phuket. Every handler first checks the user against an allow-list. This
project models the deterministic part of the bot as Dafny functions and
proves properties of it. The modelled part is:

- the admission rule `is_user_allowed` (module `Auth`);
- the conversation state machine (module `Conversation`). It has the states
  `MAIN_MENU` and `CHATGPT_MODE` and the end of the conversation. The
  handlers are `start`, `handle_main_menu` and `handle_chatgpt_message`, and
  the conversation handler built in `main` dispatches updates to them;
- the reply chosen by `weather_command` and the emoji classifier
  `get_weather_emoji` (module `Weather`);
- the request sent to the completion endpoint and the reply made of its
  answer (module `Completion`);
- the Python string built-ins these depend on: `str.lower()`, the substring
  test `k in s` and `str.strip()` (module `Text`).

Each handler is a function of the allow-list and the user id. The two text
handlers also take the message text and the outcomes of the external calls.
The dispatch `Conversation.Step` takes the session as well and picks the
handler from it. Each returns the next session, the replies sent and the provider requests made
(`Conversation.Outcome`). Replies are message keys (`Messages.MessageKey`),
a plain text, or a weather report. The three button labels are the
source's exact strings. The outcomes of the external calls are inputs, not
computed:

- the `WEATHERAPI_KEY` setting;
- the weather round trip: it fails, or it returns all fields, or a field is
  missing or malformed;
- the completion call: it raises, or it returns content, or the content is
  null.

`Conversation.Trace` runs a chat's updates one after another. The lemmas
about whole conversations are stated over it.

Three behaviours of the code that the model keeps:

- A refused user's conversation is ended (`ConversationHandler.END`). It is
  not left in its state.
- A text that arrives before `/start`, or after the conversation ended,
  matches no handler and gets no reply.
- `/start` is both the entry point and the fallback. It is handled the same
  way from every state. `cancel` is never registered, so it is not part of
  the behaviour.

A remark on the classifier: every keyword is in English, but the weather
request asks for `lang=ru`. For a condition text without Latin letters, as
a Russian text would be, the emoji is always the default one
(`Weather.NonLatinTextGetsDefault`). Whether the provider really sends
Russian texts is outside the model.

## Model

| member | source | states |
|---|---|---|
| `Auth.IsUserAllowed` | telegram_chatgpt_bot.py:60-62 | an empty allow-list admits every id; a non-empty one admits an id iff it is listed |
| `Auth.AdmittedIsPopulationOrIntersection` | telegram_chatgpt_bot.py:62 | over any set of users, the admitted ones are all of them (empty list) or exactly those in the list |
| `Auth.FirstEntryRestricts` | telegram_chatgpt_bot.py:62 | the empty list admits a user whom a one-element list of another id refuses |
| `Auth.GrowingNonEmptyListAdmitsMore` | telegram_chatgpt_bot.py:62 | a user admitted by a non-empty list is admitted by every larger list |
| `Messages.ButtonsDistinct` | telegram_chatgpt_bot.py:32-34 | the three button labels are pairwise different, so the handlers' text tests never overlap |
| `Text.Lower` | telegram_chatgpt_bot.py:175 | lower-casing keeps the length and maps each character on its own |
| `Text.LowerHasNoUpper` | telegram_chatgpt_bot.py:175 | after lower-casing, no A-Z and no U+0400-U+042F capital is left |
| `Text.LowerIdempotent` | telegram_chatgpt_bot.py:175 | lower-casing twice is the same as lower-casing once |
| `Text.LowerAppend` | telegram_chatgpt_bot.py:175 | lower-casing a concatenation lower-cases each part |
| `Text.Contains` | telegram_chatgpt_bot.py:177-190 | `k in s` holds only when `k` is no longer than `s` |
| `Text.ContainsInfix` | telegram_chatgpt_bot.py:177 | `k in a + k + b` holds for all `a`, `b` |
| `Text.MissingCharExcludes` | telegram_chatgpt_bot.py:177 | if `s` lacks a character of `k`, then `k in s` is false |
| `Text.ContainsTransitive` | telegram_chatgpt_bot.py:179-181 | a string that contains `k` contains every substring of `k` |
| `Text.TrimStart` | telegram_chatgpt_bot.py:159 | the result is a suffix of the input; everything dropped is whitespace; the result does not start with whitespace |
| `Text.TrimEnd` | telegram_chatgpt_bot.py:159 | the result is a prefix of the input; everything dropped is whitespace; the result does not end with whitespace |
| `Text.Strip` | telegram_chatgpt_bot.py:159 | the result is no longer than the input and neither starts nor ends with whitespace; a string without whitespace at its ends is unchanged; an all-whitespace string becomes empty |
| `Text.StripSlice` | telegram_chatgpt_bot.py:159 | `strip()` keeps a contiguous slice, removes only whitespace on both sides, and leaves no whitespace at either end |
| `Text.StripIdempotent` | telegram_chatgpt_bot.py:159 | stripping twice is the same as stripping once |
| `Weather.WeatherEmoji` | telegram_chatgpt_bot.py:173-192 | the classifier always returns one of the eight listed emoji |
| `Weather.EmojiIsFirstMatch` | telegram_chatgpt_bot.py:175-192 | the if/elif chain equals a first-match search over the ordered keyword table, applied to the lower-cased text |
| `Weather.FirstMatchIsRule` | telegram_chatgpt_bot.py:177-190 | for a table with distinct emoji, the search gives rule i's emoji iff rule i applies and no earlier rule does |
| `Weather.FirstMatchIsOtherwise` | telegram_chatgpt_bot.py:191-192 | for a table with distinct emoji, the search gives the default iff no rule applies |
| `Weather.RulesHaveDistinctOutcomes` | telegram_chatgpt_bot.py:177-192 | the eight emoji are pairwise distinct |
| `Weather.EmojiFirstMatchWins` | telegram_chatgpt_bot.py:177-190 | the result is rule i's emoji iff a keyword of rule i occurs in the lower-cased text and no keyword of an earlier rule does |
| `Weather.EmojiDefaultIffNoKeyword` | telegram_chatgpt_bot.py:191-192 | the default emoji is returned iff no keyword occurs in the lower-cased text |
| `Weather.EmojiCaseInsensitive` | telegram_chatgpt_bot.py:175 | lower-casing the condition text first does not change the emoji |
| `Weather.SunnyOrClearBeatsAll` | telegram_chatgpt_bot.py:177-178 | any text with "sunny" or "clear" gets the sun, whatever else it contains |
| `Weather.PartlyCloudyIsNotCloudy` | telegram_chatgpt_bot.py:179-182 | a text with "partly cloudy" (and no sunny/clear) also contains "cloudy", yet gets the partly-cloudy emoji, not the cloud |
| `Weather.RainBeatsThunder` | telegram_chatgpt_bot.py:183-186 | a text with both "rain" and "thunder" and no earlier keyword gets the rain emoji |
| `Weather.OvercastBeatsFog` | telegram_chatgpt_bot.py:181-190 | a text with "overcast" and no sunny/clear/partly cloudy gets the cloud, even if it mentions fog |
| `Weather.NonLatinTextGetsDefault` | telegram_chatgpt_bot.py:175-192 | a condition text with no Latin letter always gets the default emoji |
| `Weather.EmojiOfPartlyCloudy` | telegram_chatgpt_bot.py:179-180 | "Partly cloudy" gives the partly-cloudy emoji |
| `Weather.EmojiOfHeavyRain` | telegram_chatgpt_bot.py:183-184 | "Heavy rain" gives the rain emoji |
| `Weather.EmojiOfClear` | telegram_chatgpt_bot.py:177-178 | "Clear" gives the sun |
| `Weather.EmojiOfUnknownCondition` | telegram_chatgpt_bot.py:191-192 | "Unknown condition" gives the default emoji |
| `Weather.WeatherUrl` | telegram_chatgpt_bot.py:223-224 | the URL starts with the `current.json?key=` endpoint, has the key right after that prefix and ends with `&q=Phuket,Thailand&lang=ru`; it contains the key and the location |
| `Weather.WeatherUrlInjective` | telegram_chatgpt_bot.py:224 | distinct keys give distinct URLs |
| `Weather.HasKey` | telegram_chatgpt_bot.py:210-211 | an unset or empty `WEATHERAPI_KEY` counts as no key; any non-empty value counts as a key |
| `Weather.WeatherCommand` | telegram_chatgpt_bot.py:194-267 | own admission check first; with no key (unset or empty), the static note and no request; with a key, exactly one request to the key's URL, then a report with the provider's fields and the classifier's emoji when the body is complete, and the weather error otherwise |
| `Completion.BuildRequest` | telegram_chatgpt_bot.py:148-156 | the request names `gpt-3.5-turbo`, 1000 tokens and temperature 0.7, and holds a system turn followed by one user turn whose content is the text |
| `Completion.RequestCarriesTextVerbatim` | telegram_chatgpt_bot.py:148-156 | the request has the fixed system turn and the user's text verbatim as the only user turn; it depends on nothing else |
| `Completion.CompletionReply` | telegram_chatgpt_bot.py:159-169 | the reply is the error text iff the call raised or returned null content; otherwise it is the stripped content |
| `Completion.AnswerIsTrimmedSlice` | telegram_chatgpt_bot.py:159-162 | a successful answer is sent as a contiguous slice of the content, with no whitespace at either end |
| `Conversation.StartHandler` | telegram_chatgpt_bot.py:79-91 | refusal and end for a refused user; otherwise the welcome and the main menu, with no provider call |
| `Conversation.HandleMainMenu` | telegram_chatgpt_bot.py:93-119 | refusal and end for a refused user; the ChatGPT button enters ChatGPT mode with its message; the weather button stays in the menu with the note, a report or the weather error (never the refusal), making a request iff a key is set; any other text stays and re-sends the welcome |
| `Conversation.HandleChatGptMessage` | telegram_chatgpt_bot.py:121-171 | refusal and end for a refused user; the back button returns to the menu; any other text is sent verbatim in one request and stays in ChatGPT mode whatever the outcome, replying with the answer or the error text |
| `Conversation.Step` | telegram_chatgpt_bot.py:294-305 | a refused user is never served and causes no request; every handled update gets exactly one reply, an unhandled one none; `/start` resets an admitted user to the menu from every session; ChatGPT mode is reached iff an admitted user presses the ChatGPT button in the menu or sends a non-back text in ChatGPT mode |
| `Conversation.Trace` | telegram_chatgpt_bot.py:294-305 | one outcome per update; the first is the step from the starting session, each later one the step from the session the previous outcome left |
| `Conversation.TraceSteps` | telegram_chatgpt_bot.py:294-305 | each outcome of a conversation is the step taken from the session the previous update left |
| `Conversation.RefusedUserNeverServed` | telegram_chatgpt_bot.py:79-128 | over any sequence of updates, a refused user never reaches ChatGPT mode, never causes a request and gets only the refusal |
| `Conversation.AdmittedUserStaysActive` | telegram_chatgpt_bot.py:79-171 | an admitted user's started conversation is never ended by the bot |
| `Conversation.ChatGptModeNeedsButton` | telegram_chatgpt_bot.py:103-108 | a conversation that did not start in ChatGPT mode is in it only after the ChatGPT button was pressed at some earlier or current update |
| `Conversation.StartForgetsSession` | telegram_chatgpt_bot.py:294-305 | after `/start`, the rest of an admitted user's conversation does not depend on the session it started from |

## Left out

- Telegram transport and UI: `Update`, `reply_text`, `send_chat_action`, the two reply keyboards, `Application` and polling. This is platform I/O. Replies are modelled by message key or text, without keyboards.
- Completion.CompletionReply: failures of the platform calls inside the `try` blocks are not modelled. A failing "typing" action or a refused `reply_text` (for example, an answer that is empty after stripping) would make the bot send the error text instead. The model treats every platform call as succeeding.
- The OpenAI client call and the weather HTTP GET with its JSON decoding. These are network and library calls; only their outcomes appear, as inputs.
- Weather.WeatherCommand: the report keeps city, country, condition text and emoji only. Temperature, feels-like, humidity, wind in m/s, UV index and the clock time are floating-point numbers or the clock, and the report's layout is not modelled.
- Environment and dotenv loading, the parsing of `ALLOWED_USER_IDS` with `int()`, and the startup checks of the bot and OpenAI credentials. The allow-list is a given finite set of ids, and the weather key is an optional string.
- Logging, including the user's display name, which is used only for logging.
- Async scheduling, and updates of other chats, which share nothing but the allow-list.
- Commands other than `/start` and non-text updates: they match no handler in any state and are not events of the model.
- `cancel`: it is defined but never registered, so it has no behaviour.
- Text.Lower: models `str.lower()` on ASCII and on the Cyrillic capitals U+0400-U+042F. Every other character is left unchanged. Python also lower-cases other scripts, U+212A (to `k`) and U+0130 (to `i` plus U+0307). None of those can complete one of the Latin keywords of the classifier.
- Conversation.Step: the conversation is one chat's session. The handler's table of sessions keyed by chat and user is not modelled.
