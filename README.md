# acfunlive-neotool core, modelled in Dafny

This project models the core of acfunlive-neotool, a desktop toolbox for AcFun
live streamers. The core's parts and the Dafny that models each:

- **Backend session handshake** (`packages/session`).
  - The connection-state flag word exists in two versions: `session_flags.dfy` and `legacy_session_flags.dfy`.
  - The session object is in `backend.dfy`. It has a generation counter, a token cache, a user-info cache, a map of active streams and a set of wanted livers.
- **Keyboard plugin's key codec** (`plugins/keyboard/src/key.rs`).
  - Key names are in `key_names.dfy`: `Display` and `FromStr`.
  - `key_codec.dfy` has the serde visitor and the translation to the input simulator's keys.
- **Xunfei service validators.**
  - `spark.dfy` holds the Spark chat request checks and the response accessors.
  - `tts.dfy` holds the text-to-speech request checks.
- **Danmaku-keyboard macros.**
  - `keyboard_macro.dfy` models the current version.
  - `legacy_keyboard_macro.dfy` models the first version.
  - Both cover binding creation, replay with pauses, configuration normalisation, and the danmaku regular expression.
- **Danmaku-sticker lanes** (`stickers.dfy`). It chooses a vertical slot for a new sticker, keeps the list of stickers on screen sorted, and builds the trigger regular expression.
- **AI chat bookkeeping** (`ai_chat.dfy`): key storage, configuration patching, the prompt, the history window, and the chat state machine.
- **Audio source registry** (`audio.dfy`): the id counter and the map from id to audio bytes.

`wrappers.dfy`, `text.dfy` and `bit_flags.dfy` hold shared helpers. They cover `Option`/`Result`, joining strings, printing integers, UTF-8 length and 32-bit flag words.

Modelling conventions:

- JavaScript numbers that take part in arithmetic are `real`. Counts and ids are `int`.
- The session's flag word is a `bv32`, because JavaScript's bitwise operators work on 32 bits.
- A Rust `u32` is an `int` subset type, and its wrap-around is written out.
- Every `await` in the session and the chat is split into two steps:
  - a method that runs up to the request;
  - a method that receives the reply and runs the rest.

  Everything that can happen between the two is then an arbitrary sequence of events.
- Whether the transport is connected is a parameter `up`, because it belongs to a library outside this model.
- Each state-changing method is proved equal to a pure transition function. The properties are proved as lemmas about those functions.

## Model

| member | source | states |
|---|---|---|
| SessionFlags.ConnectCheck | packages/session/src/state.ts:46-50 | passes exactly when the Connect bit is set, else fails with "session is not connected" |
| SessionFlags.LoginCheck | packages/session/src/state.ts:59-64 | passes exactly when connected and logged in; not connected is reported before not logged in |
| SessionFlags.AfterLogin | packages/session/src/state.ts:52-57 | throws when not connected; otherwise sets Login and leaves every other bit as it was |
| SessionFlags.AfterSetClientId | packages/session/src/state.ts:66-71 | throws when not connected; otherwise sets HasClientId and leaves every other bit as it was |
| SessionFlags.LoginIdempotent | packages/session/src/state.ts:52-57 | a second successful login gives the same word as the first |
| SessionFlags.SetClientIdIdempotent | packages/session/src/state.ts:66-71 | a second successful client-id mark gives the same word as the first |
| SessionFlags.ApplyConsistent | packages/session/src/state.ts:34-71 | every transition keeps "Login or HasClientId implies Connect" |
| SessionFlags.RunConsistent | packages/session/src/state.ts:34-71 | any sequence of transitions keeps the invariant and never sets a bit outside the three flags |
| SessionFlags.ReachableFromFresh | packages/session/src/state.ts:18-71 | from a new object only the words 0, 1, 3, 5 and 7 are reachable |
| SessionFlags.SessionState.constructor | packages/session/src/state.ts:18-20 | a new state is disconnected, not logged in and without a client id |
| SessionFlags.SessionState.FromState | packages/session/src/state.ts:11-16 | a fresh object carrying the same word |
| SessionFlags.SessionState.Disconnect | packages/session/src/state.ts:34-38 | clears every flag |
| SessionFlags.SessionState.Connect | packages/session/src/state.ts:40-44 | sets the word to Connect alone, dropping login and client id |
| SessionFlags.SessionState.CheckConnect | packages/session/src/state.ts:46-50 | returns ConnectCheck of the current word |
| SessionFlags.SessionState.CheckLogin | packages/session/src/state.ts:59-64 | returns LoginCheck of the current word |
| SessionFlags.SessionState.Login | packages/session/src/state.ts:52-57 | the new word is AfterLogin's; the word is unchanged when AfterLogin throws |
| SessionFlags.SessionState.HasSetClientId | packages/session/src/state.ts:66-71 | the new word is AfterSetClientId's; the word is unchanged when it throws |
| LegacySessionFlags.ConnectCheck | packages/shared/src/state.ts:34-38 | passes exactly when the Connect bit is set, else fails with "session is not connected" |
| LegacySessionFlags.LoginCheck | packages/shared/src/state.ts:57-62 | passes exactly when connected and logged in, reporting a missing connection first |
| LegacySessionFlags.AfterLogin | packages/shared/src/state.ts:40-45 | throws when not connected; otherwise sets Login, keeps Connect and changes no other bit |
| LegacySessionFlags.AfterCancelLogin | packages/shared/src/state.ts:47-55 | the word becomes Connect or Disconnect, without Login, and stays connected exactly when it was |
| LegacySessionFlags.CancelLoginIdempotent | packages/shared/src/state.ts:47-55 | cancelling twice is cancelling once |
| LegacySessionFlags.ApplyConsistent | packages/shared/src/state.ts:22-55 | every transition keeps "Login implies Connect" |
| LegacySessionFlags.RunConsistent | packages/shared/src/state.ts:22-55 | any sequence of transitions keeps the invariant and sets no bit outside the two flags |
| LegacySessionFlags.ReachableFromFresh | packages/shared/src/state.ts:10-55 | from a new object only the words 0, 1 and 3 are reachable |
| LegacySessionFlags.SessionState.constructor | packages/shared/src/state.ts:10-12 | a new state is neither connected nor logged in |
| LegacySessionFlags.SessionState.Disconnect | packages/shared/src/state.ts:22-26 | clears every flag |
| LegacySessionFlags.SessionState.Connect | packages/shared/src/state.ts:28-32 | sets the word to Connect alone |
| LegacySessionFlags.SessionState.CheckConnect | packages/shared/src/state.ts:34-38 | returns ConnectCheck of the current word |
| LegacySessionFlags.SessionState.Login | packages/shared/src/state.ts:40-45 | the new word is AfterLogin's; the word is unchanged when AfterLogin throws |
| LegacySessionFlags.SessionState.CancelLogin | packages/shared/src/state.ts:47-55 | the new word is AfterCancelLogin of the old one |
| LegacySessionFlags.SessionState.CheckLogin | packages/shared/src/state.ts:57-62 | returns LoginCheck of the current word |
| Backend.Opened | packages/session/src/session.ts:158-163 | a new generation (id + 1), connected with neither login nor client id; nothing else changes |
| Backend.Closed | packages/session/src/session.ts:164-173 | disconnected and no stream active; id, token, user cache and wanted set unchanged |
| Backend.TornDown | packages/session/src/session.ts:213-226 | every flag cleared (not connected, not logged in, no client id), token dropped, no stream active or wanted; id and user cache unchanged |
| Backend.DanmakuStopped | packages/session/src/session.ts:188-211 | while the transport is up, exactly the liver's stream entry is removed; otherwise nothing changes |
| Backend.ClientIdReply | packages/session/src/session.ts:245-264 | sets HasClientId exactly when the guard (up, same generation, connected, no client id) holds, and changes nothing else |
| Backend.LoginRequestFor | packages/session/src/session.ts:291-325 | sends a request exactly when the login guard holds: the cached token if present, else the login data (an empty account by default) |
| Backend.TokenReply | packages/session/src/session.ts:307-314 | after setToken, logged in exactly when the guard still holds; the token is not touched |
| Backend.LoginReply | packages/session/src/session.ts:315-325 | after login, stores the returned token and logs in exactly when the guard still holds |
| Backend.DanmakuBegin | packages/session/src/session.ts:354-367 | throws "liver UID is less than 1: n" exactly for ids below 1; otherwise requests exactly when the danmaku guard holds |
| Backend.UserInfoReply | packages/session/src/session.ts:370-381 | the cache entry for the liver agrees with the reply on id, nickname and avatar; other entries unchanged; an agreeing entry is not rewritten |
| Backend.StreamReply | packages/session/src/session.ts:383-394 | records the stream exactly when the guard holds and the backend attached one; other entries and fields unchanged |
| Backend.Want | packages/session/src/session.ts:418-429 | throws for ids below 1; otherwise adds the liver to the wanted set and changes nothing else |
| Backend.Unwant | packages/session/src/session.ts:448-476 | throws for ids below 1; otherwise removes the liver from the wanted set and changes nothing else |
| Backend.StopRequest | packages/session/src/session.ts:431-446 | throws for ids below 1; sends the stop request exactly when up, same generation, token held and the liver's stream active |
| Backend.Delivered | packages/session/src/session.ts:539-553 | hands on exactly the received messages addressed to this client, each from the received ones |
| Backend.DeliveredOne | packages/session/src/session.ts:545-551 | one message is handed on, once, exactly when it is addressed to this client |
| Backend.DeliveredAppend | packages/session/src/session.ts:539-553 | messages are handed on in arrival order and as often as they arrive: two runs of arrivals deliver what each delivers, one after the other |
| Backend.StaleReplyIgnored | packages/session/src/session.ts:245-394 | a guarded reply whose operation captured another generation changes nothing |
| Backend.StepGeneration | packages/session/src/session.ts:158-163 | only the open event moves the generation, by one |
| Backend.RunGeneration | packages/session/src/session.ts:158-163 | after any events the generation is the start plus the number of open events |
| Backend.ReplyAfterReconnectIgnored | packages/session/src/session.ts:245-394 | a reply that arrives after any event sequence containing a reconnect changes nothing |
| Backend.StepFlags | packages/session/src/session.ts:156-329 | every event keeps the flags consistent (login and client id only while connected) |
| Backend.StepWanted | packages/session/src/session.ts:418-429 | only getDanmakuRepeatedly adds to the wanted set, and only a positive id |
| Backend.StepInvariant | packages/session/src/session.ts:156-476 | every event keeps consistent flags and positive wanted ids |
| Backend.RunInvariant | packages/session/src/session.ts:156-476 | any event sequence keeps that invariant |
| Backend.ReachableInvariant | packages/session/src/session.ts:48-476 | from a new session, a login or a client id is only ever held while connected |
| Backend.IntentSurvives | packages/session/src/session.ts:164-211 | events that neither attach a stream nor edit the wanted set keep no stream active and the wanted set intact |
| Backend.ReconnectRelaunchesWanted | packages/session/src/session.ts:174-187 | after a close and any handshake, the login and setToken handlers relaunch exactly the wanted livers |
| Backend.WantIdempotent | packages/session/src/session.ts:418-429 | a repeated getDanmakuRepeatedly changes nothing and launches no second acquisition |
| Backend.UnwantIdempotent | packages/session/src/session.ts:448-476 | a repeated stopDanmakuRepeatedly changes nothing and sends no second stop request |
| Backend.StreamLifecycle | packages/session/src/session.ts:156-429 | open, client id, login, want, user info and stream reply lead to one active stream; a danmakuStop drops it and relaunches |
| Backend.BackendSession.constructor | packages/session/src/session.ts:48-66 | generation 0, disconnected, the given token, empty caches and wanted set |
| Backend.BackendSession.GetUserInfo | packages/session/src/session.ts:136-138 | the cached user information exactly of the livers in the user cache |
| Backend.BackendSession.GetStreamInfo | packages/session/src/session.ts:140-142 | the stream exactly of the livers whose danmaku are being acquired |
| Backend.BackendSession.IsGettingDanmaku | packages/session/src/session.ts:144-146 | true exactly when a stream of the liver is recorded |
| Backend.BackendSession.IsGettingDanmakuRepeatedly | packages/session/src/session.ts:148-150 | true exactly when the liver is in the wanted set |
| Backend.BackendSession.OnOpen | packages/session/src/session.ts:158-163 | the state becomes Opened of the old state |
| Backend.BackendSession.OnClose | packages/session/src/session.ts:164-173 | the state becomes Closed of the old state |
| Backend.BackendSession.OnLogin | packages/session/src/session.ts:174-187 | relaunches exactly the livers wanted but not being streamed |
| Backend.BackendSession.OnDanmakuStop | packages/session/src/session.ts:188-211 | the state becomes DanmakuStopped; relaunches exactly when up and the liver is still wanted |
| Backend.BackendSession.Teardown | packages/session/src/session.ts:213-226 | the state becomes TornDown of the old state |
| Backend.BackendSession.SetClientIdBegin | packages/session/src/session.ts:242-254 | sends setClientID exactly when the client-id guard holds |
| Backend.BackendSession.SetClientIdCommit | packages/session/src/session.ts:255-264 | reports success exactly when the guard still holds; the state becomes ClientIdReply |
| Backend.BackendSession.LoginBegin | packages/session/src/session.ts:291-306 | the request sent is LoginRequestFor of the current state |
| Backend.BackendSession.LoginCommitToken | packages/session/src/session.ts:307-314 | reports success exactly when the guard still holds; the state becomes TokenReply |
| Backend.BackendSession.LoginCommit | packages/session/src/session.ts:315-325 | reports success exactly when the guard still holds; the state becomes LoginReply with the new token |
| Backend.BackendSession.GetDanmakuBegin | packages/session/src/session.ts:354-367 | returns DanmakuBegin of the current state |
| Backend.BackendSession.GetDanmakuUserInfo | packages/session/src/session.ts:370-383 | the state becomes UserInfoReply; requests the stream exactly when the guard holds and the liver is live |
| Backend.BackendSession.GetDanmakuCommit | packages/session/src/session.ts:383-400 | success exactly when the guard holds; the state becomes StreamReply |
| Backend.BackendSession.GetDanmakuRepeatedly | packages/session/src/session.ts:418-429 | throws for ids below 1 without change; otherwise the state becomes Want's and acquisition starts exactly for a liver neither wanted nor streaming |
| Backend.BackendSession.StopDanmaku | packages/session/src/session.ts:431-446 | returns StopRequest of the current state |
| Backend.BackendSession.StopDanmakuRepeatedly | packages/session/src/session.ts:448-476 | throws for ids below 1 without change; otherwise the state becomes Unwant's and a stop is sent only for a wanted, streaming liver |
| Backend.BackendSession.SendMessageGuard | packages/session/src/session.ts:485-501 | goes on exactly when up, same generation, connected and holding a client id |
| KeyNames.ToString | plugins/keyboard/src/key.rs:27-129 | every key has a non-empty name |
| KeyNames.FromStr | plugins/keyboard/src/key.rs:131-224 | an unknown name fails with "failed to parse s to keyboard key" |
| KeyNames.ParseAfterDisplay | plugins/keyboard/src/key.rs:27-224 | parsing a key's name gives the key back, up to the keypad keys that share a name with a main key |
| KeyNames.ParseAfterDisplayDigit | plugins/keyboard/src/key.rs:31-40 | the round trip for the digit keys |
| KeyNames.ParseAfterDisplayLetterFirst | plugins/keyboard/src/key.rs:41-53 | the round trip for the letters A to M |
| KeyNames.ParseAfterDisplayLetterRest | plugins/keyboard/src/key.rs:54-66 | the round trip for the letters N to Z |
| KeyNames.ParseAfterDisplayFunctionFirst | plugins/keyboard/src/key.rs:67-72 | the round trip for F1 to F6 |
| KeyNames.ParseAfterDisplayFunctionRest | plugins/keyboard/src/key.rs:73-78 | the round trip for F7 to F12 |
| KeyNames.ParseAfterDisplayModifier | plugins/keyboard/src/key.rs:81-87 | the round trip for the modifier keys |
| KeyNames.ParseAfterDisplayEditingFirst | plugins/keyboard/src/key.rs:79-93 | the round trip for Escape, Space, Enter and Backspace |
| KeyNames.ParseAfterDisplayEditingRest | plugins/keyboard/src/key.rs:94-101 | the round trip for the other editing keys |
| KeyNames.ParseAfterDisplayNavigationFirst | plugins/keyboard/src/key.rs:89-92 | the round trip for the arrow keys |
| KeyNames.ParseAfterDisplayNavigationRest | plugins/keyboard/src/key.rs:96-99 | the round trip for Home, End, PageUp and PageDown |
| KeyNames.ParseAfterDisplayKeypadDigit | plugins/keyboard/src/key.rs:102-111 | a keypad digit's name parses to the main digit key |
| KeyNames.ParseAfterDisplayKeypadOperator | plugins/keyboard/src/key.rs:112-115 | a keypad operator's name parses to the key that owns that name |
| KeyNames.ParseAfterDisplayUpperPunctuation | plugins/keyboard/src/key.rs:116-121 | the round trip for the punctuation keys from grave to backslash |
| KeyNames.ParseAfterDisplayLowerPunctuation | plugins/keyboard/src/key.rs:122-126 | the round trip for the punctuation keys from semicolon to slash |
| KeyNames.ParsedCharBelowComma | plugins/keyboard/src/key.rs:131-224 | a one-character name below ',' that parses prints back as itself |
| KeyNames.ParsedCharCommaOrMinus | plugins/keyboard/src/key.rs:131-224 | the same for ',' and '-' |
| KeyNames.ParsedCharDotOrSlash | plugins/keyboard/src/key.rs:131-224 | the same for '.' and '/' |
| KeyNames.ParsedCharDigit | plugins/keyboard/src/key.rs:131-224 | the same for the digits |
| KeyNames.ParsedCharColonToAt | plugins/keyboard/src/key.rs:131-224 | the same for ':' to '@' |
| KeyNames.ParsedCharLetter | plugins/keyboard/src/key.rs:131-224 | the same for the capital letters |
| KeyNames.ParsedCharBracketOrBackslash | plugins/keyboard/src/key.rs:131-224 | the same for '[', '\' and ']' |
| KeyNames.ParsedCharAboveBackslash | plugins/keyboard/src/key.rs:131-224 | the same for the characters above '\' |
| KeyNames.ParsedTwoChars | plugins/keyboard/src/key.rs:131-224 | a two-character name that parses prints back as itself |
| KeyNames.ParsedThreeCharsF | plugins/keyboard/src/key.rs:131-224 | the same for three-character names starting with F |
| KeyNames.ParsedThreeCharsOther | plugins/keyboard/src/key.rs:131-224 | the same for other three-character names |
| KeyNames.ParsedFourChars | plugins/keyboard/src/key.rs:131-224 | the same for four-character names |
| KeyNames.ParsedFiveChars | plugins/keyboard/src/key.rs:131-224 | the same for five-character names |
| KeyNames.ParsedSixCharsBelowL | plugins/keyboard/src/key.rs:131-224 | the same for six-character names starting below L |
| KeyNames.ParsedSixCharsFromL | plugins/keyboard/src/key.rs:131-224 | the same for six-character names starting from L |
| KeyNames.ParsedEightChars | plugins/keyboard/src/key.rs:131-224 | the same for eight-character names |
| KeyNames.ParsedNineChars | plugins/keyboard/src/key.rs:131-224 | the same for nine-character names |
| KeyNames.NoNameOfLength | plugins/keyboard/src/key.rs:131-224 | no name is empty, seven characters long or longer than nine, so those always fail |
| KeyNames.DisplayAfterParseChar | plugins/keyboard/src/key.rs:131-224 | any accepted one-character name prints back as itself |
| KeyNames.DisplayAfterParseShort | plugins/keyboard/src/key.rs:131-224 | any accepted name of two to four characters prints back as itself |
| KeyNames.DisplayAfterParseLong | plugins/keyboard/src/key.rs:131-224 | any accepted name of five or more characters prints back as itself |
| KeyNames.DisplayAfterParse | plugins/keyboard/src/key.rs:27-224 | printing a parsed key gives the accepted string back |
| KeyNames.AcceptsExactlyDisplayNames | plugins/keyboard/src/key.rs:27-224 | from_str accepts a string exactly when some key displays as it |
| KeyNames.DisplayCollision | plugins/keyboard/src/key.rs:27-129 | two keys share a name only when one of them is a keypad key aliasing the other |
| KeyCodec.VisitStr | plugins/keyboard/src/key.rs:247-256 | succeeds exactly when from_str does, with a key displaying as the input; otherwise a custom error with from_str's message |
| KeyCodec.Serialize | plugins/keyboard/src/key.rs:226-234 | a non-empty name that from_str reads back as the key, up to the keypad aliases |
| KeyCodec.ToEnigo | plugins/keyboard/src/key.rs:291-393 | a key types a layout character exactly when its name is one character; every other key presses a named simulator key |
| KeyCodec.SerdeRoundTrip | plugins/keyboard/src/key.rs:226-289 | deserialising a serialised key gives it back, up to the keypad aliases |
| KeyCodec.LettersTypeLowercase | plugins/keyboard/src/key.rs:305-330 | a letter key has a one-capital name and types that letter in lower case |
| KeyCodec.DigitsTypeTheirDigit | plugins/keyboard/src/key.rs:295-304 | a digit or keypad digit key types the digit it is named by, the same as its canonical key |
| KeyCodec.AltAndEnter | plugins/keyboard/src/key.rs:349-352 | both Alt keys press Alt and Enter presses Return |
| KeyCodec.BracketKeysTypeBraces | plugins/keyboard/src/key.rs:383-384 | as written, the keys named "[" and "]" type '{' and '}' |
| KeyCodec.SymbolKeysTypeTheirName | plugins/keyboard/src/key.rs:366-390 | with the correction, every key named by one digit or punctuation character types that character |
| KeyCodec.ToEnigoIntended | plugins/keyboard/src/key.rs:366-390 | the corrected translation: the same as ToEnigo for every key but the two bracket keys, and a layout character exactly for one-character names |
| Spark.ToRequest | plugins/spark/src/data.rs:187-266 | the checks run in order (credentials, uid of at most 32 bytes, temperature, max tokens, top_k, 10000 content bytes) and the first failure decides the error; an accepted request keeps the header and options and appends the content to the history as a user message |
| Spark.AcceptedRequestFits | plugins/spark/src/data.rs:231-245 | an accepted request carries at most 10000 content bytes and ends with the caller's content |
| Spark.IsEnd | plugins/spark/src/data.rs:126-132 | true exactly when the header status and the payload's choices status are both End; an end frame always carries content |
| Spark.Content | plugins/spark/src/data.rs:135-143 | a frame has content exactly when it has a payload, and the content is the payload's choice texts concatenated in order (ConcatContains locates each) |
| Spark.ConcatAppend | plugins/spark/src/data.rs:135-143 | concatenating the texts of two runs is concatenating their concatenations |
| Spark.ConcatContains | plugins/spark/src/data.rs:135-143 | each text's content appears in the concatenation right after the texts before it |
| Spark.TokenStatisticsOf | plugins/spark/src/data.rs:146-155 | statistics are present exactly when the frame has a payload with usage, and copy its three counts |
| Tts.CheckSoundProperty | plugins/tts/src/data.rs:170-178 | passes exactly for an absent value or one of at most 100, else "name is less than 0 or greater than 100: p" |
| Tts.ToRequest | plugins/tts/src/data.rs:157-217 | the checks run in order (credentials, vcn, speed, volume, pitch, 8000 text bytes); an accepted request keeps every option, streams exactly for lame audio, encodes the text and ends the data |
| Tts.AcceptanceIgnoresOptions | plugins/tts/src/data.rs:157-190 | whether a request is accepted, and the error if not, depend only on the credentials, vcn, sound properties and text |
| KeyboardMacro.PauseCountPrefix | apps/danmaku_keyboard/src/scripts/key.ts:23-34 | a prefix of a binding never makes more pauses than the whole |
| KeyboardMacro.IntervalOr | apps/danmaku_keyboard/src/scripts/key.ts:48-53 | a present non-negative interval is used, anything else is 100 |
| KeyboardMacro.ReplaySendsEveryKey | apps/danmaku_keyboard/src/scripts/key.ts:40-61 | a replay sends every recorded input exactly once, in order |
| KeyboardMacro.ReplayWaits | apps/danmaku_keyboard/src/scripts/key.ts:40-61 | a replay pauses once per release that follows a press, the n-th pause lasting the n-th interval or 100 |
| KeyboardMacro.KeyData.constructor | apps/danmaku_keyboard/src/scripts/key.ts:17-37 | prefix '@', enabled, and one interval of 100 per pause the replay makes |
| KeyboardMacro.Simulate | apps/danmaku_keyboard/src/scripts/key.ts:40-61 | the actions performed are the replay of the binding |
| KeyboardMacro.FreshBindingPauses | apps/danmaku_keyboard/src/scripts/key.ts:17-61 | in a new binding every pause finds its own recorded interval, which is 100 |
| KeyboardMacro.KeyConfig.constructor | apps/danmaku_keyboard/src/scripts/key.ts:73 | a configuration with the given interval and bindings |
| KeyboardMacro.WaitInterval | apps/danmaku_keyboard/src/scripts/key.ts:63-71 | no wait without a configuration; otherwise the configured non-negative interval, else 100 |
| KeyboardMacro.LoadConfig | apps/danmaku_keyboard/src/scripts/key.ts:81-102 | no file gives interval 100 and no bindings; a parsed configuration is patched in place: interval 100 when unusable, no bindings when missing, prefix '@' when missing, nothing else changed |
| KeyboardMacro.PressedNames | apps/danmaku_keyboard/src/scripts/key.ts:113-122 | no more names than inputs |
| KeyboardMacro.KeysToString | apps/danmaku_keyboard/src/scripts/key.ts:113-122 | empty exactly when no key is pressed; its words are described by PressedNamesParse |
| KeyboardMacro.PressedNamesParse | apps/danmaku_keyboard/src/scripts/key.ts:113-122 | one name per pressed key, in order, each parsing back to that key |
| KeyboardMacro.Alternatives | apps/danmaku_keyboard/src/scripts/key.ts:126 | one alternative per binding, in order |
| KeyboardMacro.KeysToRegex | apps/danmaku_keyboard/src/scripts/key.ts:124-129 | the alternatives joined by a vertical bar, global and case-insensitive |
| KeyboardMacro.KeysToRegexSnoc | apps/danmaku_keyboard/src/scripts/key.ts:124-129 | adding a binding appends a vertical bar and its prefix and group to the pattern |
| LegacyKeyboardMacro.LegacyReplaySendsEveryKey | apps/danmaku_keyboard/src/key.ts:39-58 | a replay sends every recorded input exactly once, in order |
| LegacyKeyboardMacro.LegacyReplayWaits | apps/danmaku_keyboard/src/key.ts:39-58 | the pauses are the recorded intervals in order, stopping when they run out |
| LegacyKeyboardMacro.Lift | apps/danmaku_keyboard/src/key.ts:14 | each first-version interval becomes a present one |
| LegacyKeyboardMacro.ReplayAgreesWithCurrent | apps/danmaku_keyboard/src/key.ts:39-58 | with an interval for every pause and none negative, both versions replay a binding the same way |
| LegacyKeyboardMacro.KeyData.constructor | apps/danmaku_keyboard/src/key.ts:17-36 | enabled, with one interval of 100 per pause |
| LegacyKeyboardMacro.Simulate | apps/danmaku_keyboard/src/key.ts:39-58 | the actions performed are the legacy replay of the binding |
| LegacyKeyboardMacro.Alternatives | apps/danmaku_keyboard/src/key.ts:98 | one alternative per binding, in order |
| LegacyKeyboardMacro.KeysToRegex | apps/danmaku_keyboard/src/key.ts:97-99 | the alternatives joined by a vertical bar, case-insensitive only |
| LegacyKeyboardMacro.KeysToRegexSnoc | apps/danmaku_keyboard/src/key.ts:97-99 | adding a binding appends a vertical bar and '@(danmaku)[ ]?' |
| Stickers.Duration | apps/danmaku_sticker/packages/web/src/lib/scripts/danmaku.ts:33 | a present non-zero duration is used, anything else is 5000 |
| Stickers.TopAfter | apps/danmaku_sticker/packages/web/src/lib/scripts/danmaku.ts:57-68 | a sticker moving the other way pushes the slot below it; one moving the same way pushes it below exactly when the new sticker would leave before it, and otherwise the slot is at its top |
| Stickers.ScanEndsAtAnEdge | apps/danmaku_sticker/packages/web/src/lib/scripts/danmaku.ts:53-70 | the chosen top is the initial top or an edge of some sticker on screen |
| Stickers.PlacementShape | apps/danmaku_sticker/packages/web/src/lib/scripts/danmaku.ts:27-96 | the new entry has the sticker's id and direction, starts now, ends after duration plus 100, and is height plus 10 tall; on an empty screen it sits at 10 |
| Stickers.PlacedAtTopWhenRoom | apps/danmaku_sticker/packages/web/src/lib/scripts/danmaku.ts:53-56 | when the first sticker leaves room above it, the new one goes at the top |
| Stickers.Position | apps/danmaku_sticker/packages/web/src/lib/scripts/danmaku.ts:81-93 | the first index whose entry sorts strictly after the new one |
| Stickers.InsertKeepsOrder | apps/danmaku_sticker/packages/web/src/lib/scripts/danmaku.ts:80-93 | pushing and sorting adds exactly the new entry, after every entry that does not sort after it, keeping the others in order |
| Stickers.InsertAfterLevel | apps/danmaku_sticker/packages/web/src/lib/scripts/danmaku.ts:81-93 | every entry before the new one is ordered before it |
| Stickers.InsertSorted | apps/danmaku_sticker/packages/web/src/lib/scripts/danmaku.ts:80-93 | the list stays sorted by top, then start |
| Stickers.FindIndex | apps/danmaku_sticker/packages/web/src/lib/scripts/danmaku.ts:99 | the first index with the id, or -1 exactly when none has it |
| Stickers.RemoveFirstDropsOne | apps/danmaku_sticker/packages/web/src/lib/scripts/danmaku.ts:98-104 | removes exactly the first entry with the id, keeping the others in order, or nothing when none has it |
| Stickers.RemoveFirstSorted | apps/danmaku_sticker/packages/web/src/lib/scripts/danmaku.ts:98-104 | removal keeps the list sorted |
| Stickers.Alternatives | apps/danmaku_sticker/packages/web/src/lib/scripts/danmaku.ts:106-108 | one '#(danmaku)' alternative per sticker, in order |
| Stickers.StickersToRegex | apps/danmaku_sticker/packages/web/src/lib/scripts/danmaku.ts:106-108 | the alternatives joined by a vertical bar, global and case-insensitive |
| Stickers.StickersToRegexSnoc | apps/danmaku_sticker/packages/web/src/lib/scripts/danmaku.ts:106-108 | adding a sticker appends a vertical bar and '#(danmaku)' |
| Stickers.DanmakuList.constructor | apps/danmaku_sticker/packages/web/src/lib/scripts/danmaku.ts:25 | the list starts empty |
| Stickers.DanmakuList.AddDanmaku | apps/danmaku_sticker/packages/web/src/lib/scripts/danmaku.ts:27-96 | returns the placement and inserts it into the sorted list |
| Stickers.DanmakuList.RemoveDanmaku | apps/danmaku_sticker/packages/web/src/lib/scripts/danmaku.ts:98-104 | removes the first entry with the id, keeping the list sorted |
| AiChat.ChatContent.Type | apps/ai_chat/src/scripts/chat.ts:53-77 | a content is a gift exactly when it is a ChatGift |
| AiChat.ChatContent.ToString | apps/ai_chat/src/scripts/chat.ts:57-81 | a line that starts with the user's name in quotation marks |
| AiChat.GiftOf | apps/ai_chat/src/scripts/chat.ts:69-73 | a gift from the user, with the gift's name and count times combo |
| AiChat.StoredKey | apps/ai_chat/src/scripts/chat.ts:146-150 | a key with all three parts non-empty replaces the stored one; any other leaves it |
| AiChat.StoredKeyStaysComplete | apps/ai_chat/src/scripts/chat.ts:146-158 | a stored key is always complete, and one is stored exactly when one was before or the new one is complete |
| AiChat.Normalise | apps/ai_chat/src/scripts/chat.ts:164-183 | each usable field is kept and each missing or unusable one takes its default, so the result is valid |
| AiChat.NormaliseKeepsValid | apps/ai_chat/src/scripts/chat.ts:164-183 | patching a valid configuration changes nothing |
| AiChat.Lines | apps/ai_chat/src/scripts/chat.ts:239-246 | non-empty lines, at most one per content, none exactly when no content has the type |
| AiChat.LinesAppend | apps/ai_chat/src/scripts/chat.ts:239-246 | the lines of two runs of contents are the lines of each, in order |
| AiChat.LinesOne | apps/ai_chat/src/scripts/chat.ts:239-246 | a content makes one line, its own, exactly when it has the type |
| AiChat.PromptSections | apps/ai_chat/src/scripts/chat.ts:237-263 | the prompt states the character, then a gift section exactly when someone gave a gift, then a danmaku section exactly when someone wrote one |
| AiChat.Prompt | apps/ai_chat/src/scripts/chat.ts:237-263 | the prompt opens with the role text and the character |
| AiChat.Window | apps/ai_chat/src/scripts/chat.ts:274-279 | the last min(10, length) messages of the history |
| AiChat.UserEntries | apps/ai_chat/src/scripts/chat.ts:300-306 | one user message per danmaku line, in order |
| AiChat.RecordedGrowth | apps/ai_chat/src/scripts/chat.ts:299-309 | a chat with danmaku appends one user message per danmaku and the reply, keeping the earlier history; gifts alone record nothing |
| AiChat.AfterChat | apps/ai_chat/src/scripts/chat.ts:314-322 | disabled stays disabled, anything else becomes idle |
| AiChat.ChatApp.constructor | apps/ai_chat/src/scripts/chat.ts:96-110 | no keys, the default configuration, disabled, empty history |
| AiChat.ChatApp.SetSparkKey | apps/ai_chat/src/scripts/chat.ts:152-154 | the Spark key becomes StoredKey's; nothing else changes |
| AiChat.ChatApp.SetTtsKey | apps/ai_chat/src/scripts/chat.ts:156-158 | the speech key becomes StoredKey's; nothing else changes |
| AiChat.ChatApp.LoadConfig | apps/ai_chat/src/scripts/chat.ts:160-187 | a parsed file replaces the configuration with its normalised form; no file leaves it |
| AiChat.ChatApp.SetChatState | apps/ai_chat/src/scripts/chat.ts:283 | sets the chat state and nothing else |
| AiChat.ChatApp.ChatBegin | apps/ai_chat/src/scripts/chat.ts:265-290 | not idle does nothing; idle without a complete key throws; otherwise chatting, with a request carrying the key, the history window and the prompt |
| AiChat.ChatApp.ChatReceive | apps/ai_chat/src/scripts/chat.ts:291-296 | a piece is appended to the calling chat's own reply and handed on exactly while still chatting; otherwise that reply is unchanged |
| AiChat.ChatApp.ChatEnd | apps/ai_chat/src/scripts/chat.ts:297-322 | a failed request rethrows; still chatting records the exchange with the calling chat's own reply and returns it, otherwise returns nothing; the state becomes AfterChat's |
| Audio.Next | crates/audio/src/lib.rs:13-18 | one more, wrapping to 0 past the largest u32 |
| Audio.IssuedIncrease | crates/audio/src/lib.rs:13-18 | until the counter wraps, the ids handed out are start+1, start+2, … and strictly increase |
| Audio.IdCounter.constructor | crates/audio/src/lib.rs:10 | the counter starts at 0 |
| Audio.IdCounter.NewId | crates/audio/src/lib.rs:13-18 | advances the counter to Next and returns the new value |
| Audio.Put | crates/audio/src/lib.rs:25-31 | the source is stored under the id and every other entry is kept |
| Audio.Take | crates/audio/src/lib.rs:34-38 | the stored source exactly when the id is present, and the id is gone afterwards |
| Audio.TakeKeepsOthers | crates/audio/src/lib.rs:34-38 | taking an id leaves every other entry, and an unknown id changes nothing |
| Audio.TakeTwice | crates/audio/src/lib.rs:34-38 | a second take of the same id finds nothing |
| Audio.TakeAfterPut | crates/audio/src/lib.rs:25-38 | taking what was stored gives it back and leaves the registry without that id |
| Audio.FreshIdUnused | crates/audio/src/lib.rs:13-31 | before the counter wraps, a new id is unused, so adding overwrites nothing and grows the registry by one |
| Audio.AudioSourceManager.constructor | crates/audio/src/lib.rs:20-23 | an empty registry |
| Audio.AudioSourceManager.Add | crates/audio/src/lib.rs:25-31 | stores the source under a new id from the shared counter and returns it |
| Audio.AudioSourceManager.GetAndRemove | crates/audio/src/lib.rs:34-38 | returns and removes the source as Take says |
| Text.JoinSnoc | apps/danmaku_keyboard/src/scripts/key.ts:121 | joining one more part appends the separator and that part |
| Text.Utf8Len | plugins/tts/src/data.rs:184 | the UTF-8 length is between one and four bytes per character, zero only for the empty string |

## Left out

- Transport, timers and I/O are parameters or are left out. This covers the websocket itself, `Date.now()`, `delay`, `setTimeout`, the file system, the secret-key store and the input simulator. The same goes for the `loadKey`, `saveKey`, `saveConfig`, `initConfig`, `textToSpeech`, `playAudio` and `stopAudio` functions.
- The Spark and TTS services' network exchanges, their signing (in the `xunfei` crate) and their retry loops are not part of this model. The base64 encoding of the TTS text is a function parameter.
- Concurrency is not modelled directly. Each `await` is split into a begin step and a commit step, and an arbitrary event trace runs between them.
- `connect`'s subscription bookkeeping, `sendMessageRepeatedly` and the `liverUID` accessors are left out. `sendMessage` is modelled only as its guard.
- `onReceiveMessage` is modelled as a filter over already-decoded messages. A JSON parse failure is not modelled.
- Backend.Closed: the cached token is kept on close, as `session.ts:164-173` does. Only the teardown that `connect` returns drops it.
- Backend.UserInfoReply: the user-info cache write is not guarded by the generation, as in `session.ts:370-381`. A reply from before a reconnect still updates the cache.
- JavaScript numbers are modelled as exact reals, without NaN or infinities. `Stickers.DisappearsBefore` still follows JavaScript when `width + windowWidth` is 0. A chat configuration holding NaN is not modelled.
- Spark's temperature is a real, so its NaN case is not modelled.
- LegacyKeyboardMacro.Simulate: an interval stored as `null` in a hand-edited first-version file is not modelled, because the first version types intervals as numbers. `setTimeout(null)` would then wait 0 ms.
- The first version's `loadConfig` only reads or defaults the file, with no normalisation, so it is I/O only.
- The first version's `keysToString` is identical to the current one, so `KeyboardMacro.KeysToString` serves both.
- Audio.IdCounter.NewId: the wrap is modelled as a release build does it. A debug build panics on the overflow instead. The fresh-id guarantee, `Audio.FreshIdUnused`, holds only until the wrap.
- The `console.log` call in `removeDanmaku` is left out.
- The AI chat's `callback` is modelled as ChatReceive's return value. The `reply` local of each `chat` call is threaded by the caller through ChatReceive and ChatEnd, so overlapping chats keep separate replies.

## Findings

| source | as written | input that shows it | evidently intended | confidence | as-written member | corrected member |
|---|---|---|---|---|---|---|
| plugins/keyboard/src/key.rs:383-384 | the key named "[" types '{' and the key named "]" types '}' | a macro that presses `LeftBracket` | each key types the character it is named by, as every other digit and punctuation key does | medium, not executed | KeyCodec.BracketKeysTypeBraces | KeyCodec.SymbolKeysTypeTheirName |
