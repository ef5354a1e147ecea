# Voice-channel greeter bot: connection, playback and sound-link scanning

This project models the core of a Discord bot that greets members in voice channels, written in
`bot.py`:

- **Connection backoff** (`connect_with_backoff`) is in module `Backoff`. Attempt `k`, counted
  from 0, makes one connect call. A `ConnectionClosed` failure is followed by a wait of
  `min(2^k, 32)` units. An `OSError` ends the loop. Any other exception escapes. A returned voice
  client ends the function at once. When the loop ends without a client, the result is `None`.
- **Playback** (`play_custom_message`, `play_exit_sound`) is in module `Playback`. The file plays
  only when the path is set and exists. The connection is then polled once per unit while it is
  playing. Exactly one disconnect ends the sequence on every path.
- **Voice-state handler** (`on_voice_state_update`) is in module `Watcher`, as class `Guild`,
  which holds the guild's voice client and the trace of requested effects. The handler ignores
  bots and classifies the event as join/move, leave or no change. It tears down the guild's
  existing connection and waits one unit. It then connects to the new channel when a sound
  resolves for the member, or to the vacated channel when an exit sound is set. It plays the
  sound and catches any exception that escapes.
- **Sound configuration** (`USER_SOUND_MAP`, `save_config`, the update in `/adduser`) is in
  module `SoundConfig`, as class `Config`.
- **The MP3 link scan of `/importsound`** is in module `LinkScanner`. It is given both as the loop
  as written and as a corrected loop. Both are proved against one total definition of the
  links, `SpansOf`. When a prefix has no ".mp3" after it, the loop as written computes
  `end = -1 + 4 = 3`. If that prefix lies before position 3 and no prefix occurs from 3 on, it
  appends the fragment `text[found:3]` and ends (`AsWrittenFragment`). Otherwise it runs
  forever, appending "" at position 3 (`AsWrittenStalls`).

Module `Gateway` holds the shared values.

The voice transport and the file system are parameters, not code:
- `script: nat -> ConnectOutcome` is the transport's answer to the k-th connect call.
- `isPlaying: seq<bool>` gives the successive answers of `vc.is_playing()`.
- `files: set<string>` is the set of paths that exist.

What the bot asks of the transport (connect, sleep, play, disconnect) is recorded as a
`seq<Action>`. Each `Connect` records whether it established a connection, so "at most one
connection at a time" can be stated over traces (`ConnectsOnlyWhenFree`, `HeldAfter`).

Three points where a reader might expect other behaviour; the model follows the code:
- With `retry_attempts <= 0`, `range(retry_attempts)` is empty. No connect call is made and the
  result is `None` (`Backoff.CallsBounded`). A count of 0 or less does not still try once.
- After a `ConnectionClosed` at the last attempt, the loop still waits before it gives up
  (`Backoff.ExhaustedWaitsAfterLast`). It does not skip the final wait.
- Only the disconnect is inside a `try`. An exception from `vc.play` therefore skips the
  disconnect, and the connection is not released on that path. The model does not model
  exceptions from `play` (see "Left out").

## Model

| member | source | states |
|---|---|---|
| Backoff.BackoffTime | bot.py:106 | the wait after a failure at attempt k is between 1 and 32, at most 2^k, and either 2^k or the cap 32 |
| Backoff.BackoffSchedule | bot.py:106 | the waits are 1, 2, 4, 8, 16 for attempts 0-4 and 32 for every later attempt |
| Backoff.BackoffDoubles | bot.py:106 | each wait is double the previous one until it reaches the cap of 32 |
| Backoff.FirstDecisive | bot.py:100-111 | the first attempt whose outcome ends the loop: everything before it failed with ConnectionClosed, and it lies within the budget unless every attempt failed that way |
| Backoff.ConnectWithBackoff | bot.py:99-113 | the loop's result and the trace of its calls and waits are exactly `ExpectedRun`: transient failures followed by their waits, then the decisive call |
| Backoff.FailedAttemptsShape | bot.py:104-108 | k transient failures make k connect calls to the channel and k waits, the i-th being min(2^i, 32) |
| Backoff.CallsBounded | bot.py:99-113 | at most `retry_attempts` connect calls; at least one when it is positive; none and a `None` result when it is 0 or less |
| Backoff.WaitSchedule | bot.py:104-108 | there is one wait per transient failure before the decisive attempt, and the i-th wait is min(2^i, 32) <= 32 |
| Backoff.FirstSuccessReturned | bot.py:100-103 | when attempt k succeeds after k transient failures, the client is returned after exactly k+1 calls |
| Backoff.JoinedOnlyAfterSuccess | bot.py:100-103 | a client is returned only if some attempt within the budget succeeded after nothing but transient failures |
| Backoff.OsErrorStops | bot.py:109-111 | an OSError at attempt k ends the loop: k+1 calls, k waits, the failed call last, and `None` |
| Backoff.ExhaustedWaitsAfterLast | bot.py:104-113 | when every attempt fails transiently, all of them are made, the last is still followed by its wait, and the result is `None` |
| Backoff.RunTargetsChannel | bot.py:102 | every connect call targets the requested channel; no call is made while a connection is held; a connection is held at the end exactly when a client is returned |
| Playback.FirstFalse | bot.py:74-75 | the number of polls before `is_playing()` first reports false: every earlier poll reported true |
| Playback.PlayCustomMessage | bot.py:71-82 | the trace is `PlaybackTrace`: play and poll-wait then disconnect when the path is set and exists, otherwise disconnect only |
| Playback.PlayExitSound | bot.py:85-96 | the same sequence with the configured exit sound |
| Playback.PlaybackDisconnectsOnce | bot.py:71-82 | exactly one disconnect, and it is last; no connect call; a play happens if and only if the file is playable, and then the play comes first and one 1-unit wait follows each "still playing" poll; otherwise the only action is the disconnect |
| Playback.PlaybackReleases | bot.py:71-82 | playback over a held connection makes no connect call and leaves the connection released |
| SoundConfig.IdKey | bot.py:126 | `str(id)` is a non-empty string of decimal digits whose value is id, with no leading zero unless id is 0 |
| SoundConfig.IdKeyRoundTrip | bot.py:126 | every decimal numeral without a leading zero is `str` of its own value, so `str` and `int` are inverse on keys |
| SoundConfig.NumeralPositive | bot.py:126 | a numeral that does not start with 0 has a value of at least 1 |
| SoundConfig.IdKeyInjective | bot.py:126 | distinct member ids have distinct sound-map keys |
| SoundConfig.ResolveSound | bot.py:126 | the member's mapped sound when their key is in the map, otherwise the default sound |
| SoundConfig.Strip | bot.py:187 | `str.strip()`: a slice of the input with only whitespace cut off either side, and neither starting nor ending with whitespace |
| SoundConfig.NonBotMembers | bot.py:172 | a member is in the list if and only if they are in the guild and not a bot |
| SoundConfig.NonBotMembersAppend | bot.py:172 | the filter keeps guild order: filtering two runs of members one after the other gives the two filtered runs in that order |
| SoundConfig.WithSound | bot.py:191 | the map gains the key with the new path, and every other key keeps its value |
| SoundConfig.AddedSoundIsResolved | bot.py:191 | after `/adduser` writes member id's sound, the join lookup for that member finds it, and every other member's lookup is unchanged |
| SoundConfig.Config.Save | bot.py:66-68 | the saved document equals the configuration in memory |
| SoundConfig.Config.AddUser | bot.py:170-195 | replies "no members" when there are no non-bot members; otherwise replies time-out, file-not-found or added by the reply and the stripped path's existence; only "added" writes the selected member's key and saves, and every other outcome changes nothing |
| Watcher.Classify | bot.py:121-132 | join/move if and only if the member is now in a channel different from before; leave if and only if they were in one and now are in none; no change if and only if before equals after |
| Watcher.TeardownFrees | bot.py:122-124 | tearing down makes no connect call and leaves no connection held |
| Watcher.Guild.TearDown | bot.py:122-124 | the existing client, if any, is disconnected and a 1-unit wait follows; the guild ends with no client |
| Watcher.Guild.ConnectAndPlay | bot.py:128-130 | appends the backoff run to the log, then the playback when a client was returned; ends with no client; reports an exception exactly when the connect step raised one |
| Watcher.Guild.OnJoin | bot.py:121-130 | the new log, client and caught flag are those of `JoinRun` |
| Watcher.Guild.OnLeave | bot.py:132-140 | the new log, client and caught flag are those of `LeaveRun` |
| Watcher.Guild.OnVoiceStateUpdate | bot.py:117-143 | the new log, client and caught flag are those of the handler function `Handle` |
| Watcher.BotIgnored | bot.py:118-119 | for a bot member the handler does nothing and keeps the client |
| Watcher.NoChangeNoAction | bot.py:121-140 | an event with the same channel before and after, including none on both sides, does nothing |
| Watcher.SessionTailShape | bot.py:128-130 | connect-and-play makes between 1 and 5 connect calls, all to the target channel, never while a connection is held, and ends with none held |
| Watcher.JoinConnectsToNewChannel | bot.py:121-130 | on a join, a connect is attempted if and only if a sound resolves for the member; every connect targets the new channel; at most 5 calls are made |
| Watcher.LeaveConnectsToOldChannel | bot.py:132-140 | on a leave, a connect is attempted if and only if an exit sound is set; every connect targets the vacated channel; at most 5 calls are made |
| Watcher.OneConnectionAtATime | bot.py:121-140 | an existing connection is disconnected, with a 1-unit wait, before anything else; no connect happens while one is held; a handled event leaves the guild without a connection |
| Watcher.MappedJoinScenario | bot.py:121-130 | a mapped member joining, with a first connect that succeeds, gives connect, play, one wait per "still playing" poll, and disconnect |
| Watcher.UnmappedJoinWithoutDefault | bot.py:126-127 | an unmapped member joining with no default sound causes only the teardown |
| Watcher.MissingExitSoundScenario | bot.py:132-140 | a leave whose exit sound file is missing still connects to the vacated channel, then disconnects without playing |
| LinkScanner.IsAtChars | bot.py:220 | the pattern occurs at i if and only if it fits there and agrees with the text character by character |
| LinkScanner.FindFirst | bot.py:220 | `find` returns the first occurrence at or after the start, and -1 exactly when there is none |
| LinkScanner.ExtAfterPrefix | bot.py:223 | a ".mp3" at or after a prefix occurrence lies wholly after the prefix |
| LinkScanner.SpansEmpty | bot.py:220-223 | the scan finds nothing if and only if no prefix follows or no ".mp3" follows it |
| LinkScanner.SpansCollected | bot.py:220-224 | every link runs from a prefix occurrence to the end of the first ".mp3" at or after it |
| LinkScanner.SpansOrdered | bot.py:225 | the links are in increasing position and do not overlap |
| LinkScanner.SpansComplete | bot.py:219-225 | every prefix occurrence that a ".mp3" follows lies within a collected link |
| LinkScanner.SpansInText | bot.py:224 | every link is a non-empty slice within the page |
| LinkScanner.LinkShape | bot.py:220-224 | every link starts with the CDN prefix, ends with ".mp3" and contains no earlier ".mp3" |
| LinkScanner.StopOfUnterminated | bot.py:220-223 | the first prefix the loop as written reaches with no ".mp3" after it, when there is one, is a prefix occurrence with no ".mp3" at or after it |
| LinkScanner.NothingAfterCut | bot.py:223-225 | on a page where the loop as written ends, a prefix with no ".mp3" after it lies before position 3 and no prefix occurs from 3 on |
| LinkScanner.ScanMp3Links | bot.py:217-225 | the loop as written, on a page where it ends (every prefix from position 3 on is followed by ".mp3"), collects exactly `LinksAsWritten(text)`: the links, then the fragment `text[stop:3]` when a prefix without ".mp3" was reached |
| LinkScanner.AsWrittenAgreesWhenTerminated | bot.py:220-225 | when every prefix is followed by ".mp3", the loop as written ends and collects exactly `Links(text)` |
| LinkScanner.AsWrittenFragment | bot.py:223-225 | when the loop as written ends after reaching a prefix without ".mp3", that prefix starts before 3 and the result is the links plus the first 3 - stop characters of the prefix |
| LinkScanner.AsWrittenEndsWithFragment | bot.py:223-225 | on the page prefix + "x" the first iteration appends "htt" and moves to 3, and the next one stops |
| LinkScanner.ScanMp3LinksChecked | bot.py:217-225 | the loop with the ".mp3" search checked ends on every page and collects exactly `Links(text)` |
| LinkScanner.AsWrittenStallsAt3 | bot.py:223-225 | when the first prefix at or after 3 has no ".mp3" after it, an iteration from 3 appends "" and returns to 3 |
| LinkScanner.AsWrittenStalls | bot.py:223-225 | on the page "abc" + prefix, the loop as written goes from 0 to 3 and then stays at 3, appending "" each time |

## Left out

- The Discord gateway and voice transport are left out: connecting, audio streaming, `is_playing` and disconnecting are inputs or recorded actions.
- Slash-command registration, the select menus, `wait_for` and the reply texts (such as the member name shown by `/adduser`) are left out: they are UI glue.
- `load_config`, the JSON file format and `.env`/token handling are left out: they are file and environment I/O. `Config` keeps the saved document as a value.
- The other slash commands (`/tunalogin`, `/tunacode`, and the HTTP requests, preview and download in `/importsound`) are left out: they are HTTP I/O. Only the link-scanning loop is modelled.
- Logging is left out: it has no effect on state.
- Exceptions from `vc.disconnect()` and `vc.play()` are left out. In the code, a failed disconnect after playback is logged and swallowed. An exception from `play`, or from the teardown disconnect, reaches the handler's catch-all.
- Concurrency between events is left out. Each event is modelled as running alone against the guild's state. The race between overlapping events for the same guild is not captured.
- JSON values that are not strings are left out: the sound map is `map<string, string>`, and the default and exit sounds are `Option<string>`.
- Playback.PlayCustomMessage: requires that `is_playing()` eventually reports false. The source polls forever otherwise.
- Playback.PlayExitSound: requires that `is_playing()` eventually reports false, for the same reason.
- Watcher.Guild.OnVoiceStateUpdate: requires that `is_playing()` eventually reports false, because it plays through the same sequence.
- LinkScanner.ScanMp3Links: requires `EndsAsWritten`: every prefix occurrence at position 3 or later is followed by ".mp3". On every other page the loop as written runs forever (`AsWrittenStalls`, see "Findings").
- SoundConfig.Config.AddUser: requires that the selection is one of the at most 25 offered members, which is all the menu allows.

## Findings

| source | as written | input that shows it | evidently intended | confidence | as-written member | corrected member |
|---|---|---|---|---|---|---|
| bot.py:223 | `end = text.find(".mp3", start) + 4` with no check for -1, then `start = end` | the page `"abc" + "https://cdn.tuna.voicemod.net/sounds/"`: the first iteration sets start to 3, and every later one finds the prefix at 3, sets end to 3, appends "" and keeps start at 3, forever | stop scanning when no ".mp3" follows the prefix | high, not executed | LinkScanner.AsWrittenStalls | LinkScanner.ScanMp3LinksChecked |
| bot.py:223-224 | with no ".mp3" after a prefix found before position 3, `end` is 3 and `text[start:3]` is appended | the page `"https://cdn.tuna.voicemod.net/sounds/" + "x"` returns `["htt"]` | no entry for a prefix without ".mp3" | high, not executed | LinkScanner.AsWrittenEndsWithFragment | LinkScanner.ScanMp3LinksChecked |
