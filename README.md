# S.M.U.V.E studio core in Dafny

S.M.U.V.E is a browser music studio for independent artists, written as an Angular application. This project models the sequential logic at its centre and proves properties of it:

- **Step sequencer** (`MusicManagerService`): per-track note lists; the step callback that plays the notes at each step.
- **Piano roll** (`PianoRollComponent`): toggles notes on a grid with at most one note per step.
- **Arpeggiator**: picks one note of the chord at each step.
- **MIDI keyboard input** (`InstrumentService`): decodes MIDI 1.0 Channel Voice Messages (note-on and note-off).
- **Subtractive synthesizer**: its voice map, with the ADSR envelope as a Web Audio automation timeline and the level that timeline produces over time.
- **Transport and devices:** the DJ decks, the studio session's transport and channel strips, microphone routing, and take recording.
- **Chat assistant:** its command table, its command-line parser, and its message, command and advice rules.
- **Account service:** the password hash, the profile-completeness meter, and the register/login/session rules.
- **Progression:** XP, levels, achievements and reputation titles.
- **View and theme state, and small editors:** the release checklist, the profile editor, the sample browser and direct messages.

There is one module per source file. Shared modules:

| module | what it holds |
|---|---|
| `Wrappers` | `Option`, for `undefined`/`null` results |
| `Lists` | subsequences and other list facts |
| `Text` | JavaScript's string built-ins: `trim`, `split`, `join`, ASCII `toUpperCase`/`toLowerCase`, `parseInt` and `toString(radix)` |
| `Percent` | `Math.round` of a percentage |
| `Profiles` | the `UserProfile` record |
| `Instruments` | the instrument presets |
| `Engine` | the audio engine as the rest of the application sees it |

`AudioEngineService` is not part of this model. It appears as the class `Engine.AudioEngine`: a tempo, a loop range, a transport flag, one `onScheduleStep` callback slot and a log of the calls made on it.

How the source is modelled:

- **Stateful parts.** Services and components whose fields change are classes. Each method's `ensures` gives the new state as a function of the old one. The lemmas beside those functions state what the application promises: invariants kept, round trips, "nothing else changes", idempotence and order.
- **Event handlers.** Timers, promises and browser events become separate methods, called in the order the events would fire.
- **Inputs from outside.** Clock readings, random numbers, generated ids and answers from the AI service are parameters.
- **Numbers.**
  - Pitches, steps, XP and levels are integers.
  - Times, gains and velocities are `real`.
  - The password hash's 32-bit wrap-around is written out (`Auth.Wrap32`).
  - JavaScript's `%` is written out where a negative operand can reach it (`PianoRoll.JsRem`).

## Model

| member | source | states |
|---|---|---|
| Envelope.CancelFrom | S.M.U.V.E--main/S.M.U.V.E--main/src/app/studio/adsr-envelope.ts:14 | cancelling at `t` keeps exactly the scheduled events strictly before `t`, in their original order |
| Envelope.CancelKeepsOrder | S.M.U.V.E--main/S.M.U.V.E--main/src/app/studio/adsr-envelope.ts:14 | cancelling keeps a time-ordered automation timeline ordered |
| Envelope.AppendAfterCancel | S.M.U.V.E--main/S.M.U.V.E--main/src/app/studio/adsr-envelope.ts:14-20 | events scheduled at or after the cancel time keep the timeline ordered |
| Envelope.GainParam.constructor | S.M.U.V.E--main/S.M.U.V.E--main/src/app/studio/adsr-envelope.ts:10 | a gain parameter starts at its value with no automation pending |
| Envelope.GainParam.CancelScheduledValues | S.M.U.V.E--main/S.M.U.V.E--main/src/app/studio/adsr-envelope.ts:14 | the timeline becomes its cancellation from `t`; the current value is kept |
| Envelope.GainParam.SetValueAtTime | S.M.U.V.E--main/S.M.U.V.E--main/src/app/studio/adsr-envelope.ts:15 | one set-value event is appended; nothing else changes |
| Envelope.GainParam.LinearRampToValueAtTime | S.M.U.V.E--main/S.M.U.V.E--main/src/app/studio/adsr-envelope.ts:16-20 | one ramp event is appended; nothing else changes |
| Envelope.Peak | S.M.U.V.E--main/S.M.U.V.E--main/src/app/studio/adsr-envelope.ts:12 | velocity 127 peaks at gain 1; a velocity in 0..127 peaks within 0..1 |
| Envelope.AttackEvents | S.M.U.V.E--main/S.M.U.V.E--main/src/app/studio/adsr-envelope.ts:15-20 | a jump to silence at `now`, a linear ramp to velocity/127 ending at `now + attack`, a linear ramp to sustain times that peak ending at `now + attack + decay`; strictly later each time for positive phases |
| Envelope.ReleaseEvents | S.M.U.V.E--main/S.M.U.V.E--main/src/app/studio/adsr-envelope.ts:26-27 | a jump to the held level at `now`, then a linear ramp to 0 ending at `now + release` |
| Envelope.EnvelopeKeepsTimelineOrdered | S.M.U.V.E--main/S.M.U.V.E--main/src/app/studio/adsr-envelope.ts:10-28 | with non-negative phases, apply and release both keep an ordered timeline ordered |
| Envelope.ADSREnvelope.constructor | S.M.U.V.E--main/S.M.U.V.E--main/src/app/studio/adsr-envelope.ts:2-8 | the four phase parameters are stored as given |
| Envelope.ADSREnvelope.Apply | S.M.U.V.E--main/S.M.U.V.E--main/src/app/studio/adsr-envelope.ts:10-21 | the timeline is cancelled from now and then gets the three attack/decay events |
| Envelope.ADSREnvelope.ReleaseEnvelope | S.M.U.V.E--main/S.M.U.V.E--main/src/app/studio/adsr-envelope.ts:23-28 | the timeline is cancelled from now, then holds the level the automation has reached at `now` (not the intrinsic value) and ramps to 0 |
| Envelope.ValueAt | S.M.U.V.E--main/S.M.U.V.E--main/src/app/studio/adsr-envelope.ts:26 | the value a parameter reports at `t`; before any event takes effect it is the intrinsic value |
| Envelope.SettledValue | S.M.U.V.E--main/S.M.U.V.E--main/src/app/studio/adsr-envelope.ts:26 | once every event lies at or before `t`, the reported value is the last event's value |
| Envelope.ValueWithin | S.M.U.V.E--main/S.M.U.V.E--main/src/app/studio/adsr-envelope.ts:26 | the reported value stays within any range that holds the intrinsic value and every scheduled value |
| Envelope.AttackRises | S.M.U.V.E--main/S.M.U.V.E--main/src/app/studio/adsr-envelope.ts:15-16 | during the attack the level is velocity/127 times the elapsed fraction of the attack |
| Envelope.DecayFalls | S.M.U.V.E--main/S.M.U.V.E--main/src/app/studio/adsr-envelope.ts:16-20 | during the decay the level falls linearly from the peak to sustain times the peak |
| Envelope.SustainHolds | S.M.U.V.E--main/S.M.U.V.E--main/src/app/studio/adsr-envelope.ts:17-20 | after attack and decay the level is sustain times velocity/127, whatever was scheduled before |
| Envelope.ReleaseFalls | S.M.U.V.E--main/S.M.U.V.E--main/src/app/studio/adsr-envelope.ts:25-27 | the release starts exactly at the held level and falls linearly to 0 over the release time |
| Envelope.ReleaseEnds | S.M.U.V.E--main/S.M.U.V.E--main/src/app/studio/adsr-envelope.ts:27 | once the release time has passed the level is 0 |
| Arpeggiator.UpDownSingleNoteIsNaN | S.M.U.V.E--main/S.M.U.V.E--main/src/app/components/arpeggiator/arpeggiator.component.ts:46-49 | with one note the up-down cycle is 0, so the index is `step % 0` and selects no note |
| Arpeggiator.NoteIndex | S.M.U.V.E--main/S.M.U.V.E--main/src/app/components/arpeggiator/arpeggiator.component.ts:39-52 | the index is always inside the chord and equals the as-written rule wherever that one is defined |
| Arpeggiator.DownMirrorsUp | S.M.U.V.E--main/S.M.U.V.E--main/src/app/components/arpeggiator/arpeggiator.component.ts:42-45 | down mode plays index `n-1-i` where up mode plays `i` |
| Arpeggiator.UpPlaysInOrder | S.M.U.V.E--main/S.M.U.V.E--main/src/app/components/arpeggiator/arpeggiator.component.ts:42-43 | for the first `n` steps up mode plays note `step` |
| Arpeggiator.UpDownMovesByOne | S.M.U.V.E--main/S.M.U.V.E--main/src/app/components/arpeggiator/arpeggiator.component.ts:46-49 | up-down mode moves one note up in the first half of its cycle and one note down in the second |
| Arpeggiator.StepCall | S.M.U.V.E--main/S.M.U.V.E--main/src/app/components/arpeggiator/arpeggiator.component.ts:35-58 | an empty chord plays nothing; otherwise exactly one note of the chord, at `when`, for the note length |
| Arpeggiator.ParsePieces | S.M.U.V.E--main/S.M.U.V.E--main/src/app/components/arpeggiator/arpeggiator.component.ts:65 | each piece is trimmed and parsed as a base-10 integer, NaN as none |
| Arpeggiator.ParseAll | S.M.U.V.E--main/S.M.U.V.E--main/src/app/components/arpeggiator/arpeggiator.component.ts:65-66 | a successful parse has one number per piece |
| Arpeggiator.ParseAllPointwise | S.M.U.V.E--main/S.M.U.V.E--main/src/app/components/arpeggiator/arpeggiator.component.ts:65-66 | the list parses exactly when no piece is NaN, and then each number is its piece's value |
| Arpeggiator.ParseNoteList | S.M.U.V.E--main/S.M.U.V.E--main/src/app/components/arpeggiator/arpeggiator.component.ts:64-66 | a parsed list has one number per comma-separated piece, at least one |
| Arpeggiator.NoteListRoundTrip | S.M.U.V.E--main/S.M.U.V.E--main/src/app/components/arpeggiator/arpeggiator.component.ts:64-68 | every non-empty chord written as comma-separated integers reads back as itself |
| Arpeggiator.ArpeggiatorComponent.constructor | S.M.U.V.E--main/S.M.U.V.E--main/src/app/components/arpeggiator/arpeggiator.component.ts:18-23 | up mode, the C major triad, note length 0.25, disabled |
| Arpeggiator.ArpeggiatorComponent.Init | S.M.U.V.E--main/S.M.U.V.E--main/src/app/components/arpeggiator/arpeggiator.component.ts:27-33 | the engine's step callback becomes the arpeggiator's; nothing else on the engine changes |
| Arpeggiator.ArpeggiatorComponent.PlayArpeggiatedNote | S.M.U.V.E--main/S.M.U.V.E--main/src/app/components/arpeggiator/arpeggiator.component.ts:35-58 | the engine log grows by exactly the step's call |
| Arpeggiator.ArpeggiatorComponent.OnScheduleStep | S.M.U.V.E--main/S.M.U.V.E--main/src/app/components/arpeggiator/arpeggiator.component.ts:28-32 | a step plays the step's call only while enabled |
| Arpeggiator.ArpeggiatorComponent.SetNotes | S.M.U.V.E--main/S.M.U.V.E--main/src/app/components/arpeggiator/arpeggiator.component.ts:64-69 | the chord becomes the parsed list, or stays when any piece is NaN; a non-empty chord stays non-empty |
| AudioSession.ExactlyOneFlag | S.M.U.V.E--main/S.M.U.V.E--main/src/app/studio/audio-session.service.ts:20-23 | exactly one of the playing, recording and stopped flags holds in every state |
| AudioSession.TogglePlay | S.M.U.V.E--main/S.M.U.V.E--main/src/app/studio/audio-session.service.ts:58-62 | play toggling stops exactly from playing, and never enters recording |
| AudioSession.ToggleRecord | S.M.U.V.E--main/S.M.U.V.E--main/src/app/studio/audio-session.service.ts:64-68 | record toggling stops exactly from recording, and never enters playing |
| AudioSession.TogglesReturnToStopped | S.M.U.V.E--main/S.M.U.V.E--main/src/app/studio/audio-session.service.ts:58-68 | from stopped, toggling play twice or record twice returns to stopped |
| AudioSession.EditChannels | S.M.U.V.E--main/S.M.U.V.E--main/src/app/studio/audio-session.service.ts:78-100 | only the channels with the given id change, and only in the edited field; ids, labels and order are kept |
| AudioSession.ToggleTwiceRestores | S.M.U.V.E--main/S.M.U.V.E--main/src/app/studio/audio-session.service.ts:84-88 | toggling mute or arm twice restores every channel |
| AudioSession.LevelsNotClamped | S.M.U.V.E--main/S.M.U.V.E--main/src/app/studio/audio-session.service.ts:78-94 | a new level or pan is stored exactly as given, with no clamping to the documented ranges |
| AudioSession.AudioSessionService.constructor | S.M.U.V.E--main/S.M.U.V.E--main/src/app/studio/audio-session.service.ts:20-51 | stopped, master volume 80 and the three initial channels |
| AudioSession.AudioSessionService.TogglePlayback | S.M.U.V.E--main/S.M.U.V.E--main/src/app/studio/audio-session.service.ts:58-62 | the state becomes the play toggle of the old state; nothing else changes |
| AudioSession.AudioSessionService.ToggleRecording | S.M.U.V.E--main/S.M.U.V.E--main/src/app/studio/audio-session.service.ts:64-68 | the state becomes the record toggle of the old state; nothing else changes |
| AudioSession.AudioSessionService.Stop | S.M.U.V.E--main/S.M.U.V.E--main/src/app/studio/audio-session.service.ts:70-72 | the state becomes stopped whatever it was; nothing else changes |
| AudioSession.AudioSessionService.UpdateMasterVolume | S.M.U.V.E--main/S.M.U.V.E--main/src/app/studio/audio-session.service.ts:74-76 | the master volume is set as given; nothing else changes |
| AudioSession.AudioSessionService.Edit | S.M.U.V.E--main/S.M.U.V.E--main/src/app/studio/audio-session.service.ts:78-100 | the channel list becomes its edit by id; nothing else changes |
| Auth.Wrap32 | S.M.U.V.E--main/S.M.U.V.E--main/src/app/services/auth.service.ts:279-280 | the result is a signed 32-bit integer congruent to the input modulo 2^32 (ECMAScript ToInt32) |
| Auth.Wrap32Fits | S.M.U.V.E--main/S.M.U.V.E--main/src/app/services/auth.service.ts:280 | `hash & hash` leaves a value that already fits in 32 bits unchanged |
| Auth.Wrap32Congruent | S.M.U.V.E--main/S.M.U.V.E--main/src/app/services/auth.service.ts:279-280 | inputs congruent modulo 2^32 wrap to the same value |
| Auth.HashStep | S.M.U.V.E--main/S.M.U.V.E--main/src/app/services/auth.service.ts:278-280 | one loop step keeps the hash a signed 32-bit integer |
| Auth.HashStepIsMultiplyAdd | S.M.U.V.E--main/S.M.U.V.E--main/src/app/services/auth.service.ts:279-280 | one step is `31*h + code` reduced to signed 32 bits |
| Auth.Hash | S.M.U.V.E--main/S.M.U.V.E--main/src/app/services/auth.service.ts:276-281 | the loop's hash is a signed 32-bit integer |
| Auth.HashIsPolynomial | S.M.U.V.E--main/S.M.U.V.E--main/src/app/services/auth.service.ts:276-281 | the hash is the base-31 polynomial of the character codes, reduced to signed 32 bits |
| Auth.HashPassword | S.M.U.V.E--main/S.M.U.V.E--main/src/app/services/auth.service.ts:274-283 | the loop computes the hash and the digest is its base-36 text |
| Auth.EmptyPasswordDigest | S.M.U.V.E--main/S.M.U.V.E--main/src/app/services/auth.service.ts:276-282 | the empty password digests to "0" |
| Auth.SingleCharacterHash | S.M.U.V.E--main/S.M.U.V.E--main/src/app/services/auth.service.ts:276-281 | a one-character password hashes to its character code |
| Auth.LetterADigest | S.M.U.V.E--main/S.M.U.V.E--main/src/app/services/auth.service.ts:274-283 | the password "a" digests to "2p" |
| Auth.TwoCharacterHash | S.M.U.V.E--main/S.M.U.V.E--main/src/app/services/auth.service.ts:276-281 | a two-character password hashes to `31*a + b` |
| Auth.DigestCollision | S.M.U.V.E--main/S.M.U.V.E--main/src/app/services/auth.service.ts:274-283 | "Aa" and "BB" share a digest, so either password opens the other's account |
| Auth.DigestDenotesHash | S.M.U.V.E--main/S.M.U.V.E--main/src/app/services/auth.service.ts:282 | the digest is an optional minus sign and base-36 digits whose value is the hash |
| Auth.Checks | S.M.U.V.E--main/S.M.U.V.E--main/src/app/services/auth.service.ts:37-80 | there are 22 checks: 5 basic, 4 identity, 3 experience, 4 career, 3 marketing, 2 equipment, 1 links |
| Auth.CountTrue | S.M.U.V.E--main/S.M.U.V.E--main/src/app/services/auth.service.ts:34-80 | the count is at most the number of checks; it is all of them exactly when all hold and 0 exactly when none holds |
| Auth.Completeness | S.M.U.V.E--main/S.M.U.V.E--main/src/app/services/auth.service.ts:30-83 | 0 without a profile, otherwise the count of passed checks out of 22 as a rounded percentage, never above 100 |
| Auth.RoundingOutOfTwentyTwo | S.M.U.V.E--main/S.M.U.V.E--main/src/app/services/auth.service.ts:82 | out of 22, the rounded percentage is 100 only for 22 and 0 only for 0, and lies within half a point of the exact value |
| Auth.CompletenessEnds | S.M.U.V.E--main/S.M.U.V.E--main/src/app/services/auth.service.ts:30-83 | the meter reads 100 exactly when every check holds and 0 exactly when none does |
| Auth.InitialProfileIsEmpty | S.M.U.V.E--main/S.M.U.V.E--main/src/app/services/auth.service.ts:39-44 | the initial profile's placeholders count for nothing: it reads 0 |
| Auth.RegisteredProfileIsFivePercent | S.M.U.V.E--main/S.M.U.V.E--main/src/app/services/auth.service.ts:153-157 | a freshly registered profile with a real artist name reads 5 |
| Auth.AuthService.constructor | S.M.U.V.E--main/S.M.U.V.E--main/src/app/services/auth.service.ts:85-107 | a stored session is resumed only when both the session key and the profile key are present |
| Auth.AuthService.Register | S.M.U.V.E--main/S.M.U.V.E--main/src/app/services/auth.service.ts:123-184 | an email with an account fails with its message and changes nothing; otherwise the account is stored with the digest and the new user is signed in with the initial profile under the artist name |
| Auth.AuthService.Login | S.M.U.V.E--main/S.M.U.V.E--main/src/app/services/auth.service.ts:186-241 | success exactly when the account exists and the digest matches; each failure has its message and changes nothing; success signs in the stored user with the new last login and the stored or initial profile |
| Auth.AuthService.Logout | S.M.U.V.E--main/S.M.U.V.E--main/src/app/services/auth.service.ts:243-248 | signed out and both session keys removed; accounts are kept |
| Auth.AuthService.LoginAsGuest | S.M.U.V.E--main/S.M.U.V.E--main/src/app/services/auth.service.ts:300-318 | the guest user and the initial profile named "Guest Artist" are signed in; nothing is stored |
| Auth.AuthService.FetchUserProfile | S.M.U.V.E--main/S.M.U.V.E--main/src/app/services/auth.service.ts:250-255 | rejected exactly when signed out; otherwise the profile, or the initial one |
| Auth.AuthService.SaveUserProfile | S.M.U.V.E--main/S.M.U.V.E--main/src/app/services/auth.service.ts:257-268 | rejected and nothing changed when signed out; otherwise the profile is set and stored with the session |
| Auth.AuthService.Signup | S.M.U.V.E--main/S.M.U.V.E--main/src/app/services/auth.service.ts:289-298 | fails with the taken-email message exactly when the email already has an account; otherwise the user is signed in |
| Percent.RoundedPercent | S.M.U.V.E--main/S.M.U.V.E--main/src/app/services/auth.service.ts:82 | the result is `Math.round(100*part/whole)`: the nearest integer, halves rounded up |
| Percent.PercentInRange | S.M.U.V.E--main/S.M.U.V.E--main/src/app/services/auth.service.ts:82 | a part no larger than the whole gives at most 100 |
| Percent.PercentEnds | S.M.U.V.E--main/S.M.U.V.E--main/src/app/services/auth.service.ts:82 | nothing done is 0 and everything done is 100 |
| Percent.PercentMonotone | S.M.U.V.E--main/S.M.U.V.E--main/src/app/services/auth.service.ts:82 | more done never shows a smaller percentage |
| ChatbotCommands.FindCommand | S.M.U.V.E--main/S.M.U.V.E--main/src/app/components/chatbot/chatbot.component.ts:173 | a found command is a table entry with exactly that name; nothing is found exactly when no entry has it |
| ChatbotCommands.NamesDistinct | S.M.U.V.E--main/S.M.U.V.E--main/src/app/components/chatbot/chatbot.commands.ts:36-267 | the table has 23 entries with pairwise distinct names |
| ChatbotCommands.TableNames | S.M.U.V.E--main/S.M.U.V.E--main/src/app/components/chatbot/chatbot.commands.ts:36-267 | the 23 command names, in table order |
| ChatbotCommands.NamesUpperCase | S.M.U.V.E--main/S.M.U.V.E--main/src/app/components/chatbot/chatbot.commands.ts:36-267 | every name is its own upper-case form |
| ChatbotCommands.FindByOwnName | S.M.U.V.E--main/S.M.U.V.E--main/src/app/components/chatbot/chatbot.component.ts:173 | with distinct names, looking up an entry's name finds that entry |
| ChatbotCommands.EveryCommandReachable | S.M.U.V.E--main/S.M.U.V.E--main/src/app/components/chatbot/chatbot.component.ts:171-173 | every command is found from any typed word whose upper-case form is its name |
| ChatbotCommands.ParameterlessCommands | S.M.U.V.E--main/S.M.U.V.E--main/src/app/components/chatbot/chatbot.commands.ts:53-59 | exactly TRANSCRIBE, ENTER_HUB, VIEW_STRATEGY, KNOWLEDGE and TRENDS declare no parameters |
| ChatbotCommands.OnlyAnalyzeVideoTakesTwo | S.M.U.V.E--main/S.M.U.V.E--main/src/app/components/chatbot/chatbot.commands.ts:126-136 | ANALYZE_VIDEO, with track and prompt, is the only command with more than one parameter |
| ChatbotCommands.FindOnMapIsMap | S.M.U.V.E--main/S.M.U.V.E--main/src/app/components/chatbot/chatbot.commands.ts:60-75 | FIND_ON_MAP has MAP's parameter and the same effect on every record |
| ChatbotCommands.EmitActionsAreNames | S.M.U.V.E--main/S.M.U.V.E--main/src/app/components/chatbot/chatbot.commands.ts:76-227 | every emitting entry emits its own name as the action |
| ChatbotCommands.EmittedActionIsName | S.M.U.V.E--main/S.M.U.V.E--main/src/app/components/chatbot/chatbot.commands.ts:76-227 | an emitting command emits its name with exactly its declared parameters forwarded; a parameterless one forwards none |
| ChatParser.ParseWith | S.M.U.V.E--main/S.M.U.V.E--main/src/app/components/chatbot/chatbot.component.ts:167-199 | no command means no parameters; a parameterless command gets none; a one-parameter command gets the rest of the line under that parameter |
| ChatParser.ParseWithFinds | S.M.U.V.E--main/S.M.U.V.E--main/src/app/components/chatbot/chatbot.component.ts:171-175 | the command is the entry named by the upper-cased first word; there is none exactly when no entry has that name |
| ChatParser.AssignAllSnoc | S.M.U.V.E--main/S.M.U.V.E--main/src/app/components/chatbot/chatbot.component.ts:186-194 | the pieces are applied left to right, so a later piece overrides an earlier one |
| ChatParser.AssignPair | S.M.U.V.E--main/S.M.U.V.E--main/src/app/components/chatbot/chatbot.component.ts:187-189 | a piece `key=value` with both parts non-empty stores the value under the key |
| ChatParser.AssignBare | S.M.U.V.E--main/S.M.U.V.E--main/src/app/components/chatbot/chatbot.component.ts:190-193 | a piece with no value is stored under the first declared parameter |
| ChatParser.SplitLine | S.M.U.V.E--main/S.M.U.V.E--main/src/app/components/chatbot/chatbot.component.ts:171-177 | for a word, a space and single-spaced text, the command word is the word and the parameter text is the rest |
| ChatParser.WordAndRest | S.M.U.V.E--main/S.M.U.V.E--main/src/app/components/chatbot/chatbot.component.ts:171-177 | the same split also holds when nothing follows the word |
| ChatParser.OneParamTakesRest | S.M.U.V.E--main/S.M.U.V.E--main/src/app/components/chatbot/chatbot.component.ts:180-183 | a one-parameter command receives everything after its word, '=' included, or "" when nothing follows |
| ChatParser.NoParamsIgnoreRest | S.M.U.V.E--main/S.M.U.V.E--main/src/app/components/chatbot/chatbot.component.ts:180 | a parameterless command gets an empty record whatever follows its word |
| ChatParser.AssignTwoPairs | S.M.U.V.E--main/S.M.U.V.E--main/src/app/components/chatbot/chatbot.component.ts:186-194 | `k1=v1;k2=v2` stores both keys, the later one winning on a repeat |
| ChatParser.TwoPairsWith | S.M.U.V.E--main/S.M.U.V.E--main/src/app/components/chatbot/chatbot.component.ts:184-195 | any two-parameter command given `k1=v1;k2=v2` gets both values by key |
| ChatParser.TwoParamsByKey | S.M.U.V.E--main/S.M.U.V.E--main/src/app/components/chatbot/chatbot.component.ts:184-195 | ANALYZE_VIDEO given `k1=v1;k2=v2` stores the values by key, not by position |
| Chatbot.LastContent | S.M.U.V.E--main/S.M.U.V.E--main/src/app/components/chatbot/chatbot.component.ts:530 | there is no last content exactly when there are no messages |
| Chatbot.Advice | S.M.U.V.E--main/S.M.U.V.E--main/src/app/components/chatbot/chatbot.component.ts:497-534 | a new artist outside the profile view gets the onboarding advice; otherwise the compliance advice when the identity is incomplete and it was not the last message, else the view's advice |
| Chatbot.Dedupe | S.M.U.V.E--main/S.M.U.V.E--main/src/app/components/chatbot/chatbot.component.ts:536-542 | the advice is appended exactly when it is non-empty and differs from the last message, and then it is the last message |
| Chatbot.DedupeIdempotent | S.M.U.V.E--main/S.M.U.V.E--main/src/app/components/chatbot/chatbot.component.ts:536-542 | de-duplicating twice with the same advice adds nothing more |
| Chatbot.ModeAdviceNotCompliance | S.M.U.V.E--main/S.M.U.V.E--main/src/app/components/chatbot/chatbot.component.ts:505-529 | no view's advice equals the compliance advice |
| Chatbot.OnboardingOnce | S.M.U.V.E--main/S.M.U.V.E--main/src/app/components/chatbot/chatbot.component.ts:501-503 | a new artist is onboarded once: a second view change to the same view adds nothing |
| Chatbot.ComplianceFirst | S.M.U.V.E--main/S.M.U.V.E--main/src/app/components/chatbot/chatbot.component.ts:526-533 | an incomplete professional identity gets the compliance advice when it was not the last message |
| Chatbot.AfterCompliance | S.M.U.V.E--main/S.M.U.V.E--main/src/app/components/chatbot/chatbot.component.ts:526-542 | right after the compliance advice, the view's own advice is given if it has any, otherwise nothing |
| Chatbot.ComplianceThenModeAdvice | S.M.U.V.E--main/S.M.U.V.E--main/src/app/components/chatbot/chatbot.component.ts:497-542 | with an incomplete identity, two view changes give the compliance advice and then the view's advice |
| Chatbot.ModeAdviceWhenCompliant | S.M.U.V.E--main/S.M.U.V.E--main/src/app/components/chatbot/chatbot.component.ts:504-525 | with a complete identity the view's advice is given, and the profile view gets none |
| Chatbot.Submitted | S.M.U.V.E--main/S.M.U.V.E--main/src/app/components/chatbot/chatbot.component.ts:134-135 | sending goes on exactly when the AI is available and the trimmed input is non-empty, with the trimmed line |
| Chatbot.ChatbotComponent.constructor | S.M.U.V.E--main/S.M.U.V.E--main/src/app/components/chatbot/chatbot.component.ts:62-90 | no messages, or only the offline notice when the AI is unavailable; not loading, no command running |
| Chatbot.ChatbotComponent.OnInit | S.M.U.V.E--main/S.M.U.V.E--main/src/app/components/chatbot/chatbot.component.ts:119-126 | the greeting becomes the only message |
| Chatbot.ChatbotComponent.OnAiAvailability | S.M.U.V.E--main/S.M.U.V.E--main/src/app/components/chatbot/chatbot.component.ts:81-90 | an unavailable AI replaces the messages with the offline notice; an available one changes nothing |
| Chatbot.ChatbotComponent.SendMessage | S.M.U.V.E--main/S.M.U.V.E--main/src/app/components/chatbot/chatbot.component.ts:133-144 | an empty line or an unavailable AI changes nothing; otherwise the trimmed line is appended as a user message, the input cleared and loading started |
| Chatbot.ChatbotComponent.HandleError | S.M.U.V.E--main/S.M.U.V.E--main/src/app/components/chatbot/chatbot.component.ts:484-495 | exactly one model message naming the context is appended and loading ends |
| Chatbot.ChatbotComponent.HandleCommand | S.M.U.V.E--main/S.M.U.V.E--main/src/app/components/chatbot/chatbot.component.ts:201-216 | the command's effect is recorded, it is marked running and as having changed the view, a failure adds the error message, and loading ends |
| Chatbot.ChatbotComponent.CommandTimerFired | S.M.U.V.E--main/S.M.U.V.E--main/src/app/components/chatbot/chatbot.component.ts:214 | the running-command flag is cleared; nothing else changes |
| Chatbot.ChatbotComponent.GiveContextualAdvice | S.M.U.V.E--main/S.M.U.V.E--main/src/app/components/chatbot/chatbot.component.ts:497-543 | the messages become the advice step of the old messages |
| Chatbot.ChatbotComponent.OnViewChangeTimer | S.M.U.V.E--main/S.M.U.V.E--main/src/app/components/chatbot/chatbot.component.ts:106-116 | a view change made by the assistant only clears its flag; otherwise advice is given unless a command is running |
| Decks.Toggled | S.M.U.V.E--main/S.M.U.V.E--main/src/app/services/deck.service.ts:39-41 | only the playing flag changes, and it flips |
| Decks.ToggleTwiceRestores | S.M.U.V.E--main/S.M.U.V.E--main/src/app/services/deck.service.ts:32-42 | toggling a deck twice restores its state |
| Decks.Loaded | S.M.U.V.E--main/S.M.U.V.E--main/src/app/services/deck.service.ts:50-62 | the file name becomes the track name, the url is emptied and the duration is the buffer's; everything else is kept |
| Decks.ToggleCall | S.M.U.V.E--main/S.M.U.V.E--main/src/app/services/deck.service.ts:34-38 | a playing deck is paused and a stopped deck is played |
| Decks.DeckService.constructor | S.M.U.V.E--main/S.M.U.V.E--main/src/app/services/deck.service.ts:10-14 | both decks start from the empty deck at rate 1, stopped; crossfade 0, linear curve, hamster off |
| Decks.DeckService.TogglePlay | S.M.U.V.E--main/S.M.U.V.E--main/src/app/services/deck.service.ts:32-42 | the deck is toggled, the other deck and the crossfader are untouched, and the engine gets the matching play or pause call |
| Decks.DeckService.LoadDeckBuffer | S.M.U.V.E--main/S.M.U.V.E--main/src/app/services/deck.service.ts:48-63 | the engine is handed the buffer and the deck records the file; the other deck is untouched |
| Dm.Conversation.constructor | S.M.U.V.E--main/S.M.U.V.E--main/src/app/hub/dm/dm.service.ts:11-14 | a conversation holds the user id and messages it is given |
| Dm.FindConversation | S.M.U.V.E--main/S.M.U.V.E--main/src/app/hub/dm/dm.service.ts:48 | the first conversation with that user id, or none exactly when no conversation has it |
| Dm.DmService.constructor | S.M.U.V.E--main/S.M.U.V.E--main/src/app/hub/dm/dm.service.ts:22-45 | one fresh mock conversation with user '2' holding the two greeting messages |
| Dm.DmService.GetConversation | S.M.U.V.E--main/S.M.U.V.E--main/src/app/hub/dm/dm.service.ts:47-49 | a found conversation is the first one in the list with that user id; none is found exactly when no conversation has it |
| Dm.DmService.SendMessage | S.M.U.V.E--main/S.M.U.V.E--main/src/app/hub/dm/dm.service.ts:51-59 | the message is pushed onto the first matching conversation's own array and no other; an unknown user changes nothing; the list itself is handed back unchanged |
| Gamification.Grow | S.M.U.V.E--main/S.M.U.V.E--main/src/app/services/gamification.service.ts:41 | `Math.floor(t * 1.5)` of a threshold of at least 2 is larger than it |
| Gamification.ThresholdAt | S.M.U.V.E--main/S.M.U.V.E--main/src/app/services/gamification.service.ts:39-42 | every threshold reached from the first one is at least 100 |
| Gamification.LevelUp | S.M.U.V.E--main/S.M.U.V.E--main/src/app/services/gamification.service.ts:39-42 | the loop ends with a level and threshold no lower than at the start and the XP below the threshold |
| Gamification.LevelUpKeepsStep | S.M.U.V.E--main/S.M.U.V.E--main/src/app/services/gamification.service.ts:39-42 | each level gained grows the threshold exactly once, so the threshold stays in step with the level |
| Gamification.LevelUpTwice | S.M.U.V.E--main/S.M.U.V.E--main/src/app/services/gamification.service.ts:33-50 | adding XP in two goes reaches the same level and threshold as adding it at once |
| Gamification.LevelUpMonotone | S.M.U.V.E--main/S.M.U.V.E--main/src/app/services/gamification.service.ts:39-42 | more XP never gives a lower level |
| Gamification.Gained | S.M.U.V.E--main/S.M.U.V.E--main/src/app/services/gamification.service.ts:33-50 | XP grows by the amount and stays below the new threshold; level and threshold never fall; achievements are kept |
| Gamification.GainedConsistent | S.M.U.V.E--main/S.M.U.V.E--main/src/app/services/gamification.service.ts:33-50 | adding XP, even a negative amount, keeps level and threshold in step |
| Gamification.FindAchievement | S.M.U.V.E--main/S.M.U.V.E--main/src/app/services/gamification.service.ts:54-56 | the first achievement with the id, or none exactly when no achievement has it |
| Gamification.UnlockedEffect | S.M.U.V.E--main/S.M.U.V.E--main/src/app/services/gamification.service.ts:52-64 | only the found locked achievement is unlocked and stamped, and 50 XP is paid; an unknown or already unlocked id changes nothing |
| Gamification.UnlockTwice | S.M.U.V.E--main/S.M.U.V.E--main/src/app/services/gamification.service.ts:52-64 | unlocking the same id again changes nothing, so the XP is paid once |
| Gamification.UnlockedConsistent | S.M.U.V.E--main/S.M.U.V.E--main/src/app/services/gamification.service.ts:52-64 | unlocking keeps level and threshold in step |
| Gamification.GamificationService.constructor | S.M.U.V.E--main/S.M.U.V.E--main/src/app/services/gamification.service.ts:22-105 | 0 XP, level 1, threshold 100 and the six locked achievements |
| Gamification.GamificationService.AddXp | S.M.U.V.E--main/S.M.U.V.E--main/src/app/services/gamification.service.ts:33-50 | the levelling loop produces exactly the gained progress and keeps it consistent |
| Gamification.GamificationService.UnlockAchievement | S.M.U.V.E--main/S.M.U.V.E--main/src/app/services/gamification.service.ts:52-64 | the progress becomes the unlocked progress and stays consistent |
| Instruments.FindById | S.M.U.V.E--main/S.M.U.V.E--main/src/app/services/music-manager.service.ts:40-43 | the first preset with that id; none exactly when no preset has it |
| Instruments.FindByKey | S.M.U.V.E--main/S.M.U.V.E--main/src/app/services/music-manager.service.ts:100-102 | the first preset whose id or name is the key; none exactly when no preset matches |
| Instruments.PresetFor | S.M.U.V.E--main/S.M.U.V.E--main/src/app/services/music-manager.service.ts:98-102 | the preset is one of the presets; it matches the key whenever some preset does, and is the first preset when none does |
| Instruments.DefaultTrackPreset | S.M.U.V.E--main/S.M.U.V.E--main/src/app/services/instruments.service.ts:31-33 | "Piano" matches no preset, so the start-up track gets the grand piano, the first preset |
| MidiInput.Classify | S.M.U.V.E--main/S.M.U.V.E--main/src/app/services/instrument.service.ts:53-61 | note on carries the note and velocity/127; note off carries the note |
| MidiInput.ClassifyFollowsChannelVoiceMessages | S.M.U.V.E--main/S.M.U.V.E--main/src/app/services/instrument.service.ts:53-61 | by the MIDI 1.0 channel voice reading: note on with non-zero velocity and note off are acted on exactly on channel 1, note on with velocity 0 counts as note off, and everything else is dropped |
| MidiInput.OtherChannelsIgnored | S.M.U.V.E--main/S.M.U.V.E--main/src/app/services/instrument.service.ts:56-60 | note messages on channels 2 to 16 are dropped |
| MidiInput.FullVelocity | S.M.U.V.E--main/S.M.U.V.E--main/src/app/services/instrument.service.ts:56-57 | full velocity 127 plays at gain exactly 1 |
| MidiInput.MidiPort.constructor | S.M.U.V.E--main/S.M.U.V.E--main/src/app/services/instrument.service.ts:9-10 | a port starts without this service's handler |
| MidiInput.FindPort | S.M.U.V.E--main/S.M.U.V.E--main/src/app/services/instrument.service.ts:38 | the first port with that id; when none is found, no port has it |
| MidiInput.InstrumentService.constructor | S.M.U.V.E--main/S.M.U.V.E--main/src/app/services/instrument.service.ts:9-15 | no inputs, no active input, nothing played |
| MidiInput.InstrumentService.SetInputs | S.M.U.V.E--main/S.M.U.V.E--main/src/app/services/instrument.service.ts:17-28 | the device list is replaced; the active input and what was played are kept, and only the active input has the handler |
| MidiInput.InstrumentService.ConnectToMidiDevice | S.M.U.V.E--main/S.M.U.V.E--main/src/app/services/instrument.service.ts:37-51 | an unknown id changes nothing; otherwise the previous input loses the handler and the found one becomes active with it |
| MidiInput.InstrumentService.HandleMidiMessage | S.M.U.V.E--main/S.M.U.V.E--main/src/app/services/instrument.service.ts:53-61 | exactly the classified note action is played, nothing for an ignored message |
| MusicManager.RemoveAt | S.M.U.V.E--main/S.M.U.V.E--main/src/app/services/music-manager.service.ts:177-179 | exactly the notes outside the cell are kept |
| MusicManager.RemoveAtKeepsOrder | S.M.U.V.E--main/S.M.U.V.E--main/src/app/services/music-manager.service.ts:177-179 | the kept notes stay in their order |
| MusicManager.SetVelocityAt | S.M.U.V.E--main/S.M.U.V.E--main/src/app/services/music-manager.service.ts:162-164 | every note in the cell gets the velocity; pitch, step and length of every note, and the velocity of the others, are kept |
| MusicManager.AddNote | S.M.U.V.E--main/S.M.U.V.E--main/src/app/services/music-manager.service.ts:135-149 | only the track with the id changes: the note is appended to its notes; other tracks, ids and order are kept |
| MusicManager.UpdateNoteVelocity | S.M.U.V.E--main/S.M.U.V.E--main/src/app/services/music-manager.service.ts:151-169 | only the track with the id changes, by setting the velocity of the notes in the cell |
| MusicManager.RemoveNote | S.M.U.V.E--main/S.M.U.V.E--main/src/app/services/music-manager.service.ts:171-184 | only the track with the id changes, losing exactly the notes in the cell |
| MusicManager.ClearTrack | S.M.U.V.E--main/S.M.U.V.E--main/src/app/services/music-manager.service.ts:186-190 | only the track with the id changes, and it has no notes |
| MusicManager.SetInstrument | S.M.U.V.E--main/S.M.U.V.E--main/src/app/services/music-manager.service.ts:128-131 | only the track with the id changes, and only its instrument id |
| MusicManager.NewTrack | S.M.U.V.E--main/S.M.U.V.E--main/src/app/services/music-manager.service.ts:104-113 | the preset's name and id, no notes, gain 0.9, centred, sends 0.1 and 0.05 |
| MusicManager.UnknownTrackIsNoOp | S.M.U.V.E--main/S.M.U.V.E--main/src/app/services/music-manager.service.ts:128-190 | every track operation on an id no track has leaves the tracks unchanged |
| MusicManager.AddNoteDuplicates | S.M.U.V.E--main/S.M.U.V.E--main/src/app/services/music-manager.service.ts:135-149 | adding the same cell twice leaves two notes in it: there is no de-duplication |
| MusicManager.RemoveAfterAdd | S.M.U.V.E--main/S.M.U.V.E--main/src/app/services/music-manager.service.ts:135-184 | removing a cell after adding a note there also removes every earlier note in that cell |
| MusicManager.RemoveAtAppend | S.M.U.V.E--main/S.M.U.V.E--main/src/app/services/music-manager.service.ts:177-179 | removing from a concatenation is removing from each part |
| MusicManager.StepCallsSnoc | S.M.U.V.E--main/S.M.U.V.E--main/src/app/services/music-manager.service.ts:39-83 | the tracks are played in order, one after the other |
| MusicManager.NoteCallsSound | S.M.U.V.E--main/S.M.U.V.E--main/src/app/services/music-manager.service.ts:44-82 | every call for a track plays one of its notes at the current step |
| MusicManager.NoteCallsComplete | S.M.U.V.E--main/S.M.U.V.E--main/src/app/services/music-manager.service.ts:44-82 | every note of a track at the current step is played |
| MusicManager.StepCallsSound | S.M.U.V.E--main/S.M.U.V.E--main/src/app/services/music-manager.service.ts:35-84 | every call the step callback makes plays a note at the current step of a track with a known preset |
| MusicManager.StepCallsComplete | S.M.U.V.E--main/S.M.U.V.E--main/src/app/services/music-manager.service.ts:35-84 | every note at the current step of a track with a known preset is played |
| MusicManager.UnknownInstrumentIsSilent | S.M.U.V.E--main/S.M.U.V.E--main/src/app/services/music-manager.service.ts:40-43 | a track whose instrument id names no preset plays nothing |
| MusicManager.SampleTracksUseFallbackPatch | S.M.U.V.E--main/S.M.U.V.E--main/src/app/services/music-manager.service.ts:59-79 | notes of a sample preset sound through the fixed triangle patch |
| MusicManager.MusicManagerService.constructor | S.M.U.V.E--main/S.M.U.V.E--main/src/app/services/music-manager.service.ts:29-91 | one 'Piano' track on the first matching preset, selected and registered with the engine; the step callback is installed and the playhead is at -1 |
| MusicManager.MusicManagerService.EnsureTrack | S.M.U.V.E--main/S.M.U.V.E--main/src/app/services/music-manager.service.ts:97-126 | the new track is appended and registered with the engine, and selected when nothing was; its id is returned |
| MusicManager.MusicManagerService.SetInstrumentOf | S.M.U.V.E--main/S.M.U.V.E--main/src/app/services/music-manager.service.ts:128-133 | the tracks get the new instrument and the engine gets the matching update call |
| MusicManager.MusicManagerService.AddNoteTo | S.M.U.V.E--main/S.M.U.V.E--main/src/app/services/music-manager.service.ts:135-149 | the tracks become the add-note result; selection and playhead are kept |
| MusicManager.MusicManagerService.UpdateVelocity | S.M.U.V.E--main/S.M.U.V.E--main/src/app/services/music-manager.service.ts:151-169 | the tracks become the velocity-update result; selection and playhead are kept |
| MusicManager.MusicManagerService.RemoveNoteFrom | S.M.U.V.E--main/S.M.U.V.E--main/src/app/services/music-manager.service.ts:171-184 | the tracks become the remove-note result; selection and playhead are kept |
| MusicManager.MusicManagerService.Clear | S.M.U.V.E--main/S.M.U.V.E--main/src/app/services/music-manager.service.ts:186-190 | the tracks become the clear-track result; selection and playhead are kept |
| MusicManager.MusicManagerService.SetTempo | S.M.U.V.E--main/S.M.U.V.E--main/src/app/services/music-manager.service.ts:192-194 | the engine tempo is set; nothing else changes |
| MusicManager.MusicManagerService.Play | S.M.U.V.E--main/S.M.U.V.E--main/src/app/services/music-manager.service.ts:195-197 | the engine starts |
| MusicManager.MusicManagerService.Stop | S.M.U.V.E--main/S.M.U.V.E--main/src/app/services/music-manager.service.ts:198-201 | the engine stops and the playhead is parked at -1 |
| MusicManager.MusicManagerService.SetLoop | S.M.U.V.E--main/S.M.U.V.E--main/src/app/services/music-manager.service.ts:202-205 | the engine loop range is set; nothing else changes |
| MusicManager.MusicManagerService.SyncPlayhead | S.M.U.V.E--main/S.M.U.V.E--main/src/app/services/music-manager.service.ts:86-90 | the playhead is -1 whenever the engine is not playing, and is kept otherwise |
| MusicManager.MusicManagerService.PlayTrackStep | S.M.U.V.E--main/S.M.U.V.E--main/src/app/services/music-manager.service.ts:44-82 | the engine gets exactly the calls for this track's notes at the step |
| MusicManager.MusicManagerService.PlayTrack | S.M.U.V.E--main/S.M.U.V.E--main/src/app/services/music-manager.service.ts:40-82 | a track without a known preset is skipped; otherwise its notes at the step are played |
| MusicManager.MusicManagerService.OnScheduleStep | S.M.U.V.E--main/S.M.U.V.E--main/src/app/services/music-manager.service.ts:35-84 | the playhead moves to the step and the engine gets exactly the step's calls, with 95% of the step duration |
| MusicManager.MusicManagerService.PlayTracks | S.M.U.V.E--main/S.M.U.V.E--main/src/app/services/music-manager.service.ts:39-83 | the engine gets exactly the calls for all tracks, in order |
| MicRouting.Merge | S.M.U.V.E--main/S.M.U.V.E--main/src/app/services/microphone-routing.service.ts:181 | each field present in the update wins; every other field is the channel's own |
| MicRouting.MergeEmpty | S.M.U.V.E--main/S.M.U.V.E--main/src/app/services/microphone-routing.service.ts:181 | an update with no fields leaves a channel as it was |
| MicRouting.AddChannel | S.M.U.V.E--main/S.M.U.V.E--main/src/app/services/microphone-routing.service.ts:168-171 | the old channels are kept and the new one is appended with id `ch<now>` |
| MicRouting.RemoveChannel | S.M.U.V.E--main/S.M.U.V.E--main/src/app/services/microphone-routing.service.ts:173-177 | exactly the channels with another id are kept |
| MicRouting.RemoveChannelKeepsOrder | S.M.U.V.E--main/S.M.U.V.E--main/src/app/services/microphone-routing.service.ts:173-177 | the kept channels stay in their order |
| MicRouting.UpdateChannel | S.M.U.V.E--main/S.M.U.V.E--main/src/app/services/microphone-routing.service.ts:179-183 | channels with the id get the merged update; the others, and the order, are kept |
| MicRouting.UpdateWithEmptyPatch | S.M.U.V.E--main/S.M.U.V.E--main/src/app/services/microphone-routing.service.ts:179-183 | an empty update leaves the list as it was |
| MicRouting.PatchOf | S.M.U.V.E--main/S.M.U.V.E--main/src/app/services/microphone-routing.service.ts:245-275 | a one-field setter's update never names the id, label, category or armed flag |
| MicRouting.SetterChangesOneField | S.M.U.V.E--main/S.M.U.V.E--main/src/app/services/microphone-routing.service.ts:245-275 | each setter changes exactly its own field of the addressed channels |
| MicRouting.EnsureChannel | S.M.U.V.E--main/S.M.U.V.E--main/src/app/services/microphone-routing.service.ts:285-290 | a known id leaves the list unchanged, a new one is appended, and afterwards the id is present |
| MicRouting.EnsureChannelIdempotent | S.M.U.V.E--main/S.M.U.V.E--main/src/app/services/microphone-routing.service.ts:285-290 | ensuring a channel twice is ensuring it once |
| MicRouting.ArmedChannels | S.M.U.V.E--main/S.M.U.V.E--main/src/app/services/microphone-routing.service.ts:222 | exactly the armed channels |
| MicRouting.ArmedChannelsKeepOrder | S.M.U.V.E--main/S.M.U.V.E--main/src/app/services/microphone-routing.service.ts:222 | the armed channels stay in their order |
| MicRouting.MergeQuality | S.M.U.V.E--main/S.M.U.V.E--main/src/app/services/microphone-routing.service.ts:186-188 | each quality field present in the update wins; the others are kept |
| MicRouting.MockArmed | S.M.U.V.E--main/S.M.U.V.E--main/src/app/services/microphone-routing.service.ts:77-134 | the mock set-up arms exactly its first two channels |
| MicRouting.MicrophoneRoutingService.constructor | S.M.U.V.E--main/S.M.U.V.E--main/src/app/services/microphone-routing.service.ts:150-151 | the mock channels and the mock quality profile |
| MicRouting.MicrophoneRoutingService.Add | S.M.U.V.E--main/S.M.U.V.E--main/src/app/services/microphone-routing.service.ts:168-171 | the channels become the add result; quality is kept |
| MicRouting.MicrophoneRoutingService.Remove | S.M.U.V.E--main/S.M.U.V.E--main/src/app/services/microphone-routing.service.ts:173-177 | the channels become the remove result; quality is kept |
| MicRouting.MicrophoneRoutingService.Update | S.M.U.V.E--main/S.M.U.V.E--main/src/app/services/microphone-routing.service.ts:179-183 | the channels become the update result; quality is kept |
| MicRouting.MicrophoneRoutingService.Set | S.M.U.V.E--main/S.M.U.V.E--main/src/app/services/microphone-routing.service.ts:245-275 | the channels become the update by the setter's one-field patch; quality is kept |
| MicRouting.MicrophoneRoutingService.Ensure | S.M.U.V.E--main/S.M.U.V.E--main/src/app/services/microphone-routing.service.ts:285-290 | the channels become the ensure result; quality is kept |
| MicRouting.MicrophoneRoutingService.UpdateQualityProfile | S.M.U.V.E--main/S.M.U.V.E--main/src/app/services/microphone-routing.service.ts:186-188 | the quality profile becomes the merged update; channels are kept |
| MicRouting.MicrophoneRoutingService.SetPhantomPowerBus | S.M.U.V.E--main/S.M.U.V.E--main/src/app/services/microphone-routing.service.ts:225-227 | only the phantom-power bus flag changes |
| MicRouting.MicrophoneRoutingService.SetNoiseSuppression | S.M.U.V.E--main/S.M.U.V.E--main/src/app/services/microphone-routing.service.ts:229-231 | only the noise-suppression flag changes |
| PianoRoll.MidiRows | S.M.U.V.E--main/S.M.U.V.E--main/src/app/components/piano-roll/piano-roll.component.ts:46-49 | the grid has OCTAVES·12 = 36 rows |
| PianoRoll.MidiRowsShape | S.M.U.V.E--main/S.M.U.V.E--main/src/app/components/piano-roll/piano-roll.component.ts:17-18 | rows run from 95 down to 60, strictly descending, and hold exactly the pitches 60..95 |
| PianoRoll.FindTrack | S.M.U.V.E--main/S.M.U.V.E--main/src/app/components/piano-roll/piano-roll.component.ts:56-60 | finds the first track with the selected id, and finds none exactly when no track has it |
| PianoRoll.SelectedTrack | S.M.U.V.E--main/S.M.U.V.E--main/src/app/components/piano-roll/piano-roll.component.ts:56-60 | the selected track exists exactly when the track list is non-empty, and is one of the tracks |
| PianoRoll.FirstAtStep | S.M.U.V.E--main/S.M.U.V.E--main/src/app/components/piano-roll/piano-roll.component.ts:190-194 | the first note at a step, absent exactly when no note has that step |
| PianoRoll.VelocityForStep | S.M.U.V.E--main/S.M.U.V.E--main/src/app/components/piano-roll/piano-roll.component.ts:77-80 | the velocity of the note at the step, or 0 when there is none |
| PianoRoll.RemoveAtOnePerStep | S.M.U.V.E--main/S.M.U.V.E--main/src/app/components/piano-roll/piano-roll.component.ts:143-147 | removing the notes at (midi, step) keeps at most one note per step |
| PianoRoll.RemoveFoundEmptiesStep | S.M.U.V.E--main/S.M.U.V.E--main/src/app/components/piano-roll/piano-roll.component.ts:143-147 | with one note per step, removing the found note leaves the step empty |
| PianoRoll.SameStepSameIndex | S.M.U.V.E--main/S.M.U.V.E--main/src/app/components/piano-roll/piano-roll.component.ts:143-154 | with one note per step, two notes at the same step are the same note |
| PianoRoll.AppendOnePerStep | S.M.U.V.E--main/S.M.U.V.E--main/src/app/components/piano-roll/piano-roll.component.ts:149-154 | adding a note at an empty step keeps one note per step |
| PianoRoll.SelectedIsTarget | S.M.U.V.E--main/S.M.U.V.E--main/src/app/components/piano-roll/piano-roll.component.ts:56-60 | with distinct track ids, the selected track is the track with that id |
| PianoRoll.ToggleKeepsOnePerStep | S.M.U.V.E--main/S.M.U.V.E--main/src/app/components/piano-roll/piano-roll.component.ts:136-155 | toggling keeps at most one note per step on every track |
| PianoRoll.ToggleWithoutSelection | S.M.U.V.E--main/S.M.U.V.E--main/src/app/components/piano-roll/piano-roll.component.ts:137-138 | with no selected track, a toggle changes nothing |
| PianoRoll.RemoveAtAbsent | S.M.U.V.E--main/S.M.U.V.E--main/src/app/components/piano-roll/piano-roll.component.ts:149-151 | removing at a step with no notes changes nothing |
| PianoRoll.FirstAtStepAppend | S.M.U.V.E--main/S.M.U.V.E--main/src/app/components/piano-roll/piano-roll.component.ts:149-154 | a note added at an empty step is then the note found at that step |
| PianoRoll.ToggleEmptyCell | S.M.U.V.E--main/S.M.U.V.E--main/src/app/components/piano-roll/piano-roll.component.ts:149-154 | toggling an empty step adds the note with length 1 and velocity 0.9 |
| PianoRoll.ToggleSamePitch | S.M.U.V.E--main/S.M.U.V.E--main/src/app/components/piano-roll/piano-roll.component.ts:143-147 | toggling a step whose note has the same pitch removes that note |
| PianoRoll.ToggleTwiceRestores | S.M.U.V.E--main/S.M.U.V.E--main/src/app/components/piano-roll/piano-roll.component.ts:143-154 | toggling the same empty cell twice gives back the original tracks |
| PianoRoll.ReplaceNotes | S.M.U.V.E--main/S.M.U.V.E--main/src/app/components/piano-roll/piano-roll.component.ts:98-109 | clearing then adding in order makes the selected track's notes the generated list and leaves other tracks unchanged |
| PianoRoll.StepsAfter | S.M.U.V.E--main/S.M.U.V.E--main/src/app/components/piano-roll/piano-roll.component.ts:120-126 | NaN and values at most 0 keep the step count; a positive value replaces it |
| PianoRoll.StepsFromRendering | S.M.U.V.E--main/S.M.U.V.E--main/src/app/components/piano-roll/piano-roll.component.ts:120-126 | a positive integer typed into the field becomes the step count |
| PianoRoll.JsRem | S.M.U.V.E--main/S.M.U.V.E--main/src/app/components/piano-roll/piano-roll.component.ts:200-218 | JavaScript's remainder agrees with the Euclidean one on non-negative operands, is never positive for a negative one, and lies strictly between -b and b |
| PianoRoll.MiddleC | S.M.U.V.E--main/S.M.U.V.E--main/src/app/components/piano-roll/piano-roll.component.ts:200-218 | 60 is named "C4", 69 "A4" and 0 "C-1" |
| PianoRoll.NameIndex | S.M.U.V.E--main/S.M.U.V.E--main/src/app/components/piano-roll/piano-roll.component.ts:200-218 | a note name is found exactly when it is one of the twelve names, at its own index |
| PianoRoll.NameShape | S.M.U.V.E--main/S.M.U.V.E--main/src/app/components/piano-roll/piano-roll.component.ts:200-218 | every note name is a letter optionally followed by '#' |
| PianoRoll.ParseNameParts | S.M.U.V.E--main/S.M.U.V.E--main/src/app/components/piano-roll/piano-roll.component.ts:200-218 | a name followed by an octave number reads back as that pitch |
| PianoRoll.ParseNameThenOctave | S.M.U.V.E--main/S.M.U.V.E--main/src/app/components/piano-roll/piano-roll.component.ts:200-218 | NAMES[r] followed by octave v reads back as 12·(v+1)+r |
| PianoRoll.OctaveText | S.M.U.V.E--main/S.M.U.V.E--main/src/app/components/piano-roll/piano-roll.component.ts:215-217 | the printed octave number is non-empty, does not start with '#', and parses back to itself |
| PianoRoll.MidiNameRoundTrip | S.M.U.V.E--main/S.M.U.V.E--main/src/app/components/piano-roll/piano-roll.component.ts:200-218 | every non-negative pitch can be recovered from its name |
| PianoRoll.PitchFromParts | S.M.U.V.E--main/S.M.U.V.E--main/src/app/components/piano-roll/piano-roll.component.ts:200-218 | name index midi mod 12 and octave floor(midi/12)-1 rebuild the pitch |
| PianoRoll.MidiNameShape | S.M.U.V.E--main/S.M.U.V.E--main/src/app/components/piano-roll/piano-roll.component.ts:200-218 | the name is NAMES[midi mod 12] followed by floor(midi/12)-1 |
| PianoRoll.OctaveTextOfPitch | S.M.U.V.E--main/S.M.U.V.E--main/src/app/components/piano-roll/piano-roll.component.ts:200-218 | the octave part of a pitch's name parses back to floor(midi/12)-1 |
| PianoRoll.MidiNameInjective | S.M.U.V.E--main/S.M.U.V.E--main/src/app/components/piano-roll/piano-roll.component.ts:200-218 | distinct non-negative pitches have distinct names |
| PianoRoll.PianoRollComponent.constructor | S.M.U.V.E--main/S.M.U.V.E--main/src/app/components/piano-roll/piano-roll.component.ts:35-43 | the component starts with the engine's current tempo, the initial step count and an empty melody prompt |
| PianoRoll.PianoRollComponent.SequenceFor | S.M.U.V.E--main/S.M.U.V.E--main/src/app/components/piano-roll/piano-roll.component.ts:66-75 | the result has one entry per step, true exactly where the selected track has a note of that pitch |
| PianoRoll.PianoRollComponent.ToggleNote | S.M.U.V.E--main/S.M.U.V.E--main/src/app/components/piano-roll/piano-roll.component.ts:136-155 | the tracks become Toggle of the old tracks; selection and playhead are unchanged |
| PianoRoll.PianoRollComponent.GenerateMelody | S.M.U.V.E--main/S.M.U.V.E--main/src/app/components/piano-roll/piano-roll.component.ts:92-110 | an empty prompt, no answer or no selection changes nothing; otherwise the selected track's notes are replaced by the generated list |
| PianoRoll.PianoRollComponent.OnBpmChange | S.M.U.V.E--main/S.M.U.V.E--main/src/app/components/piano-roll/piano-roll.component.ts:112-118 | a parsed integer becomes both the component tempo and the engine tempo; NaN changes nothing |
| PianoRoll.PianoRollComponent.OnStepsChange | S.M.U.V.E--main/S.M.U.V.E--main/src/app/components/piano-roll/piano-roll.component.ts:120-126 | a positive integer sets the step count and the loop to [0, v); anything else changes nothing |
| ProfileEditor.WithLinks | S.M.U.V.E--main/S.M.U.V.E--main/src/app/components/profile-editor/profile-editor.component.ts:121-127 | the profile's link map of that kind becomes the given map |
| ProfileEditor.UpdateLink | S.M.U.V.E--main/S.M.U.V.E--main/src/app/components/profile-editor/profile-editor.component.ts:115-128 | the platform's link holds the typed value, other platforms of that kind keep theirs, the other kind and the rest of the profile are unchanged |
| ProfileEditor.AddLink | S.M.U.V.E--main/S.M.U.V.E--main/src/app/components/profile-editor/profile-editor.component.ts:130-138 | the platform is present with an empty link; the other links, the other kind and the rest of the profile are unchanged |
| ProfileEditor.RemoveLink | S.M.U.V.E--main/S.M.U.V.E--main/src/app/components/profile-editor/profile-editor.component.ts:140-149 | exactly that platform's key is removed; the other kind and the rest of the profile are unchanged |
| ProfileEditor.AddThenRemove | S.M.U.V.E--main/S.M.U.V.E--main/src/app/components/profile-editor/profile-editor.component.ts:130-149 | adding a platform that had no link and then removing it restores the link map |
| ProfileEditor.WithEntry | S.M.U.V.E--main/S.M.U.V.E--main/src/app/components/profile-editor/profile-editor.component.ts:188-193 | the platform map of that kind has the platform's entry replaced and nothing else changed |
| ProfileEditor.StartVerification | S.M.U.V.E--main/S.M.U.V.E--main/src/app/components/profile-editor/profile-editor.component.ts:188-193 | the entry's status becomes 'syncing'; its url, verified flag and last sync stay, and nothing else in the profile changes |
| ProfileEditor.FinishVerification | S.M.U.V.E--main/S.M.U.V.E--main/src/app/components/profile-editor/profile-editor.component.ts:196-207 | the entry becomes 'verified' with verified = true and lastSynced at the given time, keeping its url; nothing else changes |
| ProfileEditor.UpdatePlatformUrl | S.M.U.V.E--main/S.M.U.V.E--main/src/app/components/profile-editor/profile-editor.component.ts:212-224 | only the entry's url changes; its status, verified flag and last sync stay |
| ProfileEditor.VerificationCompletes | S.M.U.V.E--main/S.M.U.V.E--main/src/app/components/profile-editor/profile-editor.component.ts:184-210 | a verification run to its end leaves the entry verified with its original url, whatever its status was |
| ProfileEditor.FindDocument | S.M.U.V.E--main/S.M.U.V.E--main/src/app/components/profile-editor/profile-editor.component.ts:165 | the first index with that id, or none exactly when no document has it |
| ProfileEditor.SaveDocument | S.M.U.V.E--main/S.M.U.V.E--main/src/app/components/profile-editor/profile-editor.component.ts:163-173 | a document with the same id is replaced at its index; otherwise the document is appended; either way it is in the list |
| ProfileEditor.SaveKeepsIdsUnique | S.M.U.V.E--main/S.M.U.V.E--main/src/app/components/profile-editor/profile-editor.component.ts:162-175 | saving keeps document ids unique when they were |
| ProfileEditor.SaveIdempotent | S.M.U.V.E--main/S.M.U.V.E--main/src/app/components/profile-editor/profile-editor.component.ts:162-175 | saving the same document twice equals saving it once |
| ProfileEditor.DeleteDocument | S.M.U.V.E--main/S.M.U.V.E--main/src/app/components/profile-editor/profile-editor.component.ts:177-182 | exactly the documents with another id remain |
| ProfileEditor.DeleteKeepsOrder | S.M.U.V.E--main/S.M.U.V.E--main/src/app/components/profile-editor/profile-editor.component.ts:180 | the documents that remain keep their order |
| ProfileEditor.SaveThenDelete | S.M.U.V.E--main/S.M.U.V.E--main/src/app/components/profile-editor/profile-editor.component.ts:162-182 | deleting the id of a document just saved leaves only earlier documents with other ids |
| ProfileEditor.UpdateField | S.M.U.V.E--main/S.M.U.V.E--main/src/app/components/profile-editor/profile-editor.component.ts:230-232 | the written field holds the new value |
| ProfileEditor.UpdateFieldKeepsOthers | S.M.U.V.E--main/S.M.U.V.E--main/src/app/components/profile-editor/profile-editor.component.ts:230-232 | writing one text field leaves every other text field unchanged |
| ProfileEditor.UpdateFieldKeepsStructure | S.M.U.V.E--main/S.M.U.V.E--main/src/app/components/profile-editor/profile-editor.component.ts:230-232 | writing a text field leaves the lists, maps, numbers and documents of the profile unchanged |
| ProfileEditor.UpdateFieldWithSameValue | S.M.U.V.E--main/S.M.U.V.E--main/src/app/components/profile-editor/profile-editor.component.ts:230-232 | writing a field its current value leaves the profile unchanged |
| ProfileEditor.ProfileEditorComponent.constructor | S.M.U.V.E--main/S.M.U.V.E--main/src/app/components/profile-editor/profile-editor.component.ts:56-64 | the working copy starts as the service's profile, the legal editor is closed and the save status is idle |
| ProfileEditor.ProfileEditorComponent.OnProfileSignal | S.M.U.V.E--main/S.M.U.V.E--main/src/app/components/profile-editor/profile-editor.component.ts:67-76 | while signed in, the working copy becomes the service's profile; otherwise it is kept |
| ProfileEditor.ProfileEditorComponent.SaveProfile | S.M.U.V.E--main/S.M.U.V.E--main/src/app/components/profile-editor/profile-editor.component.ts:106-108 | the status becomes 'saving' and the working copy is handed to the profile service |
| ProfileEditor.ProfileEditorComponent.SaveTimerFired | S.M.U.V.E--main/S.M.U.V.E--main/src/app/components/profile-editor/profile-editor.component.ts:109-110 | the first timer sets the status to 'saved' and changes nothing else |
| ProfileEditor.ProfileEditorComponent.IdleTimerFired | S.M.U.V.E--main/S.M.U.V.E--main/src/app/components/profile-editor/profile-editor.component.ts:111 | the second timer sets the status to 'idle' and changes nothing else |
| ProfileEditor.ProfileEditorComponent.EditLink | S.M.U.V.E--main/S.M.U.V.E--main/src/app/components/profile-editor/profile-editor.component.ts:115-128 | the working copy becomes UpdateLink of the old one |
| ProfileEditor.ProfileEditorComponent.NewLink | S.M.U.V.E--main/S.M.U.V.E--main/src/app/components/profile-editor/profile-editor.component.ts:130-138 | the working copy becomes AddLink of the old one |
| ProfileEditor.ProfileEditorComponent.DropLink | S.M.U.V.E--main/S.M.U.V.E--main/src/app/components/profile-editor/profile-editor.component.ts:140-149 | the working copy becomes RemoveLink of the old one |
| ProfileEditor.ProfileEditorComponent.OpenDocument | S.M.U.V.E--main/S.M.U.V.E--main/src/app/components/profile-editor/profile-editor.component.ts:152-160 | the editor opens on the given document, or on none for a new one |
| ProfileEditor.ProfileEditorComponent.SaveLegalDocument | S.M.U.V.E--main/S.M.U.V.E--main/src/app/components/profile-editor/profile-editor.component.ts:162-175 | the documents become the upsert of the old list and the editor closes |
| ProfileEditor.ProfileEditorComponent.DeleteLegalDocument | S.M.U.V.E--main/S.M.U.V.E--main/src/app/components/profile-editor/profile-editor.component.ts:177-182 | the documents become the old list without that id |
| ProfileEditor.ProfileEditorComponent.VerifyPlatform | S.M.U.V.E--main/S.M.U.V.E--main/src/app/components/profile-editor/profile-editor.component.ts:184-194 | the working copy becomes StartVerification of the old one |
| ProfileEditor.ProfileEditorComponent.VerificationTimerFired | S.M.U.V.E--main/S.M.U.V.E--main/src/app/components/profile-editor/profile-editor.component.ts:196-209 | the working copy becomes FinishVerification of the old one and is handed to the profile service |
| ProfileEditor.ProfileEditorComponent.EditPlatformUrl | S.M.U.V.E--main/S.M.U.V.E--main/src/app/components/profile-editor/profile-editor.component.ts:212-224 | the working copy becomes UpdatePlatformUrl of the old one |
| ProfileEditor.ProfileEditorComponent.UpdateProfileField | S.M.U.V.E--main/S.M.U.V.E--main/src/app/components/profile-editor/profile-editor.component.ts:230-232 | the working copy becomes UpdateField of the old one |
| Reputation.Title | S.M.U.V.E--main/S.M.U.V.E--main/src/app/services/reputation.service.ts:44-50 | the title is the one at the level's rank among the five titles |
| Reputation.TitleRank | S.M.U.V.E--main/S.M.U.V.E--main/src/app/services/reputation.service.ts:44-50 | the rank counts the thresholds 10, 20, 30 and 50 the level reaches, so it is below five |
| Reputation.TitleMonotone | S.M.U.V.E--main/S.M.U.V.E--main/src/app/services/reputation.service.ts:44-50 | a higher level never has a lower-ranked title |
| Reputation.TitlesDistinct | S.M.U.V.E--main/S.M.U.V.E--main/src/app/services/reputation.service.ts:45-49 | the five titles differ, so the title determines the rank |
| Reputation.CarryIsDivision | S.M.U.V.E--main/S.M.U.V.E--main/src/app/services/reputation.service.ts:29-32 | the carry loop computes xp mod 1000 and adds xp div 1000 levels when xp reaches 1000, and leaves smaller (even negative) xp alone |
| Reputation.Added | S.M.U.V.E--main/S.M.U.V.E--main/src/app/services/reputation.service.ts:23-42 | the total grows by exactly the amount, the level never drops, xp ends below 1000 and is non-negative when the new xp was, and the title matches the level |
| Reputation.AddedConserves | S.M.U.V.E--main/S.M.U.V.E--main/src/app/services/reputation.service.ts:25-32 | (level − 1)·1000 + xp = totalXp is kept by every addXp, whatever the amount |
| Reputation.FromInitial | S.M.U.V.E--main/S.M.U.V.E--main/src/app/services/reputation.service.ts:16-32 | from the initial state, non-negative additions keep 0 ≤ xp < 1000, level = totalXp div 1000 + 1 and xp = totalXp mod 1000 |
| Reputation.DivisionOfConserved | S.M.U.V.E--main/S.M.U.V.E--main/src/app/services/reputation.service.ts:29-32 | a quotient and remainder below 1000 that rebuild the total are its division by 1000 |
| Reputation.ReputationService.constructor | S.M.U.V.E--main/S.M.U.V.E--main/src/app/services/reputation.service.ts:16-21 | the state starts at level 1, xp 0, total 0 and 'Novice Producer', with the conservation invariant holding |
| Reputation.ReputationService.AddXp | S.M.U.V.E--main/S.M.U.V.E--main/src/app/services/reputation.service.ts:23-42 | the carry loop leaves the state Added(old state, amount) |
| SampleLibrary.ByCategory | S.M.U.V.E--main/S.M.U.V.E--main/src/app/components/sample-library/sample-library.component.ts:81-83 | exactly the samples of that category remain |
| SampleLibrary.BySearch | S.M.U.V.E--main/S.M.U.V.E--main/src/app/components/sample-library/sample-library.component.ts:85-91 | exactly the samples whose lower-cased name contains the term, or that have a tag containing it, remain |
| SampleLibrary.Filtered | S.M.U.V.E--main/S.M.U.V.E--main/src/app/components/sample-library/sample-library.component.ts:76-94 | a sample is shown exactly when it passes the category filter (unless 'All') and the text filter (unless the term is empty) |
| SampleLibrary.ByCategoryKeepsOrder | S.M.U.V.E--main/S.M.U.V.E--main/src/app/components/sample-library/sample-library.component.ts:82 | the category filter keeps the samples' order |
| SampleLibrary.BySearchKeepsOrder | S.M.U.V.E--main/S.M.U.V.E--main/src/app/components/sample-library/sample-library.component.ts:86-90 | the text filter keeps the samples' order |
| SampleLibrary.SubsequenceTransitive | S.M.U.V.E--main/S.M.U.V.E--main/src/app/components/sample-library/sample-library.component.ts:81-91 | filtering a filtered list keeps the original order |
| SampleLibrary.SubsequenceReflexive | S.M.U.V.E--main/S.M.U.V.E--main/src/app/components/sample-library/sample-library.component.ts:81-91 | a list skipped by both filters is in its own order |
| SampleLibrary.FilteredKeepsOrder | S.M.U.V.E--main/S.M.U.V.E--main/src/app/components/sample-library/sample-library.component.ts:76-94 | the result is an order-preserving subsequence of the samples |
| SampleLibrary.NoFilterShowsAll | S.M.U.V.E--main/S.M.U.V.E--main/src/app/components/sample-library/sample-library.component.ts:81-85 | 'All' with an empty term shows every sample in order |
| SampleLibrary.SearchIgnoresTermCase | S.M.U.V.E--main/S.M.U.V.E--main/src/app/components/sample-library/sample-library.component.ts:79 | the term is lower-cased first, so its case does not change the result |
| SampleLibrary.DrumsAreKickAndSnare | S.M.U.V.E--main/S.M.U.V.E--main/src/app/components/sample-library/sample-library.component.ts:36-74 | of the built-in samples, 'Drums' keeps the kick and the snare |
| SampleLibrary.SampleLibraryComponent.constructor | S.M.U.V.E--main/S.M.U.V.E--main/src/app/components/sample-library/sample-library.component.ts:24-28 | no samples, category 'All', empty search, not loading, nothing selected |
| SampleLibrary.SampleLibraryComponent.LoadSamples | S.M.U.V.E--main/S.M.U.V.E--main/src/app/components/sample-library/sample-library.component.ts:36-74 | the four built-in samples are installed and loading is over; filters and selection are kept |
| SampleLibrary.SampleLibraryComponent.FilteredSamples | S.M.U.V.E--main/S.M.U.V.E--main/src/app/components/sample-library/sample-library.component.ts:76-94 | the shown samples are Filtered of the state and come from the loaded samples |
| SampleLibrary.SampleLibraryComponent.SelectSample | S.M.U.V.E--main/S.M.U.V.E--main/src/app/components/sample-library/sample-library.component.ts:96-98 | the given sample becomes the selection; samples and filters are kept |
| StrategyHub.Toggled | S.M.U.V.E--main/S.M.U.V.E--main/src/app/components/strategy-hub/strategy-hub.component.ts:122-128 | same length; items with the id have completed flipped and everything else kept |
| StrategyHub.ToggleTwice | S.M.U.V.E--main/S.M.U.V.E--main/src/app/components/strategy-hub/strategy-hub.component.ts:122-128 | toggling the same id twice restores the checklist |
| StrategyHub.CompletedCount | S.M.U.V.E--main/S.M.U.V.E--main/src/app/components/strategy-hub/strategy-hub.component.ts:132 | the count is at most the length, 0 exactly when none is done and the length exactly when all are |
| StrategyHub.Progress | S.M.U.V.E--main/S.M.U.V.E--main/src/app/components/strategy-hub/strategy-hub.component.ts:130-134 | progress lies in [0, 100], is 0 when none is done (and for an empty list) and 100 when all of a non-empty list are done |
| StrategyHub.TickRaisesProgress | S.M.U.V.E--main/S.M.U.V.E--main/src/app/components/strategy-hub/strategy-hub.component.ts:122-134 | ticking off the one open item with an id counts one more done and does not lower progress |
| StrategyHub.ProgressOf | S.M.U.V.E--main/S.M.U.V.E--main/src/app/components/strategy-hub/strategy-hub.component.ts:130-134 | for a non-empty list, progress is the rounded percentage of completed items |
| StrategyHub.TickCounts | S.M.U.V.E--main/S.M.U.V.E--main/src/app/components/strategy-hub/strategy-hub.component.ts:122-132 | ticking off an open item with a unique id adds exactly one to the completed count |
| StrategyHub.UntouchedCount | S.M.U.V.E--main/S.M.U.V.E--main/src/app/components/strategy-hub/strategy-hub.component.ts:122-128 | toggling an id no item has changes nothing |
| StrategyHub.InitialProgressIsZero | S.M.U.V.E--main/S.M.U.V.E--main/src/app/components/strategy-hub/strategy-hub.component.ts:37-67 | the nine initial items are all open, so progress starts at 0 |
| StrategyHub.EstimatedConversions | S.M.U.V.E--main/S.M.U.V.E--main/src/app/components/strategy-hub/strategy-hub.component.ts:28 | conversions are the largest integer not above adSpend / 5 |
| StrategyHub.ConversionsWithinReach | S.M.U.V.E--main/S.M.U.V.E--main/src/app/components/strategy-hub/strategy-hub.component.ts:27-28 | for non-negative spend, 75 people reached stand behind every conversion |
| StrategyHub.StrategyHubComponent.constructor | S.M.U.V.E--main/S.M.U.V.E--main/src/app/components/strategy-hub/strategy-hub.component.ts:26-67 | the spend starts at 100 and the checklist at its nine open items |
| StrategyHub.StrategyHubComponent.ToggleItem | S.M.U.V.E--main/S.M.U.V.E--main/src/app/components/strategy-hub/strategy-hub.component.ts:122-128 | the checklist becomes Toggled of the old one and the spend is kept |
| StudioRecording.EveryFormatIsCandidate | S.M.U.V.E--main/S.M.U.V.E--main/src/app/services/studio-recording.service.ts:34-39 | every recording format is one of the four candidates |
| StudioRecording.SupportedAmong | S.M.U.V.E--main/S.M.U.V.E--main/src/app/services/studio-recording.service.ts:40-44 | a candidate is kept exactly when a MediaRecorder exists and supports it |
| StudioRecording.SupportedKeepsOrder | S.M.U.V.E--main/S.M.U.V.E--main/src/app/services/studio-recording.service.ts:40-44 | the kept candidates keep their order |
| StudioRecording.SupportedFormats | S.M.U.V.E--main/S.M.U.V.E--main/src/app/services/studio-recording.service.ts:33-45 | the result is an order-preserving subsequence of mp3, wav, webm;codecs=opus, webm, holding exactly the supported formats |
| StudioRecording.StudioRecordingService.constructor | S.M.U.V.E--main/S.M.U.V.E--main/src/app/services/studio-recording.service.ts:22-29 | no recorder, no chunks, start time 0, no armed channels, not recording, elapsed 0, no takes |
| StudioRecording.StudioRecordingService.SaveTake | S.M.U.V.E--main/S.M.U.V.E--main/src/app/services/studio-recording.service.ts:105-123 | the new take (name, start, duration, recorder's or requested format, chunks, armed channels) goes to the front; elapsed, chunks and recorder are reset |
| StudioRecording.StudioRecordingService.StopRecording | S.M.U.V.E--main/S.M.U.V.E--main/src/app/services/studio-recording.service.ts:86-99 | with no recorder nothing changes; otherwise the take is saved and recording ends |
| StudioRecording.StudioRecordingService.StartRecording | S.M.U.V.E--main/S.M.U.V.E--main/src/app/services/studio-recording.service.ts:47-84 | a running recording is first stopped and saved; then a new recorder starts with empty chunks, the start time and the given channels |
| StudioRecording.StudioRecordingService.OnDataAvailable | S.M.U.V.E--main/S.M.U.V.E--main/src/app/services/studio-recording.service.ts:73-77 | a chunk is buffered exactly when its size is non-zero |
| StudioRecording.StudioRecordingService.DeleteTake | S.M.U.V.E--main/S.M.U.V.E--main/src/app/services/studio-recording.service.ts:101-103 | the takes become WithoutTake of the old ones; nothing else changes |
| StudioRecording.StudioRecordingService.TickElapsed | S.M.U.V.E--main/S.M.U.V.E--main/src/app/services/studio-recording.service.ts:125-129 | while recording, elapsed is the time since the start; otherwise it is kept |
| StudioRecording.WithoutTake | S.M.U.V.E--main/S.M.U.V.E--main/src/app/services/studio-recording.service.ts:102 | exactly the takes with another id remain |
| StudioRecording.WithoutTakeKeepsOrder | S.M.U.V.E--main/S.M.U.V.E--main/src/app/services/studio-recording.service.ts:102 | the remaining takes keep their order |
| StudioRecording.BufferKeepsChunksNonEmpty | S.M.U.V.E--main/S.M.U.V.E--main/src/app/services/studio-recording.service.ts:73-77 | buffering keeps every stored chunk non-empty |
| SubtractiveSynth.Oscillator.constructor | S.M.U.V.E--main/S.M.U.V.E--main/src/app/studio/subtractive-synth.ts:32-34 | a new oscillator has the given waveform and pitch and is neither started nor scheduled to stop |
| SubtractiveSynth.Oscillator.Start | S.M.U.V.E--main/S.M.U.V.E--main/src/app/studio/subtractive-synth.ts:42 | the oscillator is started; its stop schedule is unchanged |
| SubtractiveSynth.Oscillator.StopAt | S.M.U.V.E--main/S.M.U.V.E--main/src/app/studio/subtractive-synth.ts:50 | the oscillator is scheduled to stop at the given time |
| SubtractiveSynth.Synth.constructor | S.M.U.V.E--main/S.M.U.V.E--main/src/app/studio/subtractive-synth.ts:12-29 | no voices, sawtooth, filter cutoff 20000, envelope 0.01/0.2/0.8/0.5 |
| SubtractiveSynth.Synth.Play | S.M.U.V.E--main/S.M.U.V.E--main/src/app/studio/subtractive-synth.ts:31-44 | the note maps to a fresh started oscillator of the current type and a gain of intrinsic value 1 with the attack events; other notes are unchanged; an earlier voice for the note is replaced without being stopped |
| SubtractiveSynth.Synth.Stop | S.M.U.V.E--main/S.M.U.V.E--main/src/app/studio/subtractive-synth.ts:46-53 | the note's entry is removed; if it was mapped, its gain is released from the level it has reached at `now` and its oscillator stops 0.5 s later; other notes are unchanged |
| SubtractiveSynth.StoppedAfterDecayHoldsSustain | S.M.U.V.E--main/S.M.U.V.E--main/src/app/studio/subtractive-synth.ts:31-53 | a voice stopped after its attack and decay is released from sustain times velocity/127 (0.8·64/127 for velocity 64 with the synth's envelope) |
| SubtractiveSynth.Synth.SetFilterCutoff | S.M.U.V.E--main/S.M.U.V.E--main/src/app/studio/subtractive-synth.ts:55-57 | only the shared filter frequency changes |
| SubtractiveSynth.Synth.SetOscillatorType | S.M.U.V.E--main/S.M.U.V.E--main/src/app/studio/subtractive-synth.ts:59-61 | only the type for later voices changes; existing voices are kept |
| Ui.NextIndex | S.M.U.V.E--main/S.M.U.V.E--main/src/app/services/ui.service.ts:64-67 | the next index stays below 13 and wraps from 12 to 0 |
| Ui.Toggles | S.M.U.V.E--main/S.M.U.V.E--main/src/app/services/ui.service.ts:64-67 | any number of toggles keeps the index below 13 |
| Ui.TogglesAdvance | S.M.U.V.E--main/S.M.U.V.E--main/src/app/services/ui.service.ts:64-67 | k toggles advance the index by k modulo 13 |
| Ui.ThirteenTogglesReturn | S.M.U.V.E--main/S.M.U.V.E--main/src/app/services/ui.service.ts:45-67 | 13 toggles return to the same view |
| Ui.FirstToggleShowsStudio | S.M.U.V.E--main/S.M.U.V.E--main/src/app/services/ui.service.ts:38-66 | the first toggle shows 'studio', although the start view 'tha-spot' sits at index 11 |
| Ui.FindTheme | S.M.U.V.E--main/S.M.U.V.E--main/src/app/services/ui.service.ts:78-81 | a theme is found exactly when one matches ignoring case, and the found one does |
| Ui.LowerOfUpper | S.M.U.V.E--main/S.M.U.V.E--main/src/app/services/ui.service.ts:80 | lower-casing an upper-cased name gives the lower-cased name |
| Ui.ThemeLowerNames | S.M.U.V.E--main/S.M.U.V.E--main/src/app/services/ui.service.ts:4-32 | the lower-cased theme names are cyberpunk, vintage and 8-bit |
| Ui.ThemeFoundByLowerName | S.M.U.V.E--main/S.M.U.V.E--main/src/app/services/ui.service.ts:78-85 | any name equal to a theme's name ignoring case selects that theme |
| Ui.EveryThemeFound | S.M.U.V.E--main/S.M.U.V.E--main/src/app/services/ui.service.ts:78-85 | each theme is found by its name as written, in lower case and in upper case |
| Ui.UIService.constructor | S.M.U.V.E--main/S.M.U.V.E--main/src/app/services/ui.service.ts:38-60 | view 'tha-spot', theme Cyberpunk, panels and chatbot closed, intensity 0, index 0 |
| Ui.UIService.ToggleMainViewMode | S.M.U.V.E--main/S.M.U.V.E--main/src/app/services/ui.service.ts:64-67 | the index advances modulo 13 and the shown view is the view at that index; theme and chatbot flags are kept |
| Ui.UIService.ToggleChatbot | S.M.U.V.E--main/S.M.U.V.E--main/src/app/services/ui.service.ts:69-71 | isChatbotOpen flips; showChatbot, the view and the theme are kept |
| Ui.UIService.RandomizeTheme | S.M.U.V.E--main/S.M.U.V.E--main/src/app/services/ui.service.ts:73-76 | the picked theme becomes active; the view and chatbot are kept |
| Ui.UIService.SetTheme | S.M.U.V.E--main/S.M.U.V.E--main/src/app/services/ui.service.ts:78-85 | the theme matching ignoring case becomes active; an unknown name keeps the theme |

## Left out

- **The audio engine.** `AudioEngineService` is not part of this model. Its look-ahead scheduler, loop wrap-around, crossfader curves, stem gains, deck rates and master-stream capture are replaced by `Engine.AudioEngine`, which records the calls made on it. For the same reason, `DeckService`'s crossfader and deck-rate effects and `onStemGainChange` (forwarding only) are left out.
- **Pitch and gain arithmetic.** `midiToFreq`, `midiToFrequency` and `midiNoteToFrequency` (`440·2^((m−69)/12)`) are floating-point maths and are not modelled. Calls that would carry a frequency carry the MIDI note number instead.
- **Other floating-point arithmetic.** Times, gains and velocities are exact reals, with no rounding.
  - Percentages are computed exactly.
  - For the 22 completeness checks and the nine checklist items no exact result lies on a half, so `Math.round` of the floating-point value gives the same integer.
- StrategyHub.Progress: for lists of other lengths, floating-point error at an exact half (29 of 200 items, say) can make the source round down where the model rounds up. The contract states only the range and the two ends; `StrategyHub.ProgressOf` ties the value to the rounded percentage.
- StrategyHub.EstimatedReach: `15·adSpend` is the definition itself and carries no separate contract. `StrategyHub.ConversionsWithinReach` relates it to the conversions.
- **Browser and Tone.js wiring.**
  - The audio nodes' connections and the filter node are modelled only through the stored cutoff.
  - `setupMidi`'s `requestMIDIAccess` is replaced by `MidiInput.InstrumentService.SetInputs`, which receives the device list.
  - The Tone.js `PolySynth` triggering in `playNote` and `releaseNote` is replaced by a log of note-on and note-off decisions.
  - The session service's constructor connects the instrument to the output, and is modelled only as the initial state.
- **Speech, canvas, AI and network calls.** Voice input, `sendStandardMessage` and the other AI or search methods of the chat panel, `buildContextualPrompt`, and the command `execute` bodies (calls into those methods) are left out.
  - Chatbot.ChatbotComponent.SendMessage: stops at the point where the trimmed line is handed to `parseCommand` and dispatch. What the AI then answers is not modelled.
  - An AI answer, such as the generated melody, is a parameter.
- **Persistence.** The browser's `localStorage` is a map of stored accounts plus the two session values. JSON encoding is not modelled, and neither are the `catch` paths taken when stored JSON fails to parse.
- **Timers, promises and animation frames.** Each timer callback, promise continuation or frame is a separate method, called in the order the events would fire. Examples: `SaveTimerFired`, `VerificationTimerFired`, `CommandTimerFired`, `TickElapsed`. The delays themselves are not modelled.
- **Recording.**
  - StudioRecording.StudioRecordingService.SaveTake: requires a recorder. The source only runs `saveTake` from the recorder's own stop handler, where one always exists.
  - The recorder's `stop()` and its stop event are one step in `StopRecording`. A recorder in the 'inactive' state therefore never appears: after its stop event the recorder is cleared.
  - Blob construction and the MIME type a browser picks are parameters.
- **Randomness.** The arpeggiator's 'random' mode, `randomizeTheme`, generated user and track ids, take ids (`crypto.randomUUID`) and the microphone level meter (`subscribeToMeters`) are not modelled. Instead, the random value or id is a parameter.
- **Text.**
  - `toUpperCase` and `toLowerCase` are modelled on ASCII letters only. Other letters keep their case.
  - Strings are sequences of Unicode code points. The password hash therefore counts a character outside the Basic Multilingual Plane as one code rather than as two UTF-16 units.
- Envelope.ValueAt: a ramp with no earlier event holds the intrinsic value until the ramp's end time. Web Audio would ramp from the moment the ramp was scheduled, which the model does not record. Neither `apply` nor `releaseEnvelope` schedules such a ramp, since each sets a value first. Exponential, target and curve automation are not used by the source and are not modelled.
- MicRouting.MicrophoneRoutingService.constructor: the effects that log channel changes and call `updateMediaStreamForChannel` (console output only), `setRecordingActive` (logging only) and `subscribeToMeters` are left out.
- Gamification.GamificationService.UnlockAchievement: the achievement is replaced in the list as a new value. The source mutates the achievement object in place before re-setting the list. No other holder of that object is modelled, so the aliasing is not captured.
- MusicManager.MusicManagerService.constructor: takes the instrument presets as a parameter, where the source reads them from `InstrumentsService`. It requires the list to be non-empty, since `presets[0]` is the fallback. `automationData` is never read by the modelled code and is left out.
- **Piano-roll members not modelled.**
  - The velocity drag (`onVelocityMouseDown` and `handleVelocityDrag`) is geometry over element coordinates.
  - `togglePlay`, `resetSequence` and `onInstrumentChange` only forward to `MusicManagerService` methods that are modelled (`Play`/`Stop`, `Clear`, `SetInstrumentOf`). `trackName` is a display lookup.
- **Display-only members.** `getCurrentUser` (a getter), `selectSample` followed by `playSample` (console output only), `objectKeys`, the static lists of sections, platforms, categories and trend hooks, and the chat panel's `ngOnDestroy` and `onClose` are left out.
- ProfileEditor.UpdateField: covers the profile's text fields. `updateProfileField` with a list, map or number field is not modelled.
- ProfileEditor.ProfileEditorComponent.constructor: the source defaults a missing `careerGoals` to `[]`. In the model, `careerGoals` is always a list, so that default has no effect.

## Findings

| source | as written | input that shows it | evidently intended | confidence | as-written member | corrected member |
|---|---|---|---|---|---|---|
| S.M.U.V.E--main/S.M.U.V.E--main/src/app/components/arpeggiator/arpeggiator.component.ts:46-49 | in 'updown' mode the cycle is 2n − 2, which is 0 for a one-note chord. `step % 0` is NaN and `notes[NaN]` is undefined, so the engine is asked to play an undefined pitch | notes = [60], mode 'updown', any step | a one-note chord plays that note at every step | not executed | Arpeggiator.UpDownSingleNoteIsNaN | Arpeggiator.NoteIndex |
