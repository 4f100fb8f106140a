# Confido Health voice assistant: the dialogue core in Dafny

This project models the dialogue logic of the clinic's voice-assistant back end (`main.py`). A caller starts a conversation and then speaks one utterance per turn. The transcript is stripped and classified by keywords as an insurance question, a clinic question, a booking request or chit-chat. The matching responder answers it.

Booking requests go to a slot-filling engine. It keeps three slots per session: appointment type, doctor and datetime. Each slot is filled from keywords at most once. The engine then asks for whatever is still missing. Sessions live in a process-wide store keyed by session id, and every turn appends one (utterance, reply) pair to that session's history.

Layout:

- `Wrappers.dfy`: the `Option` type (Python's `None`).
- `Text.dfy`: the Python string operations the core relies on: `str.lower`, `str.strip`, the substring test `in`, `any(...)` over a word list, and `", ".join`. The substring test and `any` are proved equal to index-based reference definitions. `str.strip` is characterised by what it drops, and the join is proved equal to a join built from the other end.
- `Knowledge.dfy`: the static tables (doctor directory, insurance plans, clinic facts) and the ordered first-match scan over a table's keys.
- `IntentClassifier.dfy`: `detect_intent`.
- `Responders.dfy`: `handle_insurance` and `handle_faq`.
- `SlotFilling.dfy`: `handle_appointment` as a pure turn function on a session value. Its replies are a `Prompt` datatype, rendered to the source's exact strings.
- `Dialogue.dfy`: the session store as a class over a `map`. Its methods are `start_conversation`, `handle_appointment`, with the loop over the directory, and the non-I/O part of `voice_assistant`. Each is proved equal to the pure turn functions.

Python truthiness of a slot (`slots[x] or value`) is modelled as `Truthy`: set and not the empty string. Dictionary iteration order is insertion order, so tables are ordered sequences.

## Model

| member | source | states |
|---|---|---|
| Text.Lower | main.py:48 | the lower-cased text has the same length and maps every character through `LowerChar` (A–Z shifted, everything else kept) |
| Text.LowerIdempotent | main.py:48 | lower-casing twice is lower-casing once |
| Text.Strip | main.py:141 | the stripped text is no longer than the input and neither starts nor ends with whitespace |
| Text.StripShape | main.py:141 | the stripped text is a contiguous slice of the input, and everything outside the slice is whitespace |
| Text.StripBlankIff | main.py:141-144 | the stripped text is empty exactly when every character of the input is whitespace |
| Text.StripIdempotent | main.py:141 | stripping twice is stripping once |
| Text.ContainsIsOccurs | main.py:49 | the recursive substring test agrees with the reference definition "occurs at some index", in both directions |
| Text.ContainsAnyIsOccursAny | main.py:49 | `any(w in text for w in words)` holds exactly when some listed word occurs in the text |
| Text.JoinIsJoinLeft | main.py:101-102 | the join equals the reference join built from the last part backwards: parts in stored order, one separator between neighbours |
| Text.JoinHasParts | main.py:101-102 | every part of a `", ".join` occurs in the joined string |
| Knowledge.NamesAreKeys | main.py:23-36 | the name lists are the directory's and the insurance table's keys, in insertion order |
| Knowledge.LoweredKeys | main.py:99-100 | the lower-cased keys compared, here and in the doctor scan at main.py:75, are "dr. singh", "dr. patel", "bluecross" and "aetna" |
| Knowledge.FirstMentioned | main.py:74-76 | the scan (also the provider scan at main.py:99-100) returns the first index whose lower-cased name is a substring of the text, no earlier name is one, and None holds exactly when no name is |
| Knowledge.FirstMentionedIsFirst | main.py:99-100 | the scan's result coincides with the reference "first occurring name" definition, and None with "no name occurs" |
| Knowledge.FirstMentionedExtend | main.py:74-76 | scanning one more name keeps an earlier hit, otherwise takes the new name if it occurs |
| IntentClassifier.DetectIntent | main.py:47-55 | insurance iff an insurance word occurs in the lower-cased text; faq iff none does and a clinic word does; appointment iff only booking words occur; chitchat iff no keyword occurs |
| IntentClassifier.InsuranceFirst | main.py:49-50 | any insurance keyword decides insurance, whatever other keywords occur |
| IntentClassifier.FaqBeforeAppointment | main.py:51-52 | without insurance words, a clinic word decides faq even next to booking words |
| IntentClassifier.IntentIgnoresCase | main.py:48 | classification is unchanged by lower-casing the input first |
| IntentClassifier.DoctorNameAloneIsChitchat | main.py:47-55 | "Dr. Singh" said on its own contains no keyword of any list and is classified as chit-chat |
| IntentClassifier.VideoCheckUpIsChitchat | main.py:47-55 | "Video check-up" contains no intent keyword, although "video" and "check-up" fill the type slot at main.py:69-71, so it is classified as chit-chat |
| Responders.CoverageReplyMentions | main.py:101-104 | the coverage reply names the provider, every covered service and every in-network doctor |
| Responders.CoverageReply | main.py:101-104 | no contract of its own; specified by `CoverageReplyMentions` (provider, services and doctors all named) and `JoinIsJoinLeft` (the joined lists) |
| Responders.HandleInsurance | main.py:97-105 | the reply is the coverage reply of the first provider, in table order, named in the lower-cased text; if no provider is named, it is the generic prompt |
| Responders.NoProviderNamedGetsGenericReply | main.py:99-105 | a text containing neither "bluecross" nor "aetna" gets the generic prompt |
| Responders.SpacedBlueCrossGetsGenericReply | main.py:97-105 | "blue cross" with a space is classified as insurance but gets the generic prompt |
| Responders.HandleFaq | main.py:110-118 | location words pick the address, else hours words pick the hours, else contact words pick the phone number, else the greeting |
| Responders.FaqRepliesCarryFacts | main.py:112-117 | each fact reply contains the configured address, hours or phone number verbatim |
| Responders.FaqDispatchNeverGreets | main.py:110-118 | every clinic-question keyword is a location, hours or contact word, so an utterance dispatched as faq never gets the greeting |
| SlotFilling.DuplicateGuard | main.py:63-67 | a repeated normalised utterance gets "I noted that already…" and leaves the session as it was; otherwise the new normalised utterance is remembered and the history is untouched |
| SlotFilling.AppointmentTurn | main.py:60-92 | the normalised utterance is always remembered and the history is untouched; a new utterance is answered by the prompt for the slots it leaves |
| SlotFilling.AppointmentNeverClarifies | main.py:81-92 | no appointment turn, duplicate or not, answers with the clarification fallback |
| SlotFilling.Normalize | main.py:63 | no contract of its own; specified by `DuplicateGuard`, with `Lower` and `Strip` specified in `Text` |
| SlotFilling.NextSlots | main.py:69-79 | no contract of its own; specified by `FirstWriteWins`, `TurnKeepsWellFormed` and `ReadyIsTerminal` |
| SlotFilling.ExtractType | main.py:69-72 | no contract of its own; specified by `TypeExtraction`, `FollowUpTest` and `TypeStaysKnown` |
| SlotFilling.ExtractDoctor | main.py:74-76 | no contract of its own; specified by `DoctorExtraction`, `SinghBeforePatel` and `DoctorStaysInDirectory` |
| SlotFilling.ExtractDatetime | main.py:78-79 | no contract of its own; specified by `DatetimeExtraction` and `DatetimeStaysNonEmpty` |
| SlotFilling.SlotPrompt | main.py:81-92 | no contract of its own; specified by `PromptByFillState` and `FallbackUnreachable` |
| SlotFilling.Render | main.py:66-92 | no contract of its own; its strings are the source's replies, and `ConfirmationEmbeds` and `QuestionsEmbed` state what they carry |
| SlotFilling.FirstWriteWins | main.py:69-79 | a slot that is already set is never overwritten |
| SlotFilling.TypeExtraction | main.py:69-72 | on an unset type: "follow" or "check-up" gives "follow-up" and the booking words are skipped; else a booking word gives "new"; else the slot is unchanged |
| SlotFilling.FollowUpTest | main.py:69 | the source's two-term test is the follow-up word list |
| SlotFilling.DoctorExtraction | main.py:74-76 | on an unset doctor, the slot takes the first directory name in table order that occurs in the text; if no name occurs, it stays unset |
| SlotFilling.SinghBeforePatel | main.py:74-76 | when "dr. singh" occurs, "Dr. Singh" is chosen, even if "dr. patel" occurs as well |
| SlotFilling.DatetimeExtraction | main.py:78-79 | on an unset datetime, a time token makes the slot the original, not lower-cased, utterance; otherwise the slot is unchanged |
| SlotFilling.FallbackUnreachable | main.py:81-92 | the five fill-state cases cover every slot state, so the clarification fallback is never chosen |
| SlotFilling.PromptByFillState | main.py:81-91 | the prompt chosen for each of the five fill states, in the source's priority |
| SlotFilling.ConfirmationEmbeds | main.py:89-91 | the tentative confirmation contains the type, the doctor and the datetime text verbatim |
| SlotFilling.QuestionsEmbed | main.py:83-88 | the doctor-only question names the chosen doctor, and the datetime question names both the type and the doctor |
| SlotFilling.NewSessionWellFormed | main.py:126-130 | a fresh session's slots satisfy the slot invariant |
| SlotFilling.TurnKeepsWellFormed | main.py:60-92 | every appointment turn preserves the invariant: type is "new" or "follow-up", doctor is a directory name, datetime is non-empty |
| SlotFilling.TruthyIsSet | main.py:81-92 | under the invariant, a slot's truthiness is the same as "is set" |
| SlotFilling.TypeStaysKnown | main.py:69-72 | the type slot only ever holds "new" or "follow-up" |
| SlotFilling.DoctorStaysInDirectory | main.py:74-76 | the doctor slot only ever holds a directory name |
| SlotFilling.DatetimeStaysNonEmpty | main.py:78-79 | the datetime slot only ever holds a non-empty utterance |
| SlotFilling.TimeTokenNeedsText | main.py:78-79 | an utterance containing a time token is non-empty |
| SlotFilling.ReadyIsTerminal | main.py:69-91 | once all three slots are set, every new utterance leaves them unchanged and gets the same confirmation |
| Dialogue.Respond | main.py:143-154 | answering a turn never changes the session's history |
| Dialogue.ChooseId | main.py:125 | no contract of its own; specified by `SessionStore.StartConversation` (the requested id when truthy, else the fresh one) |
| Dialogue.Turn | main.py:141-156 | no contract of its own; specified by `TurnAppendsOnePair`, `BlankTranscriptReprompts` and `DispatchByIntent` |
| Dialogue.TurnAppendsOnePair | main.py:156 | every turn appends exactly the pair (stripped utterance, reply) and keeps the earlier history |
| Dialogue.BlankTranscriptReprompts | main.py:141-156 | an empty, whitespace-only or missing transcript gets the re-prompt without classification, and only the history changes |
| Dialogue.DispatchByIntent | main.py:146-154 | only an appointment turn reaches the slot engine; other intents leave slots and last utterance unchanged and get the insurance, faq or chit-chat reply |
| Dialogue.TurnKeepsSlotsWellFormed | main.py:137-156 | a whole turn, of any intent, preserves the slot invariant |
| Dialogue.StoreTurnKeepsWellFormed | main.py:137-156 | a turn on one session of a store whose sessions all satisfy the slot invariant leaves every session satisfying it |
| Dialogue.ScanDirectory | main.py:74-76 | the loop over the directory yields exactly the first-match doctor extraction |
| Dialogue.FillSlots | main.py:69-79 | the three in-place extraction steps produce exactly the next slots of the turn function |
| Dialogue.SessionStore.constructor | main.py:22 | the store starts with no sessions, so every stored session trivially satisfies the slot invariant |
| Dialogue.SessionStore.StartConversation | main.py:123-131 | the id is the requested id when it is truthy, else the fresh one; that session is replaced by an empty one; other sessions are kept; the reply is the greeting; the store-wide slot invariant is preserved |
| Dialogue.SessionStore.HandleAppointment | main.py:60-92 | the stored session becomes the pure turn's session and the reply is its rendered prompt; other sessions are kept |
| Dialogue.SessionStore.Answer | main.py:146-154 | the reply step of a non-blank turn equals the pure dispatch, including its effect on the store |
| Dialogue.SessionStore.VoiceAssistant | main.py:137-158 | the stripped utterance, the reply and the new store (only this session changed, history extended by one pair) equal the pure `Turn`, and the store-wide slot invariant is preserved |

## Left out

- Speech-to-text, text-to-speech, audio file reads and base64 encoding (main.py:132-135, main.py:140, main.py:157-161). The transcript is a parameter and the spoken reply is not modelled.
- `uuid.uuid4()` (main.py:125): the fresh id is a parameter of `StartConversation`.
- The FastAPI app, CORS, logging and the JSON response wrapping (main.py:10-20, main.py:139). The source's routes return a JSON object: `start_conversation` the reply, audio and session id (main.py:135), `voice_assistant` the utterance, reply, audio and session id (main.py:161). The model returns the parts that are not audio, as out-parameters: `StartConversation` the greeting and the session id, `VoiceAssistant` the stripped utterance and the reply, with the session id being its own input.
- The form default `session_id = "default"` of `voice_assistant` (main.py:138): the model always takes the session id as a parameter, so a request without one is the call with `id == "default"`.
- Concurrent requests on the shared `sessions` dictionary. The model is sequential.
- Text.Lower: lower-cases ASCII letters only, while Python's `str.lower` also maps non-ASCII letters and can change the length of the text ("İ" becomes two characters), which `Lower`'s same-length contract rules out. The keyword and name tests are affected only by non-ASCII characters that Python lower-cases to ASCII ones. The duplicate-turn guard and the stored `last_user_text` (main.py:63-67), which go through `Normalize`, are affected by every non-ASCII capital letter: after "ü", Python answers "Ü" with "I noted that already…", while the model treats it as a new utterance.
- Dialogue.SessionStore.HandleAppointment: a session id that is not in the store raises `KeyError` at the lookup of main.py:61 in the source. It is modelled as the precondition `id in sessions`. `Answer` requires it for the same lookup, since it calls `HandleAppointment`. `VoiceAssistant` requires it because of that lookup and because of the history append at main.py:156, which fails the same way on every intent.
- `DoctorDirectory`'s booked datetimes (main.py:24) are kept as data. The core never reads them, so no booking conflict is checked.
- The matching quirks are modelled as written, not corrected:
  - "am" also matches inside words such as "exam";
  - there is no Sunday token;
  - the whole utterance becomes the datetime;
  - "Dr. Singh" said on its own contains no intent keyword, so it is classified as chit-chat and never reaches the slot engine (`DoctorNameAloneIsChitchat`);
  - "video" and "check-up" fill the appointment type (main.py:69-71) but are not intent keywords (main.py:49-53), so "Video check-up" on its own is classified as chit-chat (`VideoCheckUpIsChitchat`);
  - `handle_faq`'s greeting (main.py:118) and its "number" test (main.py:116) are never reached through dispatch: an utterance is faq only if it contains a word that the location, hours or contact tests also catch, and line 116 is then reached only when a "contact" or "phone" occurs, which decides the test before "number" is looked at. `FaqDispatchNeverGreets` proves the greeting part.
