/**
 * The appointment slot-filling engine as a pure function of the session and
 * the utterance: the duplicate-turn guard, first-write-wins slot extraction
 * and the reply chosen from which slots are filled. The store's imperative
 * `HandleAppointment` is proved to behave exactly as `AppointmentTurn`.
 */
module SlotFilling {
  import opened Wrappers
  import opened Text
  import opened Knowledge

  /** The booking slots; None is the source's `None`. */
  datatype Slots = Slots(appointmentType: Option<string>, doctor: Option<string>, datetime: Option<string>)

  /** One conversation: its (utterance, reply) history, its slots and the last normalised utterance. */
  datatype Session = Session(history: seq<(string, string)>, slots: Slots, lastUserText: string)

  const EmptySlots: Slots := Slots(None, None, None)

  /** The record `start_conversation` stores. */
  const NewSession: Session := Session([], EmptySlots, "")

  /** Python truthiness of an optional string: set and not empty. */
  predicate Truthy(slot: Option<string>)
  {
    slot.Some? && slot.value != ""
  }

  /** `slot or value`: keeps a truthy slot, otherwise takes the value. */
  function Fill(slot: Option<string>, value: string): Option<string>
  {
    if Truthy(slot) then slot else Some(value)
  }

  const FollowUpWords: seq<string> := ["follow", "check-up"]
  const NewWords: seq<string> := ["book", "schedule", "appointment", "new", "video"]
  const TimeTokens: seq<string> :=
    ["am", "pm", "monday", "tuesday", "wednesday", "thursday", "friday", "saturday"]

  /** The engine's replies, one constructor per reply template of the source. */
  datatype Prompt =
    | NotedAlready
    | AskTypeAndDoctor
    | AskType(doctor: string)
    | AskDoctor
    | AskDatetime(appointmentType: string, doctor: string)
    | Confirm(appointmentType: string, doctor: string, datetime: string)
    | Clarify

  /** The reply text of each prompt, as the source spells it. */
  function Render(p: Prompt): string
  {
    match p
    case NotedAlready => "I noted that already. Could you add more details, like day and time?"
    case AskTypeAndDoctor =>
      "Sure, is this a new appointment or a follow-up, and which doctor would you like to see?"
    case AskType(doctor) => "Great — " + doctor + ". Is this a new appointment or a follow-up?"
    case AskDoctor => "Got it. Which doctor would you like to see?"
    case AskDatetime(appointmentType, doctor) =>
      "Got it — a " + appointmentType + " appointment with " + doctor + ". What day and time works for you?"
    case Confirm(appointmentType, doctor, datetime) =>
      "Perfect — I'll tentatively place a " + appointmentType + " appointment with "
        + doctor + " at '" + datetime + "'. Shall I confirm that?"
    case Clarify => "Can you clarify if it’s new or follow-up and with which doctor?"
  }

  /** `user_text.lower().strip()`. */
  function Normalize(userText: string): string
  {
    Strip(Lower(userText))
  }

  /** The type slot after a turn on the normalised text. */
  function ExtractType(slot: Option<string>, text: string): Option<string>
  {
    if Contains(text, "follow") || Contains(text, "check-up") then Fill(slot, "follow-up")
    else if ContainsAny(text, NewWords) then Fill(slot, "new")
    else slot
  }

  /** The doctor slot after the scan of the directory's names in order. */
  function ExtractDoctor(names: seq<string>, slot: Option<string>, text: string): Option<string>
  {
    match FirstMentioned(names, text)
    case None => slot
    case Some(k) => Fill(slot, names[k])
  }

  /** The datetime slot after a turn: the whole original utterance when a time token occurs. */
  function ExtractDatetime(slot: Option<string>, text: string, userText: string): Option<string>
  {
    if ContainsAny(text, TimeTokens) then Fill(slot, userText) else slot
  }

  /** The prompt chosen from which slots are filled, tested in the source's order. */
  function SlotPrompt(slots: Slots): Prompt
  {
    var appointmentType, doctor, datetime := slots.appointmentType, slots.doctor, slots.datetime;
    if !Truthy(doctor) && !Truthy(appointmentType) then AskTypeAndDoctor
    else if Truthy(doctor) && !Truthy(appointmentType) then AskType(doctor.value)
    else if Truthy(appointmentType) && !Truthy(doctor) then AskDoctor
    else if Truthy(doctor) && Truthy(appointmentType) && !Truthy(datetime) then
      AskDatetime(appointmentType.value, doctor.value)
    else if Truthy(doctor) && Truthy(appointmentType) && Truthy(datetime) then
      Confirm(appointmentType.value, doctor.value, datetime.value)
    else Clarify
  }

  /** The three extractions of one turn on the normalised text. */
  function NextSlots(slots: Slots, text: string, userText: string): Slots
  {
    Slots(
      ExtractType(slots.appointmentType, text),
      ExtractDoctor(DoctorNames, slots.doctor, text),
      ExtractDatetime(slots.datetime, text, userText))
  }

  /**
   * `handle_appointment`: the session after the turn and the prompt replied.
   * The normalised utterance is always remembered, the history is left to
   * the caller, and a new utterance is answered by the prompt for the slots
   * it leaves behind.
   */
  function AppointmentTurn(s: Session, userText: string): (r: (Session, Prompt))
    ensures r.0.lastUserText == Normalize(userText)
    ensures r.0.history == s.history
    ensures s.lastUserText != Normalize(userText) ==> r.1 == SlotPrompt(r.0.slots)
  {
    var text := Normalize(userText);
    if s.lastUserText == text then (s, NotedAlready)
    else
      var slots := NextSlots(s.slots, text, userText);
      (s.(slots := slots, lastUserText := text), SlotPrompt(slots))
  }

  /**
   * The duplicate-turn guard: a repeated normalised utterance gets the fixed
   * reply and changes nothing; any other utterance is remembered and the
   * history is left to the caller.
   */
  lemma DuplicateGuard(s: Session, userText: string)
    ensures Normalize(userText) == s.lastUserText ==>
      AppointmentTurn(s, userText) == (s, NotedAlready)
    ensures Normalize(userText) != s.lastUserText ==>
      && AppointmentTurn(s, userText).0.lastUserText == Normalize(userText)
      && AppointmentTurn(s, userText).0.history == s.history
  {
  }

  /** First write wins: a filled slot is never overwritten by a later turn. */
  lemma FirstWriteWins(s: Session, userText: string)
    ensures var after := AppointmentTurn(s, userText).0.slots;
      && (Truthy(s.slots.appointmentType) ==> after.appointmentType == s.slots.appointmentType)
      && (Truthy(s.slots.doctor) ==> after.doctor == s.slots.doctor)
      && (Truthy(s.slots.datetime) ==> after.datetime == s.slots.datetime)
  {
  }

  /**
   * Type extraction on an unfilled type slot: "follow" or "check-up" gives
   * "follow-up" and then the booking words are not looked at; otherwise a
   * booking word gives "new"; otherwise the slot stays as it was.
   */
  lemma TypeExtraction(s: Session, userText: string)
    requires Normalize(userText) != s.lastUserText && !Truthy(s.slots.appointmentType)
    ensures var t, after := Normalize(userText), AppointmentTurn(s, userText).0.slots.appointmentType;
      && (OccursAny(FollowUpWords, t) ==> after == Some("follow-up"))
      && (!OccursAny(FollowUpWords, t) && OccursAny(NewWords, t) ==> after == Some("new"))
      && (!OccursAny(FollowUpWords, t) && !OccursAny(NewWords, t) ==> after == s.slots.appointmentType)
  {
    var t := Normalize(userText);
    FollowUpTest(t);
    ContainsAnyIsOccursAny(t, NewWords);
  }

  /** The source's `"follow" in text or "check-up" in text` is the follow-up word list. */
  lemma FollowUpTest(t: string)
    ensures Contains(t, "follow") || Contains(t, "check-up") <==> OccursAny(FollowUpWords, t)
  {
    ContainsAnyIsOccursAny(t, FollowUpWords);
    assert FollowUpWords[0] == "follow" && FollowUpWords[1] == "check-up";
  }

  /**
   * Doctor extraction on an unfilled doctor slot: the first directory entry,
   * in table order, whose lower-cased name occurs in the text; a text naming
   * no directory entry leaves the slot as it was.
   */
  lemma DoctorExtraction(s: Session, userText: string)
    requires Normalize(userText) != s.lastUserText && !Truthy(s.slots.doctor)
    ensures var t, after := Normalize(userText), AppointmentTurn(s, userText).0.slots.doctor;
      && (forall k :: IsFirstMentioned(DoctorNames, t, k) ==> after == Some(DoctorNames[k]))
      && ((forall j :: 0 <= j < |DoctorNames| ==> !Occurs(Lower(DoctorNames[j]), t)) ==> after == s.slots.doctor)
  {
    FirstMentionedIsFirst(DoctorNames, Normalize(userText));
  }

  /** When both doctors are named, "Dr. Singh" wins: it comes first in the directory. */
  lemma SinghBeforePatel(s: Session, userText: string)
    requires Normalize(userText) != s.lastUserText && !Truthy(s.slots.doctor)
    requires Occurs("dr. singh", Normalize(userText))
    ensures AppointmentTurn(s, userText).0.slots.doctor == Some("Dr. Singh")
  {
    LoweredKeys();
    assert IsFirstMentioned(DoctorNames, Normalize(userText), 0);
    DoctorExtraction(s, userText);
  }

  /**
   * Datetime extraction on an unfilled datetime slot: when a time token
   * occurs, the slot takes the original, not lower-cased, utterance verbatim.
   */
  lemma DatetimeExtraction(s: Session, userText: string)
    requires Normalize(userText) != s.lastUserText && !Truthy(s.slots.datetime)
    ensures var t, after := Normalize(userText), AppointmentTurn(s, userText).0.slots.datetime;
      && (OccursAny(TimeTokens, t) ==> after == Some(userText))
      && (!OccursAny(TimeTokens, t) ==> after == s.slots.datetime)
  {
    ContainsAnyIsOccursAny(Normalize(userText), TimeTokens);
  }

  /** The five reply cases cover every slot state: the final fallback is never chosen. */
  lemma FallbackUnreachable(slots: Slots)
    ensures SlotPrompt(slots) != Clarify
  {
  }

  /** No appointment turn ever answers with the clarification fallback. */
  lemma AppointmentNeverClarifies(s: Session, userText: string)
    ensures AppointmentTurn(s, userText).1 != Clarify
  {
    if s.lastUserText != Normalize(userText) {
      FallbackUnreachable(AppointmentTurn(s, userText).0.slots);
    }
  }

  /** The tentative confirmation embeds the type, the doctor and the datetime text verbatim. */
  lemma ConfirmationEmbeds(appointmentType: string, doctor: string, datetime: string)
    ensures var r := Render(Confirm(appointmentType, doctor, datetime));
      Occurs(appointmentType, r) && Occurs(doctor, r) && Occurs(datetime, r)
  {
    var p1, p2, p3, p4 := "Perfect — I'll tentatively place a ", " appointment with ", " at '",
      "'. Shall I confirm that?";
    var a := p1 + appointmentType;
    var b := a + p2 + doctor;
    var c := b + p3 + datetime;
    OccursSelf(appointmentType);
    OccursInSuffix(appointmentType, p1, appointmentType);
    OccursInPrefix(appointmentType, a, p2);
    OccursInPrefix(appointmentType, a + p2, doctor);
    OccursInPrefix(appointmentType, b, p3);
    OccursInPrefix(appointmentType, b + p3, datetime);
    OccursInPrefix(appointmentType, c, p4);
    OccursSelf(doctor);
    OccursInSuffix(doctor, a + p2, doctor);
    OccursInPrefix(doctor, b, p3);
    OccursInPrefix(doctor, b + p3, datetime);
    OccursInPrefix(doctor, c, p4);
    OccursSelf(datetime);
    OccursInSuffix(datetime, b + p3, datetime);
    OccursInPrefix(datetime, c, p4);
  }

  /** The follow-up questions name the doctor already chosen, and the type where there is one. */
  lemma QuestionsEmbed(appointmentType: string, doctor: string)
    ensures Occurs(doctor, Render(AskType(doctor)))
    ensures Occurs(appointmentType, Render(AskDatetime(appointmentType, doctor)))
    ensures Occurs(doctor, Render(AskDatetime(appointmentType, doctor)))
  {
    var q1, q2 := "Great — ", ". Is this a new appointment or a follow-up?";
    OccursSelf(doctor);
    OccursInSuffix(doctor, q1, doctor);
    OccursInPrefix(doctor, q1 + doctor, q2);
    var p1, p2, p3 := "Got it — a ", " appointment with ", ". What day and time works for you?";
    var a := p1 + appointmentType;
    var b := a + p2 + doctor;
    OccursSelf(appointmentType);
    OccursInSuffix(appointmentType, p1, appointmentType);
    OccursInPrefix(appointmentType, a, p2);
    OccursInPrefix(appointmentType, a + p2, doctor);
    OccursInPrefix(appointmentType, b, p3);
    OccursInSuffix(doctor, a + p2, doctor);
    OccursInPrefix(doctor, b, p3);
  }

  /**
   * The reply follows the fill state: no doctor and no type, doctor only,
   * type only, both without a datetime, and all three, in that priority.
   */
  lemma PromptByFillState(slots: Slots)
    ensures var p, ty, doc, dt := SlotPrompt(slots), slots.appointmentType, slots.doctor, slots.datetime;
      && (!Truthy(doc) && !Truthy(ty) ==> p == AskTypeAndDoctor)
      && (Truthy(doc) && !Truthy(ty) ==> p == AskType(doc.value))
      && (!Truthy(doc) && Truthy(ty) ==> p == AskDoctor)
      && (Truthy(doc) && Truthy(ty) && !Truthy(dt) ==> p == AskDatetime(ty.value, doc.value))
      && (Truthy(doc) && Truthy(ty) && Truthy(dt) ==> p == Confirm(ty.value, doc.value, dt.value))
  {
  }

  /** What the engine can ever store: a known type, a directory doctor, a non-empty datetime. */
  ghost predicate WellFormed(slots: Slots)
  {
    && (slots.appointmentType.None? || slots.appointmentType.value == "new"
        || slots.appointmentType.value == "follow-up")
    && (slots.doctor.None? || slots.doctor.value in DoctorNames)
    && (slots.datetime.None? || slots.datetime.value != "")
  }

  /** A new session's slots are well formed. */
  lemma NewSessionWellFormed()
    ensures WellFormed(NewSession.slots)
  {
  }

  /** Every turn keeps the slots well formed. */
  lemma TurnKeepsWellFormed(s: Session, userText: string)
    requires WellFormed(s.slots)
    ensures WellFormed(AppointmentTurn(s, userText).0.slots)
  {
    var t := Normalize(userText);
    if s.lastUserText != t {
      ExtractionsWellFormed(s.slots, userText);
    }
  }

  /** On well-formed slots, Python truthiness is just "is set". */
  lemma TruthyIsSet(slots: Slots)
    requires WellFormed(slots)
    ensures Truthy(slots.appointmentType) <==> slots.appointmentType.Some?
    ensures Truthy(slots.doctor) <==> slots.doctor.Some?
    ensures Truthy(slots.datetime) <==> slots.datetime.Some?
  {
  }

  lemma ExtractionsWellFormed(slots: Slots, userText: string)
    requires WellFormed(slots)
    ensures WellFormed(NextSlots(slots, Normalize(userText), userText))
  {
    var t := Normalize(userText);
    TypeStaysKnown(slots.appointmentType, t);
    DoctorStaysInDirectory(slots.doctor, t);
    DatetimeStaysNonEmpty(slots.datetime, userText);
  }

  /** The type slot only ever holds "new" or "follow-up". */
  lemma TypeStaysKnown(slot: Option<string>, text: string)
    requires slot.None? || slot.value == "new" || slot.value == "follow-up"
    ensures var r := ExtractType(slot, text); r.None? || r.value == "new" || r.value == "follow-up"
  {
  }

  /** The doctor slot only ever holds a directory name. */
  lemma DoctorStaysInDirectory(slot: Option<string>, text: string)
    requires slot.None? || slot.value in DoctorNames
    ensures var r := ExtractDoctor(DoctorNames, slot, text); r.None? || r.value in DoctorNames
  {
  }

  /** The datetime slot only ever holds a non-empty utterance. */
  lemma DatetimeStaysNonEmpty(slot: Option<string>, userText: string)
    requires slot.None? || slot.value != ""
    ensures var r := ExtractDatetime(slot, Normalize(userText), userText); r.None? || r.value != ""
  {
    if ContainsAny(Normalize(userText), TimeTokens) {
      TimeTokenNeedsText(userText);
    }
  }

  lemma TimeTokensNotEmpty()
    ensures forall k :: 0 <= k < |TimeTokens| ==> TimeTokens[k] != ""
  {
  }

  /** An utterance with a time token in it is not empty. */
  lemma TimeTokenNeedsText(userText: string)
    requires ContainsAny(Normalize(userText), TimeTokens)
    ensures userText != ""
  {
    var t := Normalize(userText);
    ContainsAnyIsOccursAny(t, TimeTokens);
    var i :| 0 <= i < |TimeTokens| && Occurs(TimeTokens[i], t);
    var j :| OccursAt(TimeTokens[i], t, j);
    TimeTokensNotEmpty();
    assert |t| <= |Lower(userText)| == |userText|;
  }

  /**
   * Once all three slots are filled, every new utterance leaves them as they
   * are and is answered with the same tentative confirmation.
   */
  lemma ReadyIsTerminal(s: Session, userText: string)
    requires Truthy(s.slots.appointmentType) && Truthy(s.slots.doctor) && Truthy(s.slots.datetime)
    requires Normalize(userText) != s.lastUserText
    ensures AppointmentTurn(s, userText).0.slots == s.slots
    ensures AppointmentTurn(s, userText).1 ==
      Confirm(s.slots.appointmentType.value, s.slots.doctor.value, s.slots.datetime.value)
  {
    FirstWriteWins(s, userText);
  }
}
