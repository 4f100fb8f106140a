/**
 * The session store and the turn dispatch of the voice endpoints, with the
 * audio, the speech services and the id generator taken out: the fresh id
 * and the transcript are parameters.
 */
module Dialogue {
  import opened Wrappers
  import opened Text
  import opened Knowledge
  import opened IntentClassifier
  import opened Responders
  import opened SlotFilling

  const Greeting: string :=
    "Hello! You’ve reached Confido Health Clinic. I’m your virtual assistant. How may I help you today?"
  const Reprompt: string := "Sorry, I didn’t catch that. Could you say it again?"
  const ChitchatReply: string :=
    "I’m here to help with appointments, insurance, or clinic info. What would you like to do?"

  /** `session_id or uuid`: the requested id when it is truthy, the fresh one otherwise. */
  function ChooseId(requested: Option<string>, freshId: string): string
  {
    if requested.Some? && requested.value != "" then requested.value else freshId
  }

  /** The reply to a stripped utterance and the session it leaves, before the history is appended. */
  function Respond(s: Session, clean: string): (r: (Session, string))
    ensures r.0.history == s.history
  {
    if clean == "" then (s, Reprompt)
    else match DetectIntent(clean)
      case Appointment =>
        DuplicateGuard(s, clean);
        var (next, prompt) := AppointmentTurn(s, clean);
        (next, Render(prompt))
      case Insurance => (s, HandleInsurance(clean))
      case Faq => (s, HandleFaq(clean))
      case Chitchat => (s, ChitchatReply)
  }

  /** `user_text or ""`: a missing transcription counts as empty. */
  function OrEmpty(transcript: Option<string>): string
  {
    if transcript.Some? then transcript.value else ""
  }

  /** One whole turn of `voice_assistant` on a transcript: the session afterwards and the reply. */
  function Turn(s: Session, transcript: Option<string>): (Session, string)
  {
    var clean := Strip(OrEmpty(transcript));
    var (next, reply) := Respond(s, clean);
    (next.(history := next.history + [(clean, reply)]), reply)
  }

  /** Every turn appends exactly one (stripped utterance, reply) pair and keeps the earlier history. */
  lemma TurnAppendsOnePair(s: Session, transcript: Option<string>)
    ensures var (next, reply) := Turn(s, transcript);
      next.history == s.history + [(Strip(OrEmpty(transcript)), reply)]
  {
  }

  /**
   * A transcript that is empty or all whitespace is answered with the fixed
   * re-prompt, is not classified, and leaves the slots and the duplicate
   * guard as they were.
   */
  lemma BlankTranscriptReprompts(s: Session, transcript: Option<string>)
    requires forall k :: 0 <= k < |OrEmpty(transcript)| ==> IsSpace(OrEmpty(transcript)[k])
    ensures Turn(s, transcript) == (s.(history := s.history + [("", Reprompt)]), Reprompt)
  {
    StripBlankIff(OrEmpty(transcript));
  }

  /**
   * Only a non-blank turn classified as an appointment request reaches the
   * slot-filling engine; every other turn leaves the slots and the last
   * utterance untouched and gets the matching responder's reply.
   */
  lemma DispatchByIntent(s: Session, transcript: Option<string>)
    ensures var clean, (next, reply) := Strip(OrEmpty(transcript)), Turn(s, transcript);
      && (clean != "" && DetectIntent(clean) == Appointment ==>
            next.slots == AppointmentTurn(s, clean).0.slots
            && next.lastUserText == AppointmentTurn(s, clean).0.lastUserText
            && reply == Render(AppointmentTurn(s, clean).1))
      && (clean == "" || DetectIntent(clean) != Appointment ==>
            next.slots == s.slots && next.lastUserText == s.lastUserText)
      && (clean != "" && DetectIntent(clean) == Insurance ==> reply == HandleInsurance(clean))
      && (clean != "" && DetectIntent(clean) == Faq ==> reply == HandleFaq(clean))
      && (clean != "" && DetectIntent(clean) == Chitchat ==> reply == ChitchatReply)
  {
    DuplicateGuard(s, Strip(OrEmpty(transcript)));
  }

  /**
   * The scan of the directory's names in table order: every name occurring
   * in the text offers itself, and the first offer fills an unset slot.
   */
  method ScanDirectory(names: seq<string>, slot: Option<string>, text: string) returns (doctor: Option<string>)
    requires forall j :: 0 <= j < |names| ==> names[j] != ""
    ensures doctor == ExtractDoctor(names, slot, text)
  {
    doctor := slot;
    var i := 0;
    while i < |names|
      invariant 0 <= i <= |names|
      invariant doctor == ExtractDoctor(names[..i], slot, text)
    {
      FirstMentionedExtend(names, text, i);
      if Contains(text, Lower(names[i])) {
        doctor := if Truthy(doctor) then doctor else Some(names[i]);
      }
      i := i + 1;
    }
    assert names[..i] == names;
  }

  /**
   * The three extraction steps of a turn, applied in order to the session's
   * slots: type keywords, then the directory scan, then the time tokens.
   */
  method FillSlots(slots0: Slots, text: string, userText: string) returns (slots: Slots)
    ensures slots == NextSlots(slots0, text, userText)
  {
    slots := slots0;
    if Contains(text, "follow") || Contains(text, "check-up") {
      slots := slots.(appointmentType := Fill(slots.appointmentType, "follow-up"));
    } else if ContainsAny(text, NewWords) {
      slots := slots.(appointmentType := Fill(slots.appointmentType, "new"));
    }

    DoctorNamesNotEmpty();
    var doctor := ScanDirectory(DoctorNames, slots.doctor, text);
    slots := slots.(doctor := doctor);

    if ContainsAny(text, TimeTokens) {
      slots := slots.(datetime := Fill(slots.datetime, userText));
    }
  }

  /**
   * Whatever is said, a session's slots stay within the values the engine
   * can write: a known type, a directory doctor, a non-empty time text.
   */
  lemma TurnKeepsSlotsWellFormed(s: Session, transcript: Option<string>)
    requires WellFormed(s.slots)
    ensures WellFormed(Turn(s, transcript).0.slots)
  {
    var clean := Strip(OrEmpty(transcript));
    if clean != "" && DetectIntent(clean) == Appointment {
      TurnKeepsWellFormed(s, clean);
    }
  }

  /** A turn on one session keeps every stored session well formed. */
  lemma StoreTurnKeepsWellFormed(m: map<string, Session>, id: string, transcript: Option<string>)
    requires id in m && forall k :: k in m ==> WellFormed(m[k].slots)
    ensures var after := m[id := Turn(m[id], transcript).0];
      forall k :: k in after ==> WellFormed(after[k].slots)
  {
    TurnKeepsSlotsWellFormed(m[id], transcript);
  }

  /** A second write under the same key overrides the first. */
  lemma UpdateTwice<K, V>(m: map<K, V>, k: K, first: V, second: V)
    ensures m[k := first][k := second] == m[k := second]
  {
  }

  /** The process-wide store of conversations, keyed by session id. */
  class SessionStore {
    var sessions: map<string, Session>

    /** Every stored session's slots hold only values the engine can write. */
    ghost predicate AllWellFormed()
      reads this
    {
      forall id :: id in sessions ==> WellFormed(sessions[id].slots)
    }

    constructor ()
      ensures sessions == map[]
      ensures AllWellFormed()
    {
      sessions := map[];
    }

    /**
     * `start_conversation`: (re)initialises the chosen session with empty
     * history, unset slots and an empty last utterance, overwriting any
     * record under that id and leaving every other session alone.
     */
    method StartConversation(requested: Option<string>, freshId: string) returns (reply: string, id: string)
      modifies this
      ensures id == ChooseId(requested, freshId)
      ensures sessions == old(sessions)[id := NewSession]
      ensures reply == Greeting
      ensures old(AllWellFormed()) ==> AllWellFormed()
    {
      NewSessionWellFormed();
      id := ChooseId(requested, freshId);
      sessions := sessions[id := NewSession];
      reply := Greeting;
    }

    /**
     * `handle_appointment` on the stored session: behaves exactly as
     * `AppointmentTurn`, writing the new last utterance and slots back
     * into the store and leaving every other session alone.
     */
    method HandleAppointment(id: string, userText: string) returns (reply: string)
      requires id in sessions
      modifies this
      ensures sessions == old(sessions)[id := AppointmentTurn(old(sessions)[id], userText).0]
      ensures reply == Render(AppointmentTurn(old(sessions)[id], userText).1)
    {
      var s := sessions[id];
      var text := Normalize(userText);
      DuplicateGuard(s, userText);
      if s.lastUserText == text {
        reply := Render(NotedAlready);
      } else {
        sessions := sessions[id := s.(lastUserText := text)];
        var slots := FillSlots(s.slots, text, userText);
        sessions := sessions[id := s.(lastUserText := text, slots := slots)];
        UpdateTwice(old(sessions), id, s.(lastUserText := text), sessions[id]);
        reply := Render(SlotPrompt(slots));
      }
    }

    /**
     * The reply step of `voice_assistant` for a non-blank utterance: the
     * intent picks the responder, and only the appointment engine touches
     * the store.
     */
    method Answer(id: string, clean: string) returns (reply: string)
      requires id in sessions && clean != ""
      modifies this
      ensures sessions == old(sessions)[id := Respond(old(sessions)[id], clean).0]
      ensures reply == Respond(old(sessions)[id], clean).1
    {
      var intent := DetectIntent(clean);
      if intent == Appointment {
        reply := HandleAppointment(id, clean);
      } else if intent == Insurance {
        reply := HandleInsurance(clean);
      } else if intent == Faq {
        reply := HandleFaq(clean);
      } else {
        reply := ChitchatReply;
      }
    }

    /**
     * `voice_assistant` after transcription: strips the transcript, answers
     * it (a blank one with the re-prompt) and appends one history pair to
     * the caller's session; every other session is left as it was.
     */
    method VoiceAssistant(id: string, transcript: Option<string>) returns (userTextClean: string, reply: string)
      requires id in sessions
      modifies this
      ensures userTextClean == Strip(OrEmpty(transcript))
      ensures reply == Turn(old(sessions)[id], transcript).1
      ensures sessions == old(sessions)[id := Turn(old(sessions)[id], transcript).0]
      ensures old(AllWellFormed()) ==> AllWellFormed()
    {
      if AllWellFormed() {
        StoreTurnKeepsWellFormed(sessions, id, transcript);
      }
      userTextClean := Strip(OrEmpty(transcript));
      if userTextClean == "" {
        reply := Reprompt;
      } else {
        reply := Answer(id, userTextClean);
      }
      var next := sessions[id];
      ghost var answered := sessions;
      assert answered == old(sessions)[id := next];
      sessions := sessions[id := next.(history := next.history + [(userTextClean, reply)])];
      UpdateTwice(old(sessions), id, next, sessions[id]);
    }
  }
}
