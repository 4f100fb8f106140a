/**
 * The intent classifier: a case-insensitive keyword match tested in a fixed
 * priority order, insurance first, then clinic questions, then booking.
 */
module IntentClassifier {
  import opened Text
  import opened Knowledge

  datatype Intent = Insurance | Faq | Appointment | Chitchat

  const InsuranceWords: seq<string> := ["insurance", "covered", "aetna", "bluecross", "blue cross"]
  const FaqWords: seq<string> :=
    ["where", "location", "address", "hours", "open", "close", "contact", "phone"]
  const BookingWords: seq<string> := ["book", "schedule", "appointment", "follow", "new", "doctor"]

  /**
   * `detect_intent`: the first keyword list, in priority order, that has a
   * word occurring in the lower-cased utterance decides the intent.
   */
  function DetectIntent(userText: string): (r: Intent)
    ensures var t := Lower(userText);
      && (r == Insurance <==> OccursAny(InsuranceWords, t))
      && (r == Faq <==> !OccursAny(InsuranceWords, t) && OccursAny(FaqWords, t))
      && (r == Appointment <==>
            !OccursAny(InsuranceWords, t) && !OccursAny(FaqWords, t) && OccursAny(BookingWords, t))
      && (r == Chitchat <==>
            !OccursAny(InsuranceWords, t) && !OccursAny(FaqWords, t) && !OccursAny(BookingWords, t))
  {
    var text := Lower(userText);
    ContainsAnyIsOccursAny(text, InsuranceWords);
    ContainsAnyIsOccursAny(text, FaqWords);
    ContainsAnyIsOccursAny(text, BookingWords);
    if ContainsAny(text, InsuranceWords) then Insurance
    else if ContainsAny(text, FaqWords) then Faq
    else if ContainsAny(text, BookingWords) then Appointment
    else Chitchat
  }

  /**
   * An insurance word wins over every other keyword: an utterance that names
   * a provider and asks to book is still an insurance question.
   */
  lemma InsuranceFirst(userText: string, w: string)
    requires w in InsuranceWords && Occurs(w, Lower(userText))
    ensures DetectIntent(userText) == Insurance
  {
    var i :| 0 <= i < |InsuranceWords| && InsuranceWords[i] == w;
  }

  /** Clinic-question words beat booking words once no insurance word occurs. */
  lemma FaqBeforeAppointment(userText: string, w: string)
    requires w in FaqWords && Occurs(w, Lower(userText))
    requires !OccursAny(InsuranceWords, Lower(userText))
    ensures DetectIntent(userText) == Faq
  {
    var i :| 0 <= i < |FaqWords| && FaqWords[i] == w;
  }

  /** Classification ignores letter case: it reads only the lower-cased text. */
  lemma IntentIgnoresCase(userText: string)
    ensures DetectIntent(Lower(userText)) == DetectIntent(userText)
  {
    LowerIdempotent(userText);
  }

  /**
   * No listed word occurs in a text when each word has a character, given
   * in `marks` at the word's index, that the text lacks.
   */
  lemma NoWordOccurs(words: seq<string>, text: string, marks: seq<char>)
    requires |marks| == |words|
    requires forall i :: 0 <= i < |words| ==> marks[i] in words[i] && marks[i] !in text
    ensures !OccursAny(words, text)
  {
    forall i | 0 <= i < |words|
      ensures !Occurs(words[i], text)
    {
      AbsentCharNotOccurs(words[i], text, marks[i]);
    }
  }

  /** "dr. singh" lacks a letter of every insurance word. */
  lemma NoInsuranceWordInSingh()
    ensures !OccursAny(InsuranceWords, "dr. singh")
  {
    NoWordOccurs(InsuranceWords, "dr. singh", "ucabb");
  }

  /** "dr. singh" lacks a letter of every clinic-question word. */
  lemma NoFaqWordInSingh()
    ensures !OccursAny(FaqWords, "dr. singh")
  {
    NoWordOccurs(FaqWords, "dr. singh", "wlaooccp");
  }

  /** "dr. singh" lacks a letter of every booking word. */
  lemma NoBookingWordInSingh()
    ensures !OccursAny(BookingWords, "dr. singh")
  {
    NoWordOccurs(BookingWords, "dr. singh", "bcafeo");
  }

  /**
   * A doctor's name said on its own carries no intent keyword: it is
   * classified as chit-chat, so the slot engine never sees it.
   */
  lemma DoctorNameAloneIsChitchat()
    ensures DetectIntent("Dr. Singh") == Chitchat
  {
    LowerSingh();
    NoInsuranceWordInSingh();
    NoFaqWordInSingh();
    NoBookingWordInSingh();
  }

  lemma LowerVideoCheckUp() ensures Lower("Video check-up") == "video check-up" {}

  /** "video check-up" lacks a letter of every insurance word. */
  lemma NoInsuranceWordInVideoCheckUp()
    ensures !OccursAny(InsuranceWords, "video check-up")
  {
    NoWordOccurs(InsuranceWords, "video check-up", "nrabb");
  }

  /** "video check-up" lacks a letter of every clinic-question word. */
  lemma NoFaqWordInVideoCheckUp()
    ensures !OccursAny(FaqWords, "video check-up")
  {
    NoWordOccurs(FaqWords, "video check-up", "wlarnlnn");
  }

  /** "video check-up" lacks a letter of every booking word. */
  lemma NoBookingWordInVideoCheckUp()
    ensures !OccursAny(BookingWords, "video check-up")
  {
    NoWordOccurs(BookingWords, "video check-up", "bsafnr");
  }

  /**
   * "video" and "check-up" fill the appointment type but are not intent
   * keywords: a request made only of them is chit-chat and never reaches
   * the slot engine.
   */
  lemma VideoCheckUpIsChitchat()
    ensures DetectIntent("Video check-up") == Chitchat
  {
    LowerVideoCheckUp();
    NoInsuranceWordInVideoCheckUp();
    NoFaqWordInVideoCheckUp();
    NoBookingWordInVideoCheckUp();
  }
}
