/**
 * The stateless responders: insurance questions and clinic questions, each
 * an ordered first-match lookup over the static knowledge store.
 */
module Responders {
  import opened Wrappers
  import opened Text
  import opened Knowledge
  import opened IntentClassifier

  const InsuranceGenericReply: string :=
    "We accept major insurances like Aetna and BlueCross. Which one do you have?"

  /** The reply for a matched provider: its services and doctors, joined by ", " in stored order. */
  function CoverageReply(p: Plan): (r: string)
  {
    "Yes, we accept " + p.provider + ". It covers " + Join(p.coveredServices, ", ")
      + ". In-network doctors are " + Join(p.inNetworkDoctors, ", ") + "."
  }

  /** The coverage reply names the provider, each covered service and each in-network doctor. */
  lemma CoverageReplyMentions(p: Plan)
    ensures Occurs(p.provider, CoverageReply(p))
    ensures forall k :: 0 <= k < |p.coveredServices| ==> Occurs(p.coveredServices[k], CoverageReply(p))
    ensures forall k :: 0 <= k < |p.inNetworkDoctors| ==> Occurs(p.inNetworkDoctors[k], CoverageReply(p))
  {
    var services := Join(p.coveredServices, ", ");
    var doctors := Join(p.inNetworkDoctors, ", ");
    var a := "Yes, we accept " + p.provider;
    var b := a + ". It covers " + services;
    var c := b + ". In-network doctors are " + doctors;
    OccursSelf(p.provider);
    OccursInSuffix(p.provider, "Yes, we accept ", p.provider);
    OccursInPrefix(p.provider, a, ". It covers ");
    OccursInPrefix(p.provider, a + ". It covers ", services);
    OccursInPrefix(p.provider, b, ". In-network doctors are ");
    OccursInPrefix(p.provider, b + ". In-network doctors are ", doctors);
    OccursInPrefix(p.provider, c, ".");
    forall k | 0 <= k < |p.coveredServices|
      ensures Occurs(p.coveredServices[k], CoverageReply(p))
    {
      var x := p.coveredServices[k];
      JoinHasParts(p.coveredServices, ", ", k);
      OccursInSuffix(x, a + ". It covers ", services);
      OccursInPrefix(x, b, ". In-network doctors are ");
      OccursInPrefix(x, b + ". In-network doctors are ", doctors);
      OccursInPrefix(x, c, ".");
    }
    forall k | 0 <= k < |p.inNetworkDoctors|
      ensures Occurs(p.inNetworkDoctors[k], CoverageReply(p))
    {
      var x := p.inNetworkDoctors[k];
      JoinHasParts(p.inNetworkDoctors, ", ", k);
      OccursInSuffix(x, b + ". In-network doctors are ", doctors);
      OccursInPrefix(x, c, ".");
    }
  }

  /**
   * `handle_insurance`: the coverage reply of the first plan, in table order,
   * whose lower-cased provider name occurs in the lower-cased utterance, or
   * the generic prompt when none does.
   */
  function HandleInsurance(userText: string): (r: string)
    ensures forall k :: IsFirstMentioned(ProviderNames, Lower(userText), k) ==>
      k < |InsurancePlans| && r == CoverageReply(InsurancePlans[k])
    ensures (forall j :: 0 <= j < |ProviderNames| ==> !Occurs(Lower(ProviderNames[j]), Lower(userText)))
      ==> r == InsuranceGenericReply
  {
    var text := Lower(userText);
    FirstMentionedIsFirst(ProviderNames, text);
    match FirstMentioned(ProviderNames, text)
    case Some(k) => CoverageReply(InsurancePlans[k])
    case None => InsuranceGenericReply
  }

  /** An utterance naming neither provider gets the generic prompt. */
  lemma NoProviderNamedGetsGenericReply(userText: string)
    requires !Occurs("bluecross", Lower(userText)) && !Occurs("aetna", Lower(userText))
    ensures HandleInsurance(userText) == InsuranceGenericReply
  {
    var t := Lower(userText);
    assert forall j :: 0 <= j < |ProviderNames| ==> !Occurs(Lower(ProviderNames[j]), t) by {
      LoweredKeys();
    }
  }

  /**
   * "blue cross" with a space is an insurance keyword, but no provider name
   * matches it: such an utterance is routed to the insurance responder and
   * gets the generic prompt.
   */
  lemma SpacedBlueCrossGetsGenericReply(userText: string)
    requires Occurs("blue cross", Lower(userText))
    requires !Occurs("bluecross", Lower(userText)) && !Occurs("aetna", Lower(userText))
    ensures DetectIntent(userText) == Insurance
    ensures HandleInsurance(userText) == InsuranceGenericReply
  {
    InsuranceFirst(userText, "blue cross");
    NoProviderNamedGetsGenericReply(userText);
  }

  const LocationWords: seq<string> := ["where", "address", "location"]
  const HoursWords: seq<string> := ["hours", "open", "close"]
  const ContactWords: seq<string> := ["contact", "phone", "number"]

  const AddressReply: string := "Our clinic is located at " + ClinicInfo.address + "."
  const HoursReply: string := "We are open " + ClinicInfo.hours + "."
  const ContactReply: string := "You can reach us at " + ClinicInfo.contact + "."
  const FaqGreeting: string :=
    "We are Confido Health Clinic, happy to help! You can ask about our hours, location, or contact."

  /**
   * `handle_faq`: location terms are tested before hours terms, and hours
   * terms before contact terms; the first group that occurs picks the fact.
   */
  function HandleFaq(userText: string): (r: string)
    ensures var t := Lower(userText);
      && (OccursAny(LocationWords, t) ==> r == AddressReply)
      && (!OccursAny(LocationWords, t) && OccursAny(HoursWords, t) ==> r == HoursReply)
      && ((!OccursAny(LocationWords, t) && !OccursAny(HoursWords, t) && OccursAny(ContactWords, t))
            ==> r == ContactReply)
      && ((!OccursAny(LocationWords, t) && !OccursAny(HoursWords, t) && !OccursAny(ContactWords, t))
            ==> r == FaqGreeting)
  {
    var text := Lower(userText);
    ContainsAnyIsOccursAny(text, LocationWords);
    ContainsAnyIsOccursAny(text, HoursWords);
    ContainsAnyIsOccursAny(text, ContactWords);
    if ContainsAny(text, LocationWords) then AddressReply
    else if ContainsAny(text, HoursWords) then HoursReply
    else if ContainsAny(text, ContactWords) then ContactReply
    else FaqGreeting
  }

  /** Each clinic-fact reply carries the configured fact verbatim. */
  lemma FaqRepliesCarryFacts()
    ensures Occurs(ClinicInfo.address, AddressReply)
    ensures Occurs(ClinicInfo.hours, HoursReply)
    ensures Occurs(ClinicInfo.contact, ContactReply)
  {
    OccursSelf(ClinicInfo.address);
    OccursInSuffix(ClinicInfo.address, "Our clinic is located at ", ClinicInfo.address);
    OccursInPrefix(ClinicInfo.address, "Our clinic is located at " + ClinicInfo.address, ".");
    OccursSelf(ClinicInfo.hours);
    OccursInSuffix(ClinicInfo.hours, "We are open ", ClinicInfo.hours);
    OccursInPrefix(ClinicInfo.hours, "We are open " + ClinicInfo.hours, ".");
    OccursSelf(ClinicInfo.contact);
    OccursInSuffix(ClinicInfo.contact, "You can reach us at ", ClinicInfo.contact);
    OccursInPrefix(ClinicInfo.contact, "You can reach us at " + ClinicInfo.contact, ".");
  }

  /** The greeting differs from each of the three fact replies. */
  lemma GreetingIsNoFact()
    ensures FaqGreeting != AddressReply && FaqGreeting != HoursReply && FaqGreeting != ContactReply
  {
    var address, hours, contact := ClinicInfo.address, ClinicInfo.hours, ClinicInfo.contact;
    assert AddressReply[0] == ("Our clinic is located at " + address)[0] == 'O';
    assert HoursReply[7] == ("We are open " + hours)[7] == 'o';
    assert ContactReply[0] == ("You can reach us at " + contact)[0] == 'Y';
  }

  /**
   * Every word that makes an utterance a clinic question is also a location,
   * hours or contact word, so `handle_faq` reached through dispatch always
   * answers with a fact and never with its greeting.
   */
  lemma FaqDispatchNeverGreets(userText: string)
    ensures DetectIntent(userText) == Faq ==> HandleFaq(userText) != FaqGreeting
  {
    var t := Lower(userText);
    if DetectIntent(userText) == Faq {
      var i :| 0 <= i < |FaqWords| && Occurs(FaqWords[i], t);
      if i == 0 {
        assert FaqWords[0] == LocationWords[0];
      } else if i == 1 {
        assert FaqWords[1] == LocationWords[2];
      } else if i == 2 {
        assert FaqWords[2] == LocationWords[1];
      } else if i == 3 {
        assert FaqWords[3] == HoursWords[0];
      } else if i == 4 {
        assert FaqWords[4] == HoursWords[1];
      } else if i == 5 {
        assert FaqWords[5] == HoursWords[2];
      } else if i == 6 {
        assert FaqWords[6] == ContactWords[0];
      } else {
        assert FaqWords[7] == ContactWords[1];
      }
      assert OccursAny(LocationWords, t) || OccursAny(HoursWords, t) || OccursAny(ContactWords, t);
      GreetingIsNoFact();
    }
  }
}
