/**
 * The static knowledge store: the doctor directory, the insurance plans and
 * the clinic facts, kept as ordered sequences because the order in which the
 * source's dictionaries are scanned decides which entry matches first.
 */
module Knowledge {
  import opened Wrappers
  import opened Text

  /** One accepted insurance provider. */
  datatype Plan = Plan(provider: string, coveredServices: seq<string>, inNetworkDoctors: seq<string>)

  /** The clinic's fixed facts. */
  datatype Clinic = Clinic(name: string, hours: string, address: string, contact: string)

  /** Doctor name to booked datetimes, in the dictionary's insertion order. */
  const DoctorDirectory: seq<(string, seq<string>)> :=
    [("Dr. Singh", ["2025-10-05 15:00"]), ("Dr. Patel", [])]

  /** The directory's keys, in order. */
  const DoctorNames: seq<string> := ["Dr. Singh", "Dr. Patel"]

  const InsurancePlans: seq<Plan> := [
    Plan("BlueCross", ["general checkup", "cleaning", "x-ray"], ["Dr. Singh"]),
    Plan("Aetna", ["cleaning", "dental exam", "follow-up"], ["Dr. Patel", "Dr. Singh"])
  ]

  /** The plans' provider names, in order. */
  const ProviderNames: seq<string> := ["BlueCross", "Aetna"]

  const ClinicInfo: Clinic := Clinic(
    "Confido Health Clinic",
    "Mon–Sat 9 AM–6 PM, closed Sundays",
    "1245 West Green Street, Springfield, IL",
    "(217) 555-0138")

  lemma DoctorNamesNotEmpty()
    ensures forall i :: 0 <= i < |DoctorNames| ==> DoctorNames[i] != ""
  {
  }

  /** The name lists are exactly the tables' keys, in the tables' order. */
  lemma NamesAreKeys()
    ensures |DoctorNames| == |DoctorDirectory|
    ensures forall i :: 0 <= i < |DoctorNames| ==> DoctorNames[i] == DoctorDirectory[i].0
    ensures |ProviderNames| == |InsurancePlans|
    ensures forall i :: 0 <= i < |ProviderNames| ==> ProviderNames[i] == InsurancePlans[i].provider
  {
  }

  lemma LowerSingh() ensures Lower("Dr. Singh") == "dr. singh" {}
  lemma LowerPatel() ensures Lower("Dr. Patel") == "dr. patel" {}
  lemma LowerBlueCross() ensures Lower("BlueCross") == "bluecross" {}
  lemma LowerAetna() ensures Lower("Aetna") == "aetna" {}

  /** The lower-cased keys the scans compare against. */
  lemma LoweredKeys()
    ensures Lower(DoctorNames[0]) == "dr. singh" && Lower(DoctorNames[1]) == "dr. patel"
    ensures Lower(ProviderNames[0]) == "bluecross" && Lower(ProviderNames[1]) == "aetna"
  {
    LowerSingh();
    LowerPatel();
    LowerBlueCross();
    LowerAetna();
  }

  /**
   * The scan `for name in table: if name.lower() in text: ...` stopped at
   * the first hit: the index of the first name whose lower-cased form is a
   * substring of `text`, or None when no name is.
   */
  function FirstMentioned(names: seq<string>, text: string): (r: Option<nat>)
    ensures r.Some? ==> r.value < |names| && Contains(text, Lower(names[r.value]))
    ensures r.Some? ==> forall j :: 0 <= j < r.value ==> !Contains(text, Lower(names[j]))
    ensures r.None? <==> forall j :: 0 <= j < |names| ==> !Contains(text, Lower(names[j]))
  {
    if names == [] then None
    else if Contains(text, Lower(names[0])) then Some(0)
    else match FirstMentioned(names[1..], text)
      case None => None
      case Some(k) => Some(k + 1)
  }

  /** Reference definition: `k` is the first name, in table order, occurring in `text`. */
  ghost predicate IsFirstMentioned(names: seq<string>, text: string, k: int)
  {
    && 0 <= k < |names|
    && Occurs(Lower(names[k]), text)
    && forall j :: 0 <= j < k ==> !Occurs(Lower(names[j]), text)
  }

  /** The scan returns exactly the first occurring name, or None when no name occurs. */
  lemma FirstMentionedIsFirst(names: seq<string>, text: string)
    ensures forall k :: FirstMentioned(names, text) == Some(k) <==> IsFirstMentioned(names, text, k)
    ensures FirstMentioned(names, text).None? <==>
      forall j :: 0 <= j < |names| ==> !Occurs(Lower(names[j]), text)
  {
    forall j | 0 <= j < |names|
      ensures Contains(text, Lower(names[j])) <==> Occurs(Lower(names[j]), text)
    {
      ContainsIsOccurs(text, Lower(names[j]));
    }
  }

  /** Extending the scanned prefix by one name: the earlier hit, if any, is kept. */
  lemma FirstMentionedExtend(names: seq<string>, text: string, i: nat)
    requires i < |names|
    ensures FirstMentioned(names[..i + 1], text) ==
      if FirstMentioned(names[..i], text).Some? then FirstMentioned(names[..i], text)
      else if Contains(text, Lower(names[i])) then Some(i)
      else None
  {
    var r := FirstMentioned(names[..i + 1], text);
    var p := FirstMentioned(names[..i], text);
    assert forall j :: 0 <= j < i ==> names[..i + 1][j] == names[..i][j] == names[j];
    if p.Some? {
      assert r.Some? && r.value <= p.value;
    }
  }
}
