/**
 * The escalation preferences console (src/components/SafetyEscalationConsole.jsx):
 * a list of trusted contacts, two consent flags, the last escalation and a
 * draft contact, each handler updating them and persisting the result.
 * `Date.now()` ids and ISO timestamps are parameters; the risk tier is the
 * component's property and is passed to the members that read it.
 */
module SafetyEscalation {
  import opened JsValues

  datatype Contact = Contact(id: int, name: string, channel: string, value: string)

  /** The contact being typed into the form. */
  datatype Draft = Draft(name: string, channel: string, value: string)

  /** The payload `triggerEscalation` records. */
  datatype Escalation = Escalation(timestamp: string, tier: int, routedToContacts: seq<string>, routedToClinical: bool)

  /** What `persist` writes, and what `loadInitialPreferences` reads back (fields may be missing). */
  datatype Preferences = Preferences(
    contacts: seq<Contact>,
    consentTrustedContact: Option<bool>,
    consentClinicalEscalation: Option<bool>,
    lastEscalation: Option<Escalation>)

  const DefaultContacts: seq<Contact> := [
    Contact(1, "Alex (Sibling)", "SMS", "+1-555-0101"),
    Contact(2, "Dr. Rivera (Therapist)", "Call", "+1-555-0123")]

  const EmptyDraft := Draft("", "SMS", "")

  // ------------------------------------------------------------------
  // String.prototype.trim
  // ------------------------------------------------------------------

  /** The characters `trim` removes: ECMAScript white space and line terminators. */
  predicate IsJsWhitespace(c: char)
  {
    c == ' ' || c == '\t' || c == '\n' || c == '\r' || c == '\U{000B}' || c == '\U{000C}'
    || c == '\U{00A0}' || c == '\U{1680}' || ('\U{2000}' <= c <= '\U{200A}')
    || c == '\U{2028}' || c == '\U{2029}' || c == '\U{202F}' || c == '\U{205F}'
    || c == '\U{3000}' || c == '\U{FEFF}'
  }

  /** The number of leading white-space characters. */
  function LeadingSpace(s: string): (n: nat)
    ensures n <= |s|
    ensures forall i :: 0 <= i < n ==> IsJsWhitespace(s[i])
    ensures n < |s| ==> !IsJsWhitespace(s[n])
    decreases |s|
  {
    if s == [] || !IsJsWhitespace(s[0]) then 0 else 1 + LeadingSpace(s[1..])
  }

  /** The number of trailing white-space characters. */
  function TrailingSpace(s: string): (n: nat)
    ensures n <= |s|
    ensures forall i :: |s| - n <= i < |s| ==> IsJsWhitespace(s[i])
    ensures n < |s| ==> !IsJsWhitespace(s[|s| - 1 - n])
    decreases |s|
  {
    if s == [] || !IsJsWhitespace(s[|s| - 1]) then 0 else 1 + TrailingSpace(s[..|s| - 1])
  }

  /** `s.trim()`. */
  function Trim(s: string): string
  {
    var t := s[LeadingSpace(s)..];
    t[..|t| - TrailingSpace(t)]
  }

  /**
   * `trim` cuts a middle slice out of `s`: what it removes on either side
   * is white space, and the slice neither starts nor ends with white space.
   */
  lemma {:induction false} TrimFacts(s: string)
    ensures exists i, j ::
      (0 <= i <= j <= |s| && Trim(s) == s[i..j]
      && (forall k :: 0 <= k < i ==> IsJsWhitespace(s[k]))
      && (forall k :: j <= k < |s| ==> IsJsWhitespace(s[k])))
    ensures Trim(s) != [] ==> !IsJsWhitespace(Trim(s)[0]) && !IsJsWhitespace(Trim(s)[|Trim(s)| - 1])
    ensures (forall k :: 0 <= k < |s| ==> IsJsWhitespace(s[k])) <==> Trim(s) == []
  {
    var a := LeadingSpace(s);
    var t := s[a..];
    var b := TrailingSpace(t);
    var j := |s| - b;
    assert Trim(s) == s[a..j];
    forall k | j <= k < |s| ensures IsJsWhitespace(s[k]) {
      assert s[k] == t[k - a];
    }
    if Trim(s) != [] {
      assert Trim(s)[0] == t[0];
      assert Trim(s)[|Trim(s)| - 1] == t[|t| - 1 - b];
    }
    if forall k :: 0 <= k < |s| ==> IsJsWhitespace(s[k]) {
      assert a == |s|;
    }
  }

  /** Trimming twice is trimming once. */
  lemma {:induction false} TrimIdempotent(s: string)
    ensures Trim(Trim(s)) == Trim(s)
  {
    TrimFacts(s);
    var t := Trim(s);
    if t != [] {
      assert LeadingSpace(t) == 0;
      assert TrailingSpace(t) == 0;
    }
  }

  // ------------------------------------------------------------------
  // Contact list operations
  // ------------------------------------------------------------------

  /** `contacts.filter((c) => c.id !== id)`. */
  function RemoveById(contacts: seq<Contact>, id: int): (r: seq<Contact>)
    ensures |r| <= |contacts|
    ensures forall c :: c in r <==> c in contacts && c.id != id
    decreases |contacts|
  {
    if contacts == [] then []
    else
      var rest := RemoveById(contacts[1..], id);
      if contacts[0].id != id then [contacts[0]] + rest else rest
  }

  /** Removing keeps the order: the filter of a concatenation is the concatenation of the filters. */
  lemma {:induction false} RemoveByIdAppend(a: seq<Contact>, b: seq<Contact>, id: int)
    ensures RemoveById(a + b, id) == RemoveById(a, id) + RemoveById(b, id)
    decreases |a|
  {
    if a != [] {
      assert (a + b)[1..] == a[1..] + b;
      RemoveByIdAppend(a[1..], b, id);
    } else {
      assert a + b == b;
    }
  }

  /** Removing an id no contact has leaves the list as it is. */
  lemma {:induction false} RemoveUnknownId(contacts: seq<Contact>, id: int)
    requires forall i :: 0 <= i < |contacts| ==> contacts[i].id != id
    ensures RemoveById(contacts, id) == contacts
    decreases |contacts|
  {
    if contacts != [] {
      RemoveUnknownId(contacts[1..], id);
    }
  }

  /** The route strings: `${c.name} via ${c.channel}` for each contact, in order. */
  function Routes(contacts: seq<Contact>): (r: seq<string>)
    ensures |r| == |contacts|
    ensures forall i :: 0 <= i < |contacts| ==> r[i] == contacts[i].name + " via " + contacts[i].channel
  {
    seq(|contacts|, i requires 0 <= i < |contacts| => contacts[i].name + " via " + contacts[i].channel)
  }

  // ------------------------------------------------------------------
  // The console
  // ------------------------------------------------------------------

  class EscalationConsole {
    var contacts: seq<Contact>
    var consentTrustedContact: bool
    var consentClinicalEscalation: bool
    var newContact: Draft
    var lastEscalation: Option<Escalation>
    /** What local storage holds for the console. */
    var stored: Option<Preferences>

    /**
     * The initial state: the stored contacts (any stored array, even an
     * empty one) or the two defaults; trusted-contact consent defaults to
     * on, clinical consent to off; an empty draft.
     */
    constructor (fromStorage: Option<Preferences>)
      ensures contacts == (if fromStorage.Some? then fromStorage.value.contacts else DefaultContacts)
      ensures consentTrustedContact ==
        (if fromStorage.Some? && fromStorage.value.consentTrustedContact.Some? then fromStorage.value.consentTrustedContact.value else true)
      ensures consentClinicalEscalation ==
        (if fromStorage.Some? && fromStorage.value.consentClinicalEscalation.Some? then fromStorage.value.consentClinicalEscalation.value else false)
      ensures lastEscalation == (if fromStorage.Some? then fromStorage.value.lastEscalation else None)
      ensures newContact == EmptyDraft && stored == fromStorage
    {
      newContact := EmptyDraft;
      stored := fromStorage;
      match fromStorage
      case Some(p) =>
        contacts := p.contacts;
        consentTrustedContact := if p.consentTrustedContact.Some? then p.consentTrustedContact.value else true;
        consentClinicalEscalation := if p.consentClinicalEscalation.Some? then p.consentClinicalEscalation.value else false;
        lastEscalation := p.lastEscalation;
      case None =>
        contacts := DefaultContacts;
        consentTrustedContact := true;
        consentClinicalEscalation := false;
        lastEscalation := None;
    }

    /** The preferences `saveAll` writes for the current state. */
    function Snapshot(): Preferences
      reads this
    {
      Preferences(contacts, Some(consentTrustedContact), Some(consentClinicalEscalation), lastEscalation)
    }

    /** Storage holds exactly the current preferences. */
    predicate Persisted()
      reads this
    {
      stored == Some(Snapshot())
    }

    /** `canEscalateToContacts`: consent given, at least one contact, tier 1 or above. */
    predicate CanEscalateToContacts(tier: int)
      reads this
    {
      consentTrustedContact && |contacts| > 0 && tier >= 1
    }

    /** Sets the draft from the form's inputs. */
    method EditDraft(draft: Draft)
      modifies this
      ensures newContact == draft
      ensures contacts == old(contacts) && stored == old(stored) && lastEscalation == old(lastEscalation)
      ensures consentTrustedContact == old(consentTrustedContact)
      ensures consentClinicalEscalation == old(consentClinicalEscalation)
    {
      newContact := draft;
    }

    /**
     * `addContact`: with a non-empty trimmed name and value, appends one
     * contact, persists and clears the draft; otherwise changes nothing.
     */
    method AddContact(id: int)
      modifies this
      ensures var name := Trim(old(newContact).name); var value := Trim(old(newContact).value);
        if name == "" || value == "" then
          && contacts == old(contacts) && newContact == old(newContact) && stored == old(stored)
        else
          && contacts == old(contacts) + [Contact(id, name, old(newContact).channel, value)]
          && newContact == EmptyDraft && Persisted()
      ensures consentTrustedContact == old(consentTrustedContact)
      ensures consentClinicalEscalation == old(consentClinicalEscalation)
      ensures lastEscalation == old(lastEscalation)
    {
      var name := Trim(newContact.name);
      var value := Trim(newContact.value);
      if name == "" || value == "" {
        return;
      }
      var updated := contacts + [Contact(id, name, newContact.channel, value)];
      contacts := updated;
      stored := Some(Preferences(updated, Some(consentTrustedContact), Some(consentClinicalEscalation), lastEscalation));
      newContact := EmptyDraft;
    }

    /** `removeContact`: drops every contact with the id and persists. */
    method RemoveContact(id: int)
      modifies this
      ensures contacts == RemoveById(old(contacts), id)
      ensures Persisted()
      ensures consentTrustedContact == old(consentTrustedContact)
      ensures consentClinicalEscalation == old(consentClinicalEscalation)
      ensures lastEscalation == old(lastEscalation) && newContact == old(newContact)
    {
      var updated := RemoveById(contacts, id);
      contacts := updated;
      stored := Some(Preferences(updated, Some(consentTrustedContact), Some(consentClinicalEscalation), lastEscalation));
    }

    /**
     * `triggerEscalation`: routes to every contact when escalation to
     * contacts is allowed and to clinicians when consented at tier 2 or
     * above; the payload becomes the last escalation and is persisted.
     */
    method TriggerEscalation(tier: int, timestamp: string) returns (payload: Escalation)
      modifies this
      ensures payload.timestamp == timestamp && payload.tier == tier
      ensures payload.routedToContacts == (if old(CanEscalateToContacts(tier)) then Routes(old(contacts)) else [])
      ensures payload.routedToClinical <==> old(consentClinicalEscalation) && tier >= 2
      ensures lastEscalation == Some(payload) && Persisted()
      ensures contacts == old(contacts) && newContact == old(newContact)
      ensures consentTrustedContact == old(consentTrustedContact)
      ensures consentClinicalEscalation == old(consentClinicalEscalation)
    {
      payload := Escalation(timestamp, tier,
        if CanEscalateToContacts(tier) then Routes(contacts) else [],
        consentClinicalEscalation && tier >= 2);
      lastEscalation := Some(payload);
      stored := Some(Preferences(contacts, Some(consentTrustedContact), Some(consentClinicalEscalation), Some(payload)));
    }

    /** `onToggleTrusted`: flips the trusted-contact consent only, and persists. */
    method ToggleTrusted()
      modifies this
      ensures consentTrustedContact == !old(consentTrustedContact)
      ensures consentClinicalEscalation == old(consentClinicalEscalation)
      ensures contacts == old(contacts) && lastEscalation == old(lastEscalation) && newContact == old(newContact)
      ensures Persisted()
    {
      var next := !consentTrustedContact;
      consentTrustedContact := next;
      stored := Some(Preferences(contacts, Some(next), Some(consentClinicalEscalation), lastEscalation));
    }

    /** `onToggleClinical`: flips the clinical consent only, and persists. */
    method ToggleClinical()
      modifies this
      ensures consentClinicalEscalation == !old(consentClinicalEscalation)
      ensures consentTrustedContact == old(consentTrustedContact)
      ensures contacts == old(contacts) && lastEscalation == old(lastEscalation) && newContact == old(newContact)
      ensures Persisted()
    {
      var next := !consentClinicalEscalation;
      consentClinicalEscalation := next;
      stored := Some(Preferences(contacts, Some(consentTrustedContact), Some(next), lastEscalation));
    }
  }

  /** Adding a contact and removing it by a fresh id gives back the original list. */
  lemma {:induction false} AddThenRemove(contacts: seq<Contact>, c: Contact)
    requires forall i :: 0 <= i < |contacts| ==> contacts[i].id != c.id
    ensures RemoveById(contacts + [c], c.id) == contacts
  {
    RemoveByIdAppend(contacts, [c], c.id);
    RemoveUnknownId(contacts, c.id);
    assert RemoveById([c], c.id) == [];
  }
}
