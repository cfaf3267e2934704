/**
 What the guard around the transaction store (`main.py`) lets through of a stored transaction:
 the egress scrub of its model for an operator, the tier the guard is wired at.
 */
module StoredTerms {
  import opened Common
  import opened EgressScrub
  import opened OpenTransaction
  import opened Roles
  import opened TypeShapes

  function ScrubParty(text: TextScrub, p: Party): Party {
    Party(text(p.role), text(p.name), if p.contactId.Some? then Some(text(p.contactId.value)) else None, text(p.email))
  }

  function ScrubParties(text: TextScrub, ps: seq<Party>): seq<Party> {
    seq(|ps|, i requires 0 <= i < |ps| => ScrubParty(text, ps[i]))
  }

  function ScrubTerms(text: TextScrub, t: Transaction): Transaction {
    Transaction(text(t.id), text(t.listingKey), ScrubParties(text, t.parties), t.contractDate, t.closeDate)
  }

  /** The models' field names, none of which reads like a secret's: the scrub looks at a field's
      name and `Pii` marker, never at its type. */
  datatype Names = Names(id: string, listingKey: string, parties: string, contractDate: string, closeDate: string,
                         role: string, name: string, contactId: string, email: string)

  predicate NotSecret(n: Names) {
    && !IsSecretKey(n.id) && !IsSecretKey(n.listingKey) && !IsSecretKey(n.parties) && !IsSecretKey(n.contractDate)
    && !IsSecretKey(n.closeDate) && !IsSecretKey(n.role) && !IsSecretKey(n.name) && !IsSecretKey(n.contactId)
    && !IsSecretKey(n.email)
  }

  function Attribute(name: string, pii: Option<Role>, value: Payload): Slot {
    Slot(Field(name, Class("str"), pii), value)
  }

  function PartySlots(n: Names, p: Party): seq<Slot> {
    var contact := if p.contactId.Some? then Text(p.contactId.value) else Null;
    [Attribute(n.role, None, Text(p.role)), Attribute(n.name, None, Text(p.name)),
     Attribute(n.contactId, None, contact), Attribute(n.email, Some(Operator), Text(p.email))]
  }

  function PartyPayloads(n: Names, ps: seq<Party>): seq<Payload> {
    if ps == [] then [] else [Instance("TransactionParty", PartySlots(n, ps[0]))] + PartyPayloads(n, ps[1..])
  }

  function TermsSlots(n: Names, t: Transaction): seq<Slot> {
    var close := if t.closeDate.Some? then Scalar(t.closeDate.value) else Null;
    [Attribute(n.id, None, Text(t.id)), Attribute(n.listingKey, None, Text(t.listingKey)),
     Attribute(n.parties, None, Listing(PartyPayloads(n, t.parties))),
     Attribute(n.contractDate, None, Scalar(t.contractDate)), Attribute(n.closeDate, None, close)]
  }

  predicate Plain(s: Slot) {
    !IsSecretKey(s.field.name) && !Restricted(s.field, Operator)
  }

  /** Slots no rule redacts whole: each value is scrubbed for itself. */
  function EachScrubbed(text: TextScrub, slots: seq<Slot>): seq<Slot> {
    seq(|slots|, i requires 0 <= i < |slots| => slots[i].(value := Scrub(text, Operator, slots[i].value).0))
  }

  lemma {:induction false} SlotsPlain(text: TextScrub, slots: seq<Slot>)
    requires forall i | 0 <= i < |slots| :: Plain(slots[i])
    ensures ScrubSlots(text, Operator, slots).0 == EachScrubbed(text, slots)
  {
    if slots != [] {
      SlotsPlain(text, slots[1..]);
      assert Plain(slots[0]);
    }
  }

  lemma PartyIsScrubbed(text: TextScrub, n: Names, p: Party)
    requires NotSecret(n)
    ensures ScrubSlots(text, Operator, PartySlots(n, p)).0 == PartySlots(n, ScrubParty(text, p))
  {
    SlotsPlain(text, PartySlots(n, p));
    assert EachScrubbed(text, PartySlots(n, p)) == PartySlots(n, ScrubParty(text, p));
  }

  lemma {:induction false} PartiesAreScrubbed(text: TextScrub, n: Names, ps: seq<Party>)
    requires NotSecret(n)
    ensures ScrubItems(text, Operator, PartyPayloads(n, ps)).0 == PartyPayloads(n, ScrubParties(text, ps))
  {
    if ps != [] {
      PartyIsScrubbed(text, n, ps[0]);
      PartiesAreScrubbed(text, n, ps[1..]);
      assert ScrubParties(text, ps)[1..] == ScrubParties(text, ps[1..]);
      assert PartyPayloads(n, ps)[1..] == PartyPayloads(n, ps[1..]);
    }
  }

  lemma TermsPlain(n: Names, t: Transaction)
    requires NotSecret(n)
    ensures forall i | 0 <= i < |TermsSlots(n, t)| :: Plain(TermsSlots(n, t)[i])
  {
  }

  lemma TermsEach(text: TextScrub, n: Names, t: Transaction)
    requires NotSecret(n)
    ensures EachScrubbed(text, TermsSlots(n, t)) == TermsSlots(n, ScrubTerms(text, t))
  {
    PartiesAreScrubbed(text, n, t.parties);
    var (slots, out) := (TermsSlots(n, t), TermsSlots(n, ScrubTerms(text, t)));
    assert Scrub(text, Operator, slots[2].value).0 == out[2].value;
  }

  /** What the guard shows of a stored transaction is the egress scrub of its model. */
  lemma TermsAreScrubbed(text: TextScrub, n: Names, t: Transaction)
    requires NotSecret(n)
    ensures Scrub(text, Operator, Instance("Transaction", TermsSlots(n, t))).0
            == Instance("Transaction", TermsSlots(n, ScrubTerms(text, t)))
  {
    TermsPlain(n, t);
    SlotsPlain(text, TermsSlots(n, t));
    TermsEach(text, n, t);
  }
}
