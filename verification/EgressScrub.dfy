/**
 The egress scrub of `services/egress.py` on acyclic payloads: secret shapes redacted in
 text, secret-named fields and keys redacted whole, and `Pii`-marked fields redacted for
 recipients below their minimum role.
 */
module EgressScrub {
  import opened Common
  import opened Roles
  import opened TypeShapes

  /** A response payload. An instance carries its class's field declarations slot by slot. */
  datatype Payload =
    | Null
    | Text(s: string)
    | Scalar(n: int)
    | Instance(cls: ClassName, slots: seq<Slot>)
    | Mapping(entries: seq<Entry>)
    | Listing(items: seq<Payload>)
    | Tuple(items: seq<Payload>)

  datatype Slot = Slot(field: Field, value: Payload)
  datatype Entry = Entry(key: string, value: Payload)

  datatype Finding = SecretShape | RestrictedPii

  type TextScrub = string -> string

  const SECRET_REDACTED := "[redacted:secret]"
  const PII_REDACTED := "[redacted:pii]"

  const SECRET_HINTS := ["token", "secret", "password", "passwd", "api_key", "apikey", "bearer",
                         "authorization", "credential", "private_key"]

  function LowerChar(c: char): char {
    if 'A' <= c <= 'Z' then (c as int + 32) as char else c
  }

  function Lower(s: string): string {
    seq(|s|, i requires 0 <= i < |s| => LowerChar(s[i]))
  }

  predicate Contains(s: string, sub: string) {
    sub <= s || (s != [] && Contains(s[1..], sub))
  }

  predicate ContainsAny(s: string, hints: seq<string>) {
    hints != [] && (Contains(s, hints[0]) || ContainsAny(s, hints[1..]))
  }

  predicate IsSecretKey(key: string) {
    ContainsAny(Lower(key), SECRET_HINTS)
  }

  lemma {:induction false} ContainsIff(s: string, sub: string)
    ensures Contains(s, sub) <==> exists i :: 0 <= i <= |s| && sub <= s[i..]
  {
    if s == [] {
      assert Contains(s, sub) ==> sub <= s[0..];
    } else {
      ContainsIff(s[1..], sub);
      if i :| 0 <= i <= |s| && sub <= s[i..] {
        assert i > 0 ==> s[1..][i - 1..] == s[i..];
        assert i == 0 ==> s[i..] == s;
      }
      if sub <= s { assert s[0..] == s; }
      if i :| 0 <= i <= |s[1..]| && sub <= s[1..][i..] { assert s[1..][i..] == s[i + 1..]; }
    }
  }

  lemma {:induction false} ContainsAnyIff(s: string, hints: seq<string>)
    ensures ContainsAny(s, hints) <==> exists h :: h in hints && Contains(s, h)
  {
    if hints != [] {
      var rest := hints[1..];
      ContainsAnyIff(s, rest);
      assert hints[0] in hints && forall h | h in rest :: h in hints;
      if h :| h in hints && Contains(s, h) { assert h == hints[0] || h in rest; }
    }
  }

  /** The hint stands in the text at that position. */
  predicate StandsAt(s: string, hint: string, i: int) {
    0 <= i && i + |hint| <= |s| && s[i..i + |hint|] == hint
  }

  /** Exactly which names look like a secret's: those in which some hint stands somewhere, in
      whatever case. */
  lemma SecretKeyIff(key: string)
    ensures IsSecretKey(key) <==>
              exists h, i :: StandsAt(Lower(key), h, i)
                && h in ["token", "secret", "password", "passwd", "api_key", "apikey", "bearer", "authorization",
                         "credential", "private_key"]
  {
    var low := Lower(key);
    ContainsAnyIff(low, SECRET_HINTS);
    forall h | h in SECRET_HINTS
      ensures Contains(low, h) <==> exists i :: StandsAt(low, h, i)
    {
      ContainsIff(low, h);
      if i :| 0 <= i <= |low| && h <= low[i..] { assert StandsAt(low, h, i); }
      if i :| StandsAt(low, h, i) { assert h <= low[i..]; }
    }
  }

  /** Lower-casing, on ASCII: capitals become the small letters, and nothing else changes. */
  lemma LowerIsAscii(s: string)
    ensures |Lower(s)| == |s|
    ensures forall i | 0 <= i < |s| ::
              if s[i] in UPPER then exists k :: 0 <= k < 26 && s[i] == UPPER[k] && Lower(s)[i] == LOWER[k]
              else Lower(s)[i] == s[i]
  {
    forall i | 0 <= i < |s|
      ensures if s[i] in UPPER then exists k :: 0 <= k < 26 && s[i] == UPPER[k] && Lower(s)[i] == LOWER[k]
              else Lower(s)[i] == s[i]
    {
      LetterLowers(s[i]);
    }
  }

  const UPPER := "ABCDEFGHIJKLMNOPQRSTUVWXYZ"
  const LOWER := "abcdefghijklmnopqrstuvwxyz"

  lemma LetterLowers(c: char)
    ensures if c in UPPER then exists k :: 0 <= k < 26 && c == UPPER[k] && LowerChar(c) == LOWER[k]
            else LowerChar(c) == c
  {
    if 'A' <= c <= 'Z' {
      var k := c as int - 'A' as int;
      assert UPPER[k] == c && LOWER[k] == LowerChar(c);
    }
  }

  /** Values a redaction leaves as they are: nothing there, or already this marker. */
  predicate Vacant(p: Payload, marker: string) {
    p == Null || p == Text("") || p == Text(marker)
  }

  predicate Restricted(f: Field, role: Role) {
    f.pii.Some? && !Allows(role, f.pii.value)
  }

  /** `scrub_payload`: the scrubbed payload and the findings, in order. */
  function Scrub(text: TextScrub, role: Role, p: Payload): (Payload, seq<Finding>)
    decreases p, 1
  {
    match p
    case Text(s) => if text(s) == s then (p, []) else (Text(text(s)), [SecretShape])
    case Instance(cls, slots) => var (out, fs) := ScrubSlots(text, role, slots); (Instance(cls, out), fs)
    case Mapping(entries) => var (out, fs) := ScrubEntries(text, role, entries); (Mapping(out), fs)
    case Listing(items) => var (out, fs) := ScrubItems(text, role, items); (Listing(out), fs)
    case Tuple(items) => var (out, fs) := ScrubItems(text, role, items); (Tuple(out), fs)
    case _ => (p, [])
  }

  function ScrubSlot(text: TextScrub, role: Role, slot: Slot): (Slot, seq<Finding>)
    decreases slot, 2
  {
    if IsSecretKey(slot.field.name) then
      if Vacant(slot.value, SECRET_REDACTED) then (slot, []) else (slot.(value := Text(SECRET_REDACTED)), [SecretShape])
    else if Restricted(slot.field, role) then
      if Vacant(slot.value, PII_REDACTED) then (slot, [])
      else (slot.(value := if slot.value.Text? then Text(PII_REDACTED) else Null), [RestrictedPii])
    else
      var (v, fs) := Scrub(text, role, slot.value);
      (slot.(value := v), fs)
  }

  function ScrubSlots(text: TextScrub, role: Role, slots: seq<Slot>): (seq<Slot>, seq<Finding>)
    decreases slots, 0
  {
    if slots == [] then ([], [])
    else
      var (first, fs) := ScrubSlot(text, role, slots[0]);
      var (rest, more) := ScrubSlots(text, role, slots[1..]);
      ([first] + rest, fs + more)
  }

  function ScrubEntry(text: TextScrub, role: Role, e: Entry): (Entry, seq<Finding>)
    decreases e, 2
  {
    if IsSecretKey(e.key) && !Vacant(e.value, SECRET_REDACTED) then (e.(value := Text(SECRET_REDACTED)), [SecretShape])
    else
      var (v, fs) := Scrub(text, role, e.value);
      (e.(value := v), fs)
  }

  function ScrubEntries(text: TextScrub, role: Role, entries: seq<Entry>): (seq<Entry>, seq<Finding>)
    decreases entries, 0
  {
    if entries == [] then ([], [])
    else
      var (first, fs) := ScrubEntry(text, role, entries[0]);
      var (rest, more) := ScrubEntries(text, role, entries[1..]);
      ([first] + rest, fs + more)
  }

  function ScrubItems(text: TextScrub, role: Role, items: seq<Payload>): (seq<Payload>, seq<Finding>)
    decreases items, 0
  {
    if items == [] then ([], [])
    else
      var (first, fs) := Scrub(text, role, items[0]);
      var (rest, more) := ScrubItems(text, role, items[1..]);
      ([first] + rest, fs + more)
  }

  /** A name with a hint in it, in whatever case, has its value redacted whole, as a field and as a
      key; a name without one does not. */
  lemma NameDecides(text: TextScrub, role: Role, name: string, ann: Ann, v: string)
    requires v != "" && v != "[redacted:secret]"
    ensures
      var (slot, entry) := (Slot(Field(name, ann, None), Text(v)), Entry(name, Text(v)));
      if exists h, i :: StandsAt(Lower(name), h, i)
           && h in ["token", "secret", "password", "passwd", "api_key", "apikey", "bearer", "authorization",
                    "credential", "private_key"]
      then
        && ScrubSlot(text, role, slot) == (slot.(value := Text("[redacted:secret]")), [SecretShape])
        && ScrubEntry(text, role, entry) == (entry.(value := Text("[redacted:secret]")), [SecretShape])
      else
        && ScrubSlot(text, role, slot).0 == slot.(value := Text(text(v)))
        && ScrubEntry(text, role, entry).0 == entry.(value := Text(text(v)))
  {
    SecretKeyIff(name);
  }

  lemma AccessTokenIsSecret(name: string)
    requires name == "access_token"
    ensures IsSecretKey(name)
  {
    LowerIsAscii(name);
    assert Lower(name)[7..12] == "token";
    assert StandsAt(Lower(name), "token", 7);
    SecretKeyIff(name);
  }

  lemma ApiKeyIsSecret(name: string)
    requires name == "API_KEY"
    ensures IsSecretKey(name)
  {
    assert Lower(name) == "api_key";
    assert StandsAt(Lower(name), "api_key", 0);
    SecretKeyIff(name);
  }

  lemma EmailIsNotSecret(name: string)
    requires name == "email"
    ensures !IsSecretKey(name)
  {
    assert Lower(name) == "email";
    forall h, i | h in SECRET_HINTS
      ensures !StandsAt(Lower(name), h, i)
    {
      if |h| == 5 { assert h[0] == 't'; }
    }
    SecretKeyIff(name);
  }

  // Peeling one element off the part a loop has still to scrub.

  lemma SlotsStep(text: TextScrub, role: Role, slots: seq<Slot>, i: nat, copy: seq<Slot>, found: seq<Finding>)
    requires i < |slots|
    ensures
      var (first, fs) := ScrubSlot(text, role, slots[i]);
      var (all, rest) := (ScrubSlots(text, role, slots[i..]), ScrubSlots(text, role, slots[i + 1..]));
      copy + all.0 == (copy + [first]) + rest.0 && found + all.1 == (found + fs) + rest.1
  {
  }

  lemma EntriesStep(text: TextScrub, role: Role, entries: seq<Entry>, i: nat, copy: seq<Entry>, found: seq<Finding>)
    requires i < |entries|
    ensures
      var (first, fs) := ScrubEntry(text, role, entries[i]);
      var (all, rest) := (ScrubEntries(text, role, entries[i..]), ScrubEntries(text, role, entries[i + 1..]));
      copy + all.0 == (copy + [first]) + rest.0 && found + all.1 == (found + fs) + rest.1
  {
  }

  lemma ItemsStep(text: TextScrub, role: Role, items: seq<Payload>, i: nat, copy: seq<Payload>, found: seq<Finding>)
    requires i < |items|
    ensures
      var (first, fs) := Scrub(text, role, items[i]);
      var (all, rest) := (ScrubItems(text, role, items[i..]), ScrubItems(text, role, items[i + 1..]));
      copy + all.0 == (copy + [first]) + rest.0 && found + all.1 == (found + fs) + rest.1
  {
  }

  /** The scrub as the source runs it: loops that build the copy and append to one shared
      list of findings. */
  method ScrubPayload(text: TextScrub, role: Role, p: Payload, findings: seq<Finding>)
    returns (out: Payload, findings': seq<Finding>)
    ensures out == Scrub(text, role, p).0 && findings' == findings + Scrub(text, role, p).1
    decreases p, 1
  {
    findings' := findings;
    match p
    case Instance(cls, slots) =>
      var copy;
      copy, findings' := ScrubModel(text, role, slots, findings');
      return Instance(cls, copy), findings';
    case Mapping(entries) =>
      var copy;
      copy, findings' := ScrubMapping(text, role, entries, findings');
      return Mapping(copy), findings';
    case Listing(items) =>
      var copy;
      copy, findings' := ScrubSequence(text, role, items, findings');
      return Listing(copy), findings';
    case Tuple(items) =>
      var copy;
      copy, findings' := ScrubSequence(text, role, items, findings');
      return Tuple(copy), findings';
    case Text(s) =>
      if text(s) == s {
        return p, findings';
      }
      return Text(text(s)), findings' + [SecretShape];
    case _ =>
      return p, findings';
  }

  method ScrubModel(text: TextScrub, role: Role, slots: seq<Slot>, findings: seq<Finding>)
    returns (copy: seq<Slot>, findings': seq<Finding>)
    ensures copy == ScrubSlots(text, role, slots).0 && findings' == findings + ScrubSlots(text, role, slots).1
    decreases slots, 0
  {
    copy, findings' := [], findings;
    assert slots[0..] == slots;
    for i := 0 to |slots|
      invariant ScrubSlots(text, role, slots).0 == copy + ScrubSlots(text, role, slots[i..]).0
      invariant findings + ScrubSlots(text, role, slots).1 == findings' + ScrubSlots(text, role, slots[i..]).1
    {
      SlotsStep(text, role, slots, i, copy, findings');
      assert slots[i] in slots;
      var slot;
      slot, findings' := ScrubField(text, role, slots[i], findings');
      copy := copy + [slot];
    }
  }

  method ScrubField(text: TextScrub, role: Role, slot: Slot, findings: seq<Finding>)
    returns (slot': Slot, findings': seq<Finding>)
    ensures slot' == ScrubSlot(text, role, slot).0 && findings' == findings + ScrubSlot(text, role, slot).1
    decreases slot, 2
  {
    slot', findings' := slot, findings;
    if IsSecretKey(slot.field.name) {
      if !Vacant(slot.value, SECRET_REDACTED) {
        slot' := slot.(value := Text(SECRET_REDACTED));
        findings' := findings' + [SecretShape];
      }
      return;
    }
    if Restricted(slot.field, role) {
      if !Vacant(slot.value, PII_REDACTED) {
        slot' := slot.(value := if slot.value.Text? then Text(PII_REDACTED) else Null);
        findings' := findings' + [RestrictedPii];
      }
      return;
    }
    var v;
    v, findings' := ScrubPayload(text, role, slot.value, findings');
    slot' := slot.(value := v);
  }

  method ScrubMapping(text: TextScrub, role: Role, entries: seq<Entry>, findings: seq<Finding>)
    returns (copy: seq<Entry>, findings': seq<Finding>)
    ensures copy == ScrubEntries(text, role, entries).0 && findings' == findings + ScrubEntries(text, role, entries).1
    decreases entries, 0
  {
    copy, findings' := [], findings;
    assert entries[0..] == entries;
    for i := 0 to |entries|
      invariant ScrubEntries(text, role, entries).0 == copy + ScrubEntries(text, role, entries[i..]).0
      invariant findings + ScrubEntries(text, role, entries).1 == findings' + ScrubEntries(text, role, entries[i..]).1
    {
      EntriesStep(text, role, entries, i, copy, findings');
      assert entries[i] in entries;
      var entry;
      entry, findings' := ScrubItem(text, role, entries[i], findings');
      copy := copy + [entry];
    }
  }

  method ScrubItem(text: TextScrub, role: Role, entry: Entry, findings: seq<Finding>)
    returns (entry': Entry, findings': seq<Finding>)
    ensures entry' == ScrubEntry(text, role, entry).0 && findings' == findings + ScrubEntry(text, role, entry).1
    decreases entry, 2
  {
    if IsSecretKey(entry.key) && !Vacant(entry.value, SECRET_REDACTED) {
      return entry.(value := Text(SECRET_REDACTED)), findings + [SecretShape];
    }
    var v;
    v, findings' := ScrubPayload(text, role, entry.value, findings);
    entry' := entry.(value := v);
  }

  method ScrubSequence(text: TextScrub, role: Role, items: seq<Payload>, findings: seq<Finding>)
    returns (copy: seq<Payload>, findings': seq<Finding>)
    ensures copy == ScrubItems(text, role, items).0 && findings' == findings + ScrubItems(text, role, items).1
    decreases items, 0
  {
    copy, findings' := [], findings;
    assert items[0..] == items;
    for i := 0 to |items|
      invariant ScrubItems(text, role, items).0 == copy + ScrubItems(text, role, items[i..]).0
      invariant findings + ScrubItems(text, role, items).1 == findings' + ScrubItems(text, role, items[i..]).1
    {
      ItemsStep(text, role, items, i, copy, findings');
      assert items[i] in items;
      var v;
      v, findings' := ScrubPayload(text, role, items[i], findings');
      copy := copy + [v];
    }
  }

  /** What the concrete patterns satisfy and the theorems rest on: empty text and the two
      markers carry no secret shape, and a redaction never produces empty text. */
  ghost predicate LeavesMarkers(text: TextScrub) {
    && text("") == "" && text(SECRET_REDACTED) == SECRET_REDACTED && text(PII_REDACTED) == PII_REDACTED
    && forall s :: text(s) == "" ==> s == ""
  }

  ghost predicate Idempotent(text: TextScrub) {
    forall s :: text(text(s)) == text(s)
  }

  lemma {:induction false} ItemsPointwise(text: TextScrub, role: Role, items: seq<Payload>)
    ensures
      var (out, fs) := ScrubItems(text, role, items);
      && |out| == |items| && (forall i | 0 <= i < |items| :: out[i] == Scrub(text, role, items[i]).0)
      && (forall f :: f in fs <==> exists i :: 0 <= i < |items| && f in Scrub(text, role, items[i]).1)
  {
    if items != [] {
      ItemsPointwise(text, role, items[1..]);
      var (_, more) := ScrubItems(text, role, items[1..]);
      forall f
        ensures f in ScrubItems(text, role, items).1 <==>
                exists i :: 0 <= i < |items| && f in Scrub(text, role, items[i]).1
      {
        if f in more {
          var i :| 0 <= i < |items[1..]| && f in Scrub(text, role, items[1..][i]).1;
          assert items[i + 1] == items[1..][i];
        }
        if i :| 0 <= i < |items| && f in Scrub(text, role, items[i]).1 {
          assert i > 0 ==> items[1..][i - 1] == items[i];
        }
      }
    }
  }

  lemma {:induction false} SlotsPointwise(text: TextScrub, role: Role, slots: seq<Slot>)
    ensures
      var (out, fs) := ScrubSlots(text, role, slots);
      && |out| == |slots| && (forall i | 0 <= i < |slots| :: out[i] == ScrubSlot(text, role, slots[i]).0)
      && (forall f :: f in fs <==> exists i :: 0 <= i < |slots| && f in ScrubSlot(text, role, slots[i]).1)
  {
    if slots != [] {
      SlotsPointwise(text, role, slots[1..]);
      var (_, more) := ScrubSlots(text, role, slots[1..]);
      forall f
        ensures f in ScrubSlots(text, role, slots).1 <==>
                exists i :: 0 <= i < |slots| && f in ScrubSlot(text, role, slots[i]).1
      {
        if f in more {
          var i :| 0 <= i < |slots[1..]| && f in ScrubSlot(text, role, slots[1..][i]).1;
          assert slots[i + 1] == slots[1..][i];
        }
        if i :| 0 <= i < |slots| && f in ScrubSlot(text, role, slots[i]).1 {
          assert i > 0 ==> slots[1..][i - 1] == slots[i];
        }
      }
    }
  }

  lemma {:induction false} EntriesPointwise(text: TextScrub, role: Role, entries: seq<Entry>)
    ensures
      var (out, fs) := ScrubEntries(text, role, entries);
      && |out| == |entries| && (forall i | 0 <= i < |entries| :: out[i] == ScrubEntry(text, role, entries[i]).0)
      && (forall f :: f in fs <==> exists i :: 0 <= i < |entries| && f in ScrubEntry(text, role, entries[i]).1)
  {
    if entries != [] {
      EntriesPointwise(text, role, entries[1..]);
      var (_, more) := ScrubEntries(text, role, entries[1..]);
      forall f
        ensures f in ScrubEntries(text, role, entries).1 <==>
                exists i :: 0 <= i < |entries| && f in ScrubEntry(text, role, entries[i]).1
      {
        if f in more {
          var i :| 0 <= i < |entries[1..]| && f in ScrubEntry(text, role, entries[1..][i]).1;
          assert entries[i + 1] == entries[1..][i];
        }
        if i :| 0 <= i < |entries| && f in ScrubEntry(text, role, entries[i]).1 {
          assert i > 0 ==> entries[1..][i - 1] == entries[i];
        }
      }
    }
  }

  /** Exactness: a payload comes back equal exactly when nothing was found. */
  lemma {:induction false} UnchangedIffNoFinding(text: TextScrub, role: Role, p: Payload)
    ensures Scrub(text, role, p).0 == p <==> Scrub(text, role, p).1 == []
    decreases p, 1
  {
    match p
    case Instance(_, slots) => SlotsUnchangedIff(text, role, slots);
    case Mapping(entries) => EntriesUnchangedIff(text, role, entries);
    case Listing(items) => ItemsUnchangedIff(text, role, items);
    case Tuple(items) => ItemsUnchangedIff(text, role, items);
    case _ =>
  }

  lemma {:induction false} SlotsUnchangedIff(text: TextScrub, role: Role, slots: seq<Slot>)
    ensures ScrubSlots(text, role, slots).0 == slots <==> ScrubSlots(text, role, slots).1 == []
    decreases slots, 0
  {
    if slots != [] {
      assert slots[0].value < slots[0];
      UnchangedIffNoFinding(text, role, slots[0].value);
      SlotsUnchangedIff(text, role, slots[1..]);
      assert slots == [slots[0]] + slots[1..];
      var (first, _) := ScrubSlot(text, role, slots[0]);
      var (rest, _) := ScrubSlots(text, role, slots[1..]);
      assert ([first] + rest)[0] == first && ([first] + rest)[1..] == rest;
    }
  }

  lemma {:induction false} EntriesUnchangedIff(text: TextScrub, role: Role, entries: seq<Entry>)
    ensures ScrubEntries(text, role, entries).0 == entries <==> ScrubEntries(text, role, entries).1 == []
    decreases entries, 0
  {
    if entries != [] {
      assert entries[0].value < entries[0];
      UnchangedIffNoFinding(text, role, entries[0].value);
      EntriesUnchangedIff(text, role, entries[1..]);
      assert entries == [entries[0]] + entries[1..];
      var (first, _) := ScrubEntry(text, role, entries[0]);
      var (rest, _) := ScrubEntries(text, role, entries[1..]);
      assert ([first] + rest)[0] == first && ([first] + rest)[1..] == rest;
    }
  }

  lemma {:induction false} ItemsUnchangedIff(text: TextScrub, role: Role, items: seq<Payload>)
    ensures ScrubItems(text, role, items).0 == items <==> ScrubItems(text, role, items).1 == []
    decreases items, 0
  {
    if items != [] {
      UnchangedIffNoFinding(text, role, items[0]);
      ItemsUnchangedIff(text, role, items[1..]);
      assert items == [items[0]] + items[1..];
      var (first, _) := Scrub(text, role, items[0]);
      var (rest, _) := ScrubItems(text, role, items[1..]);
      assert ([first] + rest)[0] == first && ([first] + rest)[1..] == rest;
    }
  }

  /** Nothing is left to redact for `role`, at any depth: below a field the role may not see
      or a secret name there is nothing, or the marker (or a null in place of a non-text). */
  predicate Clean(role: Role, p: Payload) {
    match p
    case Instance(_, slots) => forall s | s in slots :: CleanSlot(role, s)
    case Mapping(entries) => forall e | e in entries :: CleanEntry(role, e)
    case Listing(items) => forall q | q in items :: Clean(role, q)
    case Tuple(items) => forall q | q in items :: Clean(role, q)
    case _ => true
  }

  predicate CleanSlot(role: Role, s: Slot) {
    if IsSecretKey(s.field.name) then Vacant(s.value, SECRET_REDACTED)
    else if Restricted(s.field, role) then Vacant(s.value, PII_REDACTED)
    else Clean(role, s.value)
  }

  predicate CleanEntry(role: Role, e: Entry) {
    Clean(role, e.value) && (IsSecretKey(e.key) ==> Vacant(e.value, SECRET_REDACTED))
  }

  /** Same constructors, fields, keys and lengths everywhere outside the redacted positions. */
  predicate SameShape(role: Role, p: Payload, q: Payload)
    decreases p
  {
    match p
    case Null => q == p
    case Scalar(_) => q == p
    case Text(_) => q.Text?
    case Instance(cls, slots) =>
      q.Instance? && q.cls == cls && |q.slots| == |slots| &&
      forall i | 0 <= i < |slots| :: SameSlot(role, slots[i], q.slots[i])
    case Mapping(entries) =>
      q.Mapping? && |q.entries| == |entries| &&
      forall i | 0 <= i < |entries| :: SameEntry(role, entries[i], q.entries[i])
    case Listing(items) =>
      q.Listing? && |q.items| == |items| && forall i | 0 <= i < |items| :: SameShape(role, items[i], q.items[i])
    case Tuple(items) =>
      q.Tuple? && |q.items| == |items| && forall i | 0 <= i < |items| :: SameShape(role, items[i], q.items[i])
  }

  predicate SameSlot(role: Role, s: Slot, t: Slot)
    decreases s
  {
    t.field == s.field && (IsSecretKey(s.field.name) || Restricted(s.field, role) || SameShape(role, s.value, t.value))
  }

  predicate SameEntry(role: Role, e: Entry, d: Entry)
    decreases e
  {
    d.key == e.key && (IsSecretKey(e.key) || SameShape(role, e.value, d.value))
  }

  /** Completeness: the output is clean for its recipient at every depth, and keeps the shape
      of the input outside the redacted positions. */
  lemma {:induction false} ScrubIsClean(text: TextScrub, role: Role, p: Payload)
    requires LeavesMarkers(text)
    ensures Clean(role, Scrub(text, role, p).0) && SameShape(role, p, Scrub(text, role, p).0)
    decreases p
  {
    match p
    case Instance(_, slots) =>
      SlotsPointwise(text, role, slots);
      forall i | 0 <= i < |slots| { ScrubIsCleanInSlot(text, role, slots[i]); }
    case Mapping(entries) =>
      EntriesPointwise(text, role, entries);
      forall i | 0 <= i < |entries| { ScrubIsCleanInEntry(text, role, entries[i]); }
    case Listing(items) =>
      ItemsPointwise(text, role, items);
      forall i | 0 <= i < |items| { ScrubIsClean(text, role, items[i]); }
    case Tuple(items) =>
      ItemsPointwise(text, role, items);
      forall i | 0 <= i < |items| { ScrubIsClean(text, role, items[i]); }
    case _ =>
  }

  lemma {:induction false} ScrubIsCleanInSlot(text: TextScrub, role: Role, s: Slot)
    requires LeavesMarkers(text)
    ensures CleanSlot(role, ScrubSlot(text, role, s).0) && SameSlot(role, s, ScrubSlot(text, role, s).0)
    decreases s
  {
    ScrubIsClean(text, role, s.value);
  }

  lemma {:induction false} ScrubIsCleanInEntry(text: TextScrub, role: Role, e: Entry)
    requires LeavesMarkers(text)
    ensures CleanEntry(role, ScrubEntry(text, role, e).0) && SameEntry(role, e, ScrubEntry(text, role, e).0)
    decreases e
  {
    ScrubIsClean(text, role, e.value);
  }

  /** Scrubbing for a higher role and then a lower one equals scrubbing for the lower one. */
  lemma {:induction false} ScrubTwice(text: TextScrub, hi: Role, lo: Role, p: Payload)
    requires LeavesMarkers(text) && Idempotent(text) && Allows(hi, lo)
    ensures Scrub(text, lo, Scrub(text, hi, p).0).0 == Scrub(text, lo, p).0
    decreases p
  {
    match p
    case Instance(_, slots) =>
      var mid := ScrubSlots(text, hi, slots).0;
      SlotsPointwise(text, hi, slots);
      SlotsPointwise(text, lo, slots);
      SlotsPointwise(text, lo, mid);
      forall i | 0 <= i < |slots| { ScrubTwiceInSlot(text, hi, lo, slots[i]); }
      assert ScrubSlots(text, lo, mid).0 == ScrubSlots(text, lo, slots).0;
    case Mapping(entries) =>
      var mid := ScrubEntries(text, hi, entries).0;
      EntriesPointwise(text, hi, entries);
      EntriesPointwise(text, lo, entries);
      EntriesPointwise(text, lo, mid);
      forall i | 0 <= i < |entries| { ScrubTwiceInEntry(text, hi, lo, entries[i]); }
      assert ScrubEntries(text, lo, mid).0 == ScrubEntries(text, lo, entries).0;
    case Listing(items) => ScrubTwiceInItems(text, hi, lo, p, items);
    case Tuple(items) => ScrubTwiceInItems(text, hi, lo, p, items);
    case _ =>
  }

  lemma {:induction false} ScrubTwiceInSlot(text: TextScrub, hi: Role, lo: Role, s: Slot)
    requires LeavesMarkers(text) && Idempotent(text) && Allows(hi, lo)
    ensures ScrubSlot(text, lo, ScrubSlot(text, hi, s).0).0 == ScrubSlot(text, lo, s).0
    decreases s
  {
    ScrubTwice(text, hi, lo, s.value);
  }

  lemma {:induction false} ScrubTwiceInEntry(text: TextScrub, hi: Role, lo: Role, e: Entry)
    requires LeavesMarkers(text) && Idempotent(text) && Allows(hi, lo)
    ensures ScrubEntry(text, lo, ScrubEntry(text, hi, e).0).0 == ScrubEntry(text, lo, e).0
    decreases e
  {
    ScrubTwice(text, hi, lo, e.value);
  }

  lemma {:induction false} ScrubTwiceInItems(text: TextScrub, hi: Role, lo: Role, p: Payload, items: seq<Payload>)
    requires LeavesMarkers(text) && Idempotent(text) && Allows(hi, lo)
    requires p == Listing(items) || p == Tuple(items)
    ensures ScrubItems(text, lo, ScrubItems(text, hi, items).0).0 == ScrubItems(text, lo, items).0
    decreases p, 0
  {
    var mid := ScrubItems(text, hi, items).0;
    ItemsPointwise(text, hi, items);
    ItemsPointwise(text, lo, items);
    ItemsPointwise(text, lo, mid);
    forall i | 0 <= i < |items| { ScrubTwice(text, hi, lo, items[i]); }
    assert ScrubItems(text, lo, mid).0 == ScrubItems(text, lo, items).0;
  }

  /** The position `path` of a payload is redacted for `role`, or lies inside a redacted one. */
  predicate Hidden(text: TextScrub, role: Role, p: Payload, path: seq<nat>)
    decreases p
  {
    if path == [] then p.Text? && text(p.s) != p.s
    else
      match p
      case Instance(_, slots) => path[0] < |slots| && HiddenInSlot(text, role, slots[path[0]], path[1..])
      case Mapping(entries) => path[0] < |entries| && HiddenInEntry(text, role, entries[path[0]], path[1..])
      case Listing(items) => path[0] < |items| && Hidden(text, role, items[path[0]], path[1..])
      case Tuple(items) => path[0] < |items| && Hidden(text, role, items[path[0]], path[1..])
      case _ => false
  }

  predicate HiddenInSlot(text: TextScrub, role: Role, s: Slot, path: seq<nat>)
    decreases s
  {
    if IsSecretKey(s.field.name) then !Vacant(s.value, SECRET_REDACTED)
    else if Restricted(s.field, role) then !Vacant(s.value, PII_REDACTED)
    else Hidden(text, role, s.value, path)
  }

  predicate HiddenInEntry(text: TextScrub, role: Role, e: Entry, path: seq<nat>)
    decreases e
  {
    (IsSecretKey(e.key) && !Vacant(e.value, SECRET_REDACTED)) || Hidden(text, role, e.value, path)
  }

  function Child(p: Payload, i: nat): Option<Payload> {
    match p
    case Instance(_, slots) => if i < |slots| then Some(slots[i].value) else None
    case Mapping(entries) => if i < |entries| then Some(entries[i].value) else None
    case Listing(items) => if i < |items| then Some(items[i]) else None
    case Tuple(items) => if i < |items| then Some(items[i]) else None
    case _ => None
  }

  /** The part of a payload at a path, if it has one there. */
  function PartAt(p: Payload, path: seq<nat>): Option<Payload>
    decreases path
  {
    if path == [] then Some(p)
    else
      match Child(p, path[0])
      case None => None
      case Some(child) => PartAt(child, path[1..])
  }

  /** The same value here, whatever lies below: text, number, class with its fields, keys, length. */
  predicate SameHere(p: Payload, q: Payload) {
    match p
    case Instance(cls, slots) =>
      q.Instance? && q.cls == cls && |q.slots| == |slots|
      && forall i | 0 <= i < |slots| :: q.slots[i].field == slots[i].field
    case Mapping(entries) =>
      q.Mapping? && |q.entries| == |entries| && forall i | 0 <= i < |entries| :: q.entries[i].key == entries[i].key
    case Listing(items) => q.Listing? && |q.items| == |items|
    case Tuple(items) => q.Tuple? && |q.items| == |items|
    case _ => q == p
  }

  /** What a redaction leaves behind: a marker, a null, or text with its secret shapes replaced. */
  predicate IsRedaction(text: TextScrub, p: Payload, q: Payload) {
    q in {Text(SECRET_REDACTED), Text(PII_REDACTED), Null} || (p.Text? && q == Text(text(p.s)))
  }

  /** The output still shows, at the path, what the input has there. */
  predicate ShownAt(p: Payload, q: Payload, path: seq<nat>)
    requires PartAt(p, path).Some?
  {
    PartAt(q, path).Some? && SameHere(PartAt(p, path).value, PartAt(q, path).value)
  }

  /** At the path, the output `q` shows what the input `p` has there if and only if the position
      is not hidden; a hidden one is gone or a redaction. */
  predicate Tracks(text: TextScrub, hidden: bool, p: Payload, q: Payload, path: seq<nat>)
    requires PartAt(p, path).Some?
  {
    && (hidden <==> !ShownAt(p, q, path))
    && (hidden && PartAt(q, path).Some? ==> IsRedaction(text, PartAt(p, path).value, PartAt(q, path).value))
  }

  lemma TopIsTracked(text: TextScrub, role: Role, p: Payload)
    ensures Tracks(text, Hidden(text, role, p, []), p, Scrub(text, role, p).0, [])
  {
    match p
    case Instance(_, slots) =>
      SlotsPointwise(text, role, slots);
      assert forall i | 0 <= i < |slots| :: ScrubSlot(text, role, slots[i]).0.field == slots[i].field;
    case Mapping(entries) =>
      EntriesPointwise(text, role, entries);
      assert forall i | 0 <= i < |entries| :: ScrubEntry(text, role, entries[i]).0.key == entries[i].key;
    case Listing(items) => ItemsPointwise(text, role, items);
    case Tuple(items) => ItemsPointwise(text, role, items);
    case _ =>
  }

  /** Position by position, `Hidden` is what the scrub does. */
  lemma {:induction false} HiddenIffNotShown(text: TextScrub, role: Role, p: Payload, path: seq<nat>)
    requires LeavesMarkers(text) && PartAt(p, path).Some?
    ensures Tracks(text, Hidden(text, role, p, path), p, Scrub(text, role, p).0, path)
    decreases p
  {
    if path == [] {
      TopIsTracked(text, role, p);
    } else {
      var (i, rest, out) := (path[0], path[1..], Scrub(text, role, p).0);
      match p {
        case Instance(_, slots) =>
          SlotsPointwise(text, role, slots);
          HiddenIffNotShownInSlot(text, role, slots[i], rest);
        case Mapping(entries) =>
          EntriesPointwise(text, role, entries);
          HiddenIffNotShownInEntry(text, role, entries[i], rest);
        case Listing(items) =>
          ItemsPointwise(text, role, items);
          HiddenIffNotShown(text, role, items[i], rest);
        case Tuple(items) =>
          ItemsPointwise(text, role, items);
          HiddenIffNotShown(text, role, items[i], rest);
      }
      ChildTracks(text, Hidden(text, role, p, path), p, out, path);
    }
  }

  lemma ChildTracks(text: TextScrub, hidden: bool, p: Payload, q: Payload, path: seq<nat>)
    requires path != [] && PartAt(p, path).Some? && Child(q, path[0]).Some?
    requires Tracks(text, hidden, Child(p, path[0]).value, Child(q, path[0]).value, path[1..])
    ensures Tracks(text, hidden, p, q, path)
  {
  }

  lemma {:induction false} HiddenIffNotShownInSlot(text: TextScrub, role: Role, s: Slot, path: seq<nat>)
    requires LeavesMarkers(text) && PartAt(s.value, path).Some?
    ensures Tracks(text, HiddenInSlot(text, role, s, path), s.value, ScrubSlot(text, role, s).0.value, path)
    decreases s
  {
    if !IsSecretKey(s.field.name) && !Restricted(s.field, role) {
      HiddenIffNotShown(text, role, s.value, path);
    }
  }

  lemma {:induction false} HiddenIffNotShownInEntry(text: TextScrub, role: Role, e: Entry, path: seq<nat>)
    requires LeavesMarkers(text) && PartAt(e.value, path).Some?
    ensures Tracks(text, HiddenInEntry(text, role, e, path), e.value, ScrubEntry(text, role, e).0.value, path)
    decreases e
  {
    if !IsSecretKey(e.key) || Vacant(e.value, SECRET_REDACTED) {
      HiddenIffNotShown(text, role, e.value, path);
    }
  }

  /** Whatever the scrub keeps from a role it keeps from every lower one. */
  lemma RedactedForLowerRoles(text: TextScrub, hi: Role, lo: Role, p: Payload, path: seq<nat>)
    requires LeavesMarkers(text) && Allows(hi, lo) && PartAt(p, path).Some?
    requires !ShownAt(p, Scrub(text, hi, p).0, path)
    ensures !ShownAt(p, Scrub(text, lo, p).0, path)
  {
    HiddenIffNotShown(text, hi, p, path);
    HiddenIffNotShown(text, lo, p, path);
    HiddenFromLowerRoles(text, hi, lo, p, path);
  }

  /** Whatever is hidden from a role is hidden from every lower one. */
  lemma {:induction false} HiddenFromLowerRoles(text: TextScrub, hi: Role, lo: Role, p: Payload, path: seq<nat>)
    requires LeavesMarkers(text) && Allows(hi, lo) && Hidden(text, hi, p, path)
    ensures Hidden(text, lo, p, path)
    decreases p
  {
    if path != [] {
      match p
      case Instance(_, slots) =>
        var s := slots[path[0]];
        assert s in slots;
        assert s.value < s;
        if !IsSecretKey(s.field.name) && !Restricted(s.field, hi) {
          VacantIsNotHidden(text, hi, s.value, path[1..]);
          HiddenFromLowerRoles(text, hi, lo, s.value, path[1..]);
        }
      case Mapping(entries) =>
        var e := entries[path[0]];
        assert e in entries;
        assert e.value < e;
        if Hidden(text, hi, e.value, path[1..]) {
          HiddenFromLowerRoles(text, hi, lo, e.value, path[1..]);
        }
      case Listing(items) => HiddenFromLowerRoles(text, hi, lo, items[path[0]], path[1..]);
      case Tuple(items) => HiddenFromLowerRoles(text, hi, lo, items[path[0]], path[1..]);
    }
  }

  lemma VacantIsNotHidden(text: TextScrub, role: Role, p: Payload, path: seq<nat>)
    requires LeavesMarkers(text)
    ensures Vacant(p, PII_REDACTED) ==> !Hidden(text, role, p, path)
  {
  }

  lemma NonEmptyHasMember(fs: seq<Finding>) returns (f: Finding)
    requires fs != []
    ensures f in fs
  {
    f := fs[0];
  }

  /** Hidden positions are exactly what the findings report: there is one iff there is one. */
  lemma FindingsMeanHidden(text: TextScrub, role: Role, p: Payload)
    ensures Scrub(text, role, p).1 == [] <==> forall path: seq<nat> :: !Hidden(text, role, p, path)
  {
    forall path | Hidden(text, role, p, path)
      ensures Scrub(text, role, p).1 != []
    {
      HiddenIsFound(text, role, p, path);
    }
    if Scrub(text, role, p).1 != [] {
      var found := FoundIsHidden(text, role, p);
      assert Hidden(text, role, p, found);
      assert exists path: seq<nat> :: Hidden(text, role, p, path);
    }
  }

  lemma {:induction false} HiddenIsFound(text: TextScrub, role: Role, p: Payload, path: seq<nat>)
    requires Hidden(text, role, p, path)
    ensures Scrub(text, role, p).1 != []
    decreases p
  {
    if path != [] {
      match p
      case Instance(_, slots) =>
        var s := slots[path[0]];
        assert s in slots;
        assert s.value < s;
        SlotsPointwise(text, role, slots);
        if !IsSecretKey(s.field.name) && !Restricted(s.field, role) {
          HiddenIsFound(text, role, s.value, path[1..]);
        }
        var f := NonEmptyHasMember(ScrubSlot(text, role, s).1);
        assert f in ScrubSlots(text, role, slots).1;
      case Mapping(entries) =>
        var e := entries[path[0]];
        assert e in entries;
        assert e.value < e;
        EntriesPointwise(text, role, entries);
        if Hidden(text, role, e.value, path[1..]) {
          HiddenIsFound(text, role, e.value, path[1..]);
        }
        var f := NonEmptyHasMember(ScrubEntry(text, role, e).1);
        assert f in ScrubEntries(text, role, entries).1;
      case Listing(items) =>
        ItemsPointwise(text, role, items);
        HiddenIsFound(text, role, items[path[0]], path[1..]);
        var f := NonEmptyHasMember(Scrub(text, role, items[path[0]]).1);
        assert f in ScrubItems(text, role, items).1;
      case Tuple(items) =>
        ItemsPointwise(text, role, items);
        HiddenIsFound(text, role, items[path[0]], path[1..]);
        var f := NonEmptyHasMember(Scrub(text, role, items[path[0]]).1);
        assert f in ScrubItems(text, role, items).1;
    }
  }

  lemma {:induction false} FoundIsHidden(text: TextScrub, role: Role, p: Payload) returns (path: seq<nat>)
    requires Scrub(text, role, p).1 != []
    ensures Hidden(text, role, p, path)
    decreases p
  {
    var f := NonEmptyHasMember(Scrub(text, role, p).1);
    match p
    case Instance(_, slots) =>
      SlotsPointwise(text, role, slots);
      var i :| 0 <= i < |slots| && f in ScrubSlot(text, role, slots[i]).1;
      assert slots[i] in slots;
      var rest := FoundIsHiddenInSlot(text, role, slots[i]);
      path := [i] + rest;
      assert path[1..] == rest;
    case Mapping(entries) =>
      EntriesPointwise(text, role, entries);
      var i :| 0 <= i < |entries| && f in ScrubEntry(text, role, entries[i]).1;
      assert entries[i] in entries;
      var rest := FoundIsHiddenInEntry(text, role, entries[i]);
      path := [i] + rest;
      assert path[1..] == rest;
    case Listing(items) =>
      ItemsPointwise(text, role, items);
      var i :| 0 <= i < |items| && f in Scrub(text, role, items[i]).1;
      var rest := FoundIsHidden(text, role, items[i]);
      path := [i] + rest;
      assert path[1..] == rest;
    case Tuple(items) =>
      ItemsPointwise(text, role, items);
      var i :| 0 <= i < |items| && f in Scrub(text, role, items[i]).1;
      var rest := FoundIsHidden(text, role, items[i]);
      path := [i] + rest;
      assert path[1..] == rest;
    case Text(_) => path := [];
  }

  lemma {:induction false} FoundIsHiddenInSlot(text: TextScrub, role: Role, s: Slot) returns (path: seq<nat>)
    requires ScrubSlot(text, role, s).1 != []
    ensures HiddenInSlot(text, role, s, path)
    decreases s
  {
    path := [];
    if !IsSecretKey(s.field.name) && !Restricted(s.field, role) {
      path := FoundIsHidden(text, role, s.value);
    }
  }

  lemma {:induction false} FoundIsHiddenInEntry(text: TextScrub, role: Role, e: Entry) returns (path: seq<nat>)
    requires ScrubEntry(text, role, e).1 != []
    ensures HiddenInEntry(text, role, e, path)
    decreases e
  {
    path := [];
    if !IsSecretKey(e.key) || Vacant(e.value, SECRET_REDACTED) {
      path := FoundIsHidden(text, role, e.value);
    }
  }

  /** A payload inhabits an annotation: instances of exactly the class, and ordinary classes
      and bare mappings holding nothing that could carry a model. */
  predicate Inhabits(models: Models, p: Payload, a: Ann)
    decreases p, a
  {
    match a
    case Class(c) =>
      if c in models then
        && p.Instance? && p.cls == c && |p.slots| == |models[c]|
        && forall i | 0 <= i < |models[c]| :: p.slots[i].field == models[c][i] && SlotInhabits(models, p.slots[i])
      else IsLeaf(p)
    case BareMapping => p.Mapping? && forall e | e in p.entries :: IsLeaf(e.value)
    case Gen(origin, args) =>
      match origin
      case UnionOf => exists arg | arg in args :: Inhabits(models, p, arg)
      case ListOf =>
        (p.Listing? || p.Tuple?) && forall q | q in p.items :: exists arg | arg in args :: Inhabits(models, q, arg)
      case TupleOf =>
        p.Tuple? && |p.items| == |args| && forall i | 0 <= i < |args| :: Inhabits(models, p.items[i], args[i])
      case MappingOf => p.Mapping? && forall e | e in p.entries :: EntryInhabits(models, e, args)
  }

  predicate SlotInhabits(models: Models, s: Slot)
    decreases s
  {
    Inhabits(models, s.value, s.field.ann)
  }

  predicate EntryInhabits(models: Models, e: Entry, args: seq<Ann>)
    decreases e
  {
    exists arg | arg in args :: Inhabits(models, e.value, arg)
  }

  predicate IsLeaf(p: Payload) {
    p.Null? || p.Text? || p.Scalar?
  }

  ghost predicate PiiRuledOut(models: Models, clear: set<ClassName>) {
    forall c | c in clear ::
      c in models && !HasPiiField(models, c) && ClassesInAll(models, FieldAnns(models[c]), true) <= clear
  }

  lemma ArmIsClear(models: Models, args: seq<Ann>, arg: Ann, clear: set<ClassName>)
    requires arg in args && ClassesInAll(models, args, true) <= clear
    ensures ClassesIn(models, arg, true) <= clear
  {
    var i :| 0 <= i < |args| && args[i] == arg;
    ClassesInMember(models, args, true, i);
  }

  lemma {:induction false} ClearPayloadHasNoPii(models: Models, text: TextScrub, role: Role, p: Payload, a: Ann,
                                                clear: set<ClassName>)
    requires Inhabits(models, p, a) && PiiRuledOut(models, clear) && ClassesIn(models, a, true) <= clear
    ensures RestrictedPii !in Scrub(text, role, p).1
    decreases p, a
  {
    match a
    case Class(c) =>
      if c in models {
        SlotsPointwise(text, role, p.slots);
        forall i | 0 <= i < |p.slots|
          ensures RestrictedPii !in ScrubSlot(text, role, p.slots[i]).1
        {
          var s := p.slots[i];
          assert s in p.slots && s.value < s;
          assert SlotInhabits(models, s) && s.field == models[c][i];
          ClassesInMember(models, FieldAnns(models[c]), true, i);
          ClearPayloadHasNoPii(models, text, role, s.value, s.field.ann, clear);
        }
      }
    case BareMapping => MappingHasNoPii(models, text, role, p.entries, [Class("")], {});
    case Gen(origin, args) =>
      match origin
      case UnionOf =>
        var arg :| arg in args && Inhabits(models, p, arg);
        ArmIsClear(models, args, arg, clear);
        ClearPayloadHasNoPii(models, text, role, p, arg, clear);
      case MappingOf => MappingHasNoPii(models, text, role, p.entries, args, clear);
      case _ =>
        ItemsPointwise(text, role, p.items);
        forall q | q in p.items
          ensures RestrictedPii !in Scrub(text, role, q).1
        {
          var arg :| arg in args && Inhabits(models, q, arg);
          ArmIsClear(models, args, arg, clear);
          ClearPayloadHasNoPii(models, text, role, q, arg, clear);
        }
  }

  lemma {:induction false} MappingHasNoPii(models: Models, text: TextScrub, role: Role, entries: seq<Entry>,
                                           args: seq<Ann>, clear: set<ClassName>)
    requires forall e | e in entries :: IsLeaf(e.value) || EntryInhabits(models, e, args)
    requires (exists e :: e in entries && !IsLeaf(e.value)) ==>
               PiiRuledOut(models, clear) && ClassesInAll(models, args, true) <= clear
    ensures RestrictedPii !in ScrubEntries(text, role, entries).1
    decreases entries
  {
    EntriesPointwise(text, role, entries);
    forall e | e in entries
      ensures RestrictedPii !in ScrubEntry(text, role, e).1
    {
      if !IsLeaf(e.value) {
        assert EntryInhabits(models, e, args) && e.value < e;
        var arg :| arg in args && Inhabits(models, e.value, arg);
        ArmIsClear(models, args, arg, clear);
        ClearPayloadHasNoPii(models, text, role, e.value, arg, clear);
      }
    }
  }

  /** The static response detector is sound for the scrub: when it answers no, scrubbing any
      value of the response type, for any role, records no PII finding. */
  lemma UnexposedMeansNoPii(models: Models, text: TextScrub, role: Role, p: Payload, a: Ann)
    requires !Exposes(models, a, {}).0 && Inhabits(models, p, a)
    ensures RestrictedPii !in Scrub(text, role, p).1
  {
    var clear := Exposes(models, a, {}).1;
    ExposesWalk(models, a, {});
    assert clear == clear - {};
    assert ClassesInAll(models, [a], true) == ClassesIn(models, a, true);
    ClearPayloadHasNoPii(models, text, role, p, a, clear);
  }

  /** A marked field below its minimum role: text becomes the marker, anything else null, and what is
      already empty or redacted stays. From that role on it is scrubbed like any other. */
  lemma MarkedFieldIsRedacted(text: TextScrub, role: Role, slot: Slot, min: Role)
    requires slot.field.pii == Some(min) && !IsSecretKey(slot.field.name)
    ensures
      var out := ScrubSlot(text, role, slot);
      if Allows(role, min) then
        out == (slot.(value := Scrub(text, role, slot.value).0), Scrub(text, role, slot.value).1)
      else if slot.value in {Null, Text(""), Text("[redacted:pii]")} then out == (slot, [])
      else out == (slot.(value := if slot.value.Text? then Text("[redacted:pii]") else Null), [RestrictedPii])
  {
  }
}
