/** The local-state part of the data store (src/store/useStore.js): eight tables held as
    lists, fresh-id generation, appends with consecutive child ids, cascading deletes,
    updates of one record by id, the read-only queries, and the theme store.

    A record keeps the keys the store's logic reads as typed fields and every other
    property in an attribute bag. Timestamps are the parameter `now`. */
module Store {
  import opened Wrappers
  import opened Lists

  /** A JavaScript property value. */
  datatype Val = VStr(s: string) | VNum(x: real) | VBool(b: bool) | VNull | VUndefined

  type Attrs = map<string, Val>

  predicate Truthy(v: Val) {
    match v
    case VStr(s) => s != ""
    case VNum(x) => x != 0.0
    case VBool(b) => b
    case VNull => false
    case VUndefined => false
  }

  /** Reading a property: a missing key reads as `undefined`. */
  function Prop(a: Attrs, key: string): Val {
    if key in a then a[key] else VUndefined
  }

  datatype Person = Person(PersonID: int, attrs: Attrs)
  datatype Case = Case(CaseID: int, attrs: Attrs)
  datatype Location = Location(LocationID: int, attrs: Attrs)
  datatype Contact = Contact(ContactID: int, PersonID: int, attrs: Attrs)
  datatype CasePerson = CasePerson(CasePersonID: int, PersonID: int, CaseID: int, Role: Val, InvolvementDetails: Val)
  /** A drug seizure: the fields the statistics read, and every other property (such as
      `StorageLocation` or `Notes`) in `attrs`. */
  datatype Seizure = Seizure(SeizureID: int, CaseID: int, DrugType: string, Quantity: real, Unit: Val,
                             EstimatedValue: Val, attrs: Attrs)
  datatype Relationship = Relationship(RelationshipID: int, Person1ID: int, Person2ID: int, attrs: Attrs)
  datatype PersonLocation = PersonLocation(PersonID: int, attrs: Attrs)

  /** One entry of the `involvedPersons` argument of `addCase`. */
  datatype Involvement = Involvement(personId: int, role: Val, details: Val)

  /** The eight tables of the store. */
  datatype Tables = Tables(
    persons: seq<Person>,
    cases: seq<Case>,
    drugSeizures: seq<Seizure>,
    locations: seq<Location>,
    personCases: seq<CasePerson>,
    personNetwork: seq<Relationship>,
    personContacts: seq<Contact>,
    personLocations: seq<PersonLocation>)

  // The id of each kind of record.
  function PersonKey(p: Person): int { p.PersonID }
  function CaseKey(c: Case): int { c.CaseID }
  function LocationKey(l: Location): int { l.LocationID }
  function ContactKey(c: Contact): int { c.ContactID }
  function CasePersonKey(cp: CasePerson): int { cp.CasePersonID }
  function SeizureKey(s: Seizure): int { s.SeizureID }
  function RelationshipKey(r: Relationship): int { r.RelationshipID }

  /** No two records of a table share an id. */
  ghost predicate UniqueIds(t: Tables) {
    && UniqueBy(t.persons, PersonKey)
    && UniqueBy(t.cases, CaseKey)
    && UniqueBy(t.drugSeizures, SeizureKey)
    && UniqueBy(t.locations, LocationKey)
    && UniqueBy(t.personCases, CasePersonKey)
    && UniqueBy(t.personNetwork, RelationshipKey)
    && UniqueBy(t.personContacts, ContactKey)
  }

  // ---------------------------------------------------------------- fresh ids

  /** `Math.max(...ids, 0)`. */
  function MaxWithZero(ids: seq<int>): (m: int)
    ensures m >= 0
    ensures forall i :: 0 <= i < |ids| ==> ids[i] <= m
    ensures m == 0 || exists i :: 0 <= i < |ids| && ids[i] == m
  {
    if ids == [] then 0
    else
      var rest := MaxWithZero(ids[..|ids| - 1]);
      assert forall i :: 0 <= i < |ids| - 1 ==> ids[..|ids| - 1][i] == ids[i];
      if ids[|ids| - 1] > rest then ids[|ids| - 1] else rest
  }

  /** `Math.max(...ids, 0) + 1`: above every existing id and at least 1, and the least
      such number (one more than the largest id, or 1). */
  function NextId(ids: seq<int>): (r: int)
    ensures r >= 1
    ensures forall i :: 0 <= i < |ids| ==> ids[i] < r
    ensures r == 1 || exists i :: 0 <= i < |ids| && ids[i] == r - 1
  {
    MaxWithZero(ids) + 1
  }

  function Keys<T>(s: seq<T>, key: T -> int): (ks: seq<int>)
    ensures |ks| == |s|
    ensures forall i :: 0 <= i < |s| ==> ks[i] == key(s[i])
  {
    seq(|s|, i requires 0 <= i < |s| => key(s[i]))
  }

  // The `getNext*Id` helpers.
  function NextPersonId(t: Tables): int { NextId(Keys(t.persons, PersonKey)) }
  function NextCaseId(t: Tables): int { NextId(Keys(t.cases, CaseKey)) }
  function NextLocationId(t: Tables): int { NextId(Keys(t.locations, LocationKey)) }
  function NextSeizureId(t: Tables): int { NextId(Keys(t.drugSeizures, SeizureKey)) }
  function NextContactId(t: Tables): int { NextId(Keys(t.personContacts, ContactKey)) }
  function NextCasePersonId(t: Tables): int { NextId(Keys(t.personCases, CasePersonKey)) }
  function NextRelationshipId(t: Tables): int { NextId(Keys(t.personNetwork, RelationshipKey)) }

  /** Every `getNext*Id` is strictly above every existing id of its kind. */
  lemma NextIdsAreFresh(t: Tables)
    ensures forall p :: p in t.persons ==> p.PersonID < NextPersonId(t)
    ensures forall c :: c in t.cases ==> c.CaseID < NextCaseId(t)
    ensures forall l :: l in t.locations ==> l.LocationID < NextLocationId(t)
    ensures forall s :: s in t.drugSeizures ==> s.SeizureID < NextSeizureId(t)
    ensures forall c :: c in t.personContacts ==> c.ContactID < NextContactId(t)
    ensures forall cp :: cp in t.personCases ==> cp.CasePersonID < NextCasePersonId(t)
    ensures forall r :: r in t.personNetwork ==> r.RelationshipID < NextRelationshipId(t)
  {
    KeysBelow(t.persons, PersonKey);
    KeysBelow(t.cases, CaseKey);
    KeysBelow(t.locations, LocationKey);
    KeysBelow(t.drugSeizures, SeizureKey);
    KeysBelow(t.personContacts, ContactKey);
    KeysBelow(t.personCases, CasePersonKey);
    KeysBelow(t.personNetwork, RelationshipKey);
  }

  lemma KeysBelow<T>(s: seq<T>, key: T -> int)
    ensures forall x :: x in s ==> key(x) < NextId(Keys(s, key))
  {
    var ks := Keys(s, key);
    forall x | x in s ensures key(x) < NextId(ks) {
      var i :| 0 <= i < |s| && s[i] == x;
      assert ks[i] == key(x);
    }
  }

  /** Appending records whose ids are at least a bound above every existing id keeps
      the ids unique. */
  lemma AppendFresh<T>(s: seq<T>, r: seq<T>, key: T -> int, bound: int)
    requires UniqueBy(s, key) && UniqueBy(r, key)
    requires forall x :: x in s ==> key(x) < bound
    requires forall j :: 0 <= j < |r| ==> key(r[j]) >= bound
    ensures UniqueBy(s + r, key)
  {
    var c := s + r;
    forall i, j | 0 <= i < j < |c| ensures key(c[i]) != key(c[j]) {
      if j < |s| {
        assert c[i] == s[i] && c[j] == s[j];
      } else if i < |s| {
        assert c[i] == s[i] && s[i] in s && c[j] == r[j - |s|];
      } else {
        assert c[i] == r[i - |s|] && c[j] == r[j - |s|];
      }
    }
  }

  /** Records numbered `start`, `start + 1`, … have unique ids, all at least `start`. */
  lemma Consecutive<T>(r: seq<T>, key: T -> int, start: int)
    requires forall j :: 0 <= j < |r| ==> key(r[j]) == start + j
    ensures UniqueBy(r, key)
    ensures forall j :: 0 <= j < |r| ==> key(r[j]) >= start
  {
  }

  // ---------------------------------------------------------------- appends

  /** `{ ...attrs, CreatedAt: now, UpdatedAt: now }`. */
  function Stamped(a: Attrs, now: string): Attrs {
    a["CreatedAt" := VStr(now)]["UpdatedAt" := VStr(now)]
  }

  /** `IsActive: c.IsActive ?? true`. */
  function Activated(c: Attrs): (a: Attrs)
    ensures a.Keys == c.Keys + {"IsActive"}
    ensures Prop(c, "IsActive").VNull? || Prop(c, "IsActive").VUndefined? ==> a["IsActive"] == VBool(true)
    ensures !(Prop(c, "IsActive").VNull? || Prop(c, "IsActive").VUndefined?) ==> a["IsActive"] == c["IsActive"]
    ensures forall k :: k in c && k != "IsActive" ==> a[k] == c[k]
  {
    var v := Prop(c, "IsActive");
    c["IsActive" := if v.VNull? || v.VUndefined? then VBool(true) else v]
  }

  /** The contacts `addPerson` appends: consecutive ids from `start`, all tagged with the
      new person's id. */
  function NewContacts(cs: seq<Attrs>, start: int, personId: int): (r: seq<Contact>)
    ensures |r| == |cs|
    ensures forall j :: 0 <= j < |cs| ==> r[j] == Contact(start + j, personId, Activated(cs[j]))
  {
    seq(|cs|, j requires 0 <= j < |cs| => Contact(start + j, personId, Activated(cs[j])))
  }

  /** The person links `addCase` appends: consecutive ids from `start`, all tagged with
      the new case's id; missing or empty details become `null`. */
  function NewLinks(inv: seq<Involvement>, start: int, caseId: int): (r: seq<CasePerson>)
    ensures |r| == |inv|
    ensures forall j :: 0 <= j < |inv| ==>
      r[j] == CasePerson(start + j, inv[j].personId, caseId, inv[j].role,
                         if Truthy(inv[j].details) then inv[j].details else VNull)
  {
    seq(|inv|, j requires 0 <= j < |inv| =>
      CasePerson(start + j, inv[j].personId, caseId, inv[j].role,
                 if Truthy(inv[j].details) then inv[j].details else VNull))
  }

  /** The seizures `addCase` appends: consecutive ids from `start`, all moved to the new
      case. */
  function NewSeizures(ss: seq<Seizure>, start: int, caseId: int): (r: seq<Seizure>)
    ensures |r| == |ss|
    ensures forall j :: 0 <= j < |ss| ==> r[j] == ss[j].(SeizureID := start + j, CaseID := caseId)
  {
    seq(|ss|, j requires 0 <= j < |ss| => ss[j].(SeizureID := start + j, CaseID := caseId))
  }

  function AddPersonTo(t: Tables, person: Attrs, contacts: seq<Attrs>, now: string): Tables {
    var id := NextPersonId(t);
    t.(persons := t.persons + [Person(id, Stamped(person, now))],
       personContacts := t.personContacts + NewContacts(contacts, NextContactId(t), id))
  }

  function AddContactTo(t: Tables, personId: int, contact: Attrs): Tables {
    t.(personContacts := t.personContacts + [Contact(NextContactId(t), personId, Activated(contact))])
  }

  function AddLocationTo(t: Tables, location: Attrs, now: string): Tables {
    t.(locations := t.locations + [Location(NextLocationId(t), Stamped(location, now))])
  }

  function AddCaseTo(t: Tables, caseData: Attrs, inv: seq<Involvement>, seizures: seq<Seizure>, now: string): Tables {
    var id := NextCaseId(t);
    t.(cases := t.cases + [Case(id, Stamped(caseData, now))],
       personCases := t.personCases + NewLinks(inv, NextCasePersonId(t), id),
       drugSeizures := t.drugSeizures + NewSeizures(seizures, NextSeizureId(t), id))
  }

  function AddSeizureTo(t: Tables, seizure: Seizure): Tables {
    t.(drugSeizures := t.drugSeizures + [seizure.(SeizureID := NextSeizureId(t))])
  }

  function AddConnectionTo(t: Tables, connection: Relationship): Tables {
    t.(personNetwork := t.personNetwork + [connection.(RelationshipID := NextRelationshipId(t))])
  }

  /** `addPerson` appends exactly one person, with the fresh id, and its contacts with
      fresh consecutive ids; the ids stay unique. */
  lemma AddPersonKeepsIdsUnique(t: Tables, person: Attrs, contacts: seq<Attrs>, now: string)
    requires UniqueIds(t)
    ensures UniqueIds(AddPersonTo(t, person, contacts, now))
    ensures forall p :: p in t.persons ==> p.PersonID < NextPersonId(t)
    ensures forall c :: c in t.personContacts ==> c.ContactID < NextContactId(t)
  {
    NextIdsAreFresh(t);
    var id := NextPersonId(t);
    var p := [Person(id, Stamped(person, now))];
    AppendFresh(t.persons, p, PersonKey, id);
    var cs := NewContacts(contacts, NextContactId(t), id);
    Consecutive(cs, ContactKey, NextContactId(t));
    AppendFresh(t.personContacts, cs, ContactKey, NextContactId(t));
  }

  /** `addLocation` appends one location with the fresh id, stamped with the creation
      time; the ids stay unique. */
  lemma AddLocationKeepsIdsUnique(t: Tables, location: Attrs, now: string)
    requires UniqueIds(t)
    ensures UniqueIds(AddLocationTo(t, location, now))
    ensures forall l :: l in t.locations ==> l.LocationID < NextLocationId(t)
  {
    NextIdsAreFresh(t);
    AppendFresh(t.locations, [Location(NextLocationId(t), Stamped(location, now))], LocationKey, NextLocationId(t));
  }

  /** `addCase` appends one case with the fresh id, and links and seizures with fresh
      consecutive ids; the ids stay unique. */
  lemma AddCaseKeepsIdsUnique(t: Tables, caseData: Attrs, inv: seq<Involvement>, seizures: seq<Seizure>, now: string)
    requires UniqueIds(t)
    ensures UniqueIds(AddCaseTo(t, caseData, inv, seizures, now))
  {
    NextIdsAreFresh(t);
    var id := NextCaseId(t);
    AppendFresh(t.cases, [Case(id, Stamped(caseData, now))], CaseKey, id);
    var links := NewLinks(inv, NextCasePersonId(t), id);
    Consecutive(links, CasePersonKey, NextCasePersonId(t));
    AppendFresh(t.personCases, links, CasePersonKey, NextCasePersonId(t));
    var ss := NewSeizures(seizures, NextSeizureId(t), id);
    Consecutive(ss, SeizureKey, NextSeizureId(t));
    AppendFresh(t.drugSeizures, ss, SeizureKey, NextSeizureId(t));
  }

  /** `addContact`, `addSeizure` and `addNetworkConnection` keep the ids unique. */
  lemma SingleAddsKeepIdsUnique(t: Tables, personId: int, contact: Attrs, seizure: Seizure, connection: Relationship)
    requires UniqueIds(t)
    ensures UniqueIds(AddContactTo(t, personId, contact))
    ensures UniqueIds(AddSeizureTo(t, seizure))
    ensures UniqueIds(AddConnectionTo(t, connection))
  {
    NextIdsAreFresh(t);
    AppendFresh(t.personContacts, [Contact(NextContactId(t), personId, Activated(contact))], ContactKey, NextContactId(t));
    AppendFresh(t.drugSeizures, [seizure.(SeizureID := NextSeizureId(t))], SeizureKey, NextSeizureId(t));
    AppendFresh(t.personNetwork, [connection.(RelationshipID := NextRelationshipId(t))], RelationshipKey, NextRelationshipId(t));
  }

  // ---------------------------------------------------------------- deletes

  function PersonIsNot(id: int): Person -> bool { (p: Person) => p.PersonID != id }
  function CaseIsNot(id: int): Case -> bool { (c: Case) => c.CaseID != id }
  function SeizureIsNot(id: int): Seizure -> bool { (s: Seizure) => s.SeizureID != id }
  function ContactIsNot(id: int): Contact -> bool { (c: Contact) => c.ContactID != id }
  function LinkNotToPerson(id: int): CasePerson -> bool { (pc: CasePerson) => pc.PersonID != id }
  function LinkNotToCase(id: int): CasePerson -> bool { (pc: CasePerson) => pc.CaseID != id }
  function SeizureNotInCase(id: int): Seizure -> bool { (s: Seizure) => s.CaseID != id }
  function ContactNotOfPerson(id: int): Contact -> bool { (c: Contact) => c.PersonID != id }
  function LocationNotOfPerson(id: int): PersonLocation -> bool { (pl: PersonLocation) => pl.PersonID != id }
  function NotAnEndpoint(id: int): Relationship -> bool { (r: Relationship) => r.Person1ID != id && r.Person2ID != id }
  function NotTheLink(a: int, b: int): Relationship -> bool { (r: Relationship) => !(r.Person1ID == a && r.Person2ID == b) }

  function DeletePersonFrom(t: Tables, id: int): Tables {
    t.(persons := Filter(t.persons, PersonIsNot(id)),
       personCases := Filter(t.personCases, LinkNotToPerson(id)),
       personNetwork := Filter(t.personNetwork, NotAnEndpoint(id)),
       personContacts := Filter(t.personContacts, ContactNotOfPerson(id)),
       personLocations := Filter(t.personLocations, LocationNotOfPerson(id)))
  }

  function DeleteCaseFrom(t: Tables, id: int): Tables {
    t.(cases := Filter(t.cases, CaseIsNot(id)),
       personCases := Filter(t.personCases, LinkNotToCase(id)),
       drugSeizures := Filter(t.drugSeizures, SeizureNotInCase(id)))
  }

  function DeleteSeizureFrom(t: Tables, id: int): Tables {
    t.(drugSeizures := Filter(t.drugSeizures, SeizureIsNot(id)))
  }

  function DeleteContactFrom(t: Tables, id: int): Tables {
    t.(personContacts := Filter(t.personContacts, ContactIsNot(id)))
  }

  function DeleteConnectionFrom(t: Tables, a: int, b: int): Tables {
    t.(personNetwork := Filter(t.personNetwork, NotTheLink(a, b)))
  }

  /** After `deletePerson(id)` no person, case link, contact or person location carries
      the id and no network link has it at either end; every other record of those
      tables is kept, in order; the ids stay unique. */
  lemma DeletePersonCascades(t: Tables, id: int)
    ensures var d := DeletePersonFrom(t, id);
      && (forall p :: p in d.persons ==> p.PersonID != id)
      && (forall pc :: pc in d.personCases ==> pc.PersonID != id)
      && (forall r :: r in d.personNetwork ==> r.Person1ID != id && r.Person2ID != id)
      && (forall c :: c in d.personContacts ==> c.PersonID != id)
      && (forall pl :: pl in d.personLocations ==> pl.PersonID != id)
    ensures var d := DeletePersonFrom(t, id);
      && (forall p :: p in t.persons && p.PersonID != id ==> p in d.persons)
      && (forall pc :: pc in t.personCases && pc.PersonID != id ==> pc in d.personCases)
      && (forall r :: r in t.personNetwork && r.Person1ID != id && r.Person2ID != id ==> r in d.personNetwork)
      && (forall c :: c in t.personContacts && c.PersonID != id ==> c in d.personContacts)
      && (forall pl :: pl in t.personLocations && pl.PersonID != id ==> pl in d.personLocations)
    ensures var d := DeletePersonFrom(t, id);
      IsSubsequence(d.persons, t.persons) && IsSubsequence(d.personNetwork, t.personNetwork)
    ensures var d := DeletePersonFrom(t, id);
      && IsSubsequence(d.personCases, t.personCases)
      && IsSubsequence(d.personContacts, t.personContacts)
      && IsSubsequence(d.personLocations, t.personLocations)
  {
    var d := DeletePersonFrom(t, id);
    forall p | p in d.persons ensures p.PersonID != id {
      assert PersonIsNot(id)(p);
    }
    forall pc | pc in d.personCases ensures pc.PersonID != id {
      assert LinkNotToPerson(id)(pc);
    }
    forall r | r in d.personNetwork ensures r.Person1ID != id && r.Person2ID != id {
      assert NotAnEndpoint(id)(r);
    }
    forall c | c in d.personContacts ensures c.PersonID != id {
      assert ContactNotOfPerson(id)(c);
    }
    forall pl | pl in d.personLocations ensures pl.PersonID != id {
      assert LocationNotOfPerson(id)(pl);
    }
  }

  lemma DeletePersonKeepsIdsUnique(t: Tables, id: int)
    requires UniqueIds(t)
    ensures UniqueIds(DeletePersonFrom(t, id))
  {
    FilterKeepsUnique(t.persons, PersonIsNot(id), PersonKey);
    FilterKeepsUnique(t.personCases, LinkNotToPerson(id), CasePersonKey);
    FilterKeepsUnique(t.personNetwork, NotAnEndpoint(id), RelationshipKey);
    FilterKeepsUnique(t.personContacts, ContactNotOfPerson(id), ContactKey);
  }

  /** `deleteCase(id)` removes the case and exactly the links and seizures of that
      case; the ids stay unique. */
  lemma DeleteCaseCascades(t: Tables, id: int)
    ensures var d := DeleteCaseFrom(t, id);
      && (forall c :: c in d.cases <==> c in t.cases && c.CaseID != id)
      && (forall pc :: pc in d.personCases <==> pc in t.personCases && pc.CaseID != id)
      && (forall s :: s in d.drugSeizures <==> s in t.drugSeizures && s.CaseID != id)
    ensures var d := DeleteCaseFrom(t, id);
      IsSubsequence(d.cases, t.cases) && IsSubsequence(d.personCases, t.personCases) &&
      IsSubsequence(d.drugSeizures, t.drugSeizures)
  {
    var d := DeleteCaseFrom(t, id);
    forall c | c in d.cases ensures c.CaseID != id {
      assert CaseIsNot(id)(c);
    }
    forall pc | pc in d.personCases ensures pc.CaseID != id {
      assert LinkNotToCase(id)(pc);
    }
    forall s | s in d.drugSeizures ensures s.CaseID != id {
      assert SeizureNotInCase(id)(s);
    }
  }

  lemma DeleteCaseKeepsIdsUnique(t: Tables, id: int)
    requires UniqueIds(t)
    ensures UniqueIds(DeleteCaseFrom(t, id))
  {
    FilterKeepsUnique(t.cases, CaseIsNot(id), CaseKey);
    FilterKeepsUnique(t.personCases, LinkNotToCase(id), CasePersonKey);
    FilterKeepsUnique(t.drugSeizures, SeizureNotInCase(id), SeizureKey);
  }

  /** `deleteSeizure` and `deleteContact` remove exactly the record with that id. */
  lemma DeleteOneRemovesExactly(t: Tables, id: int)
    ensures forall s :: s in DeleteSeizureFrom(t, id).drugSeizures <==> s in t.drugSeizures && s.SeizureID != id
    ensures forall c :: c in DeleteContactFrom(t, id).personContacts <==> c in t.personContacts && c.ContactID != id
    ensures UniqueIds(t) ==> UniqueIds(DeleteSeizureFrom(t, id)) && UniqueIds(DeleteContactFrom(t, id))
  {
    forall s | s in DeleteSeizureFrom(t, id).drugSeizures ensures s.SeizureID != id {
      assert SeizureIsNot(id)(s);
    }
    forall c | c in DeleteContactFrom(t, id).personContacts ensures c.ContactID != id {
      assert ContactIsNot(id)(c);
    }
    if UniqueIds(t) {
      FilterKeepsUnique(t.drugSeizures, SeizureIsNot(id), SeizureKey);
      FilterKeepsUnique(t.personContacts, ContactIsNot(id), ContactKey);
    }
  }

  /** `deleteNetworkConnection(a, b)` removes exactly the links from `a` to `b`; a link
      in the other direction, from `b` to `a`, survives. */
  lemma DeleteConnectionIsDirected(t: Tables, a: int, b: int)
    ensures forall r :: r in DeleteConnectionFrom(t, a, b).personNetwork <==>
      r in t.personNetwork && !(r.Person1ID == a && r.Person2ID == b)
    ensures a != b ==> forall r :: r in t.personNetwork && r.Person1ID == b && r.Person2ID == a ==>
      r in DeleteConnectionFrom(t, a, b).personNetwork
    ensures UniqueIds(t) ==> UniqueIds(DeleteConnectionFrom(t, a, b))
  {
    forall r | r in DeleteConnectionFrom(t, a, b).personNetwork ensures !(r.Person1ID == a && r.Person2ID == b) {
      assert NotTheLink(a, b)(r);
    }
    if UniqueIds(t) {
      FilterKeepsUnique(t.personNetwork, NotTheLink(a, b), RelationshipKey);
    }
  }

  // ---------------------------------------------------------------- updates

  /** `{ ...attrs, ...updates, UpdatedAt: now }`. */
  function Touched(a: Attrs, updates: Attrs, now: string): Attrs {
    (a + updates)["UpdatedAt" := VStr(now)]
  }

  function PersonIs(id: int): Person -> bool { (p: Person) => p.PersonID == id }
  function CaseIs(id: int): Case -> bool { (c: Case) => c.CaseID == id }
  function LocationIs(id: int): Location -> bool { (l: Location) => l.LocationID == id }
  function ContactIs(id: int): Contact -> bool { (c: Contact) => c.ContactID == id }

  function TouchPerson(updates: Attrs, now: string): Person -> Person { (p: Person) => p.(attrs := Touched(p.attrs, updates, now)) }
  function TouchCase(updates: Attrs, now: string): Case -> Case { (c: Case) => c.(attrs := Touched(c.attrs, updates, now)) }
  function TouchLocation(updates: Attrs, now: string): Location -> Location { (l: Location) => l.(attrs := Touched(l.attrs, updates, now)) }
  function MergeContact(updates: Attrs): Contact -> Contact { (c: Contact) => c.(attrs := c.attrs + updates) }

  function UpdatePersonIn(t: Tables, id: int, updates: Attrs, now: string): Tables {
    t.(persons := MapWhere(t.persons, PersonIs(id), TouchPerson(updates, now)))
  }

  function UpdateCaseIn(t: Tables, id: int, updates: Attrs, now: string): Tables {
    t.(cases := MapWhere(t.cases, CaseIs(id), TouchCase(updates, now)))
  }

  function UpdateLocationIn(t: Tables, id: int, updates: Attrs, now: string): Tables {
    t.(locations := MapWhere(t.locations, LocationIs(id), TouchLocation(updates, now)))
  }

  function UpdateContactIn(t: Tables, id: int, updates: Attrs): Tables {
    t.(personContacts := MapWhere(t.personContacts, ContactIs(id), MergeContact(updates)))
  }

  /** `updatePerson` changes only the person with that id: the list keeps its length,
      every other person is unchanged, the matching one gets the updates and a new
      `UpdatedAt`, and the ids stay unique. */
  lemma UpdatePersonOnlyTarget(t: Tables, id: int, updates: Attrs, now: string)
    ensures var u := UpdatePersonIn(t, id, updates, now).persons;
      |u| == |t.persons| &&
      forall i :: 0 <= i < |u| ==>
        u[i].PersonID == t.persons[i].PersonID &&
        (t.persons[i].PersonID != id ==> u[i] == t.persons[i]) &&
        (t.persons[i].PersonID == id ==> u[i].attrs == Touched(t.persons[i].attrs, updates, now))
    ensures UniqueIds(t) ==> UniqueIds(UpdatePersonIn(t, id, updates, now))
  {
    if UniqueIds(t) {
      MapWhereKeepsUnique(t.persons, PersonIs(id), TouchPerson(updates, now), PersonKey);
    }
  }

  /** `updateCase` changes only the case with that id. */
  lemma UpdateCaseOnlyTarget(t: Tables, id: int, updates: Attrs, now: string)
    ensures var u := UpdateCaseIn(t, id, updates, now).cases;
      |u| == |t.cases| &&
      forall i :: 0 <= i < |u| ==>
        u[i].CaseID == t.cases[i].CaseID &&
        (t.cases[i].CaseID != id ==> u[i] == t.cases[i]) &&
        (t.cases[i].CaseID == id ==> u[i].attrs == Touched(t.cases[i].attrs, updates, now))
    ensures UniqueIds(t) ==> UniqueIds(UpdateCaseIn(t, id, updates, now))
  {
    if UniqueIds(t) {
      MapWhereKeepsUnique(t.cases, CaseIs(id), TouchCase(updates, now), CaseKey);
    }
  }

  /** `updateLocation` changes only the location with that id. */
  lemma UpdateLocationOnlyTarget(t: Tables, id: int, updates: Attrs, now: string)
    ensures var u := UpdateLocationIn(t, id, updates, now).locations;
      |u| == |t.locations| &&
      forall i :: 0 <= i < |u| ==>
        u[i].LocationID == t.locations[i].LocationID &&
        (t.locations[i].LocationID != id ==> u[i] == t.locations[i]) &&
        (t.locations[i].LocationID == id ==> u[i].attrs == Touched(t.locations[i].attrs, updates, now))
    ensures UniqueIds(t) ==> UniqueIds(UpdateLocationIn(t, id, updates, now))
  {
    if UniqueIds(t) {
      MapWhereKeepsUnique(t.locations, LocationIs(id), TouchLocation(updates, now), LocationKey);
    }
  }

  /** `updateContact` changes only the contact with that id, and sets no timestamp. */
  lemma UpdateContactOnlyTarget(t: Tables, id: int, updates: Attrs)
    ensures var u := UpdateContactIn(t, id, updates).personContacts;
      |u| == |t.personContacts| &&
      forall i :: 0 <= i < |u| ==>
        u[i].ContactID == t.personContacts[i].ContactID &&
        u[i].PersonID == t.personContacts[i].PersonID &&
        (t.personContacts[i].ContactID != id ==> u[i] == t.personContacts[i]) &&
        (t.personContacts[i].ContactID == id ==> u[i].attrs == t.personContacts[i].attrs + updates)
    ensures UniqueIds(t) ==> UniqueIds(UpdateContactIn(t, id, updates))
  {
    if UniqueIds(t) {
      MapWhereKeepsUnique(t.personContacts, ContactIs(id), MergeContact(updates), ContactKey);
    }
  }

  // ---------------------------------------------------------------- queries

  function LinkOfPerson(id: int): CasePerson -> bool { (pc: CasePerson) => pc.PersonID == id }

  function CaseIdsOf(links: seq<CasePerson>): (ids: seq<int>)
    ensures forall k :: k in ids <==> exists pc :: pc in links && pc.CaseID == k
  {
    var ids := seq(|links|, i requires 0 <= i < |links| => links[i].CaseID);
    assert forall pc :: pc in links ==> pc.CaseID in ids by {
      forall pc | pc in links ensures pc.CaseID in ids {
        var i :| 0 <= i < |links| && links[i] == pc;
        assert ids[i] == pc.CaseID;
      }
    }
    ids
  }

  function CaseAmong(ids: seq<int>): Case -> bool { (c: Case) => c.CaseID in ids }

  /** `getCasesForPerson`: the cases, in table order, that some link ties to the
      person. */
  function CasesForPerson(t: Tables, personId: int): (r: seq<Case>)
    ensures IsSubsequence(r, t.cases)
    ensures forall c :: c in r <==>
      c in t.cases && exists pc :: pc in t.personCases && pc.PersonID == personId && pc.CaseID == c.CaseID
  {
    var links := Filter(t.personCases, LinkOfPerson(personId));
    assert forall pc :: pc in links <==> pc in t.personCases && pc.PersonID == personId;
    Filter(t.cases, CaseAmong(CaseIdsOf(links)))
  }

  datatype Connections = Connections(subordinates: seq<Relationship>, superiors: seq<Relationship>)

  function FromPerson(id: int): Relationship -> bool { (r: Relationship) => r.Person1ID == id }
  function ToPerson(id: int): Relationship -> bool { (r: Relationship) => r.Person2ID == id }

  /** `getNetworkConnections`: the links that start at the person, and those that end
      at it, each in table order. */
  function NetworkConnections(t: Tables, personId: int): (c: Connections)
    ensures forall r :: r in c.subordinates <==> r in t.personNetwork && r.Person1ID == personId
    ensures forall r :: r in c.superiors <==> r in t.personNetwork && r.Person2ID == personId
    ensures IsSubsequence(c.subordinates, t.personNetwork) && IsSubsequence(c.superiors, t.personNetwork)
  {
    Connections(Filter(t.personNetwork, FromPerson(personId)), Filter(t.personNetwork, ToPerson(personId)))
  }

  // ---------------------------------------------------------------- statistics

  datatype DrugStat = DrugStat(drugType: string, totalQuantity: real, unit: Val, count: nat, totalValue: real)

  datatype Stats = Stats(activeCases: nat, totalArrests: nat, totalSuspects: nat, totalCases: nat, drugStats: seq<DrugStat>)

  /** `s.EstimatedValue || 0` for a numeric or missing value. */
  function ValueOrZero(v: Val): real {
    if v.VNum? then v.x else 0.0
  }

  /** The position of the entry for `key`, or `|acc|` when there is none. */
  function IndexOfType(acc: seq<DrugStat>, key: string): (k: nat)
    ensures k <= |acc|
    ensures k < |acc| ==> acc[k].drugType == key
    ensures k == |acc| ==> forall j :: 0 <= j < |acc| ==> acc[j].drugType != key
  {
    if acc == [] then 0
    else if acc[0].drugType == key then 0
    else 1 + IndexOfType(acc[1..], key)
  }

  /** One seizure added into an entry. */
  function Accumulate(e: DrugStat, s: Seizure): DrugStat {
    e.(totalQuantity := e.totalQuantity + s.Quantity, count := e.count + 1,
       totalValue := e.totalValue + ValueOrZero(s.EstimatedValue))
  }

  /** One step of the reduction over an accumulator without inherited keys: the entry
      for the seizure's drug type is created on first sight, then updated. */
  function StatStep(acc: seq<DrugStat>, s: Seizure): seq<DrugStat> {
    var k := IndexOfType(acc, s.DrugType);
    if k < |acc| then acc[k := Accumulate(acc[k], s)]
    else acc + [Accumulate(DrugStat(s.DrugType, 0.0, s.Unit, 0, 0.0), s)]
  }

  /** The `drugStats` entries, in order of first appearance. */
  function DrugStats(ss: seq<Seizure>): seq<DrugStat> {
    if ss == [] then [] else StatStep(DrugStats(ss[..|ss| - 1]), ss[|ss| - 1])
  }

  /** The keys a plain JavaScript object `{}` already answers through its prototype. */
  const INHERITED_KEYS: set<string> := {
    "constructor", "hasOwnProperty", "isPrototypeOf", "propertyIsEnumerable",
    "toString", "toLocaleString", "valueOf", "__proto__",
    "__defineGetter__", "__defineSetter__", "__lookupGetter__", "__lookupSetter__"}

  /** The reduction as written over `{}`: for an inherited key `!acc[key]` is false, so
      no entry is created and the update lands on the inherited member, which
      `Object.values` does not list. */
  function StatStepAsWritten(acc: seq<DrugStat>, s: Seizure): seq<DrugStat> {
    if s.DrugType in INHERITED_KEYS then acc else StatStep(acc, s)
  }

  function DrugStatsAsWritten(ss: seq<Seizure>): seq<DrugStat> {
    if ss == [] then [] else StatStepAsWritten(DrugStatsAsWritten(ss[..|ss| - 1]), ss[|ss| - 1])
  }

  function SumCounts(es: seq<DrugStat>): nat {
    if es == [] then 0 else SumCounts(es[..|es| - 1]) + es[|es| - 1].count
  }

  function OfType(key: string): Seizure -> bool { (s: Seizure) => s.DrugType == key }

  /** A seizure whose drug type is an inherited key is missing from the as-written
      statistics: one seizure of type "constructor" yields no entry at all, so the
      counts add up to 0 instead of 1 (compare `DrugStatsPartition`). */
  lemma InheritedKeyDropsSeizure()
    ensures var ss := [Seizure(1, 1, "constructor", 2.0, VStr("kg"), VNull, map[])];
      DrugStatsAsWritten(ss) == [] && SumCounts(DrugStatsAsWritten(ss)) == 0 != |ss|
  {
    var s := Seizure(1, 1, "constructor", 2.0, VStr("kg"), VNull, map[]);
    assert [s][..0] == [];
    assert "constructor" in INHERITED_KEYS;
  }

  /** No two entries share a drug type. */
  predicate DistinctTypes(es: seq<DrugStat>) {
    forall i, j :: 0 <= i < j < |es| ==> es[i].drugType != es[j].drugType
  }

  /** Adding one to an entry's count adds one to the total. */
  lemma {:induction false} SumCountsBump(es: seq<DrugStat>, k: nat, e: DrugStat)
    requires k < |es| && e.count == es[k].count + 1
    ensures SumCounts(es[k := e]) == SumCounts(es) + 1
  {
    var u := es[k := e];
    if k == |es| - 1 {
      assert u[..|u| - 1] == es[..|es| - 1];
    } else {
      assert u[..|u| - 1] == es[..|es| - 1][k := e];
      SumCountsBump(es[..|es| - 1], k, e);
    }
  }

  /** One step of the reduction: the entry of the seizure's type gains one, a new entry
      with count 1 is appended when there was none, every other entry keeps its type and
      count, and the total count grows by one. */
  lemma StatStepEffect(acc: seq<DrugStat>, s: Seizure)
    requires DistinctTypes(acc)
    ensures var es := StatStep(acc, s);
      && DistinctTypes(es)
      && |acc| <= |es| <= |acc| + 1
      && (forall i :: 0 <= i < |acc| ==> es[i].drugType == acc[i].drugType)
      && (forall i :: 0 <= i < |acc| ==>
            es[i].count == acc[i].count + (if acc[i].drugType == s.DrugType then 1 else 0))
      && (|es| > |acc| ==>
            && es[|acc|].drugType == s.DrugType && es[|acc|].count == 1
            && forall i :: 0 <= i < |acc| ==> acc[i].drugType != s.DrugType)
      && (exists i :: 0 <= i < |es| && es[i].drugType == s.DrugType)
      && SumCounts(es) == SumCounts(acc) + 1
  {
    var es := StatStep(acc, s);
    var k := IndexOfType(acc, s.DrugType);
    if k < |acc| {
      SumCountsBump(acc, k, Accumulate(acc[k], s));
      assert es[k].drugType == s.DrugType;
    } else {
      assert es[..|es| - 1] == acc;
      assert es[|acc|].drugType == s.DrugType;
    }
  }

  /** The seizures of `init` followed by `s` that have type `t`. */
  lemma CountSnoc(init: seq<Seizure>, s: Seizure, t: string)
    ensures Count(init + [s], OfType(t)) == Count(init, OfType(t)) + (if s.DrugType == t then 1 else 0)
  {
    CountAppend(init, [s], OfType(t));
    assert [s][1..] == [];
  }

  /** The corrected statistics have one entry per drug type, each counting exactly the
      seizures of its type, every seizure's type has an entry, and the counts add up to
      the number of seizures. */
  lemma {:induction false} DrugStatsPartition(ss: seq<Seizure>)
    ensures DistinctTypes(DrugStats(ss))
    ensures var es := DrugStats(ss);
      forall i :: 0 <= i < |es| ==> es[i].count == Count(ss, OfType(es[i].drugType))
    ensures forall x :: x in ss ==> exists i :: 0 <= i < |DrugStats(ss)| && DrugStats(ss)[i].drugType == x.DrugType
    ensures SumCounts(DrugStats(ss)) == |ss|
  {
    if ss != [] {
      var init, s := ss[..|ss| - 1], ss[|ss| - 1];
      assert ss == init + [s];
      DrugStatsPartition(init);
      var acc := DrugStats(init);
      var es := DrugStats(ss);
      assert es == StatStep(acc, s);
      StatStepEffect(acc, s);
      forall i | 0 <= i < |es| ensures es[i].count == Count(ss, OfType(es[i].drugType)) {
        CountSnoc(init, s, es[i].drugType);
        if i == |acc| {
          NoEntryNoSeizure(init, acc, s.DrugType);
        }
      }
      forall x | x in ss ensures exists i :: 0 <= i < |es| && es[i].drugType == x.DrugType {
        if x in init {
          var i :| 0 <= i < |acc| && acc[i].drugType == x.DrugType;
          assert es[i].drugType == x.DrugType;
        }
      }
    }
  }

  /** A type without an entry has no seizures, when every seizure's type has one. */
  lemma NoEntryNoSeizure(init: seq<Seizure>, acc: seq<DrugStat>, t: string)
    requires forall x :: x in init ==> exists i :: 0 <= i < |acc| && acc[i].drugType == x.DrugType
    requires forall i :: 0 <= i < |acc| ==> acc[i].drugType != t
    ensures Count(init, OfType(t)) == 0
  {
    CountExtremes(init, OfType(t));
  }

  /** The quantities of the seizures of type `t`, added up in order. */
  function QuantityOfType(ss: seq<Seizure>, t: string): real {
    if ss == [] then 0.0
    else
      var last := ss[|ss| - 1];
      QuantityOfType(ss[..|ss| - 1], t) + (if last.DrugType == t then last.Quantity else 0.0)
  }

  /** The estimated values of the seizures of type `t`, added up in order. */
  function ValueOfType(ss: seq<Seizure>, t: string): real {
    if ss == [] then 0.0
    else
      var last := ss[|ss| - 1];
      ValueOfType(ss[..|ss| - 1], t) + (if last.DrugType == t then ValueOrZero(last.EstimatedValue) else 0.0)
  }

  /** The position of the first seizure of type `t`, or `|ss|` when there is none. */
  function FirstOfType(ss: seq<Seizure>, t: string): (k: nat)
    ensures k <= |ss|
    ensures k < |ss| ==> ss[k].DrugType == t
    ensures forall j :: 0 <= j < k ==> ss[j].DrugType != t
  {
    if ss == [] then 0
    else if ss[0].DrugType == t then 0
    else 1 + FirstOfType(ss[1..], t)
  }

  /** Without seizures of type `t` both totals of that type are 0. */
  lemma {:induction false} NoneOfType(ss: seq<Seizure>, t: string)
    requires forall j :: 0 <= j < |ss| ==> ss[j].DrugType != t
    ensures QuantityOfType(ss, t) == 0.0 && ValueOfType(ss, t) == 0.0
  {
    if ss != [] {
      NoneOfType(ss[..|ss| - 1], t);
    }
  }

  /** One step of the reduction adds the seizure's quantity and value to the entry of its
      type only, keeps every entry's unit, and gives a new entry the seizure's own
      quantity, value and unit. */
  lemma StatStepTotals(acc: seq<DrugStat>, s: Seizure)
    requires DistinctTypes(acc)
    ensures var es := StatStep(acc, s);
      forall i :: 0 <= i < |acc| ==>
        && es[i].totalQuantity == acc[i].totalQuantity + (if acc[i].drugType == s.DrugType then s.Quantity else 0.0)
        && es[i].totalValue == acc[i].totalValue + (if acc[i].drugType == s.DrugType then ValueOrZero(s.EstimatedValue) else 0.0)
        && es[i].unit == acc[i].unit
    ensures var es := StatStep(acc, s);
      |es| > |acc| ==>
        es[|acc|].totalQuantity == s.Quantity && es[|acc|].totalValue == ValueOrZero(s.EstimatedValue)
        && es[|acc|].unit == s.Unit
  {
    var k := IndexOfType(acc, s.DrugType);
    if k < |acc| {
      assert forall i :: 0 <= i < |acc| && i != k ==> acc[i].drugType != s.DrugType;
    }
  }

  /** Appending a seizure adds its quantity and value to the totals of its own type only. */
  lemma TotalsSnoc(init: seq<Seizure>, s: Seizure, t: string)
    ensures QuantityOfType(init + [s], t) == QuantityOfType(init, t) + (if s.DrugType == t then s.Quantity else 0.0)
    ensures ValueOfType(init + [s], t) == ValueOfType(init, t) + (if s.DrugType == t then ValueOrZero(s.EstimatedValue) else 0.0)
  {
    assert (init + [s])[..|init|] == init;
  }

  /** The first seizure of a type that already occurs in `init` stays the first one when
      a seizure is appended; a type that does not occur first appears at the new seizure. */
  lemma FirstOfTypeSnoc(init: seq<Seizure>, s: Seizure, t: string)
    requires FirstOfType(init, t) < |init| || s.DrugType == t
    ensures FirstOfType(init, t) < |init| ==> FirstOfType(init + [s], t) == FirstOfType(init, t)
    ensures FirstOfType(init, t) == |init| ==> FirstOfType(init + [s], t) == |init|
  {
    var ss := init + [s];
    var b := FirstOfType(init, t);
    if b < |init| {
      assert ss[b] == init[b];
    } else {
      assert ss[|init|] == s;
      assert forall j :: 0 <= j < |init| ==> ss[j] == init[j];
    }
  }

  /** A type that has no entry has no seizure, when every seizure's type has an entry. */
  lemma AbsentType(init: seq<Seizure>, acc: seq<DrugStat>, t: string)
    requires forall x :: x in init ==> exists i :: 0 <= i < |acc| && acc[i].drugType == x.DrugType
    requires forall i :: 0 <= i < |acc| ==> acc[i].drugType != t
    ensures forall j :: 0 <= j < |init| ==> init[j].DrugType != t
  {
    forall j | 0 <= j < |init| ensures init[j].DrugType != t {
      assert init[j] in init;
    }
  }

  /** Each entry of the corrected statistics adds up the quantities and the values of the
      seizures of its type. */
  lemma {:induction false} DrugStatsTotals(ss: seq<Seizure>)
    ensures var es := DrugStats(ss);
      forall i :: 0 <= i < |es| ==>
        && es[i].totalQuantity == QuantityOfType(ss, es[i].drugType)
        && es[i].totalValue == ValueOfType(ss, es[i].drugType)
  {
    if ss != [] {
      var init, s := ss[..|ss| - 1], ss[|ss| - 1];
      assert ss == init + [s];
      DrugStatsTotals(init);
      DrugStatsPartition(init);
      var acc := DrugStats(init);
      var es := DrugStats(ss);
      assert es == StatStep(acc, s);
      StatStepEffect(acc, s);
      StatStepTotals(acc, s);
      forall i | 0 <= i < |es|
        ensures es[i].totalQuantity == QuantityOfType(ss, es[i].drugType)
        ensures es[i].totalValue == ValueOfType(ss, es[i].drugType)
      {
        var t := es[i].drugType;
        TotalsSnoc(init, s, t);
        if i == |acc| {
          AbsentType(init, acc, t);
          NoneOfType(init, t);
        }
      }
    }
  }

  /** Each entry of the corrected statistics carries the unit of the first seizure of its
      type. */
  lemma {:induction false} DrugStatsUnits(ss: seq<Seizure>)
    ensures var es := DrugStats(ss);
      forall i :: 0 <= i < |es| ==>
        FirstOfType(ss, es[i].drugType) < |ss| && es[i].unit == ss[FirstOfType(ss, es[i].drugType)].Unit
  {
    if ss != [] {
      var init, s := ss[..|ss| - 1], ss[|ss| - 1];
      assert ss == init + [s];
      DrugStatsUnits(init);
      DrugStatsPartition(init);
      var acc := DrugStats(init);
      var es := DrugStats(ss);
      assert es == StatStep(acc, s);
      StatStepEffect(acc, s);
      StatStepTotals(acc, s);
      forall i | 0 <= i < |es|
        ensures FirstOfType(ss, es[i].drugType) < |ss| && es[i].unit == ss[FirstOfType(ss, es[i].drugType)].Unit
      {
        var t := es[i].drugType;
        if i == |acc| {
          AbsentType(init, acc, t);
          FirstOfTypeSnoc(init, s, t);
          assert ss[|init|] == s;
        } else {
          FirstOfTypeSnoc(init, s, t);
          assert ss[FirstOfType(init, t)] == init[FirstOfType(init, t)];
        }
      }
    }
  }

  predicate UnderInvestigation(c: Case) { Prop(c.attrs, "Status") == VStr("Under Investigation") }
  predicate Arrested(p: Person) { Prop(p.attrs, "Status") == VStr("Arrested") }
  predicate SuspectOrActive(p: Person) { Prop(p.attrs, "Status") == VStr("Suspect") || Prop(p.attrs, "Status") == VStr("Active") }
  predicate Tracked(p: Person) { Arrested(p) || SuspectOrActive(p) }

  /** `getStats`, with the drug statistics of the corrected reduction. */
  function GetStats(t: Tables): Stats {
    Stats(Count(t.cases, UnderInvestigation), Count(t.persons, Arrested), Count(t.persons, SuspectOrActive),
          |t.cases|, DrugStats(t.drugSeizures))
  }

  /** The counters are bounded by their tables: active cases by all cases, arrests and
      suspects together by all persons (no person is both), and the drug counts add up
      to the number of seizures. */
  lemma StatsBounds(t: Tables)
    ensures GetStats(t).activeCases <= GetStats(t).totalCases == |t.cases|
    ensures GetStats(t).totalArrests + GetStats(t).totalSuspects <= |t.persons|
    ensures SumCounts(GetStats(t).drugStats) == |t.drugSeizures|
  {
    CountSplit(t.persons, Tracked, Arrested, SuspectOrActive);
    DrugStatsPartition(t.drugSeizures);
  }

  // ---------------------------------------------------------------- the store

  /** The data store with its tables as fields. Only the local mode is modelled; the
      tables it is reset to are fixed when it is created. */
  class DataStore {
    var persons: seq<Person>
    var cases: seq<Case>
    var drugSeizures: seq<Seizure>
    var locations: seq<Location>
    var personCases: seq<CasePerson>
    var personNetwork: seq<Relationship>
    var personContacts: seq<Contact>
    var personLocations: seq<PersonLocation>
    var lastError: Option<string>
    const initial: Tables

    function State(): Tables
      reads this
    {
      Tables(persons, cases, drugSeizures, locations, personCases, personNetwork, personContacts, personLocations)
    }

    ghost predicate Valid()
      reads this
    {
      UniqueIds(State()) && UniqueIds(initial)
    }

    constructor (init: Tables)
      requires UniqueIds(init)
      ensures Valid() && State() == init && initial == init && lastError.None?
    {
      persons, cases, drugSeizures, locations := init.persons, init.cases, init.drugSeizures, init.locations;
      personCases, personNetwork := init.personCases, init.personNetwork;
      personContacts, personLocations := init.personContacts, init.personLocations;
      lastError := None;
      initial := init;
    }

    /** `set`: the tables are replaced by `next` in one step. */
    method Commit(next: Tables)
      requires UniqueIds(next) && UniqueIds(initial)
      modifies this
      ensures Valid() && State() == next && lastError == old(lastError)
    {
      persons, cases, drugSeizures, locations := next.persons, next.cases, next.drugSeizures, next.locations;
      personCases, personNetwork := next.personCases, next.personNetwork;
      personContacts, personLocations := next.personContacts, next.personLocations;
    }

    method AddPerson(person: Attrs, contacts: seq<Attrs>, now: string) returns (newPersonId: int)
      requires Valid()
      modifies this
      ensures Valid() && lastError == old(lastError)
      ensures newPersonId == NextPersonId(old(State()))
      ensures State() == AddPersonTo(old(State()), person, contacts, now)
    {
      var t := State();
      AddPersonKeepsIdsUnique(t, person, contacts, now);
      newPersonId := NextPersonId(t);
      var newPerson := Person(newPersonId, Stamped(person, now));
      var newContacts := [];
      if |contacts| > 0 {
        newContacts := NumberContacts(contacts, NextContactId(t), newPersonId);
      }
      Commit(t.(persons := t.persons + [newPerson], personContacts := t.personContacts + newContacts));
    }

    method AddContact(personId: int, contact: Attrs) returns (newContactId: int)
      requires Valid()
      modifies this
      ensures Valid() && lastError == old(lastError)
      ensures newContactId == NextContactId(old(State()))
      ensures State() == AddContactTo(old(State()), personId, contact)
    {
      var t := State();
      SingleAddsKeepIdsUnique(t, personId, contact, Seizure(0, 0, "", 0.0, VNull, VNull, map[]), Relationship(0, 0, 0, map[]));
      newContactId := NextContactId(t);
      Commit(t.(personContacts := t.personContacts + [Contact(newContactId, personId, Activated(contact))]));
    }

    method AddLocation(location: Attrs, now: string) returns (newLocationId: int)
      requires Valid()
      modifies this
      ensures Valid() && lastError == old(lastError)
      ensures newLocationId == NextLocationId(old(State()))
      ensures State() == AddLocationTo(old(State()), location, now)
    {
      var t := State();
      AddLocationKeepsIdsUnique(t, location, now);
      newLocationId := NextLocationId(t);
      Commit(t.(locations := t.locations + [Location(newLocationId, Stamped(location, now))]));
    }

    method AddCase(caseData: Attrs, involved: seq<Involvement>, seizures: seq<Seizure>, now: string)
      returns (newCaseId: int)
      requires Valid()
      modifies this
      ensures Valid() && lastError == old(lastError)
      ensures newCaseId == NextCaseId(old(State()))
      ensures State() == AddCaseTo(old(State()), caseData, involved, seizures, now)
    {
      var t := State();
      AddCaseKeepsIdsUnique(t, caseData, involved, seizures, now);
      newCaseId := NextCaseId(t);
      var newCase := Case(newCaseId, Stamped(caseData, now));
      var newPersonCases := NumberLinks(involved, NextCasePersonId(t), newCaseId);
      var newSeizures := NumberSeizures(seizures, NextSeizureId(t), newCaseId);
      Commit(t.(cases := t.cases + [newCase],
                personCases := t.personCases + newPersonCases,
                drugSeizures := t.drugSeizures + newSeizures));
    }

    method AddSeizure(seizure: Seizure) returns (newSeizureId: int)
      requires Valid()
      modifies this
      ensures Valid() && lastError == old(lastError)
      ensures newSeizureId == NextSeizureId(old(State()))
      ensures State() == AddSeizureTo(old(State()), seizure)
    {
      var t := State();
      SingleAddsKeepIdsUnique(t, 0, map[], seizure, Relationship(0, 0, 0, map[]));
      newSeizureId := NextSeizureId(t);
      Commit(t.(drugSeizures := t.drugSeizures + [seizure.(SeizureID := newSeizureId)]));
    }

    method AddNetworkConnection(connection: Relationship) returns (newRelationshipId: int)
      requires Valid()
      modifies this
      ensures Valid() && lastError == old(lastError)
      ensures newRelationshipId == NextRelationshipId(old(State()))
      ensures State() == AddConnectionTo(old(State()), connection)
    {
      var t := State();
      SingleAddsKeepIdsUnique(t, 0, map[], Seizure(0, 0, "", 0.0, VNull, VNull, map[]), connection);
      newRelationshipId := NextRelationshipId(t);
      Commit(t.(personNetwork := t.personNetwork + [connection.(RelationshipID := newRelationshipId)]));
    }

    method DeletePerson(personId: int)
      requires Valid()
      modifies this
      ensures Valid() && lastError == old(lastError)
      ensures State() == DeletePersonFrom(old(State()), personId)
    {
      DeletePersonKeepsIdsUnique(State(), personId);
      Commit(DeletePersonFrom(State(), personId));
    }

    method DeleteCase(caseId: int)
      requires Valid()
      modifies this
      ensures Valid() && lastError == old(lastError)
      ensures State() == DeleteCaseFrom(old(State()), caseId)
    {
      DeleteCaseKeepsIdsUnique(State(), caseId);
      Commit(DeleteCaseFrom(State(), caseId));
    }

    method DeleteSeizure(seizureId: int)
      requires Valid()
      modifies this
      ensures Valid() && lastError == old(lastError)
      ensures State() == DeleteSeizureFrom(old(State()), seizureId)
    {
      DeleteOneRemovesExactly(State(), seizureId);
      Commit(DeleteSeizureFrom(State(), seizureId));
    }

    method DeleteContact(contactId: int)
      requires Valid()
      modifies this
      ensures Valid() && lastError == old(lastError)
      ensures State() == DeleteContactFrom(old(State()), contactId)
    {
      DeleteOneRemovesExactly(State(), contactId);
      Commit(DeleteContactFrom(State(), contactId));
    }

    method DeleteNetworkConnection(personAId: int, personBId: int)
      requires Valid()
      modifies this
      ensures Valid() && lastError == old(lastError)
      ensures State() == DeleteConnectionFrom(old(State()), personAId, personBId)
    {
      DeleteConnectionIsDirected(State(), personAId, personBId);
      Commit(DeleteConnectionFrom(State(), personAId, personBId));
    }

    method UpdatePerson(personId: int, updates: Attrs, now: string)
      requires Valid()
      modifies this
      ensures Valid() && lastError == old(lastError)
      ensures State() == UpdatePersonIn(old(State()), personId, updates, now)
    {
      UpdatePersonOnlyTarget(State(), personId, updates, now);
      Commit(UpdatePersonIn(State(), personId, updates, now));
    }

    method UpdateCase(caseId: int, updates: Attrs, now: string)
      requires Valid()
      modifies this
      ensures Valid() && lastError == old(lastError)
      ensures State() == UpdateCaseIn(old(State()), caseId, updates, now)
    {
      UpdateCaseOnlyTarget(State(), caseId, updates, now);
      Commit(UpdateCaseIn(State(), caseId, updates, now));
    }

    method UpdateLocation(locationId: int, updates: Attrs, now: string)
      requires Valid()
      modifies this
      ensures Valid() && lastError == old(lastError)
      ensures State() == UpdateLocationIn(old(State()), locationId, updates, now)
    {
      UpdateLocationOnlyTarget(State(), locationId, updates, now);
      Commit(UpdateLocationIn(State(), locationId, updates, now));
    }

    method UpdateContact(contactId: int, updates: Attrs)
      requires Valid()
      modifies this
      ensures Valid() && lastError == old(lastError)
      ensures State() == UpdateContactIn(old(State()), contactId, updates)
    {
      UpdateContactOnlyTarget(State(), contactId, updates);
      Commit(UpdateContactIn(State(), contactId, updates));
    }

    /** `resetData`: back to the initial tables, with the error cleared. */
    method ResetData()
      requires Valid()
      modifies this
      ensures Valid() && State() == initial && lastError.None?
    {
      Commit(initial);
      lastError := None;
    }
  }

  /** The `contactId++` numbering of `addPerson`'s contacts. */
  method NumberContacts(contacts: seq<Attrs>, start: int, personId: int) returns (r: seq<Contact>)
    ensures r == NewContacts(contacts, start, personId)
  {
    var contactId := start;
    r := [];
    for i := 0 to |contacts|
      invariant contactId == start + i
      invariant r == NewContacts(contacts[..i], start, personId)
    {
      r := r + [Contact(contactId, personId, Activated(contacts[i]))];
      contactId := contactId + 1;
    }
    assert contacts[..|contacts|] == contacts;
  }

  /** The `casePersonId++` numbering of `addCase`'s person links. */
  method NumberLinks(involved: seq<Involvement>, start: int, caseId: int) returns (r: seq<CasePerson>)
    ensures r == NewLinks(involved, start, caseId)
  {
    var casePersonId := start;
    r := [];
    for i := 0 to |involved|
      invariant casePersonId == start + i
      invariant r == NewLinks(involved[..i], start, caseId)
    {
      var p := involved[i];
      r := r + [CasePerson(casePersonId, p.personId, caseId, p.role, if Truthy(p.details) then p.details else VNull)];
      casePersonId := casePersonId + 1;
    }
    assert involved[..|involved|] == involved;
  }

  /** The `currentSeizureId++` numbering of `addCase`'s seizures. */
  method NumberSeizures(seizures: seq<Seizure>, start: int, caseId: int) returns (r: seq<Seizure>)
    ensures r == NewSeizures(seizures, start, caseId)
  {
    var currentSeizureId := start;
    r := [];
    for i := 0 to |seizures|
      invariant currentSeizureId == start + i
      invariant r == NewSeizures(seizures[..i], start, caseId)
    {
      r := r + [seizures[i].(SeizureID := currentSeizureId, CaseID := caseId)];
      currentSeizureId := currentSeizureId + 1;
    }
    assert seizures[..|seizures|] == seizures;
  }

  // ---------------------------------------------------------------- theme

  /** `toggleTheme`'s new value: "dark" becomes "light", anything else "dark". */
  function Toggled(theme: string): (r: string)
    ensures r == "dark" || r == "light"
    ensures r == "light" <==> theme == "dark"
  {
    if theme == "dark" then "light" else "dark"
  }

  /** Toggling twice is the identity on the two themes; any other value ends at "light". */
  lemma ToggleTwice(theme: string)
    ensures theme == "dark" || theme == "light" ==> Toggled(Toggled(theme)) == theme
    ensures theme != "dark" && theme != "light" ==> Toggled(Toggled(theme)) == "light"
  {
  }

  /** The theme store: the theme starts as "dark". */
  class ThemeStore {
    var theme: string

    constructor ()
      ensures theme == "dark"
    {
      theme := "dark";
    }

    method ToggleTheme()
      modifies this
      ensures theme == Toggled(old(theme))
    {
      theme := if theme == "dark" then "light" else "dark";
    }

    method SetTheme(t: string)
      modifies this
      ensures theme == t
    {
      theme := t;
    }
  }
}
