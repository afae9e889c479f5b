/** services/api/routers/groups.py, bulk_import from the parsed rows on: contacts and membership. */
module ContactBook {
  import opened Prelude
  import opened BulkImport

  datatype Contact = Contact(
    id: nat,
    name: Option<string>,
    fields: map<string, string>,
    suppressed: bool,
    suppressedReason: Option<string>,
    unsubscribedAt: Option<real>)

  /** The organisation's contacts by address, the next free id, and the members of the group. */
  datatype Book = Book(contacts: map<string, Contact>, nextId: nat, members: set<nat>)

  ghost predicate ValidBook(b: Book) {
    && (forall e :: e in b.contacts ==> b.contacts[e].id < b.nextId)
    && (forall e, f :: e in b.contacts && f in b.contacts && b.contacts[e].id == b.contacts[f].id ==> e == f)
  }

  function NewContact(id: nat, p: Parsed): Contact {
    Contact(id, p.name, p.fields, false, None, None)
  }

  /** `{**contact.fields, **fields}`, and the name if the row has one. */
  function Override(c: Contact, p: Parsed): Contact {
    c.(name := if p.name.Some? then p.name else c.name, fields := c.fields + p.fields)
  }

  function Upsert(b: Book, e: string, p: Parsed): Book {
    if e in b.contacts then b.(contacts := b.contacts[e := Override(b.contacts[e], p)])
    else b.(contacts := b.contacts[e := NewContact(b.nextId, p)], nextId := b.nextId + 1)
  }

  ghost predicate WellFormed(batch: Batch) {
    && (forall e :: e in batch.order <==> e in batch.last)
    && forall i, j :: 0 <= i < j < |batch.order| ==> batch.order[i] != batch.order[j]
  }

  /** The first n entries of the batch, one after the other. */
  function UpsertAll(b: Book, batch: Batch, n: nat): Book
    requires n <= |batch.order| && forall e :: e in batch.order ==> e in batch.last
  {
    if n == 0 then b
    else Upsert(UpsertAll(b, batch, n - 1), batch.order[n - 1], batch.last[batch.order[n - 1]])
  }

  ghost predicate Same(b: Book, b': Book, e: string) {
    (e in b'.contacts <==> e in b.contacts) && (e in b.contacts ==> b'.contacts[e] == b.contacts[e])
  }

  /** What the last row p for the address e has done to it. */
  ghost predicate Written(b: Book, b': Book, e: string, p: Parsed) {
    && e in b'.contacts
    && if e in b.contacts then b'.contacts[e] == Override(b.contacts[e], p)
       else b'.contacts[e].id >= b.nextId && b'.contacts[e] == NewContact(b'.contacts[e].id, p)
  }

  ghost predicate EntryOk(b: Book, b': Book, last: map<string, Parsed>, done: set<string>, e: string) {
    if e in done then e in last && Written(b, b', e, last[e]) else Same(b, b', e)
  }

  /** b' is b with the addresses in `done` created or overridden, and nothing else changed. */
  ghost predicate Applied(b: Book, b': Book, last: map<string, Parsed>, done: set<string>) {
    b'.members == b.members && b.nextId <= b'.nextId && ValidBook(b') && forall e :: EntryOk(b, b', last, done, e)
  }

  lemma UpsertKeepsValid(b: Book, e: string, p: Parsed)
    requires ValidBook(b)
    ensures ValidBook(Upsert(b, e, p)) && b.nextId <= Upsert(b, e, p).nextId && Upsert(b, e, p).members == b.members
    ensures Written(b, Upsert(b, e, p), e, p) && forall f :: f != e ==> Same(b, Upsert(b, e, p), f)
  {
  }

  lemma UpsertApplied(b: Book, b': Book, b'': Book, last: map<string, Parsed>, done: set<string>, e: string)
    requires e in last && e !in done && Applied(b, b', last, done)
    requires ValidBook(b'') && b'.nextId <= b''.nextId && b''.members == b'.members
    requires Written(b', b'', e, last[e]) && forall f :: f != e ==> Same(b', b'', f)
    ensures Applied(b, b'', last, done + {e})
  {
    forall f ensures EntryOk(b, b'', last, done + {e}, f) {
      assert EntryOk(b, b', last, done, f);
      if f != e {
        assert Same(b', b'', f);
      }
    }
  }

  lemma {:induction false} UpsertAllApplied(b: Book, batch: Batch, n: nat)
    requires ValidBook(b) && WellFormed(batch) && n <= |batch.order|
    ensures Applied(b, UpsertAll(b, batch, n), batch.last, Elements(batch.order[..n]))
  {
    if n == 0 {
      assert forall e :: Same(b, b, e);
    } else {
      UpsertAllApplied(b, batch, n - 1);
      PrefixGrows(batch, n - 1);
      var b' := UpsertAll(b, batch, n - 1);
      var e := batch.order[n - 1];
      UpsertKeepsValid(b', e, batch.last[e]);
      UpsertApplied(b, b', Upsert(b', e, batch.last[e]), batch.last, Elements(batch.order[..n - 1]), e);
    }
  }

  lemma PrefixGrows(batch: Batch, n: nat)
    requires WellFormed(batch) && n < |batch.order|
    ensures batch.order[n] in batch.last && batch.order[n] !in Elements(batch.order[..n])
    ensures Elements(batch.order[..n + 1]) == Elements(batch.order[..n]) + {batch.order[n]}
  {
    assert batch.order[n] in batch.order;
    assert batch.order[..n + 1] == batch.order[..n] + [batch.order[n]];
  }

  lemma MergeWellFormed(rows: seq<Taken>)
    ensures WellFormed(Merge(rows)) && Merge(rows).last.Keys == Emails(rows)
  {
    MergeOrder(rows);
    var b := Merge(rows);
    assert forall e :: e in b.order <==> e in Elements(b.order);
  }

  function Ids(contacts: map<string, Contact>, emails: set<string>): set<nat> {
    set e | e in emails && e in contacts :: contacts[e].id
  }

  /** The contacts and the group after an import of the accepted rows. */
  function Import(b: Book, rows: seq<Taken>): Book {
    var batch := Merge(rows);
    MergeWellFormed(rows);
    var b' := UpsertAll(b, batch, |batch.order|);
    b'.(members := b'.members + Ids(b'.contacts, batch.last.Keys))
  }

  /** The contact under an address, before and after an import whose last row for it is p. */
  ghost predicate LastRowDecides(b: Book, b': Book, p: Parsed) {
    && p.email in b'.contacts
    && var c' := b'.contacts[p.email];
       if p.email in b.contacts then
         var c := b.contacts[p.email];
         && c'.id == c.id && c'.suppressed == c.suppressed && c'.suppressedReason == c.suppressedReason
         && c'.unsubscribedAt == c.unsubscribedAt
         && c'.name == (if p.name.Some? then p.name else c.name)
         && c'.fields == c.fields + p.fields
       else
         c'.id >= b.nextId && !c'.suppressed && c'.suppressedReason.None? && c'.unsubscribedAt.None?
         && c'.name == p.name && c'.fields == p.fields
  }

  /** What one import does, told per address rather than step by step: the last accepted row of an
      address alone decides its fields, old fields it does not name survive, suppression, reason,
      unsubscription and id of a known contact are untouched, a new contact is not suppressed, all
      other contacts are as before, and the group gains exactly the contacts named. */
  lemma ImportMeetsSpec(b: Book, rows: seq<Taken>)
    requires ValidBook(b)
    ensures var b' := Import(b, rows);
            && ValidBook(b')
            && b'.contacts.Keys == b.contacts.Keys + Emails(rows)
            && (forall m :: m in b'.members <==>
                  m in b.members || exists i :: 0 <= i < |rows| && b'.contacts[rows[i].row.email].id == m)
            && (forall e :: e in b.contacts && e !in Emails(rows) ==> b'.contacts[e] == b.contacts[e])
            && (forall i :: IsLast(rows, i) ==> LastRowDecides(b, b', rows[i].row))
  {
    var batch := Merge(rows);
    MergeWellFormed(rows);
    UpsertAllApplied(b, batch, |batch.order|);
    var b1 := UpsertAll(b, batch, |batch.order|);
    AppliedToAll(b, b1, batch);
    NamedAreMembers(b, b1, rows);
    forall i | IsLast(rows, i) ensures LastRowDecides(b, Import(b, rows), rows[i].row) {
      MergeKeepsLast(rows);
      WrittenDecides(b, b1, Import(b, rows), batch.last, rows[i].row);
    }
  }

  lemma NamedAreMembers(b: Book, b1: Book, rows: seq<Taken>)
    requires b1.contacts.Keys == b.contacts.Keys + Emails(rows)
    ensures forall i :: 0 <= i < |rows| ==> rows[i].row.email in b1.contacts
    ensures forall m :: m in Ids(b1.contacts, Emails(rows)) <==>
        exists i :: 0 <= i < |rows| && b1.contacts[rows[i].row.email].id == m
  {
    assert forall i :: 0 <= i < |rows| ==> rows[i].row.email in Emails(rows);
  }

  lemma WrittenDecides(b: Book, b1: Book, b': Book, last: map<string, Parsed>, p: Parsed)
    requires p.email in last && last[p.email] == p && EntryOk(b, b1, last, last.Keys, p.email)
    requires b'.contacts == b1.contacts
    ensures LastRowDecides(b, b', p)
  {
  }

  lemma AppliedToAll(b: Book, b': Book, batch: Batch)
    requires WellFormed(batch) && Applied(b, b', batch.last, Elements(batch.order[..|batch.order|]))
    ensures Applied(b, b', batch.last, batch.last.Keys)
    ensures b'.contacts.Keys == b.contacts.Keys + batch.last.Keys
    ensures forall e :: e in b.contacts && e !in batch.last ==> b'.contacts[e] == b.contacts[e]
    ensures b'.members == b.members
  {
    assert batch.order[..|batch.order|] == batch.order;
    assert Elements(batch.order) == batch.last.Keys;
    forall e ensures e in b'.contacts <==> e in b.contacts || e in batch.last {
      assert EntryOk(b, b', batch.last, batch.last.Keys, e);
    }
    forall e | e in b.contacts && e !in batch.last ensures b'.contacts[e] == b.contacts[e] {
      assert EntryOk(b, b', batch.last, batch.last.Keys, e);
    }
  }

  // ---- importing the same batch again ----

  /** The batch has nothing to tell this book. */
  ghost predicate Settled(b: Book, last: map<string, Parsed>) {
    forall e :: e in last ==> e in b.contacts && Override(b.contacts[e], last[e]) == b.contacts[e]
  }

  lemma OverrideTwice(c: Contact, p: Parsed, id: nat)
    ensures Override(Override(c, p), p) == Override(c, p)
    ensures Override(NewContact(id, p), p) == NewContact(id, p)
  {
    assert c.fields + p.fields + p.fields == c.fields + p.fields;
    assert p.fields + p.fields == p.fields;
  }

  lemma {:induction false} SettledStays(b: Book, batch: Batch, n: nat)
    requires Settled(b, batch.last) && WellFormed(batch) && n <= |batch.order|
    ensures UpsertAll(b, batch, n) == b
  {
    if n > 0 {
      SettledStays(b, batch, n - 1);
      var e := batch.order[n - 1];
      assert e in batch.order;
      assert b.contacts[e := b.contacts[e]] == b.contacts;
    }
  }

  lemma AppliedSettles(b: Book, b': Book, last: map<string, Parsed>)
    requires Applied(b, b', last, last.Keys)
    ensures Settled(b', last)
  {
    forall e | e in last ensures e in b'.contacts && Override(b'.contacts[e], last[e]) == b'.contacts[e] {
      assert EntryOk(b, b', last, last.Keys, e);
      if e in b.contacts {
        OverrideTwice(b.contacts[e], last[e], 0);
      } else {
        OverrideTwice(b'.contacts[e], last[e], b'.contacts[e].id);
      }
    }
  }

  /** Repeating an import changes nothing: no contact is created, none is altered, and the group keeps
      its members. */
  lemma ImportIdempotent(b: Book, rows: seq<Taken>)
    requires ValidBook(b)
    ensures Import(Import(b, rows), rows) == Import(b, rows)
  {
    var batch := Merge(rows);
    MergeWellFormed(rows);
    UpsertAllApplied(b, batch, |batch.order|);
    var b1 := UpsertAll(b, batch, |batch.order|);
    AppliedToAll(b, b1, batch);
    AppliedSettles(b, b1, batch.last);
    var b' := Import(b, rows);
    assert b'.contacts == b1.contacts;
    SettledStays(b', batch, |batch.order|);
    assert b'.members + Ids(b'.contacts, batch.last.Keys) == b'.members;
  }

  /** Created and updated add up to the distinct accepted addresses, and a repeated import creates
      none. */
  lemma CreatedPlusUpdated(b: Book, rows: seq<Taken>)
    requires ValidBook(b)
    ensures |Emails(rows) - b.contacts.Keys| + |Emails(rows) * b.contacts.Keys| == |Emails(rows)|
    ensures |Import(b, rows).contacts.Keys| == |b.contacts.Keys| + |Emails(rows) - b.contacts.Keys|
    ensures Emails(rows) - Import(b, rows).contacts.Keys == {}
  {
    ImportMeetsSpec(b, rows);
    SplitSizes(Emails(rows), b.contacts.Keys);
  }

  lemma SplitSizes(some: set<string>, known: set<string>)
    ensures |some - known| + |some * known| == |some|
    ensures |known + some| == |known| + |some - known|
  {
    assert (some - known) + (some * known) == some;
    assert known + (some - known) == known + some;
  }

  // ---- the endpoint ----

  const MAX_IMPORT_ROWS := 5000

  datatype Report = Report(created: nat, updated: nat, skipped: seq<Skipped>, groupCount: nat)

  /** The loop that keeps one entry per address. */
  method MergeRows(rows: seq<Taken>) returns (batch: Batch)
    ensures batch == Merge(rows)
  {
    batch := Batch([], map[]);
    for n := 0 to |rows|
      invariant batch == Merge(rows[..n])
    {
      assert rows[..n + 1][..n] == rows[..n];
      var p := rows[n].row;
      batch := Batch(if p.email in batch.last then batch.order else batch.order + [p.email], batch.last[p.email := p]);
    }
    assert rows[..|rows|] == rows;
  }

  class ContactStore {
    var contacts: map<string, Contact>
    var nextId: nat
    var members: set<nat>

    function Contents(): Book
      reads this
    {
      Book(contacts, nextId, members)
    }

    /** The contacts that already exist under these addresses. */
    method LookUp(emails: set<string>) returns (existing: map<string, Contact>)
      ensures existing.Keys == emails * contacts.Keys
    {
      existing := map e | e in emails && e in contacts :: contacts[e];
    }

    /** One turn of the upsert loop; `known` says whether the address was found before the loop. */
    method UpsertOne(e: string, p: Parsed, known: bool) returns (id: nat)
      requires known <==> e in contacts
      modifies this
      ensures Contents() == Upsert(old(Contents()), e, p)
      ensures id == contacts[e].id
    {
      if !known {
        id := nextId;
        contacts := contacts[e := Contact(id, p.name, p.fields, false, None, None)];
        nextId := nextId + 1;
      } else {
        var c := contacts[e];
        if p.name.Some? {
          c := c.(name := p.name);
        }
        contacts := contacts[e := c.(fields := c.fields + p.fields)];
        id := c.id;
      }
    }

    /** The upsert loop: one entry per address against the contacts looked up before it. */
    method UpsertBatch(batch: Batch) returns (created: nat, updated: nat, touched: set<nat>)
      requires ValidBook(Contents()) && WellFormed(batch)
      modifies this
      ensures Contents() == UpsertAll(old(Contents()), batch, |batch.order|)
      ensures created == |batch.last.Keys - old(contacts).Keys|
      ensures updated == |batch.last.Keys * old(contacts).Keys|
      ensures touched == Ids(contacts, batch.last.Keys)
    {
      var existing := LookUp(batch.last.Keys);
      created, updated, touched := 0, 0, {};
      ghost var b := Contents();
      assert Progress(b, b, batch, 0, 0, 0, {});
      for n := 0 to |batch.order|
        invariant Contents() == UpsertAll(b, batch, n)
        invariant Progress(b, Contents(), batch, n, created, updated, touched)
      {
        var e := batch.order[n];
        UpsertStep(b, batch, n, created, updated, touched);
        assert e in existing <==> e in b.contacts;
        var id := UpsertOne(e, batch.last[e], e in existing);
        if e !in existing {
          created := created + 1;
        } else {
          updated := updated + 1;
        }
        touched := touched + {id};
      }
      AllDone(batch);
    }

    method AddMembers(touched: set<nat>)
      modifies this`members
      ensures members == old(members) + touched
    {
      if touched != {} {
        var already := set m | m in members && m in touched;
        var toAdd := touched - already;
        members := members + toAdd;
      }
    }

    method BulkImport(check: Check, req: Request) returns (report: Option<Report>)
      requires ValidBook(Contents())
      modifies this
      ensures report.None? <==> |req.rows| > 5000
      ensures report.None? ==> Contents() == old(Contents())
      ensures report.Some? ==>
                var rows := AllTaken(ParseRows(check, req));
                && Contents() == Import(old(Contents()), rows)
                && report.value.created == |Emails(rows) - old(contacts).Keys|
                && report.value.updated == |Emails(rows) * old(contacts).Keys|
                && report.value.skipped == AllSkipped(ParseRows(check, req))
                && report.value.groupCount == |members|
    {
      if |req.rows| > MAX_IMPORT_ROWS {
        return None;
      }
      var skipped, taken := ParseAll(check, req);
      MergeWellFormed(taken);
      if taken == [] {
        NothingToImport(Contents());
        return Some(Report(0, 0, skipped, |members|));
      }
      var batch := MergeRows(taken);
      var created, updated, touched := UpsertBatch(batch);
      AddMembers(touched);
      return Some(Report(created, updated, skipped, |members|));
    }
  }

  lemma NothingToImport(b: Book)
    ensures Import(b, []) == b && Emails([]) == {}
  {
    assert b.members + {} == b.members;
  }

  /** Where the upsert loop stands after n entries. */
  ghost predicate Progress(b: Book, now: Book, batch: Batch, n: nat, created: nat, updated: nat, touched: set<nat>)
    requires n <= |batch.order|
  {
    var done := Elements(batch.order[..n]);
    && created == |done - b.contacts.Keys|
    && updated == |done * b.contacts.Keys|
    && touched == Ids(now.contacts, done)
  }

  lemma AllDone(batch: Batch)
    requires WellFormed(batch)
    ensures Elements(batch.order[..|batch.order|]) == batch.last.Keys
  {
    assert batch.order[..|batch.order|] == batch.order;
  }

  lemma UpsertStep(b: Book, batch: Batch, n: nat, created: nat, updated: nat, touched: set<nat>)
    requires ValidBook(b) && WellFormed(batch) && n < |batch.order|
    requires Progress(b, UpsertAll(b, batch, n), batch, n, created, updated, touched)
    ensures var e := batch.order[n];
            && e in batch.last && (e in b.contacts <==> e in UpsertAll(b, batch, n).contacts)
            && Progress(b, UpsertAll(b, batch, n + 1), batch, n + 1, if e in b.contacts then created else created + 1,
                 if e in b.contacts then updated + 1 else updated,
                     touched + {UpsertAll(b, batch, n + 1).contacts[e].id})
  {
    var e := batch.order[n];
    var done := Elements(batch.order[..n]);
    PrefixGrows(batch, n);
    UpsertAllApplied(b, batch, n);
    var before := UpsertAll(b, batch, n);
    assert EntryOk(b, before, batch.last, done, e);
    forall f | f in done ensures f in before.contacts {
      assert EntryOk(b, before, batch.last, done, f);
    }
    CountStep(done, b.contacts.Keys, e);
    IdsStep(before.contacts, Upsert(before, e, batch.last[e]).contacts, done, e);
  }

  lemma CountStep(done: set<string>, known: set<string>, e: string)
    requires e !in done
    ensures |(done + {e}) - known| == |done - known| + if e in known then 0 else 1
    ensures |(done + {e}) * known| == |done * known| + if e in known then 1 else 0
  {
    if e in known {
      assert (done + {e}) - known == done - known;
      assert (done + {e}) * known == done * known + {e};
    } else {
      assert (done + {e}) - known == done - known + {e};
      assert (done + {e}) * known == done * known;
    }
  }

  lemma IdsStep(before: map<string, Contact>, after: map<string, Contact>, done: set<string>, e: string)
    requires e in after && forall f :: f in done ==> f in before && f in after && after[f] == before[f]
    ensures Ids(after, done + {e}) == Ids(before, done) + {after[e].id}
  {
  }
}
