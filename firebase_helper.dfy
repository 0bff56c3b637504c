// EcoScope_Frontend/app/src/main/java/com/mansi/ecoscope_frontend/FirebaseHelper.kt:
// the emergency contacts kept in the `users/<uid>/contacts` collections.
// Each collection is the sequence of its documents in insertion order; the
// signed-in uid is a field; `System.currentTimeMillis()` is `now`; whether
// the query of `deleteContact` succeeds is the parameter `queryOk`.

module FirebaseHelper {
  import opened Wrappers

  /** One contact document: `contact`, `name` and `timestamp`. */
  datatype ContactRecord = ContactRecord(contact: string, name: string, timestamp: int)

  const UnknownName := "Unknown"

  /** The documents of a collection whose `contact` is not `number`, in order. */
  function WithoutNumber(records: seq<ContactRecord>, number: string): (r: seq<ContactRecord>)
    ensures |r| <= |records|
    decreases |records|
  {
    if records == [] then []
    else
      var init := WithoutNumber(records[..|records| - 1], number);
      var last := records[|records| - 1];
      if last.contact == number then init else init + [last]
  }

  /** Deletion removes every document with the number and keeps every other one. */
  lemma {:induction false} WithoutNumberContents(records: seq<ContactRecord>, number: string)
    ensures forall rec: ContactRecord :: rec in WithoutNumber(records, number) <==> rec in records && rec.contact != number
    ensures forall rec: ContactRecord | rec.contact != number ::
      multiset(WithoutNumber(records, number))[rec] == multiset(records)[rec]
    decreases |records|
  {
    if records != [] {
      var init := records[..|records| - 1];
      WithoutNumberContents(init, number);
      assert records == init + [records[|records| - 1]];
    }
  }

  /** Deleting twice is deleting once. */
  lemma WithoutNumberIdempotent(records: seq<ContactRecord>, number: string)
    ensures WithoutNumber(WithoutNumber(records, number), number) == WithoutNumber(records, number)
  {
    WithoutNumberContents(records, number);
    WithoutAbsent(WithoutNumber(records, number), number);
  }

  /** A collection without the number is left as it is. */
  lemma {:induction false} WithoutAbsent(records: seq<ContactRecord>, number: string)
    requires forall rec: ContactRecord :: rec in records ==> rec.contact != number
    ensures WithoutNumber(records, number) == records
    decreases |records|
  {
    if records != [] {
      var init := records[..|records| - 1];
      assert forall rec: ContactRecord :: rec in init ==> rec in records;
      WithoutAbsent(init, number);
      assert records[|records| - 1] in records;
      assert init + [records[|records| - 1]] == records;
    }
  }

  /** The documents of a uid's collection; a user without one has none. */
  function Collection(store: map<string, seq<ContactRecord>>, uid: string): seq<ContactRecord> {
    if uid in store then store[uid] else []
  }

  class ContactStore {
    /** `FirebaseService.getCurrentUserId()`. */
    var uid: Option<string>
    /** The contacts collection of each user, by uid. */
    var contacts: map<string, seq<ContactRecord>>

    constructor (uid0: Option<string>, contacts0: map<string, seq<ContactRecord>>)
      ensures uid == uid0 && contacts == contacts0
    {
      uid, contacts := uid0, contacts0;
    }

    /**
     * `saveContact`: nothing without a signed-in user; a failed `add` is only
     * logged, so nothing is stored; otherwise a new document is added after
     * the existing ones, even when the number is already saved.
     */
    method SaveContact(number: string, name: Option<string>, now: int, added: bool)
      modifies this`contacts
      ensures uid.None? || !added ==> contacts == old(contacts)
      ensures uid.Some? && added ==> contacts == old(contacts)[uid.value := Collection(old(contacts), uid.value)
                                                           + [ContactRecord(number, name.GetOr(UnknownName), now)]]
    {
      if uid.None? || !added {
        return;
      }
      var data := ContactRecord(number, name.GetOr(UnknownName), now);
      contacts := contacts[uid.value := Collection(contacts, uid.value) + [data]];
    }

    /**
     * `deleteContact`: without a signed-in user only a toast; a failed query
     * changes nothing; otherwise every document with the number is deleted.
     */
    method DeleteContact(number: string, queryOk: bool) returns (toast: string)
      modifies this`contacts
      ensures uid.None? ==> toast == "User not logged in" && contacts == old(contacts)
      ensures uid.Some? && !queryOk ==> toast == "Failed to delete contact" && contacts == old(contacts)
      ensures uid.Some? && queryOk ==> (toast == "Contact deleted"
        && contacts == old(contacts)[uid.value := WithoutNumber(Collection(old(contacts), uid.value), number)])
    {
      if uid.None? {
        return "User not logged in";
      }
      if !queryOk {
        return "Failed to delete contact";
      }
      var docs := Collection(contacts, uid.value);
      var kept: seq<ContactRecord> := [];
      var i := 0;
      while i < |docs|
        invariant 0 <= i <= |docs|
        invariant kept == WithoutNumber(docs[..i], number)
      {
        assert docs[..i + 1][..i] == docs[..i];
        if docs[i].contact != number {
          kept := kept + [docs[i]];
        }
        i := i + 1;
      }
      assert docs[..i] == docs;
      contacts := contacts[uid.value := kept];
      toast := "Contact deleted";
    }
  }

  /** A delete after saves of the same number removes all of them, and the earlier documents stay. */
  lemma DeleteAfterSaves(records: seq<ContactRecord>, number: string, name: string, t1: int, t2: int)
    ensures WithoutNumber(records + [ContactRecord(number, name, t1), ContactRecord(number, name, t2)], number)
         == WithoutNumber(records, number)
  {
    var once := records + [ContactRecord(number, name, t1)];
    var twice := records + [ContactRecord(number, name, t1), ContactRecord(number, name, t2)];
    assert twice[..|twice| - 1] == once;
    assert once[..|once| - 1] == records;
  }
}
