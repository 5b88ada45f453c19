/**
 * The `users` collection behind the `User` model: documents in insertion
 * order, ObjectIds handed out in increasing order, and the unique index on
 * `email`, which makes a write that would duplicate an email fail with error
 * code 11000 and leaves the collection as it was.
 */
module UserStore {
  import opened Wrappers
  import opened Seqs
  import opened UserSchema

  /** Why the collection refuses a write: the unique index on `email` (MongoDB error code 11000). */
  datatype WriteError = DuplicateKey

  /** `findById(id)`: the document with that id, if any. */
  function FindById(docs: seq<Doc>, id: nat): (r: Option<Doc>)
    ensures r.Some? <==> exists i :: 0 <= i < |docs| && docs[i].id == id
    ensures r.Some? ==> r.value in docs && r.value.id == id
  {
    if docs == [] then None
    else if docs[0].id == id then Some(docs[0])
    else
      var r := FindById(docs[1..], id);
      assert forall i :: 1 <= i < |docs| ==> docs[i] == docs[1..][i - 1];
      r
  }

  /** Some document other than `id` holds `email`: the unique index would refuse the write. */
  predicate EmailTaken(docs: seq<Doc>, email: string, id: nat)
  {
    exists i :: 0 <= i < |docs| && docs[i].user.email == email && docs[i].id != id
  }

  /** The collection after `d` is saved over the document with its id. */
  function Replace(docs: seq<Doc>, d: Doc): (r: seq<Doc>)
    ensures |r| == |docs|
    ensures forall i :: 0 <= i < |docs| ==> r[i] == (if docs[i].id == d.id then d else docs[i])
  {
    seq(|docs|, i requires 0 <= i < |docs| => if docs[i].id == d.id then d else docs[i])
  }

  /** The collection after the document with `id` is deleted. */
  function Without(docs: seq<Doc>, id: nat): seq<Doc>
  {
    Filter(docs, (d: Doc) => d.id != id)
  }

  /** Appending a document whose id and email are new keeps the unique index satisfied. */
  lemma InsertKeepsUnique(docs: seq<Doc>, d: Doc)
    requires UniqueKeys(docs)
    requires forall i :: 0 <= i < |docs| ==> docs[i].id != d.id && docs[i].user.email != d.user.email
    ensures UniqueKeys(docs + [d])
  {
  }

  /** Saving over a document with an email no other document holds keeps the index satisfied and changes no other document. */
  lemma ReplaceKeepsUnique(docs: seq<Doc>, d: Doc)
    requires UniqueKeys(docs)
    requires !EmailTaken(docs, d.user.email, d.id)
    ensures UniqueKeys(Replace(docs, d))
    ensures forall i :: 0 <= i < |docs| && docs[i].id != d.id ==> Replace(docs, d)[i] == docs[i]
  {
  }

  /**
   * Deleting by id leaves no document with that id, removes exactly one
   * document when one had it (ids are unique), and keeps the others in order.
   */
  lemma WithoutRemovesExactly(docs: seq<Doc>, id: nat)
    requires UniqueKeys(docs)
    ensures forall i :: 0 <= i < |Without(docs, id)| ==> Without(docs, id)[i].id != id
    ensures FindById(docs, id).Some? ==> |Without(docs, id)| == |docs| - 1
    ensures FindById(docs, id).None? ==> Without(docs, id) == docs
    ensures IsSubseq(Without(docs, id), docs)
    ensures UniqueKeys(Without(docs, id))
  {
    var p := (d: Doc) => d.id != id;
    FilterIsSubseq(docs, p);
    SubseqKeepsUnique(Without(docs, id), docs);
    if FindById(docs, id).None? {
      FilterAll(docs, p);
    } else {
      WithoutCount(docs, id);
    }
  }

  /** A collection with unique ids loses exactly one document when the id is present. */
  lemma {:induction false} WithoutCount(docs: seq<Doc>, id: nat)
    requires UniqueKeys(docs) && FindById(docs, id).Some?
    ensures |Without(docs, id)| == |docs| - 1
  {
    var p := (d: Doc) => d.id != id;
    var tail := docs[1..];
    assert docs == [docs[0]] + tail;
    FilterConcat([docs[0]], tail, p);
    assert UniqueKeys(tail) by {
      forall i, j | 0 <= i < j < |tail|
        ensures tail[i].user.email != tail[j].user.email && tail[i].id != tail[j].id
      {
        assert tail[i] == docs[i + 1] && tail[j] == docs[j + 1];
      }
    }
    if docs[0].id == id {
      forall i | 0 <= i < |tail|
        ensures p(tail[i])
      {
        assert tail[i] == docs[i + 1];
      }
      FilterAll(tail, p);
    } else {
      assert FindById(docs, id) == FindById(tail, id);
      WithoutCount(tail, id);
    }
  }

  /** Dropping documents keeps the keys unique. */
  lemma {:induction false} SubseqKeepsUnique(a: seq<Doc>, b: seq<Doc>)
    requires IsSubseq(a, b) && UniqueKeys(b)
    ensures UniqueKeys(a)
    decreases |b|
  {
    if a != [] {
      var tail := b[1..];
      assert UniqueKeys(tail) by {
        forall i, j | 0 <= i < j < |tail|
          ensures tail[i].user.email != tail[j].user.email && tail[i].id != tail[j].id
        {
          assert tail[i] == b[i + 1] && tail[j] == b[j + 1];
        }
      }
      if a[0] == b[0] && IsSubseq(a[1..], tail) {
        SubseqKeepsUnique(a[1..], tail);
        forall i | 0 <= i < |tail|
          ensures tail[i].id != b[0].id && tail[i].user.email != b[0].user.email
        {
          assert tail[i] == b[i + 1];
        }
        SubseqUnique(a[1..], tail, b[0]);
        assert a == [b[0]] + a[1..];
      } else {
        SubseqKeepsUnique(a, tail);
      }
    }
  }

  /** A subsequence of a collection with unique keys, headed by a document whose keys the rest lacks, has unique keys. */
  lemma SubseqUnique(a: seq<Doc>, b: seq<Doc>, d: Doc)
    requires IsSubseq(a, b) && UniqueKeys(a)
    requires forall i :: 0 <= i < |b| ==> b[i].id != d.id && b[i].user.email != d.user.email
    ensures UniqueKeys([d] + a)
  {
    SubseqMembers(a, b);
    var r := [d] + a;
    forall i, j | 0 <= i < j < |r|
      ensures r[i].user.email != r[j].user.email && r[i].id != r[j].id
    {
      if i > 0 {
        assert r[i] == a[i - 1] && r[j] == a[j - 1];
      } else {
        assert r[j] == a[j - 1] && a[j - 1] in b;
      }
    }
  }

  /** Every element of a subsequence is an element of the sequence. */
  lemma {:induction false} SubseqMembers<T>(a: seq<T>, b: seq<T>)
    requires IsSubseq(a, b)
    ensures forall i :: 0 <= i < |a| ==> a[i] in b
    decreases |b|
  {
    if a != [] {
      if a[0] == b[0] && IsSubseq(a[1..], b[1..]) {
        SubseqMembers(a[1..], b[1..]);
        assert forall i :: 1 <= i < |a| ==> a[i] == a[1..][i - 1];
      } else {
        SubseqMembers(a, b[1..]);
      }
    }
  }

  /** Every stored email has been through the `email` setters. */
  predicate Normalized(docs: seq<Doc>)
  {
    forall i :: 0 <= i < |docs| ==> docs[i].user.email == SetEmail(docs[i].user.email)
  }

  /** Saving a normalised document over another keeps the collection normalised. */
  lemma ReplaceKeepsNormalized(docs: seq<Doc>, d: Doc)
    requires Normalized(docs) && d.user.email == SetEmail(d.user.email)
    ensures Normalized(Replace(docs, d))
  {

  }

  /**
   * The invariant of the collection: unique keys, normalised emails, and
   * every id below the next one to be handed out.
   */
  predicate Consistent(docs: seq<Doc>, nextId: nat)
  {
    UniqueKeys(docs) && Normalized(docs) && forall i :: 0 <= i < |docs| ==> docs[i].id < nextId
  }

  /** A save the index accepts keeps the invariant. */
  lemma ReplaceKeepsConsistent(docs: seq<Doc>, d: Doc, nextId: nat)
    requires Consistent(docs, nextId) && d.user.email == SetEmail(d.user.email)
    requires !EmailTaken(docs, d.user.email, d.id)
    requires exists i :: 0 <= i < |docs| && docs[i].id == d.id
    ensures Consistent(Replace(docs, d), nextId)
  {
    ReplaceKeepsUnique(docs, d);
    ReplaceKeepsNormalized(docs, d);
    var r := Replace(docs, d);
    var k :| 0 <= k < |docs| && docs[k].id == d.id;
    forall i | 0 <= i < |r|
      ensures r[i].id < nextId
    {
      if docs[i].id == d.id {
        assert r[i].id == docs[k].id;
      }
    }
  }

  /** Appending a normalised document under the next id, with an email no document holds, keeps the invariant. */
  lemma InsertKeepsConsistent(docs: seq<Doc>, d: Doc, nextId: nat)
    requires Consistent(docs, nextId) && d.id == nextId && d.user.email == SetEmail(d.user.email)
    requires !EmailTaken(docs, d.user.email, nextId)
    ensures Consistent(docs + [d], nextId + 1)
  {
    InsertKeepsUnique(docs, d);
  }

  /** Dropping documents keeps the invariant of the collection. */
  lemma SubseqKeepsConsistent(a: seq<Doc>, b: seq<Doc>, nextId: nat)
    requires Consistent(b, nextId) && IsSubseq(a, b)
    ensures Consistent(a, nextId)
  {
    SubseqMembers(a, b);
    SubseqKeepsUnique(a, b);
    forall i | 0 <= i < |a|
      ensures a[i].user.email == SetEmail(a[i].user.email) && a[i].id < nextId
    {
      var j :| 0 <= j < |b| && b[j] == a[i];
    }
  }

  /**
   * The collection. Ids are never reused (every stored id is below `nextId`),
   * and every write has gone through the schema's setters.
   */
  class Collection {
    var docs: seq<Doc>
    var nextId: nat

    ghost predicate Valid()
      reads this
    {
      Consistent(docs, nextId)
    }

    constructor ()
      ensures Valid() && docs == []
    {
      docs := [];
      nextId := 0;
    }

    /** `User.create(user)`: insert under a fresh id, unless the email index refuses it. */
    method Create(u: User) returns (r: Result<Doc, WriteError>)
      modifies this
      requires Valid() && u.email == SetEmail(u.email)
      ensures Valid()
      ensures EmailTaken(old(docs), u.email, old(nextId)) ==> r == Err(DuplicateKey) && docs == old(docs) && nextId == old(nextId)
      ensures !EmailTaken(old(docs), u.email, old(nextId)) ==>
        r == Ok(Doc(old(nextId), u)) && docs == old(docs) + [Doc(old(nextId), u)] && nextId == old(nextId) + 1
    {
      var stored, n := docs, nextId;
      if EmailTaken(stored, u.email, n) {
        return Err(DuplicateKey);
      }
      var d := Doc(n, u);
      assert Consistent(stored + [d], n + 1) by {
        InsertKeepsConsistent(stored, d, n);
      }
      docs, nextId := stored + [d], n + 1;
      r := Ok(d);
    }

    /** `doc.save()` on a fetched document: write it back, unless another document holds its email. */
    method Save(d: Doc) returns (r: Result<Doc, WriteError>)
      modifies this
      requires Valid() && d.user.email == SetEmail(d.user.email)
      requires FindById(docs, d.id).Some?
      ensures Valid() && nextId == old(nextId)
      ensures EmailTaken(old(docs), d.user.email, d.id) ==> r == Err(DuplicateKey) && docs == old(docs)
      ensures !EmailTaken(old(docs), d.user.email, d.id) ==> r == Ok(d) && docs == Replace(old(docs), d)
    {
      var stored := docs;
      if EmailTaken(stored, d.user.email, d.id) {
        return Err(DuplicateKey);
      }
      var saved := Replace(stored, d);
      assert Consistent(saved, nextId) by {
        ReplaceKeepsConsistent(stored, d, nextId);
      }
      docs := saved;
      r := Ok(d);
    }

    /** `findByIdAndDelete(id)` / `doc.deleteOne()`: remove the document with that id and return it. */
    method Delete(id: nat) returns (r: Option<Doc>)
      modifies this
      requires Valid()
      ensures Valid() && nextId == old(nextId)
      ensures r == FindById(old(docs), id)
      ensures docs == Without(old(docs), id)
    {
      var stored := docs;
      r := FindById(stored, id);
      var rest := Without(stored, id);
      assert Consistent(rest, nextId) by {
        WithoutRemovesExactly(stored, id);
        SubseqKeepsConsistent(rest, stored, nextId);
      }
      docs := rest;
    }
  }
}
