/** The slice of Mongoose the backend relies on: document ids, the array update operators
    `$addToSet`, `$pull` and `$push`, and a collection of documents keyed by id whose
    `findById` / `findByIdAndUpdate` / `findByIdAndDelete` honour a model's `pre(/^find/)`
    filter (given as `visible`; models without such a hook pass `Everyone`). */
module Mongo {
  import opened Js
  import opened ErrorHandler

  /** An ObjectId. `_id.toString()` and the `id` virtual are the same value in this model. */
  type Id = nat

  /** Number of occurrences of `x` in `s`. */
  function Count(s: seq<Id>, x: Id): nat
  {
    multiset(s)[x]
  }

  /** No value occurs twice in `s`. */
  predicate NoDuplicates(s: seq<Id>)
  {
    forall i, j :: 0 <= i < j < |s| ==> s[i] != s[j]
  }

  // ---------------------------------------------------------------------------
  // Array update operators
  // ---------------------------------------------------------------------------

  /** `$addToSet`: appends `x` unless it is already present. */
  function AddToSet(s: seq<Id>, x: Id): (r: seq<Id>)
    ensures x in r
    ensures Count(r, x) == if x in s then Count(s, x) else 1
    ensures forall y :: y != x ==> Count(r, y) == Count(s, y)
    ensures |s| <= |r| && r[..|s|] == s
  {
    if x in s then s else s + [x]
  }

  /** `$pull`: removes every occurrence of `x`, keeping the rest in order; every other value
      occurs as often as before. */
  function Pull(s: seq<Id>, x: Id): (r: seq<Id>)
    ensures |r| <= |s|
    ensures x !in r
    ensures forall y :: y != x ==> Count(r, y) == Count(s, y)
  {
    if s == [] then []
    else
      var head := if s[0] == x then [] else [s[0]];
      assert s == [s[0]] + s[1..];
      var rest := Pull(s[1..], x);
      assert multiset(s) == multiset([s[0]]) + multiset(s[1..]);
      assert multiset(head + rest) == multiset(head) + multiset(rest);
      assert forall y :: y != x ==> Count(head + rest, y) == Count(s, y) by {
        forall y | y != x
          ensures Count(head + rest, y) == Count(s, y)
        {
          assert Count(rest, y) == Count(s[1..], y);
          assert multiset(head)[y] == multiset([s[0]])[y];
        }
      }
      head + rest
  }

  /** `$pull` of an absent value changes nothing. */
  lemma {:induction false} PullAbsent(s: seq<Id>, x: Id)
    requires x !in s
    ensures Pull(s, x) == s
  {
    if s != [] {
      PullAbsent(s[1..], x);
      assert s == [s[0]] + s[1..];
    }
  }

  /** `$pull` keeps a duplicate-free array duplicate-free. */
  lemma {:induction false} PullNoDuplicates(s: seq<Id>, x: Id)
    requires NoDuplicates(s)
    ensures NoDuplicates(Pull(s, x))
  {
    if s != [] {
      PullNoDuplicates(s[1..], x);
      var r := Pull(s[1..], x);
      if s[0] != x {
        assert s[0] !in s[1..];
        assert Count(r, s[0]) == Count(s[1..], s[0]) == 0;
        assert s[0] !in r;
        var rr := [s[0]] + r;
        forall i, j | 0 <= i < j < |rr| ensures rr[i] != rr[j] {
          if i == 0 { assert rr[j] in r; }
        }
      }
    }
  }

  /** `$pull` distributes over concatenation. */
  lemma {:induction false} PullConcat(a: seq<Id>, b: seq<Id>, x: Id)
    ensures Pull(a + b, x) == Pull(a, x) + Pull(b, x)
  {
    if a != [] {
      PullConcat(a[1..], b, x);
      assert (a + b)[1..] == a[1..] + b;
    } else {
      assert a + b == b;
    }
  }

  /** `$addToSet` keeps a duplicate-free array duplicate-free, and repeating it changes nothing. */
  lemma AddToSetNoDuplicates(s: seq<Id>, x: Id)
    ensures NoDuplicates(s) ==> NoDuplicates(AddToSet(s, x))
    ensures AddToSet(AddToSet(s, x), x) == AddToSet(s, x)
  {
  }

  /** `$pull` is idempotent. */
  lemma PullIdempotent(s: seq<Id>, x: Id)
    ensures Pull(Pull(s, x), x) == Pull(s, x)
  {
    PullAbsent(Pull(s, x), x);
  }

  // ---------------------------------------------------------------------------
  // Queries by id
  // ---------------------------------------------------------------------------

  /** The find filter of a model without a `pre(/^find/)` hook. */
  function Everyone<T>(d: T): bool
  {
    true
  }

  /** `findById(id)`: the document, unless it is missing or the model's find filter hides it. */
  function Lookup<T>(docs: map<Id, T>, id: Id, visible: T -> bool): (r: Option<T>)
    ensures r.Some? <==> id in docs && visible(docs[id])
    ensures r.Some? ==> r.value == docs[id]
  {
    if id in docs && visible(docs[id]) then Some(docs[id]) else None
  }

  /** The store after a query, and the document the query returned (null as None). */
  datatype Updated<T> = Updated(docs: map<Id, T>, result: Option<T>)

  /** `findByIdAndUpdate(id, update, { new: true })`: a missing or filtered-out id returns
      null and changes nothing; otherwise only that document changes and the new one is returned. */
  function UpdateById<T>(docs: map<Id, T>, id: Id, visible: T -> bool, update: T -> T): (r: Updated<T>)
    ensures r.result.None? <==> Lookup(docs, id, visible).None?
    ensures r.result.None? ==> r.docs == docs
    ensures r.result.Some? ==> r.result.value == update(docs[id]) && r.docs == docs[id := update(docs[id])]
  {
    if id in docs && visible(docs[id]) then Updated(docs[id := update(docs[id])], Some(update(docs[id])))
    else Updated(docs, None)
  }

  /** `findByIdAndDelete(id)`: removes the document when the find filter lets the query see it. */
  function DeleteById<T>(docs: map<Id, T>, id: Id, visible: T -> bool): (r: Updated<T>)
    ensures r.result == Lookup(docs, id, visible)
    ensures r.result.None? ==> r.docs == docs
    ensures r.result.Some? ==> r.docs == docs - {id}
  {
    if id in docs && visible(docs[id]) then Updated(docs - {id}, Some(docs[id])) else Updated(docs, None)
  }

  /** `findOne(filter)` is truthy: some document matches. */
  predicate AnyMatch<T>(docs: map<Id, T>, matches: T -> bool)
  {
    exists id :: id in docs && matches(docs[id])
  }

  /** The outcome of a schema's validators on a new document: the document, or the
      paths that failed (`required`, a cast, a length bound) in schema order. */
  datatype Validated<T> = Valid(doc: T) | Invalid(paths: seq<string>)

  /** The `ValidationError` that `Model.create` throws. It carries no `statusCode`; only the
      start of its message ("<Model> validation failed") is modelled. */
  function ValidationFailure(modelName: string): (e: AppError)
    ensures e.statusCode.None? && e.status.None?
  {
    PlainError(modelName + " validation failed")
  }

  /** One Mongoose model's collection. */
  class Collection<T> {
    var docs: map<Id, T>

    constructor ()
      ensures docs == map[]
    {
      docs := map[];
    }

    method FindById(id: Id, visible: T -> bool) returns (r: Option<T>)
      ensures r == Lookup(docs, id, visible)
    {
      if id in docs && visible(docs[id]) {
        r := Some(docs[id]);
      } else {
        r := None;
      }
    }

    method FindByIdAndUpdate(id: Id, visible: T -> bool, update: T -> T) returns (r: Option<T>)
      modifies this
      ensures docs == UpdateById(old(docs), id, visible, update).docs
      ensures r == UpdateById(old(docs), id, visible, update).result
    {
      if id in docs && visible(docs[id]) {
        var d := update(docs[id]);
        docs := docs[id := d];
        r := Some(d);
      } else {
        r := None;
      }
    }

    method FindByIdAndDelete(id: Id, visible: T -> bool) returns (r: Option<T>)
      modifies this
      ensures docs == DeleteById(old(docs), id, visible).docs
      ensures r == DeleteById(old(docs), id, visible).result
    {
      if id in docs && visible(docs[id]) {
        r := Some(docs[id]);
        docs := docs - {id};
      } else {
        r := None;
      }
    }

    /** `Model.findOne(filter)`, read for its truthiness only. */
    method FindOne(matches: T -> bool) returns (found: bool)
      ensures found <==> AnyMatch(docs, matches)
    {
      found := exists id :: id in docs && matches(docs[id]);
    }

    /** `doc.save()` on a document loaded from this collection. */
    method Save(id: Id, doc: T)
      requires id in docs
      modifies this
      ensures docs == old(docs)[id := doc]
    {
      docs := docs[id := doc];
    }

    /** `Model.create(doc)` under a freshly generated ObjectId. */
    method Create(id: Id, doc: T)
      requires id !in docs
      modifies this
      ensures docs == old(docs)[id := doc]
    {
      docs := docs[id := doc];
    }
  }
}
