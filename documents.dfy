/** The part of a document collection the portfolio service relies on, kept
    abstract: a collection is a sequence of documents in storage order, a
    query is an equality filter, and the writes are the single-document
    `update_one` (with `$set`), `delete_one`, `replace_one` (optionally
    upserting) and `insert_one`. A read sorted by the "order" field is a
    permutation of the matching documents, ascending by that field. */
module Documents {
  import opened Wrappers

  /** A stored value. `Date` is a timestamp written by the service. */
  datatype Value =
    | Null
    | Str(s: string)
    | Bool(b: bool)
    | Int(i: int)
    | List(items: seq<Value>)
    | Doc(fields: map<string, Value>)
    | Date(t: int)

  type Document = map<string, Value>

  // ---------------------------------------------------------------------
  // Queries

  /** An equality filter `{k: v, ...}` matches a document holding every one
      of its fields with that value. */
  predicate Matches(d: Document, filter: Document) {
    forall k :: k in filter ==> k in d && d[k] == filter[k]
  }

  /** The position of the first matching document, the one `find_one`,
      `update_one`, `delete_one` and `replace_one` act on. */
  function FirstMatch(docs: seq<Document>, filter: Document): (i: Option<nat>)
    ensures i.Some? ==> i.value < |docs| && Matches(docs[i.value], filter)
    ensures i.Some? ==> forall j :: 0 <= j < i.value ==> !Matches(docs[j], filter)
    ensures i.None? <==> forall j :: 0 <= j < |docs| ==> !Matches(docs[j], filter)
  {
    if docs == [] then None
    else if Matches(docs[0], filter) then Some(0)
    else
      var rest := FirstMatch(docs[1..], filter);
      if rest.None? then None else Some(rest.value + 1)
  }

  /** The documents `find(filter)` returns, in storage order. */
  function Find(docs: seq<Document>, filter: Document): (r: seq<Document>)
    ensures forall d :: d in r ==> Matches(d, filter)
    ensures forall j :: 0 <= j < |docs| && Matches(docs[j], filter) ==> docs[j] in r
    ensures multiset(r) <= multiset(docs)
    ensures |r| == CountMatches(docs, filter)
  {
    if docs == [] then []
    else
      var rest := Find(docs[1..], filter);
      assert docs == [docs[0]] + docs[1..];
      if Matches(docs[0], filter) then [docs[0]] + rest else rest
  }

  /** How many documents match. */
  function CountMatches(docs: seq<Document>, filter: Document): nat {
    if docs == [] then 0
    else (if Matches(docs[0], filter) then 1 else 0) + CountMatches(docs[1..], filter)
  }

  // ---------------------------------------------------------------------
  // `$set`

  /** A `$set` key: a top-level field, or one level down, "parent.name". */
  datatype Path = Field(name: string) | Nested(parent: string, name: string)

  /** The key as written in the update document. */
  function PathText(p: Path): string {
    match p
    case Field(n) => n
    case Nested(parent, n) => parent + "." + n
  }

  /** The top-level fields a `$set` touches. */
  function Heads(s: map<Path, Value>): set<string> {
    set p | p in s :: if p.Field? then p.name else p.parent
  }

  /** The embedded documents a `$set` writes into. */
  function Parents(s: map<Path, Value>): set<string> {
    set p | p in s && p.Nested? :: p.parent
  }

  /** The fields a `$set` writes inside the embedded document `parent`. */
  function Children(s: map<Path, Value>, parent: string): map<string, Value> {
    map n | n in (set p | p in s && p.Nested? && p.parent == parent :: p.name) :: s[Nested(parent, n)]
  }

  /** The embedded document under `name`, or an empty one. */
  function SubDocument(d: Document, name: string): map<string, Value> {
    if name in d && d[name].Doc? then d[name].fields else map[]
  }

  /** `$set` on one document: top-level paths overwrite, nested paths write
      into the embedded document (created when missing), every other field
      is kept. A top-level path and a nested path below it in the same update
      are a conflict in the database; the top-level one wins here. */
  function ApplySet(d: Document, s: map<Path, Value>): (r: Document)
    ensures r.Keys == d.Keys + Heads(s)
    ensures forall n :: Field(n) in s ==> r[n] == s[Field(n)]
    ensures forall n :: n in Parents(s) && Field(n) !in s ==> r[n] == Doc(SubDocument(d, n) + Children(s, n))
    ensures forall k :: k in d && k !in Heads(s) ==> r[k] == d[k]
  {
    map k | k in d.Keys + Heads(s) ::
      if Field(k) in s then s[Field(k)]
      else if k in Parents(s) then Doc(SubDocument(d, k) + Children(s, k))
      else d[k]
  }

  /** The `$set` document `{"<parent>.<k>": v, ...}` built from the kept fields. */
  function NestedSet(parent: string, fields: map<string, Value>): (s: map<Path, Value>)
    ensures forall p :: p in s <==> p.Nested? && p.parent == parent && p.name in fields
    ensures forall k :: k in fields ==> PathText(Nested(parent, k)) == parent + "." + k
    ensures forall k :: k in fields ==> s[Nested(parent, k)] == fields[k]
  {
    map p | p in (set k | k in fields :: Nested(parent, k)) :: fields[p.name]
  }

  /** The `$set` document `{k: v, ...}` of top-level fields. */
  function FieldSet(fields: map<string, Value>): (s: map<Path, Value>)
    ensures forall p :: p in s <==> p.Field? && p.name in fields
    ensures forall k :: k in fields ==> s[Field(k)] == fields[k]
  {
    map p | p in (set k | k in fields :: Field(k)) :: fields[p.name]
  }

  /** A nested `$set` touches only its parent, and writes there exactly the
      given fields. */
  lemma NestedSetShape(parent: string, fields: map<string, Value>)
    requires fields != map[]
    ensures var s := NestedSet(parent, fields);
      Heads(s) == {parent} && parent in Parents(s) && Field(parent) !in s && Children(s, parent) == fields
  {
    var s := NestedSet(parent, fields);
    var k :| k in fields;
    assert Nested(parent, k) in s;
    assert Children(s, parent) == fields;
  }

  /** A nested `$set` is a shallow merge into the embedded document:
      `d[parent]` becomes its old fields overridden by the new ones, and
      nothing else changes. */
  lemma NestedSetMerges(d: Document, parent: string, fields: map<string, Value>)
    requires fields != map[]
    ensures ApplySet(d, NestedSet(parent, fields)) == d[parent := Doc(SubDocument(d, parent) + fields)]
  {
    var s := NestedSet(parent, fields);
    NestedSetShape(parent, fields);
    var r := ApplySet(d, s);
    var e := d[parent := Doc(SubDocument(d, parent) + fields)];
    assert r.Keys == e.Keys;
    forall x | x in r.Keys
      ensures r[x] == e[x]
    {
      if x == parent {
        assert r[x] == Doc(SubDocument(d, parent) + Children(s, parent));
      } else {
        assert x !in Heads(s);
      }
    }
  }

  /** A top-level `$set` overwrites exactly its fields. */
  lemma FieldSetOverwrites(d: Document, fields: map<string, Value>)
    ensures ApplySet(d, FieldSet(fields)) == d + fields
  {
    var s := FieldSet(fields);
    assert Parents(s) == {};
    assert Heads(s) == fields.Keys by {
      forall k | k in fields ensures k in Heads(s) {
        assert Field(k) in s;
      }
    }
  }

  // ---------------------------------------------------------------------
  // Writes

  /** `update_one(filter, {"$set": s})`: the new collection and the
      modified count, which is 1 only when the first match actually
      changed. */
  function UpdateOne(docs: seq<Document>, filter: Document, s: map<Path, Value>): (r: (seq<Document>, nat))
    ensures |r.0| == |docs|
    ensures r.1 <= 1
    ensures r.1 == 1 ==> exists j :: 0 <= j < |docs| && Matches(docs[j], filter)
    ensures FirstMatch(docs, filter).None? ==> r == (docs, 0)
    ensures FirstMatch(docs, filter).Some? ==>
      var i := FirstMatch(docs, filter).value;
      && r.0 == docs[i := ApplySet(docs[i], s)]
      && (r.1 == 1 <==> ApplySet(docs[i], s) != docs[i])
  {
    match FirstMatch(docs, filter)
    case None => (docs, 0)
    case Some(i) =>
      var updated := ApplySet(docs[i], s);
      (docs[i := updated], if updated != docs[i] then 1 else 0)
  }

  /** `delete_one(filter)`: the new collection and the deleted count. */
  function DeleteOne(docs: seq<Document>, filter: Document): (r: (seq<Document>, nat))
    ensures r.1 == 1 <==> exists j :: 0 <= j < |docs| && Matches(docs[j], filter)
    ensures r.1 == 0 ==> r.0 == docs
    ensures |r.0| == |docs| - r.1
    ensures CountMatches(r.0, filter) + r.1 == CountMatches(docs, filter)
    ensures multiset(r.0) <= multiset(docs)
  {
    match FirstMatch(docs, filter)
    case None => (docs, 0)
    case Some(i) =>
      CountRemove(docs, i, filter);
      assert docs == docs[..i] + [docs[i]] + docs[i + 1..];
      (docs[..i] + docs[i + 1..], 1)
  }

  /** `replace_one(filter, doc, upsert)`: the first match is replaced; with
      no match, `doc` is inserted when upserting. */
  function ReplaceOne(docs: seq<Document>, filter: Document, doc: Document, upsert: bool): (r: seq<Document>)
    ensures FirstMatch(docs, filter).Some? || upsert ==> doc in r
    ensures |r| == if FirstMatch(docs, filter).None? && upsert then |docs| + 1 else |docs|
    ensures FirstMatch(docs, filter).None? && !upsert ==> r == docs
    ensures forall x :: x in r ==> x in docs || x == doc
    ensures FirstMatch(docs, filter).Some? ==> r == docs[FirstMatch(docs, filter).value := doc]
    ensures FirstMatch(docs, filter).None? && upsert ==> r == docs + [doc]
  {
    match FirstMatch(docs, filter)
    case Some(i) =>
      assert docs[i := doc][i] == doc;
      docs[i := doc]
    case None => if upsert then docs + [doc] else docs
  }

  /** `insert_one(doc)`. */
  function InsertOne(docs: seq<Document>, doc: Document): (r: seq<Document>)
    ensures |r| == |docs| + 1 && r[|docs|] == doc && r[..|docs|] == docs
  {
    docs + [doc]
  }

  // ---------------------------------------------------------------------
  // Counting lemmas

  /** Two filters over the same fields that one document satisfies are the
      same filter. */
  lemma SameFieldsSameFilter(d: Document, f: Document, g: Document)
    requires Matches(d, f) && Matches(d, g) && f.Keys == g.Keys
    ensures f == g
  {
  }

  lemma {:induction false} CountRemove(docs: seq<Document>, i: nat, filter: Document)
    requires i < |docs|
    ensures CountMatches(docs, filter)
         == CountMatches(docs[..i] + docs[i + 1..], filter) + (if Matches(docs[i], filter) then 1 else 0)
  {
    if i > 0 {
      CountRemove(docs[1..], i - 1, filter);
      assert (docs[..i] + docs[i + 1..])[1..] == docs[1..][..i - 1] + docs[1..][i..];
    } else {
      assert docs[..i] + docs[i + 1..] == docs[1..];
    }
  }

  lemma {:induction false} CountReplace(docs: seq<Document>, i: nat, d: Document, filter: Document)
    requires i < |docs|
    ensures CountMatches(docs[i := d], filter) + (if Matches(docs[i], filter) then 1 else 0)
         == CountMatches(docs, filter) + (if Matches(d, filter) then 1 else 0)
  {
    if i > 0 {
      assert docs[i := d][1..] == docs[1..][i - 1 := d];
      CountReplace(docs[1..], i - 1, d, filter);
    } else {
      assert docs[i := d][1..] == docs[1..];
    }
  }

  lemma {:induction false} CountAppend(docs: seq<Document>, d: Document, filter: Document)
    ensures CountMatches(docs + [d], filter) == CountMatches(docs, filter) + (if Matches(d, filter) then 1 else 0)
  {
    if docs != [] {
      assert (docs + [d])[1..] == docs[1..] + [d];
      CountAppend(docs[1..], d, filter);
    }
  }

  lemma {:induction false} CountZero(docs: seq<Document>, filter: Document)
    ensures CountMatches(docs, filter) == 0 <==> FirstMatch(docs, filter).None?
  {
    if docs != [] {
      CountZero(docs[1..], filter);
    }
  }

  /** An upsert of a document that matches its own filter leaves exactly
      one match when there was none and the same number otherwise, and never
      adds a match for a filter the document does not satisfy. */
  lemma UpsertCount(docs: seq<Document>, filter: Document, doc: Document, other: Document)
    requires Matches(doc, filter)
    ensures var r := ReplaceOne(docs, filter, doc, true);
      CountMatches(r, filter) == if CountMatches(docs, filter) == 0 then 1 else CountMatches(docs, filter)
    ensures !Matches(doc, other) ==> CountMatches(ReplaceOne(docs, filter, doc, true), other) <= CountMatches(docs, other)
  {
    CountZero(docs, filter);
    match FirstMatch(docs, filter)
    case Some(i) =>
      CountReplace(docs, i, doc, filter);
      CountReplace(docs, i, doc, other);
    case None =>
      CountAppend(docs, doc, filter);
      CountAppend(docs, doc, other);
  }

  // ---------------------------------------------------------------------
  // Sorting by "order"

  /** The sort key. A document without an integer "order" sorts first. */
  function OrderOf(d: Document): Option<int> {
    if "order" in d && d["order"].Int? then Some(d["order"].i) else None
  }

  predicate OrderLe(a: Document, b: Document) {
    OrderOf(a).None? || (OrderOf(b).Some? && OrderOf(a).value <= OrderOf(b).value)
  }

  predicate SortedByOrder(ds: seq<Document>) {
    forall i, j :: 0 <= i < j < |ds| ==> OrderLe(ds[i], ds[j])
  }

  lemma OrderLeTrans(a: Document, b: Document, c: Document)
    requires OrderLe(a, b) && OrderLe(b, c)
    ensures OrderLe(a, c)
  {
  }

  /** A sorted sequence after a document that precedes its head stays sorted. */
  lemma SortedCons(d: Document, ds: seq<Document>)
    requires SortedByOrder(ds)
    requires forall x :: x in ds ==> OrderLe(d, x)
    ensures SortedByOrder([d] + ds)
  {
    forall i, j | 0 <= i < j < |[d] + ds|
      ensures OrderLe(([d] + ds)[i], ([d] + ds)[j])
    {
      if i > 0 {
        assert ([d] + ds)[i] == ds[i - 1] && ([d] + ds)[j] == ds[j - 1];
      } else {
        assert ([d] + ds)[j] == ds[j - 1];
      }
    }
  }

  /** A document that precedes the head of a sorted sequence precedes all of it. */
  lemma PrecedesAll(d: Document, ds: seq<Document>)
    requires SortedByOrder(ds) && ds != [] && OrderLe(d, ds[0])
    ensures forall x :: x in ds ==> OrderLe(d, x)
  {
    forall x | x in ds ensures OrderLe(d, x) {
      var j :| 0 <= j < |ds| && ds[j] == x;
      if j > 0 {
        OrderLeTrans(d, ds[0], x);
      }
    }
  }

  /** The head of a sorted sequence precedes every document of a permutation
      of its tail with a later document added. */
  lemma HeadPrecedesRest(d: Document, ds: seq<Document>, rest: seq<Document>)
    requires SortedByOrder(ds) && ds != [] && !OrderLe(d, ds[0])
    requires multiset(rest) == multiset(ds[1..]) + multiset{d}
    ensures forall x :: x in rest ==> OrderLe(ds[0], x)
  {
    forall x | x in rest ensures OrderLe(ds[0], x) {
      assert x in multiset(rest);
      if x != d {
        assert x in multiset(ds[1..]);
        var j :| 0 <= j < |ds[1..]| && ds[1..][j] == x;
        assert ds[j + 1] == x;
      }
    }
  }

  /** Puts `d` before the first document it does not follow. */
  function InsertByOrder(d: Document, ds: seq<Document>): (r: seq<Document>)
    requires SortedByOrder(ds)
    ensures SortedByOrder(r)
    ensures multiset(r) == multiset(ds) + multiset{d}
  {
    if ds == [] then [d]
    else if OrderLe(d, ds[0]) then
      PrecedesAll(d, ds);
      SortedCons(d, ds);
      [d] + ds
    else
      var rest := InsertByOrder(d, ds[1..]);
      assert ds == [ds[0]] + ds[1..];
      HeadPrecedesRest(d, ds, rest);
      SortedCons(ds[0], rest);
      [ds[0]] + rest
  }

  /** `sort("order", 1)`: ascending by "order", a permutation of the input. */
  function SortByOrder(ds: seq<Document>): (r: seq<Document>)
    ensures SortedByOrder(r)
    ensures multiset(r) == multiset(ds)
  {
    if ds == [] then []
    else
      assert ds == [ds[0]] + ds[1..];
      InsertByOrder(ds[0], SortByOrder(ds[1..]))
  }
}
