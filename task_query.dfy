/**
 * How `getTasks` (backend/src/controllers/task.controller.js) turns the
 * request's query string into a database query: an equality filter built
 * from the query minus the paging keys and scoped to the requester, and a
 * sort order built from the `sort` parameter. The part of Mongoose that the
 * handler relies on is modelled too: a document matches a filter when it
 * holds every filtered field with the filtered value, and a sort string is
 * a space-separated list of fields, each descending when prefixed by `-`.
 */
module TaskQuery {
  import opened Wrappers
  import Text

  /** A parsed query string, and a stored document: field name to value. */
  type Query = map<string, string>
  type Doc = map<string, string>
  type TaskId = string

  /** The field holding a task's owner. */
  const OwnerField: string := "userId"

  /** The paging and projection keys that `getTasks` deletes from its copy of the query. */
  const RemoveFields: seq<string> := ["select", "sort", "page", "limit"]

  /** The sort used when the query names none: newest first. */
  const DefaultSort: string := "-created_at"

  /** A stored task together with its id. */
  datatype Task = Task(id: TaskId, doc: Doc)

  /** The filter `getTasks` hands to `Task.find`, stated as a value. */
  function FilterOf(query: Query, requester: string): Query
  {
    (map k | k in query && k !in RemoveFields :: query[k])[OwnerField := requester]
  }

  /**
   * Copy the query, delete each of the four paging keys in turn, then set
   * the owner field to the requester.
   */
  method BuildFilter(query: Query, requester: string) returns (filter: Query)
    ensures filter == FilterOf(query, requester)
  {
    filter := query;
    var i := 0;
    while i < |RemoveFields|
      invariant 0 <= i <= |RemoveFields|
      invariant forall k :: k in filter <==> k in query && k !in RemoveFields[..i]
      invariant forall k :: k in filter ==> filter[k] == query[k]
    {
      filter := filter - {RemoveFields[i]};
      i := i + 1;
    }
    filter := filter[OwnerField := requester];
  }

  /**
   * The filter keeps every other key of the query with its value, drops the
   * four paging keys, and holds the requester as owner whatever the client sent.
   */
  lemma FilterKeepsOtherKeys(query: Query, requester: string, k: string)
    ensures k in RemoveFields && k != OwnerField ==> k !in FilterOf(query, requester)
    ensures k in query && k !in RemoveFields && k != OwnerField ==>
              k in FilterOf(query, requester) && FilterOf(query, requester)[k] == query[k]
    ensures k in FilterOf(query, requester) ==> k == OwnerField || k in query
    ensures OwnerField in FilterOf(query, requester) && FilterOf(query, requester)[OwnerField] == requester
  {
  }

  /** Mongoose equality matching: every filtered field is present with the filtered value. */
  predicate Matches(doc: Doc, filter: Query)
    ensures Matches(doc, filter) <==> filter.Items <= doc.Items
  {
    FieldwiseIsSubmap(doc, filter);
    forall k :: k in filter ==> k in doc && doc[k] == filter[k]
  }

  /** Agreeing with every field of the filter is holding every pair of it. */
  lemma FieldwiseIsSubmap(doc: Doc, filter: Query)
    ensures (forall k :: k in filter ==> k in doc && doc[k] == filter[k]) <==> filter.Items <= doc.Items
  {
    if forall k :: k in filter ==> k in doc && doc[k] == filter[k] {
      forall p | p in filter.Items
        ensures p in doc.Items
      {
        assert p.0 in filter && filter[p.0] == p.1;
      }
    }
    if filter.Items <= doc.Items {
      forall k | k in filter
        ensures k in doc && doc[k] == filter[k]
      {
        assert (k, filter[k]) in filter.Items;
      }
    }
  }

  /** Whatever the query, a document that matches the filter belongs to the requester. */
  lemma MatchedBelongsToRequester(doc: Doc, query: Query, requester: string)
    requires Matches(doc, FilterOf(query, requester))
    ensures OwnerField in doc && doc[OwnerField] == requester
  {
    FilterKeepsOtherKeys(query, requester, OwnerField);
  }

  // ---------------------------------------------------------------- sorting

  /** `req.query.sort` when present and non-empty, with commas turned into spaces; `-created_at` otherwise. */
  function SortSpec(sortParam: Option<string>): (spec: string)
    ensures !Text.Truthy(sortParam) ==> spec == DefaultSort
    ensures Text.Truthy(sortParam) ==> spec == Text.Replace(sortParam.value, ',', ' ')
  {
    if Text.Truthy(sortParam) then
      Text.JoinSplitReplaces(sortParam.value, ',', ' ');
      Text.Join(Text.Split(sortParam.value, ','), ' ')
    else DefaultSort
  }

  /** The `sort` entry of a query, if any. */
  function SortParam(query: Query): Option<string> {
    if "sort" in query then Some(query["sort"]) else None
  }

  datatype Direction = Ascending | Descending
  datatype SortKey = SortKey(field: string, dir: Direction)

  /** One token of a sort string: `-f` sorts on `f` descending, anything else ascending. */
  function KeyOf(token: string): (key: SortKey)
    requires token != ""
    ensures token == (if key.dir == Descending then "-" else "") + key.field
  {
    if token[0] == '-' then SortKey(token[1..], Descending) else SortKey(token, Ascending)
  }

  /** The keys of a token list, empty tokens skipped. */
  function KeysOf(tokens: seq<string>): (keys: seq<SortKey>)
    ensures |keys| <= |tokens|
    ensures forall k :: k in keys ==> exists t :: t in tokens && t != "" && k == KeyOf(t)
  {
    if |tokens| == 0 then []
    else if tokens[0] == "" then KeysOf(tokens[1..])
    else [KeyOf(tokens[0])] + KeysOf(tokens[1..])
  }

  /**
   * The sort keys of a Mongoose sort string: its space-separated tokens in
   * order. No field name holds a space, and a string of one token is one key.
   */
  function SortKeys(spec: string): (keys: seq<SortKey>)
    ensures forall k :: k in keys ==> ' ' !in k.field
    ensures spec != "" && ' ' !in spec ==> keys == [KeyOf(spec)]
  {
    TokenKeys(spec);
    KeysOf(Text.Split(spec, ' '))
  }

  /** What `SortKeys` promises, shown on the split tokens. */
  lemma TokenKeys(spec: string)
    ensures forall k :: k in KeysOf(Text.Split(spec, ' ')) ==> ' ' !in k.field
    ensures spec != "" && ' ' !in spec ==> KeysOf(Text.Split(spec, ' ')) == [KeyOf(spec)]
  {
    var tokens := Text.Split(spec, ' ');
    forall k | k in KeysOf(tokens)
      ensures ' ' !in k.field
    {
      var t :| t in tokens && t != "" && k == KeyOf(t);
      assert ' ' !in t;
      assert t == (if k.dir == Descending then "-" else "") + k.field;
    }
    if spec != "" && ' ' !in spec {
      Text.SplitWithoutSeparator(spec, ' ');
      assert KeysOf([spec][1..]) == [];
    }
  }

  /** With no (or an empty) `sort` parameter the listing is ordered by `created_at`, descending only. */
  lemma DefaultSortIsNewestFirst(sortParam: Option<string>)
    requires !Text.Truthy(sortParam)
    ensures SortKeys(SortSpec(sortParam)) == [SortKey("created_at", Descending)]
  {
    Text.SplitWithoutSeparator(DefaultSort, ' ');
    assert KeysOf([DefaultSort][1..]) == [];
  }

  /** A comma list of field names without spaces orders by those fields, in the order given. */
  lemma {:induction false} CommaListOrdersByEachField(s: string)
    requires s != "" && ' ' !in s
    ensures SortKeys(SortSpec(Some(s))) == KeysOf(Text.Split(s, ','))
  {
    var parts := Text.Split(s, ',');
    forall i | 0 <= i < |parts| ensures ' ' !in parts[i] {
      SplitPartsAreInfixes(s, ',', i);
    }
    Text.SplitJoinRoundTrip(parts, ' ');
  }

  /** No part of a split holds a character that the whole string lacks. */
  lemma {:induction false} SplitPartsAreInfixes(s: string, c: char, i: int)
    requires 0 <= i < |Text.Split(s, c)|
    ensures forall x :: x in Text.Split(s, c)[i] ==> x in s
  {
    if |s| > 0 {
      var rest := Text.Split(s[1..], c);
      if s[0] == c {
        if i > 0 { SplitPartsAreInfixes(s[1..], c, i - 1); }
      } else if i == 0 {
        SplitPartsAreInfixes(s[1..], c, 0);
      } else {
        SplitPartsAreInfixes(s[1..], c, i);
      }
    }
  }

  /** Lexicographic comparison by code point, as MongoDB orders strings: -1, 0 or 1. */
  function CompareStrings(a: string, b: string): (c: int)
    ensures -1 <= c <= 1
    ensures c == 0 <==> a == b
  {
    if |a| == 0 && |b| == 0 then 0
    else if |a| == 0 then -1
    else if |b| == 0 then 1
    else if a[0] < b[0] then -1
    else if a[0] > b[0] then 1
    else
      var c := CompareStrings(a[1..], b[1..]);
      assert c == 0 ==> a == [a[0]] + a[1..] == [b[0]] + b[1..] == b;
      c
  }

  lemma {:induction false} CompareStringsAntisymmetric(a: string, b: string)
    ensures CompareStrings(a, b) == -CompareStrings(b, a)
  {
    if |a| > 0 && |b| > 0 && a[0] == b[0] {
      CompareStringsAntisymmetric(a[1..], b[1..]);
    }
  }

  /** A missing field sorts before any value. */
  function CompareValues(a: Option<string>, b: Option<string>): (c: int)
    ensures -1 <= c <= 1
    ensures c == 0 <==> a == b
  {
    match (a, b)
    case (None, None) => 0
    case (None, Some(_)) => -1
    case (Some(_), None) => 1
    case (Some(x), Some(y)) => CompareStrings(x, y)
  }

  function FieldValue(doc: Doc, field: string): Option<string> {
    if field in doc then Some(doc[field]) else None
  }

  /** Compare two documents on the first key that tells them apart. */
  function CompareDocs(a: Doc, b: Doc, keys: seq<SortKey>): (c: int)
    ensures -1 <= c <= 1
  {
    if |keys| == 0 then 0
    else
      var c := CompareValues(FieldValue(a, keys[0].field), FieldValue(b, keys[0].field));
      var c' := if keys[0].dir == Descending then -c else c;
      if c' != 0 then c' else CompareDocs(a, b, keys[1..])
  }

  lemma {:induction false} CompareDocsAntisymmetric(a: Doc, b: Doc, keys: seq<SortKey>)
    ensures CompareDocs(a, b, keys) == -CompareDocs(b, a, keys)
  {
    if |keys| > 0 {
      var x, y := FieldValue(a, keys[0].field), FieldValue(b, keys[0].field);
      if x.Some? && y.Some? {
        CompareStringsAntisymmetric(x.value, y.value);
      }
      CompareDocsAntisymmetric(a, b, keys[1..]);
    }
  }

  /** Adjacent tasks are in the order the keys ask for. */
  predicate SortedBy(ts: seq<Task>, keys: seq<SortKey>) {
    forall i :: 0 <= i < |ts| - 1 ==> CompareDocs(ts[i].doc, ts[i + 1].doc, keys) <= 0
  }

  /** Insert `t` before the first task it does not sort after. */
  function Insert(t: Task, ts: seq<Task>, keys: seq<SortKey>): (r: seq<Task>)
    requires SortedBy(ts, keys)
    ensures multiset(r) == multiset(ts) + multiset{t}
    ensures |r| == |ts| + 1
    ensures r[0] == t || (|ts| > 0 && r[0] == ts[0])
    ensures SortedBy(r, keys)
  {
    if |ts| == 0 then [t]
    else if CompareDocs(t.doc, ts[0].doc, keys) <= 0 then [t] + ts
    else
      CompareDocsAntisymmetric(t.doc, ts[0].doc, keys);
      assert ts == [ts[0]] + ts[1..];
      [ts[0]] + Insert(t, ts[1..], keys)
  }

  /** The tasks in the order the keys ask for, a permutation of the input. */
  function Sort(ts: seq<Task>, keys: seq<SortKey>): (r: seq<Task>)
    ensures multiset(r) == multiset(ts)
    ensures SortedBy(r, keys)
  {
    if |ts| == 0 then []
    else
      assert ts == [ts[0]] + ts[1..];
      Insert(ts[0], Sort(ts[1..], keys), keys)
  }

  /**
   * Under the default order, each listed task was created no earlier than the
   * one after it (a missing `created_at` counts as earliest).
   */
  lemma NewestFirst(ts: seq<Task>, i: int)
    requires SortedBy(ts, [SortKey("created_at", Descending)])
    requires 0 <= i < |ts| - 1
    ensures CompareValues(FieldValue(ts[i + 1].doc, "created_at"), FieldValue(ts[i].doc, "created_at")) <= 0
  {
    var a, b := FieldValue(ts[i].doc, "created_at"), FieldValue(ts[i + 1].doc, "created_at");
    assert CompareDocs(ts[i].doc, ts[i + 1].doc, [SortKey("created_at", Descending)]) <= 0;
    if a.Some? && b.Some? {
      CompareStringsAntisymmetric(a.value, b.value);
    }
  }
}
