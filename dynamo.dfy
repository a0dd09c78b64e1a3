/** The slice of the DynamoDB client the repositories use: string attribute values, items as
    attribute maps, query and point-get requests, and the two outcomes of a call (an answer,
    or a `DynamoDbException`). A table is a sequence of items; a query filters it in order. */
module Dynamo {
  import opened Common

  /** An `AttributeValue`; only its string payload `s()` is read, and it may be null. */
  datatype AttributeValue = AttributeValue(s: Option<string>)

  /** `AttributeValue.builder().s(text).build()`. */
  function S(text: string): AttributeValue {
    AttributeValue(Some(text))
  }

  /** An item: attribute name to value. */
  type Item = map<string, AttributeValue>

  /** Partition- and sort-key attribute names of the city table. */
  const PartitionKey := "pk"
  const SortKey := "sk"

  /** The key condition expressions the repositories send. */
  datatype KeyCondition =
    | PartitionAndSortEqual(pk: AttributeValue, sk: AttributeValue)   // `pk = :pkValue and sk = :skValue`
    | PartitionAndSortPrefix(pk: AttributeValue, skPrefix: AttributeValue)   // `pk = :pkValue and begins_with(sk, :skValue)`

  /** A filter expression `attribute = :value`, after the `#name` placeholder is substituted. */
  datatype Filter = AttributeEquals(attribute: string, value: AttributeValue)

  datatype QueryRequest = QueryRequest(tableName: string, key: KeyCondition, filter: Option<Filter>)

  datatype GetItemRequest = GetItemRequest(tableName: string, key: Item)

  /** The outcome of one client call: an answer, a `DynamoDbException`, or an exception of
      any other class (an `SdkClientException`, say), which the repositories do not catch. */
  datatype Outcome<T> = Answered(value: T) | DynamoDbFailure(message: string) | OtherFailure(message: string)

  /** A synchronous client, as seen by the repositories. */
  type QueryClient = QueryRequest -> Outcome<seq<Item>>
  type GetItemClient = GetItemRequest -> Outcome<Option<Item>>

  /** The string payload of an attribute: null for a null item, an absent attribute or a
      value without a string (the `getAttributeValue` helpers of the read mappers). */
  function StringAttribute(item: Option<Item>, name: string): (r: Option<string>)
    ensures r.Some? <==> item.Some? && name in item.value && item.value[name].s.Some?
    ensures r.Some? ==> r.value == item.value[name].s.value
  {
    if item.None? then None
    else if name in item.value then item.value[name].s
    else None
  }

  /** `str` starts with `prefix`. */
  predicate StartsWith(str: string, prefix: string) {
    |prefix| <= |str| && str[..|prefix|] == prefix
  }

  /** The item holds attribute `name` with exactly value `v`. */
  predicate HasAttribute(item: Item, name: string, v: AttributeValue) {
    name in item && item[name] == v
  }

  predicate MatchesKey(item: Item, key: KeyCondition) {
    match key
    case PartitionAndSortEqual(pk, sk) =>
      HasAttribute(item, PartitionKey, pk) && HasAttribute(item, SortKey, sk)
    case PartitionAndSortPrefix(pk, prefix) =>
      HasAttribute(item, PartitionKey, pk) && SortKey in item
      && item[SortKey].s.Some? && prefix.s.Some? && StartsWith(item[SortKey].s.value, prefix.s.value)
  }

  predicate MatchesFilter(item: Item, filter: Option<Filter>) {
    match filter
    case None => true
    case Some(AttributeEquals(name, v)) => HasAttribute(item, name, v)
  }

  predicate MatchesQuery(item: Item, q: QueryRequest) {
    MatchesKey(item, q.key) && MatchesFilter(item, q.filter)
  }

  /** The items a query returns from a table, in table order. */
  function Query(table: seq<Item>, q: QueryRequest): (r: seq<Item>)
    ensures |r| <= |table|
    ensures forall x :: x in r ==> x in table && MatchesQuery(x, q)
    ensures forall x :: x in table && MatchesQuery(x, q) ==> x in r
  {
    if |table| == 0 then []
    else
      var rest := Query(table[1..], q);
      if MatchesQuery(table[0], q) then [table[0]] + rest else rest
  }

  /** Query order is table order: querying two parts of a table one after the other gives
      the query of the whole table. */
  lemma {:induction false} QueryConcat(a: seq<Item>, b: seq<Item>, q: QueryRequest)
    ensures Query(a + b, q) == Query(a, q) + Query(b, q)
    decreases |a|
  {
    if |a| > 0 {
      assert (a + b)[1..] == a[1..] + b;
      assert (a + b)[0] == a[0];
      QueryConcat(a[1..], b, q);
    } else {
      assert a + b == b;
    }
  }

  /** A table without a matching item answers nothing. */
  lemma NoMatchQueriesEmpty(table: seq<Item>, q: QueryRequest)
    requires forall x :: x in table ==> !MatchesQuery(x, q)
    ensures Query(table, q) == []
  {
    if Query(table, q) != [] {
      assert Query(table, q)[0] in Query(table, q);
    }
  }

  /** A client backed by a table that always answers. */
  function TableQueryClient(table: seq<Item>): QueryClient {
    (q: QueryRequest) => Answered(Query(table, q))
  }

  /** The item holds every entry of the key. */
  predicate HasKey(item: Item, key: Item) {
    forall k :: k in key ==> HasAttribute(item, k, key[k])
  }

  /** A point get: the first item holding the key, if any. */
  function GetItem(table: seq<Item>, key: Item): (r: Option<Item>)
    ensures r.Some? ==> r.value in table && HasKey(r.value, key)
    ensures r.None? <==> forall x :: x in table ==> !HasKey(x, key)
  {
    if |table| == 0 then None
    else if HasKey(table[0], key) then Some(table[0])
    else GetItem(table[1..], key)
  }

  function TableGetItemClient(table: seq<Item>): GetItemClient {
    (g: GetItemRequest) => Answered(GetItem(table, g.key))
  }
}
