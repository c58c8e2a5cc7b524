/** The request fingerprint of services/payment-service/src/idempotency.mjs:7-23: when are two JSON
    bodies given the same canonical form? The digest and JSON.stringify are taken to be
    collision-free on canonical forms, so this is when two requests have the same hash. */
module RequestHash {
  import opened Basics

  /** A parsed JSON value. Numbers and strings are atoms here; a member list is in enumeration order. */
  datatype Json = Null | Bool(b: bool) | Number(text: string) | Text(s: string) | Arr(items: Items) | Obj(fields: Fields)
  datatype Items = NoItems | Item(head: Json, tail: Items)
  datatype Fields = NoFields | Field(key: string, value: Json, rest: Fields)

  // ---------------------------------------------------------------- the order of keys

  predicate Digits(s: string) {
    forall i :: 0 <= i < |s| ==> '0' <= s[i] <= '9'
  }

  /** An array index: JavaScript enumerates such keys first, by value, whatever their insertion order. */
  predicate IsIndex(s: string) {
    && Digits(s) && (s == "0" || (s != [] && s[0] != '0'))
    && (|s| < 10 || (|s| == 10 && LexLess(s, "4294967295")))
  }

  /** The order in which the object built from sorted keys enumerates them. */
  predicate Before(a: string, b: string) {
    if IsIndex(a) then !IsIndex(b) || |a| < |b| || (|a| == |b| && LexLess(a, b))
    else !IsIndex(b) && LexLess(a, b)
  }

  lemma BeforeIsAStrictTotalOrder(a: string, b: string, c: string)
    ensures a == b || Before(a, b) || Before(b, a)
    ensures !(Before(a, b) && Before(b, a)) && !Before(a, a)
    ensures Before(a, b) && Before(b, c) ==> Before(a, c)
  {
    LexIsTotal(a, b);
    LexIsTotal(a, a);
    if LexLess(a, b) && LexLess(b, c) {
      LexIsTransitive(a, b, c);
    }
  }

  // ---------------------------------------------------------------- sortKeys

  /** Assigning this key to a fresh object sets its prototype instead of a member. */
  const PROTO := "__proto__"

  function Insert(key: string, value: Json, fields: Fields): Fields {
    match fields
    case NoFields => Field(key, value, NoFields)
    case Field(k, v, rest) => if Before(key, k) then Field(key, value, fields) else Field(k, v, Insert(key, value, rest))
  }

  function SortKeys(x: Json): Json {
    match x
    case Arr(items) => Arr(SortItems(items))
    case Obj(fields) => Obj(SortFields(fields))
    case _ => x
  }

  function SortItems(items: Items): Items {
    match items
    case NoItems => NoItems
    case Item(head, tail) => Item(SortKeys(head), SortItems(tail))
  }

  function SortFields(fields: Fields): Fields {
    match fields
    case NoFields => NoFields
    case Field(k, v, rest) => if k == PROTO then SortFields(rest) else Insert(k, SortKeys(v), SortFields(rest))
  }

  /** What is hashed: `sortKeys(input ?? {})`. */
  function Canonical(input: Json): Json {
    SortKeys(Body(input))
  }

  function Body(input: Json): Json {
    if input == Null then Obj(NoFields) else input
  }

  // ---------------------------------------------------------------- equality up to key order

  function Keys(fields: Fields): set<string> {
    match fields case NoFields => {} case Field(k, _, rest) => {k} + Keys(rest)
  }

  function Get(fields: Fields, key: string): Json
    requires key in Keys(fields)
  {
    if fields.key == key then fields.value else Get(fields.rest, key)
  }

  function Remove(fields: Fields, key: string): Fields {
    match fields
    case NoFields => NoFields
    case Field(k, v, rest) => if k == key then rest else Field(k, v, Remove(rest, key))
  }

  /** A JSON object has no key twice. */
  predicate WellFormed(x: Json) {
    match x case Arr(items) => WellFormedItems(items) case Obj(fields) => WellFormedFields(fields) case _ => true
  }

  predicate WellFormedItems(items: Items) {
    match items case NoItems => true case Item(head, tail) => WellFormed(head) && WellFormedItems(tail)
  }

  predicate WellFormedFields(fields: Fields) {
    match fields case NoFields => true case Field(k, v, rest) => k !in Keys(rest) && WellFormed(v) && WellFormedFields(rest)
  }

  /** The same value up to the order of keys, at every depth. */
  predicate KeyPermuted(x: Json, y: Json) {
    match x
    case Arr(items) => y.Arr? && PermutedItems(items, y.items)
    case Obj(fields) => y.Obj? && PermutedFields(fields, y.fields)
    case _ => x == y
  }

  predicate PermutedItems(a: Items, b: Items) {
    match a
    case NoItems => b == NoItems
    case Item(head, tail) => b.Item? && KeyPermuted(head, b.head) && PermutedItems(tail, b.tail)
  }

  predicate PermutedFields(a: Fields, b: Fields) {
    match a
    case NoFields => b == NoFields
    case Field(k, v, rest) => k in Keys(b) && KeyPermuted(v, Get(b, k)) && PermutedFields(rest, Remove(b, k))
  }

  /** The value without any member named "__proto__", at every depth. */
  function Strip(x: Json): Json {
    match x case Arr(items) => Arr(StripItems(items)) case Obj(fields) => Obj(StripFields(fields)) case _ => x
  }

  function StripItems(items: Items): Items {
    match items case NoItems => NoItems case Item(head, tail) => Item(Strip(head), StripItems(tail))
  }

  function StripFields(fields: Fields): (r: Fields)
    ensures Keys(r) == Keys(fields) - {PROTO}
  {
    match fields
    case NoFields => NoFields
    case Field(k, v, rest) => if k == PROTO then StripFields(rest) else Field(k, Strip(v), StripFields(rest))
  }

  // ---------------------------------------------------------------- insertion

  lemma {:induction false} InsertCommutes(a: string, x: Json, b: string, y: Json, fields: Fields)
    requires a != b
    ensures Insert(a, x, Insert(b, y, fields)) == Insert(b, y, Insert(a, x, fields))
  {
    BeforeIsAStrictTotalOrder(a, b, b);
    match fields
    case NoFields =>
    case Field(k, v, rest) =>
      BeforeIsAStrictTotalOrder(a, b, k);
      BeforeIsAStrictTotalOrder(b, a, k);
      InsertCommutes(a, x, b, y, rest);
  }

  lemma {:induction false} InsertedAndRemoved(key: string, x: Json, fields: Fields)
    ensures Keys(Insert(key, x, fields)) == Keys(fields) + {key}
    ensures key !in Keys(fields) ==> Get(Insert(key, x, fields), key) == x && Remove(Insert(key, x, fields), key) == fields
  {
    match fields
    case NoFields =>
    case Field(k, v, rest) => InsertedAndRemoved(key, x, rest);
  }

  lemma {:induction false} KeysOfSorted(fields: Fields)
    ensures Keys(SortFields(fields)) == Keys(fields) - {PROTO}
  {
    match fields
    case NoFields =>
    case Field(k, v, rest) =>
      KeysOfSorted(rest);
      InsertedAndRemoved(k, SortKeys(v), SortFields(rest));
  }

  lemma {:induction false} KeysAfterRemove(fields: Fields, key: string)
    requires WellFormedFields(fields)
    ensures WellFormedFields(Remove(fields, key)) && Keys(Remove(fields, key)) == Keys(fields) - {key}
    ensures key in Keys(fields) ==> WellFormed(Get(fields, key))
  {
    match fields
    case NoFields =>
    case Field(k, v, rest) =>
      KeysAfterRemove(rest, key);
  }

  /** Any member can be taken out and inserted last. */
  lemma {:induction false} SortedWithout(fields: Fields, key: string)
    requires WellFormedFields(fields) && key in Keys(fields) && key != PROTO
    ensures SortFields(fields) == Insert(key, SortKeys(Get(fields, key)), SortFields(Remove(fields, key)))
  {
    var k, v, rest := fields.key, fields.value, fields.rest;
    if k != key {
      SortedWithout(rest, key);
      if k != PROTO {
        InsertCommutes(k, SortKeys(v), key, SortKeys(Get(rest, key)), SortFields(Remove(rest, key)));
      }
    }
  }

  // ---------------------------------------------------------------- equal exactly on key-permuted values

  lemma {:induction false} PermutedSortEqual(x: Json, y: Json)
    requires WellFormed(x) && WellFormed(y) && NoProto(x) && KeyPermuted(x, y)
    ensures SortKeys(x) == SortKeys(y)
  {
    match x
    case Arr(items) => PermutedItemsSortEqual(items, y.items);
    case Obj(fields) => PermutedFieldsSortEqual(fields, y.fields);
    case _ =>
  }

  lemma {:induction false} PermutedItemsSortEqual(a: Items, b: Items)
    requires WellFormedItems(a) && WellFormedItems(b) && NoProtoItems(a) && PermutedItems(a, b)
    ensures SortItems(a) == SortItems(b)
  {
    match a
    case NoItems =>
    case Item(head, tail) =>
      PermutedSortEqual(head, b.head);
      PermutedItemsSortEqual(tail, b.tail);
  }

  lemma {:induction false} PermutedFieldsSortEqual(a: Fields, b: Fields)
    requires WellFormedFields(a) && WellFormedFields(b) && NoProtoFields(a) && PermutedFields(a, b)
    ensures SortFields(a) == SortFields(b)
  {
    match a
    case NoFields =>
    case Field(k, v, rest) =>
      KeysAfterRemove(b, k);
      PermutedSortEqual(v, Get(b, k));
      PermutedFieldsSortEqual(rest, Remove(b, k));
      SortedWithout(b, k);
  }

  lemma {:induction false} SortEqualPermuted(x: Json, y: Json)
    requires WellFormed(x) && WellFormed(y) && NoProto(x) && NoProto(y) && SortKeys(x) == SortKeys(y)
    ensures KeyPermuted(x, y)
  {
    match x
    case Arr(items) => SortEqualPermutedItems(items, y.items);
    case Obj(fields) => SortEqualPermutedFields(fields, y.fields);
    case _ =>
  }

  lemma {:induction false} SortEqualPermutedItems(a: Items, b: Items)
    requires WellFormedItems(a) && WellFormedItems(b) && NoProtoItems(a) && NoProtoItems(b) && SortItems(a) == SortItems(b)
    ensures PermutedItems(a, b)
  {
    match a
    case NoItems =>
    case Item(head, tail) =>
      SortEqualPermuted(head, b.head);
      SortEqualPermutedItems(tail, b.tail);
  }

  lemma {:induction false} SortEqualPermutedFields(a: Fields, b: Fields)
    requires WellFormedFields(a) && WellFormedFields(b) && NoProtoFields(a) && NoProtoFields(b)
    requires SortFields(a) == SortFields(b)
    ensures PermutedFields(a, b)
  {
    KeysOfSorted(a);
    KeysOfSorted(b);
    NoProtoMembers(a);
    NoProtoMembers(b);
    match a
    case NoFields =>
      assert Keys(b) == {};
    case Field(k, v, rest) =>
      assert Keys(a) == {k} + Keys(rest) && k in Keys(SortFields(a));
      KeysOfSorted(rest);
      KeysOfSorted(Remove(b, k));
      KeysAfterRemove(b, k);
      SortedWithout(b, k);
      InsertedAndRemoved(k, SortKeys(v), SortFields(rest));
      InsertedAndRemoved(k, SortKeys(Get(b, k)), SortFields(Remove(b, k)));
      NoProtoWithout(b, k);
      SortEqualPermuted(v, Get(b, k));
      SortEqualPermutedFields(rest, Remove(b, k));
  }

  predicate NoProto(x: Json) {
    match x case Arr(items) => NoProtoItems(items) case Obj(fields) => NoProtoFields(fields) case _ => true
  }

  predicate NoProtoItems(items: Items) {
    match items case NoItems => true case Item(head, tail) => NoProto(head) && NoProtoItems(tail)
  }

  predicate NoProtoFields(fields: Fields) {
    match fields case NoFields => true case Field(k, v, rest) => k != PROTO && NoProto(v) && NoProtoFields(rest)
  }

  lemma {:induction false} NoProtoMembers(fields: Fields)
    requires NoProtoFields(fields)
    ensures PROTO !in Keys(fields)
  {
    match fields case NoFields => case Field(_, _, rest) => NoProtoMembers(rest);
  }

  lemma {:induction false} NoProtoWithout(fields: Fields, key: string)
    requires NoProtoFields(fields) && key in Keys(fields)
    ensures NoProto(Get(fields, key)) && NoProtoFields(Remove(fields, key))
  {
    if fields.key != key {
      NoProtoWithout(fields.rest, key);
    }
  }

  lemma {:induction false} StripIsClean(x: Json)
    requires WellFormed(x)
    ensures WellFormed(Strip(x)) && NoProto(Strip(x)) && SortKeys(Strip(x)) == SortKeys(x)
  {
    match x case Arr(items) => StripItemsIsClean(items); case Obj(fields) => StripFieldsIsClean(fields); case _ =>
  }

  lemma {:induction false} StripItemsIsClean(items: Items)
    requires WellFormedItems(items)
    ensures WellFormedItems(StripItems(items)) && NoProtoItems(StripItems(items)) && SortItems(StripItems(items)) == SortItems(items)
  {
    match items
    case NoItems =>
    case Item(head, tail) =>
      StripIsClean(head);
      StripItemsIsClean(tail);
  }

  lemma {:induction false} StripFieldsIsClean(fields: Fields)
    requires WellFormedFields(fields)
    ensures WellFormedFields(StripFields(fields)) && NoProtoFields(StripFields(fields))
    ensures SortFields(StripFields(fields)) == SortFields(fields)
  {
    match fields
    case NoFields =>
    case Field(k, v, rest) =>
      StripIsClean(v);
      StripFieldsIsClean(rest);
  }

  /** Two bodies have the same canonical form exactly when, leaving out members named "__proto__",
      they are the same value up to the order of keys. */
  lemma SameCanonicalExactlyWhenPermuted(x: Json, y: Json)
    requires WellFormed(x) && WellFormed(y)
    ensures Canonical(x) == Canonical(y) <==> KeyPermuted(Strip(Body(x)), Strip(Body(y)))
  {
    StripIsClean(Body(x));
    StripIsClean(Body(y));
    if Canonical(x) == Canonical(y) {
      SortEqualPermuted(Strip(Body(x)), Strip(Body(y)));
    }
    if KeyPermuted(Strip(Body(x)), Strip(Body(y))) {
      PermutedSortEqual(Strip(Body(x)), Strip(Body(y)));
    }
  }

  /** The dropped key is visible: two different bodies with one fingerprint. */
  lemma ProtoMemberIsInvisible()
    ensures
      var x, y := Obj(Field(PROTO, Bool(true), NoFields)), Obj(NoFields);
      WellFormed(x) && WellFormed(y) && !KeyPermuted(x, y) && Canonical(x) == Canonical(y)
  {
    var x := Obj(Field(PROTO, Bool(true), NoFields));
    assert SortFields(x.fields) == SortFields(NoFields);
    assert WellFormedFields(x.fields);
  }

  // ---------------------------------------------------------------- idempotence

  /** Every key comes before all later ones. */
  predicate Ordered(fields: Fields) {
    match fields
    case NoFields => true
    case Field(k, v, rest) => IsCanonical(v) && k != PROTO && (rest.Field? ==> Before(k, rest.key)) && Ordered(rest)
  }

  predicate IsCanonical(x: Json) {
    match x case Arr(items) => AllCanonical(items) case Obj(fields) => Ordered(fields) case _ => true
  }

  predicate AllCanonical(items: Items) {
    match items case NoItems => true case Item(head, tail) => IsCanonical(head) && AllCanonical(tail)
  }

  lemma {:induction false} InsertKeepsOrder(key: string, x: Json, fields: Fields)
    requires Ordered(fields) && IsCanonical(x) && key != PROTO && key !in Keys(fields)
    ensures Ordered(Insert(key, x, fields))
  {
    match fields
    case NoFields =>
    case Field(k, v, rest) =>
      BeforeIsAStrictTotalOrder(key, k, k);
      InsertKeepsOrder(key, x, rest);
  }

  lemma {:induction false} SortedIsCanonical(x: Json)
    requires WellFormed(x)
    ensures IsCanonical(SortKeys(x))
  {
    match x case Arr(items) => SortedItemsAreCanonical(items); case Obj(fields) => SortedFieldsAreOrdered(fields); case _ =>
  }

  lemma {:induction false} SortedItemsAreCanonical(items: Items)
    requires WellFormedItems(items)
    ensures AllCanonical(SortItems(items))
  {
    match items
    case NoItems =>
    case Item(head, tail) =>
      SortedIsCanonical(head);
      SortedItemsAreCanonical(tail);
  }

  lemma {:induction false} SortedFieldsAreOrdered(fields: Fields)
    requires WellFormedFields(fields)
    ensures Ordered(SortFields(fields))
  {
    match fields
    case NoFields =>
    case Field(k, v, rest) =>
      SortedFieldsAreOrdered(rest);
      if k != PROTO {
        SortedIsCanonical(v);
        KeysOfSorted(rest);
        InsertKeepsOrder(k, SortKeys(v), SortFields(rest));
      }
  }

  lemma {:induction false} CanonicalIsFixed(x: Json)
    requires IsCanonical(x)
    ensures SortKeys(x) == x
  {
    match x case Arr(items) => CanonicalItemsAreFixed(items); case Obj(fields) => OrderedIsFixed(fields); case _ =>
  }

  lemma {:induction false} CanonicalItemsAreFixed(items: Items)
    requires AllCanonical(items)
    ensures SortItems(items) == items
  {
    match items
    case NoItems =>
    case Item(head, tail) =>
      CanonicalIsFixed(head);
      CanonicalItemsAreFixed(tail);
  }

  lemma {:induction false} OrderedIsFixed(fields: Fields)
    requires Ordered(fields)
    ensures SortFields(fields) == fields
  {
    match fields
    case NoFields =>
    case Field(k, v, rest) =>
      CanonicalIsFixed(v);
      OrderedIsFixed(rest);
  }

  /** `sortKeys` is idempotent. */
  lemma SortKeysIsIdempotent(x: Json)
    requires WellFormed(x)
    ensures SortKeys(SortKeys(x)) == SortKeys(x)
  {
    SortedIsCanonical(x);
    CanonicalIsFixed(SortKeys(x));
  }
}
