/**
 * Configuration values of contracts.py: what freezing accepts, the primitive
 * (JSON) form of a frozen value, and why its canonical form is a sound identity.
 * A mapping is kept in insertion order, as a Python dict is.
 */
module CanonicalValues {
  import opened Wrappers

  datatype Value =
    | Null
    | Bool(b: bool)
    | Int(i: int)
    | Real(r: real)
    | Str(s: string)
    | List(items: Items)
    | Tuple(items: Items)
    | Mapping(fields: Fields)

  datatype Items = NoItems | Item(head: Value, tail: Items)

  datatype Fields = NoFields | Field(key: string, value: Value, rest: Fields)

  datatype FreezeError = EmptyKey

  // ----- dictionaries -----

  function Keys(f: Fields): set<string> {
    match f
    case NoFields => {}
    case Field(k, _, rest) => {k} + Keys(rest)
  }

  function Lookup(f: Fields, k: string): Option<Value> {
    match f
    case NoFields => None
    case Field(key, v, rest) => if key == k then Some(v) else Lookup(rest, k)
  }

  function Append(f: Fields, g: Fields): Fields {
    match f
    case NoFields => g
    case Field(k, v, rest) => Field(k, v, Append(rest, g))
  }

  /** A value of the source: no dictionary binds a key twice. */
  predicate WellFormed(v: Value) {
    match v
    case List(items) => WellFormedItems(items)
    case Tuple(items) => WellFormedItems(items)
    case Mapping(f) => WellFormedFields(f)
    case _ => true
  }

  predicate WellFormedItems(xs: Items) {
    xs.Item? ==> WellFormed(xs.head) && WellFormedItems(xs.tail)
  }

  predicate WellFormedFields(f: Fields) {
    f.Field? ==> f.key !in Keys(f.rest) && WellFormed(f.value) && WellFormedFields(f.rest)
  }

  // ----- freezing and the primitive form -----

  function FreezeValue(v: Value): Result<Value, FreezeError> {
    match v
    case Mapping(f) => var g :- FreezeFields(f); Ok(Mapping(g))
    case List(items) => var xs :- FreezeItems(items); Ok(Tuple(xs))
    case Tuple(items) => var xs :- FreezeItems(items); Ok(Tuple(xs))
    case _ => Ok(v)
  }

  function FreezeItems(xs: Items): Result<Items, FreezeError> {
    match xs
    case NoItems => Ok(NoItems)
    case Item(h, t) => var h' :- FreezeValue(h); var t' :- FreezeItems(t); Ok(Item(h', t'))
  }

  function FreezeFields(f: Fields): Result<Fields, FreezeError> {
    match f
    case NoFields => Ok(NoFields)
    case Field(k, v, rest) =>
      if k == "" then Err(EmptyKey)
      else
        var v' :- FreezeValue(v);
        var rest' :- FreezeFields(rest);
        Ok(Field(k, v', rest'))
  }

  /** The loop of the source: fill a new dictionary field by field. */
  method FreezeMapping(f: Fields) returns (r: Result<Fields, FreezeError>)
    ensures r == FreezeFields(f)
  {
    var frozen, left := NoFields, f;
    while left.Field?
      invariant FreezeFields(f) ==
                match FreezeFields(left)
                case Ok(g) => Ok(Append(frozen, g))
                case Err(e) => Err(e)
      decreases left
    {
      if left.key == "" {
        return Err(EmptyKey);
      }
      var item := FreezeValue(left.value);
      if item.Err? {
        return Err(item.error);
      }
      AppendSnoc(frozen, left.key, item.value);
      frozen := Append(frozen, Field(left.key, item.value, NoFields));
      left := left.rest;
    }
    AppendNothing(frozen);
    return Ok(frozen);
  }

  lemma AppendNothing(f: Fields)
    ensures Append(f, NoFields) == f
  {
  }

  lemma AppendSnoc(f: Fields, k: string, v: Value)
    ensures forall g :: Append(Append(f, Field(k, v, NoFields)), g) == Append(f, Field(k, v, g))
  {
  }

  /** Strict code-point order on keys, the order `sorted` uses. */
  predicate Below(a: string, b: string) {
    b != "" && (a == "" || a[0] < b[0] || (a[0] == b[0] && Below(a[1..], b[1..])))
  }

  function Insert(k: string, v: Value, f: Fields): Fields {
    match f
    case NoFields => Field(k, v, NoFields)
    case Field(key, value, rest) =>
      if Below(k, key) then Field(k, v, f) else Field(key, value, Insert(k, v, rest))
  }

  function Sort(f: Fields): Fields {
    match f
    case NoFields => NoFields
    case Field(k, v, rest) => Insert(k, v, Sort(rest))
  }

  function Primitive(v: Value): Value {
    match v
    case Mapping(f) => Mapping(Sort(PrimitiveFields(f)))
    case Tuple(items) => List(PrimitiveItems(items))
    case _ => v
  }

  function PrimitiveItems(xs: Items): Items {
    match xs
    case NoItems => NoItems
    case Item(h, t) => Item(Primitive(h), PrimitiveItems(t))
  }

  function PrimitiveFields(f: Fields): Fields {
    match f
    case NoFields => NoFields
    case Field(k, v, rest) => Field(k, Primitive(v), PrimitiveFields(rest))
  }

  // ----- what the canonical form is, stated without freezing or sorting -----

  predicate NonEmptyKeys(v: Value) {
    match v
    case List(items) => NonEmptyKeysItems(items)
    case Tuple(items) => NonEmptyKeysItems(items)
    case Mapping(f) => NonEmptyKeysFields(f)
    case _ => true
  }

  predicate NonEmptyKeysItems(xs: Items) {
    xs.Item? ==> NonEmptyKeys(xs.head) && NonEmptyKeysItems(xs.tail)
  }

  predicate NonEmptyKeysFields(f: Fields) {
    f.Field? ==> f.key != "" && NonEmptyKeys(f.value) && NonEmptyKeysFields(f.rest)
  }

  predicate Ascending(f: Fields) {
    f.Field? ==> Ascending(f.rest) && forall k <- Keys(f.rest) :: Below(f.key, k)
  }

  /** JSON values whose every dictionary lists its keys in ascending order. */
  predicate Canonical(v: Value) {
    match v
    case Tuple(_) => false
    case List(items) => CanonicalItems(items)
    case Mapping(f) => Ascending(f) && CanonicalFields(f)
    case _ => true
  }

  predicate CanonicalItems(xs: Items) {
    xs.Item? ==> Canonical(xs.head) && CanonicalItems(xs.tail)
  }

  predicate CanonicalFields(f: Fields) {
    f.Field? ==> Canonical(f.value) && CanonicalFields(f.rest)
  }

  /** Equal up to the order of dictionary keys and the list/tuple distinction, at every depth. */
  predicate Same(v: Value, w: Value) {
    match v
    case Mapping(f) => w.Mapping? && Keys(f) == Keys(w.fields) && Agree(f, w.fields)
    case List(xs) => (w.List? || w.Tuple?) && SameItems(xs, w.items)
    case Tuple(xs) => (w.List? || w.Tuple?) && SameItems(xs, w.items)
    case _ => v == w
  }

  predicate SameItems(xs: Items, ys: Items) {
    match xs
    case NoItems => ys.NoItems?
    case Item(h, t) => ys.Item? && Same(h, ys.head) && SameItems(t, ys.tail)
  }

  predicate Agree(f: Fields, g: Fields) {
    f.Field? ==>
      && Lookup(g, f.key).Some?
      && Same(f.value, Lookup(g, f.key).value)
      && Agree(f.rest, g)
  }

  /** Freeze then primitive, in one recursion. */
  function Canon(v: Value): Value {
    match v
    case Mapping(f) => Mapping(Sort(CanonFields(f)))
    case List(items) => List(CanonItems(items))
    case Tuple(items) => List(CanonItems(items))
    case _ => v
  }

  function CanonItems(xs: Items): Items {
    match xs
    case NoItems => NoItems
    case Item(h, t) => Item(Canon(h), CanonItems(t))
  }

  function CanonFields(f: Fields): Fields {
    match f
    case NoFields => NoFields
    case Field(k, v, rest) => Field(k, Canon(v), CanonFields(rest))
  }

  // ----- the key order is a strict total order -----

  lemma {:induction false} BelowTransitive(a: string, b: string, c: string)
    requires Below(a, b) && Below(b, c)
    ensures Below(a, c)
  {
    if a != "" && a[0] == b[0] == c[0] {
      BelowTransitive(a[1..], b[1..], c[1..]);
    }
  }

  lemma {:induction false} BelowIrreflexive(a: string)
    ensures !Below(a, a)
  {
    if a != "" { BelowIrreflexive(a[1..]); }
  }

  lemma {:induction false} BelowTotal(a: string, b: string)
    requires a != b
    ensures Below(a, b) || Below(b, a)
  {
    if a != "" && b != "" && a[0] == b[0] {
      assert a == [a[0]] + a[1..] && b == [b[0]] + b[1..];
      BelowTotal(a[1..], b[1..]);
    }
  }

  // ----- sorting -----

  lemma LookupInKeys(f: Fields, k: string)
    ensures Lookup(f, k).Some? <==> k in Keys(f)
  {
  }

  lemma InsertFacts(k: string, v: Value, f: Fields)
    requires k !in Keys(f) && Ascending(f)
    ensures Keys(Insert(k, v, f)) == {k} + Keys(f)
    ensures Ascending(Insert(k, v, f))
    ensures forall x :: Lookup(Insert(k, v, f), x) == if x == k then Some(v) else Lookup(f, x)
  {
    match f
    case NoFields =>
    case Field(key, value, rest) =>
      if Below(k, key) {
        forall x <- Keys(f) ensures Below(k, x) {
          if x != key { BelowTransitive(k, key, x); }
        }
      } else {
        InsertFacts(k, v, rest);
        BelowTotal(k, key);
      }
  }

  lemma SortFacts(f: Fields)
    requires WellFormedFields(f)
    ensures Keys(Sort(f)) == Keys(f)
    ensures Ascending(Sort(f))
    ensures forall x :: Lookup(Sort(f), x) == Lookup(f, x)
  {
    if f.Field? {
      SortFacts(f.rest);
      InsertFacts(f.key, f.value, Sort(f.rest));
    }
  }

  lemma {:induction false} SortAscending(f: Fields)
    requires Ascending(f)
    ensures Sort(f) == f
  {
    if f.Field? {
      SortAscending(f.rest);
      if f.rest.Field? {
        assert f.rest.key in Keys(f.rest);
      }
    }
  }

  /** Two ascending dictionaries with the same bindings are the same list. */
  lemma {:induction false} AscendingExtensional(f: Fields, g: Fields)
    requires Ascending(f) && Ascending(g)
    requires forall k :: Lookup(f, k) == Lookup(g, k)
    ensures f == g
  {
    if f.NoFields? && g.Field? {
      LookupInKeys(f, g.key);
    } else if f.Field? && g.NoFields? {
      LookupInKeys(g, f.key);
    } else if f.Field? && g.Field? {
      LookupInKeys(f, f.key); LookupInKeys(g, f.key);
      LookupInKeys(f, g.key); LookupInKeys(g, g.key);
      if f.key != g.key {
        assert f.key in Keys(g.rest) && g.key in Keys(f.rest);
        BelowTransitive(f.key, g.key, f.key);
        BelowIrreflexive(f.key);
      }
      forall k ensures Lookup(f.rest, k) == Lookup(g.rest, k) {
        assert Lookup(f, k) == Lookup(g, k);
        if k == f.key {
          LookupInKeys(f.rest, k); LookupInKeys(g.rest, k);
          BelowIrreflexive(k);
        }
      }
      AscendingExtensional(f.rest, g.rest);
    }
  }

  // ----- canonical form -----

  lemma CanonFieldsFacts(f: Fields)
    ensures Keys(CanonFields(f)) == Keys(f)
    ensures forall k :: Lookup(CanonFields(f), k) ==
                        match Lookup(f, k) case None => None case Some(v) => Some(Canon(v))
  {
  }

  lemma CanonWellFormed(v: Value)
    requires WellFormed(v)
    ensures WellFormed(Canon(v)) && Canonical(Canon(v))
    decreases v
  {
    match v
    case Mapping(f) =>
      CanonWellFormedFields(f);
      CanonFieldsFacts(f);
      SortFacts(CanonFields(f));
      SortKeepsShape(CanonFields(f));
    case List(xs) => CanonWellFormedItems(xs);
    case Tuple(xs) => CanonWellFormedItems(xs);
    case _ =>
  }

  lemma CanonWellFormedItems(xs: Items)
    requires WellFormedItems(xs)
    ensures WellFormedItems(CanonItems(xs)) && CanonicalItems(CanonItems(xs))
    decreases xs
  {
    if xs.Item? { CanonWellFormed(xs.head); CanonWellFormedItems(xs.tail); }
  }

  lemma CanonWellFormedFields(f: Fields)
    requires WellFormedFields(f)
    ensures WellFormedFields(CanonFields(f)) && CanonicalFields(CanonFields(f))
    decreases f
  {
    if f.Field? {
      CanonWellFormed(f.value);
      CanonWellFormedFields(f.rest);
      CanonFieldsFacts(f.rest);
    }
  }

  lemma InsertKeepsShape(k: string, v: Value, f: Fields)
    requires WellFormedFields(f) && CanonicalFields(f) && WellFormed(v) && Canonical(v)
    requires k !in Keys(f) && Ascending(f)
    ensures WellFormedFields(Insert(k, v, f)) && CanonicalFields(Insert(k, v, f))
  {
    if f.Field? && !Below(k, f.key) {
      InsertKeepsShape(k, v, f.rest);
      InsertFacts(k, v, f.rest);
    }
  }

  lemma SortKeepsShape(f: Fields)
    requires WellFormedFields(f) && CanonicalFields(f)
    ensures WellFormedFields(Sort(f)) && CanonicalFields(Sort(f))
  {
    if f.Field? {
      SortKeepsShape(f.rest);
      SortFacts(f.rest);
      InsertKeepsShape(f.key, f.value, Sort(f.rest));
    }
  }

  /** Freezing fails exactly on a mapping with an empty key; otherwise the primitive form is Canon. */
  lemma {:induction false} FreezeThenPrimitive(v: Value)
    ensures FreezeValue(v).Ok? <==> NonEmptyKeys(v)
    ensures FreezeValue(v).Ok? ==> Primitive(FreezeValue(v).value) == Canon(v)
    decreases v
  {
    match v
    case Mapping(f) => FreezeThenPrimitiveFields(f);
    case List(xs) => FreezeThenPrimitiveItems(xs);
    case Tuple(xs) => FreezeThenPrimitiveItems(xs);
    case _ =>
  }

  lemma {:induction false} FreezeThenPrimitiveItems(xs: Items)
    ensures FreezeItems(xs).Ok? <==> NonEmptyKeysItems(xs)
    ensures FreezeItems(xs).Ok? ==> PrimitiveItems(FreezeItems(xs).value) == CanonItems(xs)
    decreases xs
  {
    if xs.Item? { FreezeThenPrimitive(xs.head); FreezeThenPrimitiveItems(xs.tail); }
  }

  lemma {:induction false} FreezeThenPrimitiveFields(f: Fields)
    ensures FreezeFields(f).Ok? <==> NonEmptyKeysFields(f)
    ensures FreezeFields(f).Ok? ==> PrimitiveFields(FreezeFields(f).value) == CanonFields(f)
    decreases f
  {
    if f.Field? { FreezeThenPrimitive(f.value); FreezeThenPrimitiveFields(f.rest); }
  }

  /** A canonical value is a fixed point: storing and loading it again changes nothing. */
  lemma {:induction false} CanonFixed(v: Value)
    requires Canonical(v)
    ensures Canon(v) == v
    decreases v
  {
    match v
    case Mapping(f) => CanonFixedFields(f); SortAscending(f);
    case List(xs) => CanonFixedItems(xs);
    case _ =>
  }

  lemma {:induction false} CanonFixedItems(xs: Items)
    requires CanonicalItems(xs)
    ensures CanonItems(xs) == xs
    decreases xs
  {
    if xs.Item? { CanonFixed(xs.head); CanonFixedItems(xs.tail); }
  }

  lemma {:induction false} CanonFixedFields(f: Fields)
    requires CanonicalFields(f)
    ensures CanonFields(f) == f
    decreases f
  {
    if f.Field? { CanonFixed(f.value); CanonFixedFields(f.rest); }
  }

  lemma CanonNonEmptyKeys(v: Value)
    requires NonEmptyKeys(v)
    ensures NonEmptyKeys(Canon(v))
    decreases v
  {
    match v
    case Mapping(f) => CanonNonEmptyKeysFields(f); SortNonEmptyKeys(CanonFields(f));
    case List(xs) => CanonNonEmptyKeysItems(xs);
    case Tuple(xs) => CanonNonEmptyKeysItems(xs);
    case _ =>
  }

  lemma CanonNonEmptyKeysItems(xs: Items)
    requires NonEmptyKeysItems(xs)
    ensures NonEmptyKeysItems(CanonItems(xs))
    decreases xs
  {
    if xs.Item? { CanonNonEmptyKeys(xs.head); CanonNonEmptyKeysItems(xs.tail); }
  }

  lemma CanonNonEmptyKeysFields(f: Fields)
    requires NonEmptyKeysFields(f)
    ensures NonEmptyKeysFields(CanonFields(f))
    decreases f
  {
    if f.Field? { CanonNonEmptyKeys(f.value); CanonNonEmptyKeysFields(f.rest); }
  }

  lemma InsertNonEmptyKeys(k: string, v: Value, f: Fields)
    requires k != "" && NonEmptyKeys(v) && NonEmptyKeysFields(f)
    ensures NonEmptyKeysFields(Insert(k, v, f))
  {
  }

  lemma SortNonEmptyKeys(f: Fields)
    requires NonEmptyKeysFields(f)
    ensures NonEmptyKeysFields(Sort(f))
  {
    if f.Field? {
      SortNonEmptyKeys(f.rest);
      InsertNonEmptyKeys(f.key, f.value, Sort(f.rest));
    }
  }

  // ----- canonical forms decide Same -----

  /** Two configurations have one canonical form exactly when they differ only in key order. */
  lemma {:induction false} CanonDecidesSame(v: Value, w: Value)
    requires WellFormed(v) && WellFormed(w)
    ensures Canon(v) == Canon(w) <==> Same(v, w)
    decreases v
  {
    match v
    case Mapping(f) =>
      if w.Mapping? { CanonDecidesSameFields(f, w.fields); }
    case List(xs) =>
      if w.List? || w.Tuple? { CanonDecidesSameItems(xs, w.items); }
    case Tuple(xs) =>
      if w.List? || w.Tuple? { CanonDecidesSameItems(xs, w.items); }
    case _ =>
  }

  lemma {:induction false} CanonDecidesSameItems(xs: Items, ys: Items)
    requires WellFormedItems(xs) && WellFormedItems(ys)
    ensures CanonItems(xs) == CanonItems(ys) <==> SameItems(xs, ys)
    decreases xs
  {
    if xs.Item? && ys.Item? {
      CanonDecidesSame(xs.head, ys.head);
      CanonDecidesSameItems(xs.tail, ys.tail);
    }
  }

  lemma {:induction false} CanonDecidesSameFields(f: Fields, g: Fields)
    requires WellFormedFields(f) && WellFormedFields(g)
    ensures Sort(CanonFields(f)) == Sort(CanonFields(g)) <==> Keys(f) == Keys(g) && Agree(f, g)
    decreases f, 1
  {
    CanonFieldsFacts(f); CanonFieldsFacts(g);
    CanonWellFormedFields(f); CanonWellFormedFields(g);
    SortFacts(CanonFields(f)); SortFacts(CanonFields(g));
    AgreeIsSameLookups(f, g);
    var a, b := Sort(CanonFields(f)), Sort(CanonFields(g));
    if Keys(f) == Keys(g) && Agree(f, g) {
      forall k ensures Lookup(a, k) == Lookup(b, k) {
        LookupInKeys(f, k); LookupInKeys(g, k);
        assert k in Keys(f) ==> SameAt(f, g, k);
      }
      AscendingExtensional(a, b);
    }
    if a == b {
      forall k <- Keys(f) ensures SameAt(f, g, k) {
        LookupInKeys(f, k); LookupInKeys(g, k);
        assert Lookup(a, k) == Lookup(b, k);
      }
    }
  }

  /** f and g hold values of one canonical form under k. */
  predicate SameAt(f: Fields, g: Fields, k: string) {
    Lookup(f, k).Some? && Lookup(g, k).Some? && Canon(Lookup(f, k).value) == Canon(Lookup(g, k).value)
  }

  lemma {:induction false} AgreeIsSameLookups(f: Fields, g: Fields)
    requires WellFormedFields(f) && WellFormedFields(g)
    ensures Agree(f, g) <==> forall k <- Keys(f) :: SameAt(f, g, k)
    decreases f, 0
  {
    if f.Field? {
      AgreeIsSameLookups(f.rest, g);
      forall k <- Keys(f.rest) ensures SameAt(f, g, k) <==> SameAt(f.rest, g, k) {
        assert k != f.key;
      }
      if Lookup(g, f.key).Some? {
        LookupWellFormed(g, f.key);
        CanonDecidesSame(f.value, Lookup(g, f.key).value);
      }
      assert Lookup(f, f.key) == Some(f.value);
      assert Agree(f, g) <==> SameAt(f, g, f.key) && Agree(f.rest, g);
      assert Keys(f) == {f.key} + Keys(f.rest);
    }
  }

  lemma LookupWellFormed(f: Fields, k: string)
    requires WellFormedFields(f) && Lookup(f, k).Some?
    ensures WellFormed(Lookup(f, k).value)
  {
  }
}
