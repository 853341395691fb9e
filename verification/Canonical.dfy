/**
 The canonical payload behind replay detection (packages/core/src/idempotency-store.ts):
 keys sorted at every depth, assigned one by one to a fresh object. JSON text and the
 hash over it are an injective function of the canonical value.
 */
module Canonical {
  import opened Wrappers
  import opened JsText
  import opened IdempotencyStore

  datatype Property = Property(key: string, value: Json)

  /** A parsed value; an object lists its own properties in enumeration order. */
  datatype Json = Null | Bool(bool) | Number(text: string) | Text(string) | Array(items: seq<Json>) | Object(properties: seq<Property>)

  /** Assigning to this key runs a setter and creates no property. */
  const PROTO := "__proto__"

  ghost predicate DistinctKeys(properties: seq<Property>) {
    forall i, j :: 0 <= i < j < |properties| ==> properties[i].key != properties[j].key
  }

  /** No object lists a key twice. */
  ghost predicate WellFormed(v: Json) {
    match v
    case Array(items) => forall i :: 0 <= i < |items| ==> WellFormed(items[i])
    case Object(properties) => DistinctKeys(properties) && forall i :: 0 <= i < |properties| ==> WellFormed(properties[i].value)
    case _ => true
  }

  // ----- sorting keys -----

  /** Order of strings by code unit. */
  predicate Before(a: string, b: string) {
    b != "" && (a == "" || a[0] < b[0] || (a[0] == b[0] && Before(a[1..], b[1..])))
  }

  lemma {:induction false} BeforeTotal(a: string, b: string)
    ensures Before(a, b) || a == b || Before(b, a)
    ensures !(Before(a, b) && Before(b, a)) && !Before(a, a)
  {
    if a != "" && b != "" {
      BeforeTotal(a[1..], b[1..]);
      assert a == [a[0]] + a[1..] && b == [b[0]] + b[1..];
    }
    if a != "" {
      BeforeTotal(a[1..], a[1..]);
    }
  }

  lemma {:induction false} BeforeTransitive(a: string, b: string, c: string)
    requires Before(a, b) && Before(b, c)
    ensures Before(a, c)
  {
    if a != "" && a[0] == b[0] && b[0] == c[0] {
      BeforeTransitive(a[1..], b[1..], c[1..]);
    }
  }

  function InsertKey(p: Property, sorted: seq<Property>): seq<Property> {
    if sorted == [] || Before(p.key, sorted[0].key) then [p] + sorted else [sorted[0]] + InsertKey(p, sorted[1..])
  }

  function SortByKey(properties: seq<Property>): seq<Property> {
    if properties == [] then [] else InsertKey(properties[0], SortByKey(properties[1..]))
  }

  /** Strictly increasing keys. */
  ghost predicate Rising(properties: seq<Property>) {
    forall i, j :: 0 <= i < j < |properties| ==> Before(properties[i].key, properties[j].key)
  }

  lemma {:induction false} InsertRises(p: Property, sorted: seq<Property>)
    requires Rising(sorted) && forall q :: q in sorted ==> q.key != p.key
    ensures Rising(InsertKey(p, sorted))
    ensures forall q :: q in InsertKey(p, sorted) <==> q == p || q in sorted
  {
    if sorted != [] {
      var first, rest := sorted[0], sorted[1..];
      BeforeTotal(p.key, first.key);
      if Before(p.key, first.key) {
        forall q | q in sorted ensures Before(p.key, q.key) {
          if q != first {
            BeforeTransitive(p.key, first.key, q.key);
          }
        }
      } else {
        InsertRises(p, rest);
        assert Before(first.key, p.key);
        assert forall q :: q in rest ==> Before(first.key, q.key);
        hide Before;
        assert forall q :: q in sorted <==> q == first || q in rest;
        RisingCons(first, InsertKey(p, rest));
      }
    }
  }

  lemma {:induction false} RisingCons(first: Property, rest: seq<Property>)
    requires Rising(rest) && forall q :: q in rest ==> Before(first.key, q.key)
    ensures Rising([first] + rest)
  {
    hide Before;
    var all := [first] + rest;
    forall i, j | 0 <= i < j < |all| ensures Before(all[i].key, all[j].key) {
      assert all[j] in rest;
    }
  }

  lemma {:induction false} SortRises(properties: seq<Property>)
    requires DistinctKeys(properties)
    ensures Rising(SortByKey(properties))
    ensures forall q :: q in SortByKey(properties) <==> q in properties
  {
    if properties != [] {
      SortRises(properties[1..]);
      InsertRises(properties[0], SortByKey(properties[1..]));
      hide Before, Rising;
      assert forall q :: q in properties <==> q == properties[0] || q in properties[1..];
    } else {
      assert SortByKey(properties) == [];
    }
  }

  /** Two rising lists of the same properties are one list. */
  lemma {:induction false} RisingUnique(a: seq<Property>, b: seq<Property>)
    requires Rising(a) && Rising(b) && forall q :: q in a <==> q in b
    ensures a == b
  {
    BothEmpty(a, b);
    if a != [] {
      assert a[0] in b && b[0] in a;
      BeforeTotal(a[0].key, b[0].key);
      hide Before;
      FirstIsLeast(a);
      FirstIsLeast(b);
      assert a[0] == b[0];
      TailsAgree(a, b);
      RisingUnique(a[1..], b[1..]);
      assert a == [a[0]] + a[1..] && b == [b[0]] + b[1..];
    }
  }

  lemma BothEmpty<T>(a: seq<T>, b: seq<T>)
    requires forall q :: q in a <==> q in b
    ensures a == [] <==> b == []
  {
    if a != [] {
      assert a[0] in b;
    }
    if b != [] {
      assert b[0] in a;
    }
  }

  lemma {:induction false} FirstIsLeast(a: seq<Property>)
    requires Rising(a) && a != []
    ensures forall q :: q in a ==> q == a[0] || Before(a[0].key, q.key)
  {
    hide Before;
  }

  lemma {:induction false} TailsAgree(a: seq<Property>, b: seq<Property>)
    requires Rising(a) && Rising(b) && a != [] && b != [] && a[0] == b[0] && forall q :: q in a <==> q in b
    ensures Rising(a[1..]) && Rising(b[1..]) && forall q :: q in a[1..] <==> q in b[1..]
  {
    BeforeTotal(a[0].key, a[0].key);
    hide Before;
    forall q ensures q in a[1..] <==> q in b[1..] {
      assert q in a[1..] ==> q in a && Before(a[0].key, q.key);
      assert q in b[1..] ==> q in b && Before(b[0].key, q.key);
      assert q in a ==> q == a[0] || q in a[1..];
      assert q in b ==> q == b[0] || q in b[1..];
    }
  }

  // ----- objects -----

  /** Keys the runtime enumerates first, by number. */
  predicate IsIndex(key: string) {
    Digits(key) && (key[0] == '0' ==> key == "0") && JsText.Number(key) < 4294967295
  }

  function PlaceIndex(out: seq<Property>, p: Property): seq<Property>
    requires IsIndex(p.key)
  {
    if out == [] || !IsIndex(out[0].key) || JsText.Number(out[0].key) > JsText.Number(p.key) then [p] + out
    else [out[0]] + PlaceIndex(out[1..], p)
  }

  /** `out[key] = value` for a key not yet there. */
  function Assign(out: seq<Property>, p: Property): seq<Property> {
    if p.key == PROTO then out
    else if IsIndex(p.key) then PlaceIndex(out, p)
    else out + [p]
  }

  function AssignAll(out: seq<Property>, properties: seq<Property>): seq<Property>
    decreases |properties|
  {
    if properties == [] then out else AssignAll(Assign(out, properties[0]), properties[1..])
  }

  function Canon(v: Json): Json {
    match v
    case Array(items) => Array(CanonItems(items))
    case Object(properties) => Object(AssignAll([], SortByKey(CanonProperties(properties))))
    case _ => v
  }

  function CanonItems(items: seq<Json>): seq<Json> {
    seq(|items|, i requires 0 <= i < |items| => Canon(items[i]))
  }

  function CanonProperties(properties: seq<Property>): seq<Property> {
    seq(|properties|, i requires 0 <= i < |properties| => Property(properties[i].key, Canon(properties[i].value)))
  }

  lemma {:induction false} PlaceIndexAdds(out: seq<Property>, p: Property)
    requires IsIndex(p.key)
    ensures forall q :: q in PlaceIndex(out, p) <==> q == p || q in out
  {
    if out != [] {
      PlaceIndexAdds(out[1..], p);
      hide IsIndex;
      assert forall q :: q in out <==> q == out[0] || q in out[1..];
    }
  }

  lemma {:induction false} AssignAllIs(out: seq<Property>, properties: seq<Property>)
    ensures forall q :: q in AssignAll(out, properties) <==> q in out || (q in properties && q.key != PROTO)
    decreases |properties|
  {
    if properties != [] {
      var p := properties[0];
      if p.key != PROTO && IsIndex(p.key) {
        PlaceIndexAdds(out, p);
      }
      AssignAllIs(Assign(out, p), properties[1..]);
      hide IsIndex;
      assert forall q :: q in properties <==> q == p || q in properties[1..];
    }
  }

  /** Properties without the key that is never created. */
  function Kept(properties: seq<Property>): seq<Property> {
    if properties == [] then [] else (if properties[0].key == PROTO then [] else [properties[0]]) + Kept(properties[1..])
  }

  lemma {:induction false} KeptIs(properties: seq<Property>)
    ensures forall q :: q in Kept(properties) <==> q in properties && q.key != PROTO
    ensures Rising(properties) ==> Rising(Kept(properties))
  {
    if properties != [] {
      KeptIs(properties[1..]);
      hide Before;
      assert forall q :: q in properties <==> q == properties[0] || q in properties[1..];
      if Rising(properties) && properties[0].key != PROTO {
        FirstIsLeast(properties);
        assert forall q :: q in properties[1..] ==> Before(properties[0].key, q.key);
        RisingCons(properties[0], Kept(properties[1..]));
      }
    }
  }

  lemma {:induction false} AssignKept(out: seq<Property>, properties: seq<Property>)
    ensures AssignAll(out, properties) == AssignAll(out, Kept(properties))
    decreases |properties|
  {
    if properties != [] {
      AssignKept(Assign(out, properties[0]), properties[1..]);
      hide IsIndex, PlaceIndex;
      var rest := Kept(properties[1..]);
      assert ([properties[0]] + rest)[1..] == rest && [] + rest == rest;
    }
  }

  // ----- equal up to key order -----

  /** The value with the never-created key struck out at every depth. */
  function Strip(v: Json): Json {
    match v
    case Array(items) => Array(seq(|items|, i requires 0 <= i < |items| => Strip(items[i])))
    case Object(properties) =>
      Object(Kept(seq(|properties|, i requires 0 <= i < |properties| => Property(properties[i].key, Strip(properties[i].value)))))
    case _ => v
  }

  ghost predicate HasKey(properties: seq<Property>, key: string) {
    exists i :: 0 <= i < |properties| && properties[i].key == key
  }

  /** Equal up to the order of keys, at every depth. */
  ghost predicate Same(v: Json, w: Json) {
    match v
    case Array(items) => w.Array? && |items| == |w.items| && forall i :: 0 <= i < |items| ==> Same(items[i], w.items[i])
    case Object(properties) =>
      && w.Object?
      && (forall key :: HasKey(properties, key) <==> HasKey(w.properties, key))
      && (forall i, j :: 0 <= i < |properties| && 0 <= j < |w.properties| && properties[i].key == w.properties[j].key
            ==> Same(properties[i].value, w.properties[j].value))
    case _ => v == w
  }

  /** The same, blind to the never-created key. */
  ghost predicate Alike(v: Json, w: Json) {
    match v
    case Array(items) => w.Array? && |items| == |w.items| && forall i :: 0 <= i < |items| ==> Alike(items[i], w.items[i])
    case Object(properties) =>
      && w.Object?
      && (forall key :: key != PROTO ==> (HasKey(properties, key) <==> HasKey(w.properties, key)))
      && (forall i, j :: 0 <= i < |properties| && 0 <= j < |w.properties| && properties[i].key == w.properties[j].key != PROTO
            ==> Alike(properties[i].value, w.properties[j].value))
    case _ => v == w
  }

  lemma {:induction false} CanonObjectIs(properties: seq<Property>)
    requires DistinctKeys(properties)
    ensures var canon := AssignAll([], SortByKey(CanonProperties(properties)));
      forall q :: q in canon <==> q.key != PROTO && q in CanonProperties(properties)
  {
    var all := CanonProperties(properties);
    SortRises(all);
    AssignAllIs([], SortByKey(all));
    hide AssignAll, SortByKey, Rising, CanonProperties;
  }

  /** One property set, one canonical object. */
  lemma {:induction false} ObjectsAgree(a: seq<Property>, b: seq<Property>)
    requires DistinctKeys(a) && DistinctKeys(b)
    requires forall q: Property :: q.key != PROTO ==> (q in CanonProperties(a) <==> q in CanonProperties(b))
    ensures Canon(Object(a)) == Canon(Object(b))
  {
    var x, y := SortByKey(CanonProperties(a)), SortByKey(CanonProperties(b));
    SortRises(CanonProperties(a));
    SortRises(CanonProperties(b));
    KeptIs(x);
    KeptIs(y);
    AssignKept([], x);
    AssignKept([], y);
    hide SortByKey, CanonProperties, Rising, Kept, AssignAll;
    RisingUnique(Kept(x), Kept(y));
  }

  lemma {:induction false} AlikeAgrees(v: Json, w: Json)
    requires WellFormed(v) && WellFormed(w) && Alike(v, w)
    ensures Canon(v) == Canon(w)
    decreases v
  {
    match v
    case Array(items) =>
      forall i | 0 <= i < |items| ensures Canon(items[i]) == Canon(w.items[i]) {
        AlikeAgrees(items[i], w.items[i]);
      }
    case Object(properties) =>
      forall i, j | 0 <= i < |properties| && 0 <= j < |w.properties| && properties[i].key == w.properties[j].key != PROTO
        ensures Canon(properties[i].value) == Canon(w.properties[j].value)
      {
        AlikeAgrees(properties[i].value, w.properties[j].value);
      }
      hide Canon, Alike, WellFormed;
      assert DistinctKeys(properties) && DistinctKeys(w.properties) by { ObjectKeys(v); ObjectKeys(w); }
      assert forall key :: key != PROTO ==> (HasKey(properties, key) <==> HasKey(w.properties, key)) by { AlikeKeys(v, w); }
      PropertiesAgree(properties, w.properties);
      ObjectsAgree(properties, w.properties);
    case _ =>
  }

  lemma {:induction false} ObjectKeys(v: Json)
    requires v.Object? && WellFormed(v)
    ensures DistinctKeys(v.properties)
  {
  }

  lemma {:induction false} AlikeKeys(v: Json, w: Json)
    requires v.Object? && Alike(v, w)
    ensures w.Object? && forall key :: key != PROTO ==> (HasKey(v.properties, key) <==> HasKey(w.properties, key))
  {
  }

  lemma {:induction false} PropertiesAgree(a: seq<Property>, b: seq<Property>)
    requires forall key :: key != PROTO ==> (HasKey(a, key) <==> HasKey(b, key))
    requires forall i, j :: 0 <= i < |a| && 0 <= j < |b| && a[i].key == b[j].key != PROTO ==> Canon(a[i].value) == Canon(b[j].value)
    ensures forall q: Property :: q.key != PROTO ==> (q in CanonProperties(a) <==> q in CanonProperties(b))
  {
    hide Canon;
    forall q: Property | q.key != PROTO ensures q in CanonProperties(a) <==> q in CanonProperties(b) {
      if q in CanonProperties(a) {
        var i :| 0 <= i < |a| && CanonProperties(a)[i] == q;
        assert HasKey(a, q.key);
        var j :| 0 <= j < |b| && b[j].key == q.key;
        assert CanonProperties(b)[j] == q;
      }
      if q in CanonProperties(b) {
        var j :| 0 <= j < |b| && CanonProperties(b)[j] == q;
        assert HasKey(b, q.key);
        var i :| 0 <= i < |a| && a[i].key == q.key;
        assert CanonProperties(a)[i] == q;
      }
    }
  }

  lemma {:induction false} AgreeingAlike(v: Json, w: Json)
    requires WellFormed(v) && WellFormed(w) && Canon(v) == Canon(w)
    ensures Alike(v, w)
    decreases v
  {
    match v
    case Array(items) =>
      assert w.Array? && CanonItems(items) == CanonItems(w.items);
      forall i | 0 <= i < |items| ensures Alike(items[i], w.items[i]) {
        assert CanonItems(items)[i] == CanonItems(w.items)[i];
        AgreeingAlike(items[i], w.items[i]);
      }
    case Object(properties) =>
      assert w.Object?;
      KeysAgree(properties, w.properties);
      forall i, j | 0 <= i < |properties| && 0 <= j < |w.properties| && properties[i].key == w.properties[j].key != PROTO
        ensures Alike(properties[i].value, w.properties[j].value)
      {
        ValuesAgree(properties, w.properties, i, j);
        AgreeingAlike(properties[i].value, w.properties[j].value);
      }
    case _ =>
  }

  lemma {:induction false} KeysAgree(a: seq<Property>, b: seq<Property>)
    requires DistinctKeys(a) && DistinctKeys(b) && Canon(Object(a)) == Canon(Object(b))
    ensures forall key :: key != PROTO ==> (HasKey(a, key) <==> HasKey(b, key))
  {
    SameCanonProperties(a, b);
    hide Canon;
    var x, y := CanonProperties(a), CanonProperties(b);
    forall key | key != PROTO ensures HasKey(a, key) <==> HasKey(b, key) {
      if i :| 0 <= i < |a| && a[i].key == key {
        assert x[i] in x && x[i] in y;
      }
      if j :| 0 <= j < |b| && b[j].key == key {
        assert y[j] in y && y[j] in x;
      }
    }
  }

  lemma {:induction false} SameCanonProperties(a: seq<Property>, b: seq<Property>)
    requires DistinctKeys(a) && DistinctKeys(b) && Canon(Object(a)) == Canon(Object(b))
    ensures forall q: Property :: q.key != PROTO ==> (q in CanonProperties(a) <==> q in CanonProperties(b))
  {
    CanonObjectIs(a);
    CanonObjectIs(b);
    assert AssignAll([], SortByKey(CanonProperties(a))) == AssignAll([], SortByKey(CanonProperties(b)));
  }

  lemma {:induction false} ValuesAgree(a: seq<Property>, b: seq<Property>, i: nat, j: nat)
    requires DistinctKeys(a) && DistinctKeys(b) && Canon(Object(a)) == Canon(Object(b))
    requires i < |a| && j < |b| && a[i].key == b[j].key != PROTO
    ensures Canon(a[i].value) == Canon(b[j].value)
  {
    SameCanonProperties(a, b);
    hide Canon;
    var q := CanonProperties(a)[i];
    assert q in CanonProperties(a);
    var k :| 0 <= k < |b| && q == CanonProperties(b)[k];
    assert k == j;
  }

  // ----- the theorem -----

  /** Two payloads canonicalize alike exactly when they are equal up to key order, blind to one key. */
  lemma {:induction false} CanonDecides(v: Json, w: Json)
    requires WellFormed(v) && WellFormed(w)
    ensures Canon(v) == Canon(w) <==> Same(Strip(v), Strip(w))
  {
    hide Canon, Same, Strip;
    if Canon(v) == Canon(w) {
      AgreeingAlike(v, w);
    }
    AlikeStripped(v, w);
    if Alike(v, w) {
      AlikeAgrees(v, w);
    }
  }

  function StripProperties(properties: seq<Property>): seq<Property> {
    seq(|properties|, i requires 0 <= i < |properties| => Property(properties[i].key, Strip(properties[i].value)))
  }

  lemma {:induction false} StripObject(properties: seq<Property>)
    ensures Strip(Object(properties)) == Object(Kept(StripProperties(properties)))
  {
  }

  /** A property that stays is one of the original, with its value stripped. */
  lemma {:induction false} StrippedIs(properties: seq<Property>, q: Property)
    ensures q in Kept(StripProperties(properties))
        <==> q.key != PROTO && exists i :: 0 <= i < |properties| && q == Property(properties[i].key, Strip(properties[i].value))
  {
    KeptIs(StripProperties(properties));
    hide Kept, Rising, Strip;
    if i :| 0 <= i < |properties| && q == Property(properties[i].key, Strip(properties[i].value)) {
      assert StripProperties(properties)[i] == q;
    }
  }

  lemma {:induction false} StrippedKeys(properties: seq<Property>, key: string)
    ensures HasKey(Kept(StripProperties(properties)), key) <==> key != PROTO && HasKey(properties, key)
  {
    hide Kept, Strip, StripProperties;
    var kept := Kept(StripProperties(properties));
    if i :| 0 <= i < |kept| && kept[i].key == key {
      assert kept[i] in kept;
      StrippedIs(properties, kept[i]);
    }
    if i :| 0 <= i < |properties| && properties[i].key == key && key != PROTO {
      StrippedIs(properties, Property(key, Strip(properties[i].value)));
    }
  }

  lemma {:induction false} AlikeStripped(v: Json, w: Json)
    ensures Alike(v, w) <==> Same(Strip(v), Strip(w))
    decreases v
  {
    match v
    case Array(items) =>
      if w.Array? && |w.items| == |items| {
        forall i | 0 <= i < |items| ensures Alike(items[i], w.items[i]) <==> Same(Strip(items[i]), Strip(w.items[i])) {
          AlikeStripped(items[i], w.items[i]);
        }
        var x, y := Strip(v).items, Strip(w).items;
        assert |x| == |y| == |items| && forall i :: 0 <= i < |items| ==> x[i] == Strip(items[i]) && y[i] == Strip(w.items[i]);
      }
    case Object(properties) =>
      if w.Object? {
        forall i, j | 0 <= i < |properties| && 0 <= j < |w.properties|
          ensures Alike(properties[i].value, w.properties[j].value) <==> Same(Strip(properties[i].value), Strip(w.properties[j].value))
        {
          AlikeStripped(properties[i].value, w.properties[j].value);
        }
        ObjectsStripped(properties, w.properties);
      }
    case _ =>
  }

  ghost predicate SameProperties(a: seq<Property>, b: seq<Property>) {
    && (forall key :: HasKey(a, key) <==> HasKey(b, key))
    && (forall i, j :: 0 <= i < |a| && 0 <= j < |b| && a[i].key == b[j].key ==> Same(a[i].value, b[j].value))
  }

  ghost predicate AlikeProperties(a: seq<Property>, b: seq<Property>) {
    && (forall key :: key != PROTO ==> (HasKey(a, key) <==> HasKey(b, key)))
    && (forall i, j :: 0 <= i < |a| && 0 <= j < |b| && a[i].key == b[j].key != PROTO ==> Alike(a[i].value, b[j].value))
  }

  lemma {:induction false} PropertiesStripped(a: seq<Property>, b: seq<Property>)
    requires forall i, j :: 0 <= i < |a| && 0 <= j < |b| ==> (Alike(a[i].value, b[j].value) <==> Same(Strip(a[i].value), Strip(b[j].value)))
    ensures AlikeProperties(a, b) <==> SameProperties(Kept(StripProperties(a)), Kept(StripProperties(b)))
  {
    hide Alike, Same, Strip, Kept, HasKey, StripProperties;
    var x, y := Kept(StripProperties(a)), Kept(StripProperties(b));
    forall key ensures (HasKey(x, key) <==> key != PROTO && HasKey(a, key)) && (HasKey(y, key) <==> key != PROTO && HasKey(b, key)) {
      StrippedKeys(a, key);
      StrippedKeys(b, key);
    }
    if AlikeProperties(a, b) {
      forall i, j | 0 <= i < |x| && 0 <= j < |y| && x[i].key == y[j].key ensures Same(x[i].value, y[j].value) {
        assert x[i] in x && y[j] in y;
        StrippedIs(a, x[i]);
        StrippedIs(b, y[j]);
      }
    }
    if SameProperties(x, y) {
      forall i, j | 0 <= i < |a| && 0 <= j < |b| && a[i].key == b[j].key != PROTO ensures Alike(a[i].value, b[j].value) {
        StrippedIs(a, Property(a[i].key, Strip(a[i].value)));
        StrippedIs(b, Property(b[j].key, Strip(b[j].value)));
        var m :| 0 <= m < |x| && x[m] == Property(a[i].key, Strip(a[i].value));
        var n :| 0 <= n < |y| && y[n] == Property(b[j].key, Strip(b[j].value));
        assert Same(x[m].value, y[n].value);
      }
    }
  }

  lemma {:induction false} ObjectsStripped(a: seq<Property>, b: seq<Property>)
    requires forall i, j :: 0 <= i < |a| && 0 <= j < |b| ==> (Alike(a[i].value, b[j].value) <==> Same(Strip(a[i].value), Strip(b[j].value)))
    ensures Alike(Object(a), Object(b)) <==> Same(Strip(Object(a)), Strip(Object(b)))
  {
    PropertiesStripped(a, b);
    StripObject(a);
    StripObject(b);
    hide Strip, Kept, HasKey, StripProperties;
    assert Alike(Object(a), Object(b)) <==> AlikeProperties(a, b);
    var x, y := Kept(StripProperties(a)), Kept(StripProperties(b));
    assert Same(Object(x), Object(y)) <==> SameProperties(x, y);
  }

  /** The never-created key is used nowhere. */
  ghost predicate Clean(v: Json) {
    match v
    case Array(items) => forall i :: 0 <= i < |items| ==> Clean(items[i])
    case Object(properties) => forall i :: 0 <= i < |properties| ==> properties[i].key != PROTO && Clean(properties[i].value)
    case _ => true
  }

  lemma {:induction false} KeptAll(properties: seq<Property>)
    requires forall i :: 0 <= i < |properties| ==> properties[i].key != PROTO
    ensures Kept(properties) == properties
  {
    if properties != [] {
      KeptAll(properties[1..]);
    }
  }

  lemma {:induction false} CleanStripped(v: Json)
    requires Clean(v)
    ensures Strip(v) == v
    decreases v
  {
    match v
    case Array(items) =>
      forall i | 0 <= i < |items| ensures Strip(items[i]) == items[i] {
        CleanStripped(items[i]);
      }
    case Object(properties) =>
      forall i | 0 <= i < |properties| ensures Strip(properties[i].value) == properties[i].value {
        CleanStripped(properties[i].value);
      }
      StripObject(properties);
      assert StripProperties(properties) == properties;
      KeptAll(properties);
    case _ =>
  }

  lemma {:induction false} ConsDistinct(p: Property, rest: seq<Property>)
    requires DistinctKeys(rest) && forall q :: q in rest ==> q.key != p.key
    ensures DistinctKeys([p] + rest)
  {
  }

  lemma {:induction false} KeptDistinct(properties: seq<Property>)
    requires DistinctKeys(properties)
    ensures DistinctKeys(Kept(properties))
  {
    if properties != [] {
      var rest := Kept(properties[1..]);
      KeptDistinct(properties[1..]);
      KeptIs(properties[1..]);
      forall q | q in rest ensures q.key != properties[0].key {
        assert q in properties[1..];
      }
      assert Kept(properties) == if properties[0].key == PROTO then rest else [properties[0]] + rest;
      hide Rising, Kept;
      ConsDistinct(properties[0], rest);
    }
  }

  lemma {:induction false} StripCleans(v: Json)
    requires WellFormed(v)
    ensures Clean(Strip(v)) && WellFormed(Strip(v))
    decreases v
  {
    match v
    case Array(items) =>
      forall i | 0 <= i < |items| ensures Clean(Strip(items[i])) && WellFormed(Strip(items[i])) {
        StripCleans(items[i]);
      }
    case Object(properties) =>
      forall i | 0 <= i < |properties| ensures Clean(Strip(properties[i].value)) && WellFormed(Strip(properties[i].value)) {
        StripCleans(properties[i].value);
      }
      StripObject(properties);
      KeptDistinct(StripProperties(properties));
      var kept := Kept(StripProperties(properties));
      hide Strip, Kept, StripProperties;
      forall i | 0 <= i < |kept| ensures kept[i].key != PROTO && Clean(kept[i].value) && WellFormed(kept[i].value) {
        assert kept[i] in kept;
        StrippedIs(properties, kept[i]);
      }
      assert Clean(Object(kept)) && WellFormed(Object(kept));
    case _ =>
  }

  lemma {:induction false} SameReflexive(v: Json)
    requires WellFormed(v)
    ensures Same(v, v)
    decreases v
  {
    match v
    case Array(items) =>
      forall i | 0 <= i < |items| ensures Same(items[i], items[i]) {
        SameReflexive(items[i]);
      }
    case Object(properties) =>
      forall i | 0 <= i < |properties| ensures Same(properties[i].value, properties[i].value) {
        SameReflexive(properties[i].value);
      }
    case _ =>
  }

  lemma {:induction false} SameKeepsClean(v: Json, w: Json)
    requires Same(v, w) && Clean(w)
    ensures Clean(v)
    decreases v
  {
    match v
    case Array(items) =>
      forall i | 0 <= i < |items| ensures Clean(items[i]) {
        SameKeepsClean(items[i], w.items[i]);
      }
    case Object(properties) =>
      forall i | 0 <= i < |properties| ensures properties[i].key != PROTO && Clean(properties[i].value) {
        assert HasKey(properties, properties[i].key);
        assert HasKey(w.properties, properties[i].key);
        var j :| 0 <= j < |w.properties| && w.properties[j].key == properties[i].key;
        SameKeepsClean(properties[i].value, w.properties[j].value);
      }
    case _ =>
  }

  /**
   Reordered payloads are recognized and all others told apart exactly for payloads free
   of the one key: a payload that uses it anywhere canonicalizes like itself without it.
   */
  lemma {:induction false} ToldApartExactly(v: Json)
    requires WellFormed(v)
    ensures (forall w :: WellFormed(w) && Clean(w) ==> (Canon(v) == Canon(w) <==> Same(v, w))) <==> Clean(v)
  {
    hide Canon, Same, Strip, Clean, WellFormed;
    if Clean(v) {
      forall w | WellFormed(w) && Clean(w) ensures Canon(v) == Canon(w) <==> Same(v, w) {
        CanonDecides(v, w);
        CleanStripped(v);
        CleanStripped(w);
      }
    } else {
      var w := Strip(v);
      StripCleans(v);
      CleanStripped(w);
      CanonDecides(v, w);
      SameReflexive(w);
      if Same(v, w) {
        SameKeepsClean(v, w);
      }
    }
  }

  // ----- the code -----

  /** Build the canonical value, key by key. */
  method Canonicalize(v: Json) returns (canon: Json)
    ensures canon == Canon(v)
    decreases v
  {
    match v
    case Array(items) =>
      var out := [];
      for i := 0 to |items|
        invariant |out| == i && forall j :: 0 <= j < i ==> out[j] == Canon(items[j])
      {
        var item := Canonicalize(items[i]);
        out := out + [item];
      }
      return Array(out);
    case Object(properties) =>
      var mapped := [];
      for i := 0 to |properties|
        invariant |mapped| == i && forall j :: 0 <= j < i ==> mapped[j] == Property(properties[j].key, Canon(properties[j].value))
      {
        var value := Canonicalize(properties[i].value);
        mapped := mapped + [Property(properties[i].key, value)];
      }
      assert mapped == CanonProperties(properties);
      var sorted := SortByKey(mapped);
      var out := [];
      for i := 0 to |sorted|
        invariant AssignAll(out, sorted[i..]) == AssignAll([], sorted)
      {
        assert sorted[i..][1..] == sorted[i + 1..];
        out := Assign(out, sorted[i]);
      }
      return Object(out);
    case _ => return v;
  }

  /** Different canonical values have different hashes. */
  ghost predicate Injective(hash: Json -> Id) {
    forall v, w :: hash(v) == hash(w) ==> v == w
  }

  /**
   Begin an inbound message, with the payload it carries. Against a row recorded for some
   payload, a payload equal to it up to key order is a replay and gets the row's own
   correlation; every other payload is a conflict; the row stays as it is.
   */
  method BeginInbound(store: Store, key: MessageKey, conversation: Id, payload: Json, offered: Option<Id>, minted: Id,
                      hash: Json -> Id, ghost recorded: Json)
    returns (r: Result<Begun, StoreError>)
    requires RowsValid(store.rows) && Injective(hash) && WellFormed(payload) && WellFormed(recorded)
    requires key in store.rows ==> store.rows[key].hash == hash(Canon(recorded))
    modifies store
    ensures RowsValid(store.rows)
    ensures key !in old(store.rows) ==>
      var correlation := if offered.Some? then offered.value else minted;
      r == Ok(Created(correlation)) && store.rows == old(store.rows)[key := FreshRow(conversation, correlation, hash(Canon(payload)))]
    ensures key in old(store.rows) ==>
      && store.rows == old(store.rows)
      && (if Same(Strip(payload), Strip(recorded))
          then r.Ok? && !r.value.Created? && r.value.correlation == old(store.rows)[key].correlation && r.value == Classify(old(store.rows)[key])
          else r == Err(Conflict))
  {
    CanonDecides(payload, recorded);
    hide Canon, Same, Strip, WellFormed;
    var canonical := Canonicalize(payload);
    r := store.BeginInbound(key, conversation, hash(canonical), offered, minted);
  }
}
