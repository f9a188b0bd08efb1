/**
 * The per-element rewrite that expands a map-valued property into one `long`
 * property per map entry, for vertices and edges alike.
 */
module SplitAttributes {
  import opened Wrappers
  import opened PropertyValues

  type GradoopId = nat

  /** What tells a vertex from an edge: an edge refers to its endpoints by id. */
  datatype Endpoints = Vertex | Edge(sourceId: GradoopId, targetId: GradoopId)

  /** A vertex or an edge: identity, label, endpoints and an owned property bag. */
  class GraphElement {
    var id: GradoopId
    var elementLabel: string
    var endpoints: Endpoints
    var properties: Properties

    constructor (id: GradoopId, elementLabel: string, endpoints: Endpoints, properties: Properties)
      ensures this.id == id && this.elementLabel == elementLabel
      ensures this.endpoints == endpoints && this.properties == properties
    {
      this.id := id;
      this.elementLabel := elementLabel;
      this.endpoints := endpoints;
      this.properties := properties;
    }
  }

  /** A map entry that becomes a property: a non-null key whose string is non-empty. */
  predicate Expands(a: Key)
  {
    a.KeyOf? && a.value.Str? && a.value.str != ""
  }

  /**
   * An entry the rewrite handles without throwing: a `null` key is skipped
   * before `getString`; any other key must be a string; a key that passes the
   * filter must hold a long.
   */
  predicate EntryReadable(joined: map<Key, Value>, a: Key)
    requires a in joined
  {
    a.NullKey? || (a.value.Str? && (a.value.str == "" || joined[a].Long?))
  }

  predicate Readable(joined: map<Key, Value>)
  {
    forall a :: a in joined ==> EntryReadable(joined, a)
  }

  /** The property names that the entries of `joined` produce. */
  function NewNames(joined: map<Key, Value>): set<string>
  {
    set a | a in joined && Expands(a) :: a.value.str
  }

  /** The properties that the entries of `joined` produce. */
  function Expanded(joined: map<Key, Value>): (r: Properties)
    requires Readable(joined)
    ensures r.Keys == NewNames(joined)
    ensures forall s :: s in r ==> KeyOf(Str(s)) in joined && r[s] == joined[KeyOf(Str(s))] && r[s].Long?
  {
    map a | a in joined && Expands(a) :: a.value.str := joined[a]
  }

  /**
   * The property bag that splitting `props` on `propertyKey` installs: the
   * expanded entries first, then every other original property, which wins
   * over an entry of the same name.
   */
  function Split(props: Properties, propertyKey: string): (r: Result<Properties, AccessError>)
    ensures propertyKey !in props ==> r == Failure(NullReference)
    ensures r.Success? <==>
      propertyKey in props && props[propertyKey].Map? && Readable(props[propertyKey].entries)
    ensures r.Success? ==>
      var joined := props[propertyKey].entries;
      && r.value.Keys == NewNames(joined) + (props.Keys - {propertyKey})
      && (forall k :: k in props && k != propertyKey ==> r.value[k] == props[k])
      && (forall s :: s in NewNames(joined) && (s !in props || s == propertyKey) ==>
            r.value[s] == joined[KeyOf(Str(s))] && r.value[s].Long?)
      && (propertyKey in r.value <==> propertyKey in NewNames(joined))
  {
    if propertyKey !in props then Failure(NullReference)
    else if !props[propertyKey].Map? then Failure(TypeMismatch)
    else if !Readable(props[propertyKey].entries) then Failure(TypeMismatch)
    else Success(Expanded(props[propertyKey].entries) + (props - {propertyKey}))
  }

  /**
   * The first loop of the rewrite: every entry with a non-null, non-empty key
   * set as a long property on a fresh bag, or the failure of the first entry
   * that cannot be read.
   */
  method ExpandEntries(joined: map<Key, Value>) returns (r: Result<Properties, AccessError>)
    ensures r.Success? <==> Readable(joined)
    ensures r.Success? ==> r.value == Expanded(joined)
    ensures r.Failure? ==> r.error == TypeMismatch
  {
    var p: Properties := map[];
    var pending := joined.Keys;
    while pending != {}
      invariant pending <= joined.Keys
      invariant forall a :: a in joined && a !in pending ==> EntryReadable(joined, a)
      invariant forall s :: s in p <==> KeyOf(Str(s)) in joined && KeyOf(Str(s)) !in pending && s != ""
      invariant forall s :: s in p ==> p[s] == joined[KeyOf(Str(s))]
      decreases pending
    {
      var a :| a in pending;
      if a.KeyOf? {
        if !a.value.Str? {
          return Failure(TypeMismatch);
        }
        if a.value.str != "" {
          if !joined[a].Long? {
            return Failure(TypeMismatch);
          }
          p := p[a.value.str := Long(joined[a].long)];
        }
      }
      pending := pending - {a};
    }
    assert Readable(joined);
    return Success(p);
  }

  /**
   * The second loop of the rewrite: every property of `pOld` except
   * `propertyKey` set on `p`, overwriting what `p` holds under that name.
   */
  method CopyOthers(p: Properties, pOld: Properties, propertyKey: string) returns (q: Properties)
    ensures q.Keys == p.Keys + (pOld.Keys - {propertyKey})
    ensures forall k :: k in pOld && k != propertyKey ==> q[k] == pOld[k]
    ensures forall k :: k in p && (k !in pOld || k == propertyKey) ==> q[k] == p[k]
  {
    q := p;
    var keys := pOld.Keys;
    while keys != {}
      invariant keys <= pOld.Keys
      invariant q.Keys == p.Keys + (pOld.Keys - keys - {propertyKey})
      invariant forall k :: k in pOld && k !in keys && k != propertyKey ==> q[k] == pOld[k]
      invariant forall k :: k in p && (k !in pOld || k in keys || k == propertyKey) ==> q[k] == p[k]
      decreases keys
    {
      var k :| k in keys;
      if k != propertyKey {
        q := q[k := pOld[k]];
      }
      keys := keys - {k};
    }
  }

  /**
   * Replaces the properties of `c` by the split of its property `propertyKey`
   * and returns `c` itself; a failure leaves `c` as it was.
   */
  method SplitElement(c: GraphElement, propertyKey: string) returns (r: Result<GraphElement, AccessError>)
    modifies c`properties
    ensures var expected := Split(old(c.properties), propertyKey);
      && (r.Success? <==> expected.Success?)
      && (expected.Success? ==> r.value == c && c.properties == expected.value)
      && (expected.Failure? ==> r.error == expected.error && c.properties == old(c.properties))
    ensures c.id == old(c.id) && c.elementLabel == old(c.elementLabel) && c.endpoints == old(c.endpoints)
  {
    var pOld := c.properties;
    if propertyKey !in pOld {
      return Failure(NullReference);
    }
    if !pOld[propertyKey].Map? {
      return Failure(TypeMismatch);
    }
    var joined := pOld[propertyKey].entries;
    var expanded := ExpandEntries(joined);
    if expanded.Failure? {
      return Failure(expanded.error);
    }
    var p := CopyOthers(expanded.value, pOld, propertyKey);
    assert p == Expanded(joined) + (pOld - {propertyKey});
    c.properties := p;
    return Success(c);
  }
}
