/**
 * The schema registry: what the LDAPNodeBase metaclass computes when an
 * entity class is declared. A class's field map merges its parents' maps
 * (in base order) and then its own fields, keeping the order in which names
 * first appeared, as a Python dict does; from it come the attribute list
 * asked of the directory, the system / non-system partition and the primary
 * field.
 */
module Registry {
  import opened Wrappers
  import opened PyValues
  import opened Exceptions
  import opened Fields

  // ---------------------------------------------------------------------------
  // Ordered field maps (a Python dict of name -> Field)
  // ---------------------------------------------------------------------------

  /** A dict with string keys, in insertion order. */
  type Dict<V> = seq<(string, V)>
  type FieldMap = Dict<Field>

  function Keys<V>(m: Dict<V>): (ks: seq<string>)
    ensures |ks| == |m| && forall i :: 0 <= i < |m| ==> ks[i] == m[i].0
  {
    if m == [] then [] else [m[0].0] + Keys(m[1..])
  }

  /** No key occurs twice, as in any dict. */
  predicate DistinctKeys<V>(m: Dict<V>)
  {
    NoRepeats(Keys(m))
  }

  /** `m.get(k)`. */
  function Lookup<V(==)>(m: Dict<V>, k: string): (r: Option<V>)
    ensures r.None? <==> k !in Keys(m)
    ensures r.Some? ==> (k, r.value) in m
  {
    if m == [] then None
    else if m[0].0 == k then Some(m[0].1)
    else Lookup(m[1..], k)
  }

  /** `m[k] = v`: replaces the value in place when the key is known, else appends it. */
  function Put<V>(m: Dict<V>, k: string, v: V): Dict<V>
  {
    if m == [] then [(k, v)]
    else if m[0].0 == k then [(k, v)] + m[1..]
    else [m[0]] + Put(m[1..], k, v)
  }

  /** `m.update(other)`. */
  function Update<V>(m: Dict<V>, other: Dict<V>): Dict<V>
    decreases |other|
  {
    if other == [] then m else Update(Put(m, other[0].0, other[0].1), other[1..])
  }

  /** Setting a name keeps the order of the names: it is appended only when new. */
  lemma {:induction false} PutKeys<V>(m: Dict<V>, k: string, f: V)
    ensures k in Keys(m) ==> Keys(Put(m, k, f)) == Keys(m)
    ensures k !in Keys(m) ==> Keys(Put(m, k, f)) == Keys(m) + [k]
  {
    if m != [] && m[0].0 != k {
      PutKeys(m[1..], k, f);
      assert Keys(Put(m, k, f)) == [m[0].0] + Keys(Put(m[1..], k, f));
      assert Keys(m) == [m[0].0] + Keys(m[1..]);
    } else if m != [] {
      assert Keys(Put(m, k, f)) == [k] + Keys(m[1..]);
      assert Keys(m) == [k] + Keys(m[1..]);
    }
  }

  lemma PutDistinct<V>(m: Dict<V>, k: string, f: V)
    requires DistinctKeys(m)
    ensures DistinctKeys(Put(m, k, f))
  {
    PutKeys(m, k, f);
    if k !in Keys(m) {
      var ks := Keys(m) + [k];
      assert forall i :: 0 <= i < |Keys(m)| ==> ks[i] == Keys(m)[i];
    }
  }

  /** After `m[k] = f`, `k` maps to `f` and every other name keeps its field. */
  lemma {:induction false} PutLookup<V>(m: Dict<V>, k: string, f: V, j: string)
    ensures Lookup(Put(m, k, f), j) == if j == k then Some(f) else Lookup(m, j)
  {
    if m != [] && m[0].0 != k {
      PutLookup(m[1..], k, f, j);
    }
  }

  /** Every entry of `m[k] = v` is the new pair or an entry `m` already had. */
  lemma {:induction false} PutMember<V>(m: Dict<V>, k: string, v: V)
    ensures forall e :: e in Put(m, k, v) ==> e == (k, v) || e in m
  {
    if m != [] && m[0].0 != k {
      PutMember(m[1..], k, v);
      assert forall e :: e in m[1..] ==> e in m;
    } else if m != [] {
      assert forall e :: e in m[1..] ==> e in m;
    }
  }

  lemma PrefixOfPrefix<T>(u: seq<T>, p: seq<T>, m: seq<T>)
    requires |p| <= |u| && u[..|p|] == p && |m| <= |p| && p[..|m|] == m
    ensures u[..|m|] == m
  {
    assert u[..|m|] == u[..|p|][..|m|];
  }

  /** Names keep the position they first appeared at; updating only appends new names. */
  lemma {:induction false} UpdateKeys<V>(m: Dict<V>, other: Dict<V>)
    ensures DistinctKeys(m) ==> DistinctKeys(Update(m, other))
    ensures forall j :: j in Keys(Update(m, other)) <==> j in Keys(m) || j in Keys(other)
    ensures |Keys(m)| <= |Keys(Update(m, other))| && Keys(Update(m, other))[..|Keys(m)|] == Keys(m)
    decreases |other|
  {
    if other != [] {
      var p := Put(m, other[0].0, other[0].1);
      PutKeys(m, other[0].0, other[0].1);
      if DistinctKeys(m) {
        PutDistinct(m, other[0].0, other[0].1);
      }
      UpdateKeys(p, other[1..]);
      var u := Keys(Update(m, other));
      assert u == Keys(Update(p, other[1..]));
      assert Keys(other) == [other[0].0] + Keys(other[1..]);
      PrefixOfPrefix(u, Keys(p), Keys(m));
    }
  }

  /** The last of `other`'s entries for a name wins; names `other` lacks keep their old field. */
  lemma {:induction false} UpdateLookup<V>(m: Dict<V>, other: Dict<V>, j: string)
    ensures j !in Keys(other) ==> Lookup(Update(m, other), j) == Lookup(m, j)
    ensures DistinctKeys(other) && j in Keys(other) ==> Lookup(Update(m, other), j) == Lookup(other, j)
    decreases |other|
  {
    if other != [] {
      var p := Put(m, other[0].0, other[0].1);
      PutLookup(m, other[0].0, other[0].1, j);
      UpdateLookup(p, other[1..], j);
      assert Keys(other) == [other[0].0] + Keys(other[1..]);
      if DistinctKeys(other) {
        assert DistinctKeys(other[1..]) by {
          assert forall i :: 0 <= i < |other[1..]| ==> Keys(other[1..])[i] == Keys(other)[i + 1];
        }
        if j == other[0].0 {
          assert j !in Keys(other[1..]) by {
            assert forall i :: 0 <= i < |other[1..]| ==> Keys(other[1..])[i] == Keys(other)[i + 1];
          }
        }
      }
    }
  }

  // ---------------------------------------------------------------------------
  // Class options (the inner Meta class)
  // ---------------------------------------------------------------------------

  /** A `%(name)s` template: literal text and named holes. */
  datatype Piece = Lit(text: string) | Hole(key: string)
  type Template = seq<Piece>

  function FillPiece(p: Piece, args: map<string, Value>): Result<string, PyError>
  {
    match p
    case Lit(text) => Success(text)
    case Hole(k) => if k in args then Success(Text(args[k])) else Failure(KeyError(k))
  }

  /** `template % args`: each hole replaced by `str()` of its argument; KeyError for a missing name. */
  function Fill(t: Template, args: map<string, Value>): Result<string, PyError>
  {
    if t == [] then Success("")
    else
      var head := FillPiece(t[0], args);
      var rest := Fill(t[1..], args);
      if head.Failure? then Failure(head.error)
      else if rest.Failure? then Failure(rest.error)
      else Success(head.value + rest.value)
  }

  /** Filling fails exactly when some hole names a missing argument, and then with a KeyError for a missing name. */
  lemma {:induction false} FillFails(t: Template, args: map<string, Value>)
    ensures Fill(t, args).Failure? <==> exists p :: p in t && p.Hole? && p.key !in args
    ensures Fill(t, args).Failure? ==> Fill(t, args).error.KeyError? && Fill(t, args).error.key !in args
  {
    if t != [] {
      FillFails(t[1..], args);
      assert forall p :: p in t <==> p == t[0] || p in t[1..];
    }
  }

  /** Filling a template in two pieces gives the two fillings joined. */
  lemma {:induction false} FillAppend(t1: Template, t2: Template, args: map<string, Value>)
    requires Fill(t1, args).Success? && Fill(t2, args).Success?
    ensures Fill(t1 + t2, args) == Success(Fill(t1, args).value + Fill(t2, args).value)
  {
    if t1 == [] {
      assert t1 + t2 == t2;
      assert "" + Fill(t2, args).value == Fill(t2, args).value;
    } else {
      var p, rest := t1[0], t1[1..];
      assert t1 == [p] + rest;
      FillCons(p, rest, args);
      FillAppend(rest, t2, args);
      FillAppendStep(p, rest, t2, args);
    }
  }

  lemma FillAppendStep(p: Piece, rest: Template, t2: Template, args: map<string, Value>)
    requires FillPiece(p, args).Success? && Fill(rest, args).Success? && Fill(t2, args).Success?
    requires Fill(rest + t2, args) == Success(Fill(rest, args).value + Fill(t2, args).value)
    ensures Fill([p] + rest + t2, args)
            == Success(FillPiece(p, args).value + Fill(rest, args).value + Fill(t2, args).value)
  {
    assert [p] + rest + t2 == [p] + (rest + t2);
    FillCons(p, rest + t2, args);
    var head, x, y := FillPiece(p, args).value, Fill(rest, args).value, Fill(t2, args).value;
    assert head + (x + y) == head + x + y;
  }

  /** One step of filling: the first piece, then the rest. */
  lemma FillCons(p: Piece, rest: Template, args: map<string, Value>)
    ensures Fill([p] + rest, args).Success? <==> FillPiece(p, args).Success? && Fill(rest, args).Success?
    ensures Fill([p] + rest, args).Success? ==> Fill([p] + rest, args).value == FillPiece(p, args).value + Fill(rest, args).value
  {
    var t := [p] + rest;
    assert t[0] == p && t[1..] == rest;
  }

  /** Only the names the template uses matter: arguments agreeing on them fill it alike. */
  lemma {:induction false} FillUsesOnlyItsHoles(t: Template, a: map<string, Value>, b: map<string, Value>)
    requires forall p :: p in t && p.Hole? ==> (p.key in a <==> p.key in b) && (p.key in a ==> a[p.key] == b[p.key])
    ensures Fill(t, a) == Fill(t, b)
  {
    if t != [] {
      assert t[0] in t;
      FillUsesOnlyItsHoles(t[1..], a, b);
    }
  }

  /**
   * The attributes a class's inner Meta defines; None for one it leaves out.
   * The two DN prefixes may be set to None explicitly, hence the nested Option.
   */
  datatype Meta = Meta(
    objectclasses: Option<seq<string>>,
    excludedObjectclasses: Option<seq<string>>,
    primaryDnprefix: Option<Option<Template>>,
    secondaryDnprefix: Option<Option<string>>,
    identifyingAttrs: Option<seq<string>>,
    searchableFields: Option<seq<string>>,
    humanReadableName: Option<string>,
    dnFormat: Option<Template>)

  /** A class's `_meta`. `dnFormat` is None when Meta gives none: there is no default for it. */
  datatype Options = Options(
    objectclasses: seq<string>,
    excludedObjectclasses: seq<string>,
    primaryDnprefix: Option<Template>,
    secondaryDnprefix: Option<string>,
    identifyingAttrs: seq<string>,
    searchableFields: seq<string>,
    humanReadableName: string,
    dnFormat: Option<Template>)

  function OrElse<T>(o: Option<T>, default: T): T
  {
    if o.Some? then o.value else default
  }

  /** `Options(meta, cls_name)`: each attribute Meta defines replaces its default. */
  function MakeOptions(meta: Option<Meta>, clsName: string): (o: Options)
    ensures meta.None? ==> o == Options([], [], None, None, [], [], clsName, None)
    ensures meta.Some? && meta.value.objectclasses.Some? ==> o.objectclasses == meta.value.objectclasses.value
    ensures meta.Some? && meta.value.objectclasses.None? ==> o.objectclasses == []
    ensures meta.Some? && meta.value.excludedObjectclasses.Some? ==> o.excludedObjectclasses == meta.value.excludedObjectclasses.value
    ensures meta.Some? && meta.value.excludedObjectclasses.None? ==> o.excludedObjectclasses == []
    ensures meta.Some? && meta.value.primaryDnprefix.Some? ==> o.primaryDnprefix == meta.value.primaryDnprefix.value
    ensures meta.Some? && meta.value.primaryDnprefix.None? ==> o.primaryDnprefix == None
    ensures meta.Some? && meta.value.secondaryDnprefix.Some? ==> o.secondaryDnprefix == meta.value.secondaryDnprefix.value
    ensures meta.Some? && meta.value.secondaryDnprefix.None? ==> o.secondaryDnprefix == None
    ensures meta.Some? && meta.value.identifyingAttrs.Some? ==> o.identifyingAttrs == meta.value.identifyingAttrs.value
    ensures meta.Some? && meta.value.identifyingAttrs.None? ==> o.identifyingAttrs == []
    ensures meta.Some? && meta.value.searchableFields.Some? ==> o.searchableFields == meta.value.searchableFields.value
    ensures meta.Some? && meta.value.searchableFields.None? ==> o.searchableFields == []
    ensures meta.Some? && meta.value.humanReadableName.Some? ==> o.humanReadableName == meta.value.humanReadableName.value
    ensures meta.Some? && meta.value.humanReadableName.None? ==> o.humanReadableName == clsName
    ensures meta.Some? ==> o.dnFormat == meta.value.dnFormat
  {
    match meta
    case None => Options([], [], None, None, [], [], clsName, None)
    case Some(m) =>
      Options(
        OrElse(m.objectclasses, []),
        OrElse(m.excludedObjectclasses, []),
        OrElse(m.primaryDnprefix, None),
        OrElse(m.secondaryDnprefix, None),
        OrElse(m.identifyingAttrs, []),
        OrElse(m.searchableFields, []),
        OrElse(m.humanReadableName, clsName),
        if m.dnFormat.Some? then m.dnFormat else None)
  }

  // ---------------------------------------------------------------------------
  // Declared classes
  // ---------------------------------------------------------------------------

  /** What a declared entity class holds: its options and the maps the metaclass derives. */
  datatype NodeClass = NodeClass(
    name: string,
    meta: Options,
    fields: FieldMap,
    attrlist: seq<string>,
    systemFields: FieldMap,
    nonSystemFields: FieldMap,
    primary: Option<(string, Field)>)

  /** The fields of the parents, merged in base order. */
  function ParentFields(parents: seq<NodeClass>): FieldMap
  {
    if parents == [] then [] else Update(ParentFields(parents[..|parents| - 1]), parents[|parents| - 1].fields)
  }

  /** The merged field map: parents' fields first, then the class's own, which override. */
  function MergedFields(parents: seq<NodeClass>, own: FieldMap): FieldMap
  {
    Update(ParentFields(parents), own)
  }

  function WireNames(m: FieldMap): (r: seq<string>)
    ensures |r| == |m| && forall i :: 0 <= i < |m| ==> r[i] == m[i].1.ldap
  {
    if m == [] then [] else [m[0].1.ldap] + WireNames(m[1..])
  }

  /** The entries whose field has the given `system` flag, in order. */
  function WithSystem(m: FieldMap, system: bool): (r: FieldMap)
    ensures |r| <= |m|
    ensures forall e :: e in r <==> e in m && e.1.system == system
  {
    if m == [] then []
    else if m[0].1.system == system then [m[0]] + WithSystem(m[1..], system)
    else WithSystem(m[1..], system)
  }

  /** The fields declared with `primary=True`, in order. */
  function Primaries(m: FieldMap): (r: FieldMap)
    ensures |r| <= |m|
    ensures forall e :: e in r <==> e in m && e.1.primary
  {
    if m == [] then []
    else if m[0].1.primary then [m[0]] + Primaries(m[1..])
    else Primaries(m[1..])
  }

  /** The primary (name and field) a class inherits when it has none of its own: the first parent's that has one. */
  function InheritedPrimary(parents: seq<NodeClass>): Option<(string, Field)>
  {
    if parents == [] then None
    else if parents[0].primary.Some? then parents[0].primary
    else InheritedPrimary(parents[1..])
  }

  /**
   * The class LDAPNodeBase.__new__ builds, or the ValueError it raises when
   * the merged map holds more than one primary field.
   */
  function ClassSpec(name: string, parents: seq<NodeClass>, meta: Option<Meta>, own: FieldMap): Result<NodeClass, PyError>
  {
    var fields := MergedFields(parents, own);
    var primaries := Primaries(fields);
    if |primaries| > 1 then Failure(ValueError(name + " can only have at most one primary field."))
    else
      Success(NodeClass(
        name, MakeOptions(meta, name), fields, WireNames(fields),
        WithSystem(fields, true), WithSystem(fields, false),
        if |primaries| == 1 then Some(primaries[0]) else InheritedPrimary(parents)))
  }

  /** `LDAPNodeBase.__new__(name, bases, attrs)`, with `own` the Field attributes of the class body. */
  method DeclareClass(name: string, parents: seq<NodeClass>, meta: Option<Meta>, own: FieldMap)
    returns (r: Result<NodeClass, PyError>)
    ensures r == ClassSpec(name, parents, meta, own)
  {
    var options := MakeOptions(meta, name);
    var fields := MergeFields(parents, own);
    var attrlist := CollectWireNames(fields);
    var system := SelectSystem(fields, true);
    var nonSystem := SelectSystem(fields, false);
    var primaries := CollectPrimaries(fields);
    if |primaries| > 1 {
      return Failure(ValueError(name + " can only have at most one primary field."));
    }
    var primary := if |primaries| == 1 then Some(primaries[0]) else InheritedPrimary(parents);
    r := Success(NodeClass(name, options, fields, attrlist, system, nonSystem, primary));
  }

  /** The loop over the bases followed by `fields.update(own)`. */
  method MergeFields(parents: seq<NodeClass>, own: FieldMap) returns (fields: FieldMap)
    ensures fields == MergedFields(parents, own)
  {
    fields := [];
    for p := 0 to |parents|
      invariant fields == ParentFields(parents[..p])
    {
      assert parents[..p + 1][..p] == parents[..p];
      fields := UpdateInPlace(fields, parents[p].fields);
    }
    assert parents[..|parents|] == parents;
    fields := UpdateInPlace(fields, own);
  }

  /** `fields.update(other)`, one entry at a time. */
  method UpdateInPlace<V>(m: Dict<V>, other: Dict<V>) returns (r: Dict<V>)
    ensures r == Update(m, other)
  {
    r := m;
    for i := 0 to |other|
      invariant Update(r, other[i..]) == Update(m, other)
    {
      assert other[i..][1..] == other[i + 1..];
      r := Put(r, other[i].0, other[i].1);
    }
  }

  /** `[f.ldap for f in fields.values()]`. */
  method CollectWireNames(fields: FieldMap) returns (attrlist: seq<string>)
    ensures attrlist == WireNames(fields)
  {
    attrlist := [];
    for i := 0 to |fields|
      invariant |attrlist| == i && forall j :: 0 <= j < i ==> attrlist[j] == fields[j].1.ldap
    {
      attrlist := attrlist + [fields[i].1.ldap];
    }
  }

  /** The entries whose `system` flag is the one asked for. */
  method SelectSystem(fields: FieldMap, system: bool) returns (r: FieldMap)
    ensures r == WithSystem(fields, system)
  {
    r := [];
    assert fields[0..] == fields;
    for i := 0 to |fields|
      invariant r + WithSystem(fields[i..], system) == WithSystem(fields, system)
    {
      assert fields[i..][1..] == fields[i + 1..];
      var tail := WithSystem(fields[i + 1..], system);
      if fields[i].1.system == system {
        assert WithSystem(fields[i..], system) == [fields[i]] + tail;
        assert r + ([fields[i]] + tail) == (r + [fields[i]]) + tail;
        r := r + [fields[i]];
      } else {
        assert WithSystem(fields[i..], system) == tail;
      }
    }
    assert fields[|fields|..] == [];
  }

  /** `{k: f for (k, f) in fields.items() if f.primary is True}`. */
  method CollectPrimaries(fields: FieldMap) returns (r: FieldMap)
    ensures r == Primaries(fields)
  {
    r := [];
    for i := 0 to |fields|
      invariant r + Primaries(fields[i..]) == Primaries(fields)
    {
      assert fields[i..][1..] == fields[i + 1..];
      var tail := Primaries(fields[i + 1..]);
      if fields[i].1.primary {
        assert Primaries(fields[i..]) == [fields[i]] + tail;
        assert r + ([fields[i]] + tail) == (r + [fields[i]]) + tail;
        r := r + [fields[i]];
      } else {
        assert Primaries(fields[i..]) == tail;
      }
    }
    assert fields[|fields|..] == [];
  }

  // ---------------------------------------------------------------------------
  // What the declared class satisfies
  // ---------------------------------------------------------------------------

  /** A child's own declaration of a name fully replaces the parent's field (flags included). */
  lemma ChildOverrides(parents: seq<NodeClass>, own: FieldMap, k: string)
    requires DistinctKeys(own) && k in Keys(own)
    ensures Lookup(MergedFields(parents, own), k) == Lookup(own, k)
  {
    UpdateLookup(ParentFields(parents), own, k);
  }

  /** A name the class does not redeclare keeps the field of the last parent that declares it. */
  lemma {:induction false} ParentFieldKept(parents: seq<NodeClass>, own: FieldMap, k: string)
    requires k !in Keys(own) && parents != []
    requires DistinctKeys(parents[|parents| - 1].fields) && k in Keys(parents[|parents| - 1].fields)
    ensures Lookup(MergedFields(parents, own), k) == Lookup(parents[|parents| - 1].fields, k)
  {
    UpdateLookup(ParentFields(parents), own, k);
    UpdateLookup(ParentFields(parents[..|parents| - 1]), parents[|parents| - 1].fields, k);
  }

  /** The merged map holds exactly the names of the parents and the class, each once. */
  lemma {:induction false} MergedFieldsNames(parents: seq<NodeClass>, own: FieldMap, k: string)
    ensures DistinctKeys(MergedFields(parents, own))
    ensures k in Keys(MergedFields(parents, own)) <==>
              k in Keys(own) || exists p :: 0 <= p < |parents| && k in Keys(parents[p].fields)
    decreases |parents|
  {
    ParentFieldsNames(parents, k);
    UpdateKeys(ParentFields(parents), own);
  }

  lemma {:induction false} ParentFieldsNames(parents: seq<NodeClass>, k: string)
    ensures DistinctKeys(ParentFields(parents))
    ensures k in Keys(ParentFields(parents)) <==> exists p :: 0 <= p < |parents| && k in Keys(parents[p].fields)
    decreases |parents|
  {
    if parents != [] {
      var init := parents[..|parents| - 1];
      var last := parents[|parents| - 1];
      ParentFieldsNames(init, k);
      UpdateKeys(ParentFields(init), last.fields);
      if k in Keys(ParentFields(parents)) && k !in Keys(last.fields) {
        var p :| 0 <= p < |init| && k in Keys(init[p].fields);
        assert parents[p] == init[p];
      }
      if exists p :: 0 <= p < |parents| && k in Keys(parents[p].fields) {
        var p :| 0 <= p < |parents| && k in Keys(parents[p].fields);
        if p < |parents| - 1 {
          assert init[p] == parents[p];
        }
      }
    }
  }

  /** A declared class: the attribute list names every field's wire name in order, and the system flag partitions the fields. */
  lemma DeclaredClassShape(name: string, parents: seq<NodeClass>, meta: Option<Meta>, own: FieldMap)
    requires ClassSpec(name, parents, meta, own).Success?
    ensures var c := ClassSpec(name, parents, meta, own).value;
            && |c.attrlist| == |c.fields|
            && (forall i :: 0 <= i < |c.fields| ==> c.attrlist[i] == c.fields[i].1.ldap)
            && (forall e :: e in c.fields <==> e in c.systemFields || e in c.nonSystemFields)
            && (forall e :: !(e in c.systemFields && e in c.nonSystemFields))
            && (forall e :: e in c.systemFields ==> e.1.system)
  {
  }

  /** Every name a filtered map holds is a name of the whole map, and filtering keeps names distinct. */
  lemma {:induction false} WithSystemKeys(m: FieldMap, system: bool)
    ensures forall j :: j in Keys(WithSystem(m, system)) ==> j in Keys(m)
    ensures DistinctKeys(m) ==> DistinctKeys(WithSystem(m, system))
  {
    if m != [] {
      WithSystemKeys(m[1..], system);
      assert Keys(m) == [m[0].0] + Keys(m[1..]);
      var rest := WithSystem(m[1..], system);
      if m[0].1.system == system {
        assert Keys([m[0]] + rest) == [m[0].0] + Keys(rest);
      }
      if DistinctKeys(m) {
        assert DistinctKeys(m[1..]) by {
          assert forall i :: 0 <= i < |m[1..]| ==> Keys(m[1..])[i] == Keys(m)[i + 1];
        }
        assert m[0].0 !in Keys(m[1..]) by {
          assert forall i :: 0 <= i < |m[1..]| ==> Keys(m[1..])[i] == Keys(m)[i + 1];
        }
      }
    }
  }

  lemma {:induction false} ParentFieldsDistinct(parents: seq<NodeClass>)
    ensures DistinctKeys(ParentFields(parents))
  {
    if parents != [] {
      ParentFieldsDistinct(parents[..|parents| - 1]);
      UpdateKeys(ParentFields(parents[..|parents| - 1]), parents[|parents| - 1].fields);
    }
  }

  /** A declared class never holds two fields under one name, nor do its system and non-system maps. */
  lemma DeclaredNamesDistinct(name: string, parents: seq<NodeClass>, meta: Option<Meta>, own: FieldMap)
    requires ClassSpec(name, parents, meta, own).Success?
    ensures var c := ClassSpec(name, parents, meta, own).value;
            DistinctKeys(c.fields) && DistinctKeys(c.systemFields) && DistinctKeys(c.nonSystemFields)
  {
    ParentFieldsDistinct(parents);
    UpdateKeys(ParentFields(parents), own);
    WithSystemKeys(MergedFields(parents, own), true);
    WithSystemKeys(MergedFields(parents, own), false);
  }

  /**
   * More than one primary field is refused when the class is declared;
   * exactly one becomes the class's primary, a merged field flagged primary;
   * with none the class keeps the primary of its first parent that has one.
   */
  lemma PrimaryRule(name: string, parents: seq<NodeClass>, meta: Option<Meta>, own: FieldMap)
    ensures |Primaries(MergedFields(parents, own))| > 1 <==> ClassSpec(name, parents, meta, own).Failure?
    ensures |Primaries(MergedFields(parents, own))| == 1 ==>
              var p := ClassSpec(name, parents, meta, own).value.primary;
              p.Some? && p.value in MergedFields(parents, own) && p.value.1.primary
    ensures Primaries(MergedFields(parents, own)) == [] ==>
              ClassSpec(name, parents, meta, own).value.primary == InheritedPrimary(parents)
  {
    var m := MergedFields(parents, own);
    if |Primaries(m)| == 1 {
      assert Primaries(m)[0] in Primaries(m);
    }
  }

  /** In a map with distinct names, the field found for a name is the one stored with it. */
  lemma {:induction false} LookupDistinct<V>(m: Dict<V>, k: string, f: V)
    requires DistinctKeys(m) && (k, f) in m
    ensures Lookup(m, k) == Some(f)
  {
    if m[0] != (k, f) {
      assert (k, f) in m[1..];
      assert m[0].0 != k by {
        var i :| 0 <= i < |m| && m[i] == (k, f);
        assert Keys(m)[0] == m[0].0 && Keys(m)[i] == k;
      }
      assert DistinctKeys(m[1..]) by {
        assert forall i :: 0 <= i < |m[1..]| ==> Keys(m[1..])[i] == Keys(m)[i + 1];
      }
      LookupDistinct(m[1..], k, f);
    }
  }

  // ---------------------------------------------------------------------------
  // The metaclass as written
  // ---------------------------------------------------------------------------

  /**
   * LDAPNodeBase.__new__ exactly as written: it reads `f.system` on every
   * merged field, but Field never defines a `system` attribute, so any class
   * with at least one field raises AttributeError before the primary check.
   */
  function ClassSpecAsWritten(name: string, parents: seq<NodeClass>, meta: Option<Meta>, own: FieldMap): Result<NodeClass, PyError>
  {
    var fields := MergedFields(parents, own);
    if fields != [] then Failure(AttributeError("system"))
    else ClassSpec(name, parents, meta, own)
  }

  /** The discrepancy: a class with one plain field cannot even be declared as written, while the corrected registry accepts it. */
  lemma AsWrittenRejectsEveryField(name: string, f: Field)
    requires !f.primary
    ensures ClassSpecAsWritten(name, [], None, [("uid", f)]) == Failure(AttributeError("system"))
    ensures ClassSpec(name, [], None, [("uid", f)]).Success?
  {
    assert ParentFields([]) == [];
    assert Put([], "uid", f) == [("uid", f)];
    var own := [("uid", f)];
    assert own[1..] == [];
    assert Update([], own) == Update(Put([], "uid", f), []);
    assert MergedFields([], [("uid", f)]) == [("uid", f)];
  }
}
