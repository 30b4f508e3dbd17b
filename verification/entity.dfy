/**
 * LDAPNode instances: the attribute values an object holds, how `__init__`
 * checks and coerces its keyword arguments, read-only fields, the derived
 * DN, the serialised entry, `diff()` and the operations `save()` issues.
 * The directory is a parameter throughout: the copy `refetch()` would
 * return, and whether the DN already exists.
 */
module Entity {
  import opened Wrappers
  import opened Utf8
  import opened PyValues
  import opened Exceptions
  import opened Utils
  import opened Fields
  import opened Registry
  import opened Logging
  import opened Connection

  /** Keyword arguments, in the order they were passed. */
  type Kwargs = seq<(string, Value)>

  function Names(kwargs: Kwargs): set<string>
  {
    set i | 0 <= i < |kwargs| :: kwargs[i].0
  }

  // ---------------------------------------------------------------------------
  // __init__
  // ---------------------------------------------------------------------------

  /** The non-optional fields whose names are not among `names`, in declaration order. */
  function MissingRequired(fields: FieldMap, names: set<string>): (r: seq<string>)
    ensures forall k :: k in r <==> exists f :: (k, f) in fields && !f.optional && k !in names
  {
    if fields == [] then []
    else
      var rest := MissingRequired(fields[1..], names);
      assert forall e :: e in fields <==> e == fields[0] || e in fields[1..];
      if !fields[0].1.optional && fields[0].0 !in names then [fields[0].0] + rest else rest
  }

  function QuoteAll(names: seq<string>): (r: seq<string>)
    ensures |r| == |names| && forall i :: 0 <= i < |names| ==> r[i] == "'" + names[i] + "'"
  {
    if names == [] then [] else ["'" + names[0] + "'"] + QuoteAll(names[1..])
  }

  /** The message of the exception raised for missing required fields. */
  function MissingMessage(missing: seq<string>): string
  {
    if |missing| == 1 then "Required field '" + missing[0] + "' is missing"
    else "Required fields [" + Join(QuoteAll(missing), ", ") + "] are missing"
  }

  function InvalidKeyword(name: string): PyError
  {
    TypeError("'" + name + "' is an invalid keyword argument for this function")
  }

  /** The loop over the keyword arguments: each one must name a field, and is stored coerced. */
  function Assign(fields: FieldMap, kwargs: Kwargs, acc: map<string, Value>): Result<map<string, Value>, PyError>
    decreases |kwargs|
  {
    if kwargs == [] then Success(acc)
    else
      match Lookup(fields, kwargs[0].0)
      case None => Failure(InvalidKeyword(kwargs[0].0))
      case Some(f) =>
        var v :- Coerce(f, kwargs[0].1);
        Assign(fields, kwargs[1..], acc[kwargs[0].0 := v])
  }

  /** What `__init__(**kwargs)` stores: required fields are checked first, then each keyword in order. */
  function InitValues(c: NodeClass, kwargs: Kwargs): Result<map<string, Value>, PyError>
  {
    var missing := MissingRequired(c.fields, Names(kwargs));
    if missing != [] then Failure(MissingFields(MissingMessage(missing)))
    else Assign(c.fields, kwargs, map[])
  }

  /** The names passed first, then the rest. */
  lemma NamesCons(kwargs: Kwargs)
    requires kwargs != []
    ensures Names(kwargs) == {kwargs[0].0} + Names(kwargs[1..])
  {
    forall n | n in Names(kwargs)
      ensures n in {kwargs[0].0} + Names(kwargs[1..])
    {
      var i :| 0 <= i < |kwargs| && kwargs[i].0 == n;
      if i > 0 {
        assert kwargs[1..][i - 1].0 == n;
      }
    }
    forall n | n in Names(kwargs[1..])
      ensures n in Names(kwargs)
    {
      var i :| 0 <= i < |kwargs[1..]| && kwargs[1..][i].0 == n;
      assert kwargs[i + 1].0 == n;
    }
  }

  /** The keyword loop succeeds only when every keyword names a field, and then stores exactly the names passed. */
  lemma {:induction false} AssignKeys(fields: FieldMap, kwargs: Kwargs, acc: map<string, Value>)
    requires Assign(fields, kwargs, acc).Success?
    ensures forall i :: 0 <= i < |kwargs| ==> kwargs[i].0 in Keys(fields)
    ensures Assign(fields, kwargs, acc).value.Keys == acc.Keys + Names(kwargs)
    decreases |kwargs|
  {
    if kwargs != [] {
      NamesCons(kwargs);
      var f := Lookup(fields, kwargs[0].0).value;
      AssignKeys(fields, kwargs[1..], acc[kwargs[0].0 := Coerce(f, kwargs[0].1).value]);
      assert forall i :: 0 < i < |kwargs| ==> kwargs[i] == kwargs[1..][i - 1];
    }
  }

  /** Each stored value is the coercion, by its field, of a value passed under that name. */
  lemma {:induction false} AssignValues(fields: FieldMap, kwargs: Kwargs, acc: map<string, Value>, k: string)
    requires Assign(fields, kwargs, acc).Success? && k in Assign(fields, kwargs, acc).value
    ensures var v := Assign(fields, kwargs, acc).value[k];
            (k in acc && v == acc[k])
            || exists i :: 0 <= i < |kwargs| && kwargs[i].0 == k && Lookup(fields, k).Some?
                           && Coerce(Lookup(fields, k).value, kwargs[i].1) == Success(v)
    decreases |kwargs|
  {
    if kwargs != [] {
      var (name, value) := kwargs[0];
      var f := Lookup(fields, name).value;
      var acc' := acc[name := Coerce(f, value).value];
      AssignValues(fields, kwargs[1..], acc', k);
      var v := Assign(fields, kwargs, acc).value[k];
      if k in acc' && v == acc'[k] {
        if k == name {
          assert kwargs[0].0 == k && Coerce(Lookup(fields, k).value, kwargs[0].1) == Success(v);
        }
      } else {
        var i :| 0 <= i < |kwargs[1..]| && kwargs[1..][i].0 == k && Lookup(fields, k).Some?
                 && Coerce(Lookup(fields, k).value, kwargs[1..][i].1) == Success(v);
        assert kwargs[i + 1] == kwargs[1..][i];
      }
    }
  }

  /** The keyword loop fails with the TypeError of an unknown keyword or a coercion's ValueError. */
  lemma {:induction false} AssignErrors(fields: FieldMap, kwargs: Kwargs, acc: map<string, Value>)
    requires Assign(fields, kwargs, acc).Failure?
    ensures var e := Assign(fields, kwargs, acc).error;
            e.ValueError? || exists i :: 0 <= i < |kwargs| && kwargs[i].0 !in Keys(fields) && e == InvalidKeyword(kwargs[i].0)
    decreases |kwargs|
  {
    var name := kwargs[0].0;
    var e := Assign(fields, kwargs, acc).error;
    if Lookup(fields, name).None? {
      assert name !in Keys(fields) && e == InvalidKeyword(kwargs[0].0);
    } else {
      var v := Coerce(Lookup(fields, name).value, kwargs[0].1);
      if v.Success? {
        assert Assign(fields, kwargs, acc) == Assign(fields, kwargs[1..], acc[name := v.value]);
        AssignErrors(fields, kwargs[1..], acc[name := v.value]);
        if !e.ValueError? {
          var i :| 0 <= i < |kwargs[1..]| && kwargs[1..][i].0 !in Keys(fields) && e == InvalidKeyword(kwargs[1..][i].0);
          assert kwargs[i + 1] == kwargs[1..][i];
        }
      } else {
        assert e == v.error;
      }
    }
  }

  /**
   * `__init__`'s checks: it raises the missing-fields exception exactly when
   * a required field was not passed; otherwise every keyword must name a
   * field, and the object then holds exactly the names passed, each coerced
   * by its field.
   */
  lemma InitContract(c: NodeClass, kwargs: Kwargs)
    ensures var r := InitValues(c, kwargs);
            && ((r.Failure? && r.error.MissingFields?) <==>
                  exists k, f :: (k, f) in c.fields && !f.optional && k !in Names(kwargs))
            && (r.Success? ==> ((forall i :: 0 <= i < |kwargs| ==> kwargs[i].0 in Keys(c.fields))
                               && r.value.Keys == Names(kwargs)))
            && (r.Success? ==> forall k :: k in r.value ==>
                   exists i :: 0 <= i < |kwargs| && kwargs[i].0 == k && Lookup(c.fields, k).Some?
                               && Coerce(Lookup(c.fields, k).value, kwargs[i].1) == Success(r.value[k]))
            && (r.Failure? && !r.error.MissingFields? ==>
                  (r.error.ValueError?
                   || exists i :: 0 <= i < |kwargs| && kwargs[i].0 !in Keys(c.fields) && r.error == InvalidKeyword(kwargs[i].0)))
  {
    InitMissing(c, kwargs);
    if InitValues(c, kwargs).Success? {
      InitStores(c, kwargs);
    } else if !InitValues(c, kwargs).error.MissingFields? {
      InitRejects(c, kwargs);
    }
  }

  lemma InitMissing(c: NodeClass, kwargs: Kwargs)
    ensures var r := InitValues(c, kwargs);
            (r.Failure? && r.error.MissingFields?) <==>
              exists k, f :: (k, f) in c.fields && !f.optional && k !in Names(kwargs)
  {
    var missing := MissingRequired(c.fields, Names(kwargs));
    if missing != [] {
      assert missing[0] in missing;
    } else if Assign(c.fields, kwargs, map[]).Failure? {
      AssignErrors(c.fields, kwargs, map[]);
    }
  }

  /** With distinct field names (as in every declared class), each missing name is listed once. */
  lemma {:induction false} MissingRequiredDistinct(fields: FieldMap, names: set<string>)
    requires DistinctKeys(fields)
    ensures NoRepeats(MissingRequired(fields, names))
  {
    if fields != [] {
      var tail := fields[1..];
      assert DistinctKeys(tail) by {
        forall i, j | 0 <= i < j < |tail|
          ensures Keys(tail)[i] != Keys(tail)[j]
        {
          assert Keys(tail)[i] == Keys(fields)[i + 1] && Keys(tail)[j] == Keys(fields)[j + 1];
        }
      }
      MissingRequiredDistinct(tail, names);
      var rest := MissingRequired(tail, names);
      if !fields[0].1.optional && fields[0].0 !in names {
        forall x | x in rest
          ensures x != fields[0].0
        {
          var f :| (x, f) in tail && !f.optional && x !in names;
          var j :| 0 <= j < |tail| && tail[j] == (x, f);
          assert Keys(fields)[j + 1] == x && Keys(fields)[0] == fields[0].0;
        }
      }
    }
  }

  /**
   * Exactly one required field not passed: `__init__` raises the singular
   * message naming that field.
   */
  lemma InitOneMissing(c: NodeClass, kwargs: Kwargs, k: string, f: Field)
    requires DistinctKeys(c.fields)
    requires (k, f) in c.fields && !f.optional && k !in Names(kwargs)
    requires forall k', f' :: (k', f') in c.fields && !f'.optional && k' !in Names(kwargs) ==> k' == k
    ensures InitValues(c, kwargs) == Failure(MissingFields("Required field '" + k + "' is missing"))
  {
    var m := MissingRequired(c.fields, Names(kwargs));
    MissingRequiredDistinct(c.fields, Names(kwargs));
    assert k in m;
    forall i | 0 <= i < |m|
      ensures m[i] == k
    {
      assert m[i] in m;
      var f' :| (m[i], f') in c.fields && !f'.optional && m[i] !in Names(kwargs);
    }
    OnlyOneValue(m, k);
  }

  /** A repeat-free list whose every item is `k`, and that holds `k`, is `[k]`. */
  lemma OnlyOneValue(s: seq<string>, k: string)
    requires NoRepeats(s) && k in s
    requires forall i :: 0 <= i < |s| ==> s[i] == k
    ensures s == [k]
  {
    assert s[0] == k && s[|s| - 1] == k;
  }

  /**
   * Two or more required fields not passed: `__init__` raises the plural
   * message, which quotes exactly the missing names, each once, separated by
   * ", ".
   */
  lemma InitSeveralMissing(c: NodeClass, kwargs: Kwargs, k1: string, f1: Field, k2: string, f2: Field)
    requires (k1, f1) in c.fields && !f1.optional && k1 !in Names(kwargs)
    requires (k2, f2) in c.fields && !f2.optional && k2 !in Names(kwargs)
    requires k1 != k2
    ensures var m := MissingRequired(c.fields, Names(kwargs));
            && InitValues(c, kwargs) == Failure(MissingFields("Required fields [" + Join(QuoteAll(m), ", ") + "] are missing"))
            && (forall k :: k in m <==> exists f :: (k, f) in c.fields && !f.optional && k !in Names(kwargs))
            && (DistinctKeys(c.fields) ==> NoRepeats(m))
  {
    var m := MissingRequired(c.fields, Names(kwargs));
    assert k1 in m && k2 in m;
    var i :| 0 <= i < |m| && m[i] == k1;
    var j :| 0 <= j < |m| && m[j] == k2;
    assert i != j;
    if DistinctKeys(c.fields) {
      MissingRequiredDistinct(c.fields, Names(kwargs));
    }
  }

  lemma InitStores(c: NodeClass, kwargs: Kwargs)
    requires InitValues(c, kwargs).Success?
    ensures var r := InitValues(c, kwargs);
            && (forall i :: 0 <= i < |kwargs| ==> kwargs[i].0 in Keys(c.fields))
            && r.value.Keys == Names(kwargs)
            && forall k :: k in r.value ==>
                 exists i :: 0 <= i < |kwargs| && kwargs[i].0 == k && Lookup(c.fields, k).Some?
                             && Coerce(Lookup(c.fields, k).value, kwargs[i].1) == Success(r.value[k])
  {
    var r := Assign(c.fields, kwargs, map[]);
    assert InitValues(c, kwargs) == r;
    AssignKeys(c.fields, kwargs, map[]);
    forall k | k in r.value
      ensures exists i :: 0 <= i < |kwargs| && kwargs[i].0 == k && Lookup(c.fields, k).Some?
                          && Coerce(Lookup(c.fields, k).value, kwargs[i].1) == Success(r.value[k])
    {
      AssignValues(c.fields, kwargs, map[], k);
    }
  }

  lemma InitRejects(c: NodeClass, kwargs: Kwargs)
    requires InitValues(c, kwargs).Failure? && !InitValues(c, kwargs).error.MissingFields?
    ensures var e := InitValues(c, kwargs).error;
            e.ValueError? || exists i :: 0 <= i < |kwargs| && kwargs[i].0 !in Keys(c.fields) && e == InvalidKeyword(kwargs[i].0)
  {
    assert InitValues(c, kwargs) == Assign(c.fields, kwargs, map[]);
    AssignErrors(c.fields, kwargs, map[]);
  }

  /** An unknown keyword always makes construction fail. */
  lemma UnknownKeywordRejected(c: NodeClass, kwargs: Kwargs, i: int)
    requires 0 <= i < |kwargs| && kwargs[i].0 !in Keys(c.fields)
    ensures InitValues(c, kwargs).Failure?
  {
    InitContract(c, kwargs);
  }

  // ---------------------------------------------------------------------------
  // The instance
  // ---------------------------------------------------------------------------

  /** A planned directory operation. */
  datatype Op =
    | Replace(dn: string, attr: string, value: Value)
    | AddAttr(dn: string, attr: string, value: Value)
    | DeleteAttr(dn: string, attr: string)
    | AddEntry(dn: string, entry: Dict<Value>)

  class LdapNode {
    const cls: NodeClass
    /** The base DN of the connection the object was created with. */
    const basedn: string
    const logger: ProxyLogger
    /** The instance attributes: field values set on this object (read-only fields through their backing slot). */
    var values: map<string, Value>

    constructor (cls: NodeClass, basedn: string, values: map<string, Value>)
      ensures this.cls == cls && this.basedn == basedn && this.values == values
      ensures fresh(logger) && logger.messages == []
    {
      this.cls := cls;
      this.basedn := basedn;
      this.values := values;
      logger := new ProxyLogger();
    }

    /** `getattr(self, name)` for a field: the instance's value, else the class default. */
    function Get(name: string): (v: Value)
      reads this
      ensures name in values ==> v == values[name]
      ensures name !in values && Lookup(cls.fields, name).Some? ==> v == DefaultValue(Lookup(cls.fields, name).value)
    {
      if name in values then values[name]
      else match Lookup(cls.fields, name)
        case Some(f) => DefaultValue(f)
        case None => PyNone
    }

    /** `getattr(self, name)`: AttributeError for a name that is neither set nor a field. */
    function Attr(name: string): (r: Result<Value, PyError>)
      reads this
      ensures r.Failure? <==> name !in values && name !in Keys(cls.fields)
      ensures r.Success? ==> r.value == Get(name)
    {
      if name in values || Lookup(cls.fields, name).Some? then Success(Get(name))
      else Failure(AttributeError(name))
    }

    /** `dnattr()`: the value of the attribute the class names as primary. */
    function DnAttr(): (r: Result<Value, PyError>)
      reads this
      ensures r.Failure? <==> cls.primary.None? || (cls.primary.value.0 !in values && cls.primary.value.0 !in Keys(cls.fields))
      ensures r.Success? ==> r.value == Get(cls.primary.value.0)
      ensures cls.primary.None? ==> r == Failure(AttributeError("primary"))
    {
      if cls.primary.None? then Failure(AttributeError("primary")) else Attr(cls.primary.value.0)
    }

    /**
     * `setattr(self, name, value)`. A read-only field only logs a warning;
     * `dn` cannot be assigned; anything else is stored as given.
     */
    method SetAttr(name: string, value: Value) returns (err: Option<PyError>)
      modifies this, logger
      ensures var f := Lookup(cls.fields, name);
              if f.Some? && f.value.readonly then
                err == None && values == old(values)
                && logger.messages == old(logger.messages) + [(Level.Warning, "Cannot modify read-only field '" + name + "'")]
              else if f.None? && name == "dn" then
                err == Some(ValueError("DN cannot be set since it is dynamically generated.")) && values == old(values)
                && logger.messages == old(logger.messages)
              else
                err == None && values == old(values)[name := value] && logger.messages == old(logger.messages)
    {
      var f := Lookup(cls.fields, name);
      if f.Some? && f.value.readonly {
        logger.Warning("Cannot modify read-only field '" + name + "'");
        return None;
      }
      if f.None? && name == "dn" {
        return Some(ValueError("DN cannot be set since it is dynamically generated."));
      }
      values := values[name := value];
      err := None;
    }

    /**
     * `delattr(self, name)`. A read-only field only logs a warning; an
     * instance value is removed, so the class default shows through again;
     * otherwise AttributeError.
     */
    method DelAttr(name: string) returns (err: Option<PyError>)
      modifies this, logger
      ensures var f := Lookup(cls.fields, name);
              if f.Some? && f.value.readonly then
                err == None && values == old(values)
                && logger.messages == old(logger.messages) + [(Level.Warning, "Cannot delete read-only field '" + name + "'")]
              else if name in old(values) then
                err == None && values == old(values) - {name} && logger.messages == old(logger.messages)
              else
                err == Some(AttributeError(name)) && values == old(values) && logger.messages == old(logger.messages)
    {
      var f := Lookup(cls.fields, name);
      if f.Some? && f.value.readonly {
        logger.Warning("Cannot delete read-only field '" + name + "'");
        return None;
      }
      if name in values {
        values := values - {name};
        return None;
      }
      err := Some(AttributeError(name));
    }

    // -------------------------------------------------------------------------
    // Comparison
    // -------------------------------------------------------------------------

    /** `self == other`: the same class and equal values in every non-system field. */
    predicate Eq(other: LdapNode?): (r: bool)
      reads this, other
      ensures other == this ==> r
      ensures r ==> other != null && other.cls == cls
    {
      other != null && cls == other.cls
      && forall e :: e in cls.nonSystemFields ==> Get(e.0) == other.Get(e.0)
    }

    /** `self < other`: the primary values compared; AttributeError without a primary, TypeError when they do not compare. */
    function Lt(other: LdapNode): (r: Result<bool, PyError>)
      reads this, other
      ensures cls.primary.None? || other.cls.primary.None? ==> r == Failure(AttributeError("primary"))
      ensures (cls.primary.Some? && other.cls.primary.Some?
               && Get(cls.primary.value.0).Str? && other.Get(other.cls.primary.value.0).Str?) ==> r.Success?
      ensures other == this ==> r != Success(true)
    {
      if cls.primary.None? || other.cls.primary.None? then Failure(AttributeError("primary"))
      else
        var mine := Get(cls.primary.value.0);
        PyLessIrreflexive(mine);
        match PyLess(mine, other.Get(other.cls.primary.value.0))
        case None => Failure(TypeError("'<' not supported between instances"))
        case Some(b) => Success(b)
    }

    // -------------------------------------------------------------------------
    // The DN
    // -------------------------------------------------------------------------

    /** `dnattrs()`: each identifying attribute's value, the first element for a list. */
    function DnAttrs(): Result<map<string, Value>, PyError>
      reads this
    {
      IdentifyingValues(cls.meta.identifyingAttrs, map[])
    }

    function IdentifyingValues(names: seq<string>, acc: map<string, Value>): Result<map<string, Value>, PyError>
      reads this
      decreases |names|
    {
      if names == [] then Success(acc)
      else
        var v :- Attr(names[0]);
        var first :- if v.List? then (if v.items == [] then Failure(IndexError) else Success(v.items[0])) else Success(v);
        IdentifyingValues(names[1..], acc[names[0] := first])
    }

    /** `dn`: `dn_format` filled from `dnattrs()`, then ',' and the base DN. */
    function Dn(): Result<string, PyError>
      reads this
    {
      match cls.meta.dnFormat
      case None => Failure(AttributeError("dn_format"))
      case Some(t) =>
        var attrs :- DnAttrs();
        var prefix :- Fill(t, attrs);
        Success(prefix + "," + basedn)
    }

    /**
     * With `dn_format` `attr=%(attr)s` followed by a fixed path (empty or
     * starting with ','), and `attr` the only identifying attribute, the DN is
     * `attr=<str(value)><path>,<basedn>`, and `dn_attribute` (what a
     * DNPartField populates from) reads the value back out of it.
     */
    lemma DnReadsBack(attr: string, path: string)
      requires cls.meta.dnFormat == Some([Lit(attr + "="), Hole(attr), Lit(path)]) && cls.meta.identifyingAttrs == [attr]
      requires Attr(attr).Success? && !Get(attr).List?
      requires '=' !in attr && ',' !in attr && ',' !in Text(Get(attr))
      requires path == "" || path[0] == ','
      ensures Dn() == Success(attr + "=" + Text(Get(attr)) + path + "," + basedn)
      ensures DnAttribute(Dn().value, attr) == Some(Text(Get(attr)))
    {
      var names := cls.meta.identifyingAttrs;
      assert names[1..] == [];
      var v := Text(Get(attr));
      var attrs := map[attr := Get(attr)];
      assert IdentifyingValues(names[1..], attrs) == Success(attrs);
      assert IdentifyingValues(names, map[]) == IdentifyingValues(names[1..], map[][attr := Get(attr)]);
      assert map[][attr := Get(attr)] == attrs;
      var t: Template := [Lit(attr + "="), Hole(attr), Lit(path)];
      assert t[1..][1..][1..] == [];
      assert Fill(t[1..][1..], attrs) == Success(path + "");
      assert FillPiece(t[1..][0], attrs) == Success(v);
      assert Fill(t[1..], attrs) == Success(v + (path + ""));
      assert Fill(t, attrs) == Success(attr + "=" + (v + (path + "")));
      assert path + "" == path;
      assert attr + "=" + (v + path) == attr + "=" + v + path;
      if path == "" {
        assert attr + "=" + v + path == attr + "=" + v;
        DnAttributeOfFirst(attr, v, basedn);
      } else {
        var rest := path[1..] + "," + basedn;
        assert path == "," + path[1..];
        assert attr + "=" + v + path + "," + basedn == attr + "=" + v + "," + rest;
        DnAttributeOfFirst(attr, v, rest);
      }
    }

    // -------------------------------------------------------------------------
    // Serialisation
    // -------------------------------------------------------------------------

    /** `_ldap_entry()`: the object classes, then each stored, non-derived field whose sanitised value is truthy. */
    function LdapEntry(): Result<Dict<Value>, PyError>
      reads this
    {
      EntryFrom(cls.nonSystemFields, [("objectclass", List(EncodedNames(cls.meta.objectclasses)))])
    }

    function EntryFrom(fs: FieldMap, acc: Dict<Value>): Result<Dict<Value>, PyError>
      reads this
      decreases |fs|
    {
      if fs == [] then Success(acc)
      else
        var (name, f) := fs[0];
        if StartsWith(name, "-") || Derived(f) || Get(name) == PyNone then EntryFrom(fs[1..], acc)
        else
          var s :- Sanitize(f, Get(name));
          EntryFrom(fs[1..], if Truthy(s) then Put(acc, f.ldap, s) else acc)
    }

    /** A field's contribution to the entry: the attribute name and the sanitised value it stores. */
    predicate Serialises(e: (string, Field), k: string, v: Value)
      reads this
    {
      !StartsWith(e.0, "-") && !Derived(e.1) && Get(e.0) != PyNone
      && e.1.ldap == k && Sanitize(e.1, Get(e.0)) == Success(v) && Truthy(v)
    }

    /**
     * Every attribute of the serialised entry is the object-class list or
     * the truthy sanitised value of a stored, non-derived, non-system field
     * that is set, under that field's directory name.
     */
    lemma EntryShape()
      requires LdapEntry().Success?
      ensures forall k, v :: (k, v) in LdapEntry().value ==>
                (k == "objectclass" && v == List(EncodedNames(cls.meta.objectclasses)))
                || exists e :: e in cls.nonSystemFields && Serialises(e, k, v)
    {
      EntryFromShape(cls.nonSystemFields, [("objectclass", List(EncodedNames(cls.meta.objectclasses)))]);
    }

    /**
     * Conversely, a field that serialises to `(k, v)` puts it in the entry
     * when no other field is stored under the directory name `k` and `k` is
     * not the object-class attribute.
     */
    lemma EntryHasField(e: (string, Field), k: string, v: Value)
      requires LdapEntry().Success? && e in cls.nonSystemFields && Serialises(e, k, v)
      requires k != "objectclass" && forall x :: x in cls.nonSystemFields && x != e ==> x.1.ldap != k
      ensures Lookup(LdapEntry().value, k) == Some(v)
    {
      EntryFromPuts(cls.nonSystemFields, [("objectclass", List(EncodedNames(cls.meta.objectclasses)))], e, k, v);
    }

    lemma {:induction false} EntryFromPuts(fs: FieldMap, acc: Dict<Value>, e: (string, Field), k: string, v: Value)
      requires EntryFrom(fs, acc).Success? && Serialises(e, k, v)
      requires forall x :: x in fs && x != e ==> x.1.ldap != k
      requires e in fs || Lookup(acc, k) == Some(v)
      ensures Lookup(EntryFrom(fs, acc).value, k) == Some(v)
      decreases |fs|
    {
      if fs != [] {
        var (name, f) := fs[0];
        assert forall x :: x in fs[1..] ==> x in fs;
        assert e in fs ==> fs[0] == e || e in fs[1..];
        if StartsWith(name, "-") || Derived(f) || Get(name) == PyNone {
          EntryFromPuts(fs[1..], acc, e, k, v);
        } else {
          var s := Sanitize(f, Get(name)).value;
          var acc' := if Truthy(s) then Put(acc, f.ldap, s) else acc;
          if Truthy(s) {
            PutLookup(acc, f.ldap, s, k);
          }
          EntryFromPuts(fs[1..], acc', e, k, v);
        }
      }
    }

    lemma {:induction false} EntryFromShape(fs: FieldMap, acc: Dict<Value>)
      requires EntryFrom(fs, acc).Success?
      ensures forall k, v :: (k, v) in EntryFrom(fs, acc).value ==>
                (k, v) in acc || exists e :: e in fs && Serialises(e, k, v)
      decreases |fs|
    {
      if fs != [] {
        var (name, f) := fs[0];
        assert forall e :: e in fs[1..] ==> e in fs;
        if StartsWith(name, "-") || Derived(f) || Get(name) == PyNone {
          EntryFromShape(fs[1..], acc);
        } else {
          var s := Sanitize(f, Get(name)).value;
          var acc' := if Truthy(s) then Put(acc, f.ldap, s) else acc;
          EntryFromShape(fs[1..], acc');
          if Truthy(s) {
            PutMember(acc, f.ldap, s);
            assert Serialises(fs[0], f.ldap, s);
          }
        }
      }
    }

    // -------------------------------------------------------------------------
    // diff() and save()
    // -------------------------------------------------------------------------

    /**
     * `diff(with_ldap_names, skip_fake_attrs)` against `refetched`, the copy
     * the directory holds (null when there is none): `(old, new)` for each
     * compared field whose normalised values differ.
     */
    function Diff(refetched: LdapNode?, withLdapNames: bool, skipFake: bool): Dict<(Value, Value)>
      reads this, refetched
    {
      DiffFrom(cls.nonSystemFields, refetched, withLdapNames, skipFake, [])
    }

    /** Whether `diff()` looks at a field at all. */
    static predicate Compared(name: string, f: Field, skipFake: bool)
    {
      !Derived(f) && !(skipFake && StartsWith(name, "-"))
    }

    /** The normalised value the directory holds for a field; None without a refetched copy. */
    static function OldValue(refetched: LdapNode?, name: string): Value
      reads refetched
    {
      if refetched != null then RemoveEmptyStrings(refetched.Get(name)) else PyNone
    }

    /** What `diff()` reports for one field: `(old, new)` when it is compared and the normalised values differ. */
    function Change(name: string, f: Field, refetched: LdapNode?, skipFake: bool): (r: Option<(Value, Value)>)
      reads this, refetched
      ensures r.Some? <==> Compared(name, f, skipFake) && RemoveEmptyStrings(Get(name)) != OldValue(refetched, name)
      ensures r.Some? ==> r.value == (OldValue(refetched, name), RemoveEmptyStrings(Get(name)))
    {
      var mine := RemoveEmptyStrings(Get(name));
      var theirs := OldValue(refetched, name);
      if Compared(name, f, skipFake) && mine != theirs then Some((theirs, mine)) else None
    }

    function DiffFrom(fs: FieldMap, refetched: LdapNode?, withLdapNames: bool, skipFake: bool, acc: Dict<(Value, Value)>): Dict<(Value, Value)>
      reads this, refetched
      decreases |fs|
    {
      if fs == [] then acc
      else
        var (name, f) := fs[0];
        match Change(name, f, refetched, skipFake)
        case None => DiffFrom(fs[1..], refetched, withLdapNames, skipFake, acc)
        case Some(c) => DiffFrom(fs[1..], refetched, withLdapNames, skipFake, Put(acc, if withLdapNames then f.ldap else name, c))
    }

    /**
     * With distinct field names, `diff()` holds an entry for a name exactly
     * when that field is compared and its normalised values differ, and the
     * entry is `(old, new)`.
     */
    lemma DiffReports(refetched: LdapNode?, skipFake: bool, k: string)
      requires DistinctKeys(cls.nonSystemFields)
      ensures Lookup(Diff(refetched, false, skipFake), k) ==
                match Lookup(cls.nonSystemFields, k)
                case None => None
                case Some(f) => Change(k, f, refetched, skipFake)
    {
      DiffFromLookup(cls.nonSystemFields, refetched, skipFake, [], k);
    }

    lemma {:induction false} DiffFromLookup(fs: FieldMap, refetched: LdapNode?, skipFake: bool, acc: Dict<(Value, Value)>, k: string)
      requires DistinctKeys(fs)
      ensures Lookup(DiffFrom(fs, refetched, false, skipFake, acc), k) ==
                if Lookup(fs, k).Some? && Change(k, Lookup(fs, k).value, refetched, skipFake).Some?
                then Change(k, Lookup(fs, k).value, refetched, skipFake)
                else Lookup(acc, k)
      decreases |fs|
    {
      if fs != [] {
        var (name, f) := fs[0];
        assert DistinctKeys(fs[1..]) by {
          assert forall i :: 0 <= i < |fs[1..]| ==> Keys(fs[1..])[i] == Keys(fs)[i + 1];
        }
        if name == k {
          assert k !in Keys(fs[1..]) by {
            assert Keys(fs)[0] == k;
            assert forall i :: 0 <= i < |fs[1..]| ==> Keys(fs[1..])[i] == Keys(fs)[i + 1];
          }
        }
        match Change(name, f, refetched, skipFake)
        case None =>
          DiffFromLookup(fs[1..], refetched, skipFake, acc, k);
        case Some(c) =>
          DiffFromLookup(fs[1..], refetched, skipFake, Put(acc, name, c), k);
          PutLookup(acc, name, c, k);
      }
    }

    /** Every name `diff()` reports is a compared field of the class. */
    lemma {:induction false} DiffFromKeys(fs: FieldMap, refetched: LdapNode?, skipFake: bool, acc: Dict<(Value, Value)>)
      ensures forall k :: k in Keys(DiffFrom(fs, refetched, false, skipFake, acc)) ==>
                k in Keys(acc) || exists f :: (k, f) in fs && Compared(k, f, skipFake)
      decreases |fs|
    {
      if fs != [] {
        var (name, f) := fs[0];
        assert forall e :: e in fs[1..] ==> e in fs;
        match Change(name, f, refetched, skipFake)
        case None =>
          DiffFromKeys(fs[1..], refetched, skipFake, acc);
        case Some(c) =>
          DiffFromKeys(fs[1..], refetched, skipFake, Put(acc, name, c));
          PutKeys(acc, name, c);
          assert (name, f) in fs;
      }
    }

    /** An object equal to its refetched copy has nothing to report, whatever the options. */
    lemma UnchangedDiffEmpty(refetched: LdapNode, withLdapNames: bool, skipFake: bool)
      requires Eq(refetched)
      ensures Diff(refetched, withLdapNames, skipFake) == []
    {
      UnchangedDiffFrom(cls.nonSystemFields, refetched, withLdapNames, skipFake, []);
    }

    lemma {:induction false} UnchangedDiffFrom(fs: FieldMap, refetched: LdapNode, withLdapNames: bool, skipFake: bool, acc: Dict<(Value, Value)>)
      requires forall e :: e in fs ==> Get(e.0) == refetched.Get(e.0)
      ensures DiffFrom(fs, refetched, withLdapNames, skipFake, acc) == acc
      decreases |fs|
    {
      if fs != [] {
        assert fs[0] in fs;
        assert Change(fs[0].0, fs[0].1, refetched, skipFake).None?;
        UnchangedDiffFrom(fs[1..], refetched, withLdapNames, skipFake, acc);
      }
    }

    /** An empty diff against a refetched copy means every compared field agrees once normalised. */
    lemma EmptyDiffAgrees(refetched: LdapNode?, skipFake: bool, name: string, f: Field)
      requires DistinctKeys(cls.nonSystemFields) && (name, f) in cls.nonSystemFields
      requires Diff(refetched, false, skipFake) == [] && Compared(name, f, skipFake)
      ensures RemoveEmptyStrings(Get(name)) == OldValue(refetched, name)
    {
      DiffReports(refetched, skipFake, name);
      LookupDistinct(cls.nonSystemFields, name, f);
    }

    /**
     * `_save_existing()`: `diff()` first refetches the object, and an
     * exception there ends the save before any request. Then, for each
     * diffed attribute in turn, the request for it is sent and its success
     * logged; the first exception ends the loop, and the requests already
     * sent stay sent.
     */
    method SaveExisting(refetched: Result<LdapNode?, PyError>, dn: string, directory: Directory) returns (run: SaveRun)
      ensures refetched.Failure? ==> run == SaveRun([], Failure(refetched.error))
      ensures refetched.Success? ==> run == ExistingRun(Diff(refetched.value, false, true), cls.fields, dn, directory, DnAttr())
    {
      if refetched.Failure? {
        return SaveRun([], Failure(refetched.error));
      }
      var diff := Diff(refetched.value, false, true);
      var who := DnAttr();
      ghost var ps := ExistingPasses(diff, cls.fields, dn, directory, who);
      var sent: seq<Op> := [];
      assert ps[0..] == ps;
      WithSentEmpty(RunOf(ps));
      for i := 0 to |diff|
        invariant RunOf(ps) == WithSent(sent, RunOf(ps[i..]))
      {
        RunOfUnfold(ps, i);
        assert ps[i] == ExistingStep(cls.fields, diff[i], dn, directory, i, who);
        var (attr, change) := diff[i];
        var op := OpFor(cls.fields, attr, change.0, change.1, dn);
        if op.Failure? {
          return SaveRun(sent, Failure(op.error));
        }
        var reply := Request(op.value, directory(i, op.value));
        if reply.Failure? {
          return SaveRun(sent + [op.value], Failure(reply.error));
        }
        if LogsDnAttr(op.value, change.0, change.1) && who.Failure? {
          return SaveRun(sent + [op.value], Failure(who.error));
        }
        WithSentTwice(sent, [op.value], RunOf(ps[i + 1..]));
        sent := sent + [op.value];
      }
      assert ps[|diff|..] == [];
      assert sent + [] == sent;
      run := SaveRun(sent, Success(PyNone));
    }

    /**
     * `save()`. An object that does not validate logs that (reading
     * `dnattr()`) and returns False. Otherwise the DN is computed (by
     * `exists()`), and an existing object runs `_save_existing`, whose
     * `diff()` uses what `refetch()` gives; a new one sends one add of its
     * entry and logs it (reading `dnattr()`). It returns None.
     */
    function SaveSpec(valid: bool, present: bool, refetched: Result<LdapNode?, PyError>, directory: Directory): (r: SaveRun)
      reads this, Copy(refetched)
      ensures !valid ==> r.sent == [] && r.ending == (if DnAttr().Success? then Success(Bool(false)) else Failure(DnAttr().error))
      ensures valid && Dn().Failure? ==> r == SaveRun([], Failure(Dn().error))
      ensures valid && Dn().Success? && present && refetched.Failure? ==> r == SaveRun([], Failure(refetched.error))
      ensures valid && Dn().Success? && present && refetched.Success? ==>
                r == ExistingRun(Diff(refetched.value, false, true), cls.fields, Dn().value, directory, DnAttr())
      ensures valid && Dn().Success? && !present && LdapEntry().Failure? ==> r == SaveRun([], Failure(LdapEntry().error))
      ensures valid && Dn().Success? && !present && LdapEntry().Success? ==>
                var add := AddEntry(Dn().value, LdapEntry().value);
                && r.sent == [add]
                && (r.ending.Success? <==> directory(0, add).Done? && DnAttr().Success?)
      ensures r.ending.Success? ==> r.ending.value == if valid then PyNone else Bool(false)
    {
      if !valid then
        match DnAttr()
        case Success(_) => SaveRun([], Success(Bool(false)))
        case Failure(e) => SaveRun([], Failure(e))
      else
        match Dn()
        case Failure(e) => SaveRun([], Failure(e))
        case Success(dn) =>
          if present then
            match refetched
            case Failure(e) => SaveRun([], Failure(e))
            case Success(copy) => ExistingRun(Diff(copy, false, true), cls.fields, dn, directory, DnAttr())
          else
            match LdapEntry()
            case Failure(e) => SaveRun([], Failure(e))
            case Success(entry) =>
              var add := AddEntry(dn, entry);
              match Request(add, directory(0, add))
              case Failure(e) => SaveRun([add], Failure(e))
              case Success(_) =>
                match DnAttr()
                case Failure(e) => SaveRun([add], Failure(e))
                case Success(_) => SaveRun([add], Success(PyNone))
    }

    method Save(valid: bool, present: bool, refetched: Result<LdapNode?, PyError>, directory: Directory) returns (run: SaveRun)
      ensures run == SaveSpec(valid, present, refetched, directory)
    {
      var who := DnAttr();
      if !valid {
        if who.Failure? {
          return SaveRun([], Failure(who.error));
        }
        return SaveRun([], Success(Bool(false)));
      }
      var dn := Dn();
      if dn.Failure? {
        return SaveRun([], Failure(dn.error));
      }
      if present {
        run := SaveExisting(refetched, dn.value, directory);
      } else {
        var entry := LdapEntry();
        if entry.Failure? {
          return SaveRun([], Failure(entry.error));
        }
        var add := AddEntry(dn.value, entry.value);
        var reply := Request(add, directory(0, add));
        if reply.Failure? {
          return SaveRun([add], Failure(reply.error));
        }
        if who.Failure? {
          return SaveRun([add], Failure(who.error));
        }
        run := SaveRun([add], Success(PyNone));
      }
    }

    /** Saving an existing object whose refetch gives an equal copy sends nothing and returns None. */
    lemma SaveUnchangedSendsNothing(refetched: LdapNode, directory: Directory)
      requires Eq(refetched) && Dn().Success?
      ensures SaveSpec(true, true, Success(refetched), directory) == SaveRun([], Success(PyNone))
    {
      UnchangedDiffEmpty(refetched, false, true);
    }

    /**
     * Once the refetch gives a copy (or None), saving an existing object sends, in diff order, the request for each
     * diffed attribute, on the object's DN and the field's directory
     * attribute, and never re-adds the entry. It returns None exactly when
     * every attribute goes through; otherwise it raises the exception of the
     * first one that does not, after the requests sent up to and including it.
     */
    lemma SaveExistingShape(refetched: LdapNode?, directory: Directory)
      requires Dn().Success?
      ensures var diff := Diff(refetched, false, true);
              var run := SaveSpec(true, true, Success(refetched), directory);
              && RunFollows(ExistingPasses(diff, cls.fields, Dn().value, directory, DnAttr()))
              && |run.sent| <= |diff|
              && forall i :: 0 <= i < |run.sent| ==>
                   OpFor(cls.fields, diff[i].0, diff[i].1.0, diff[i].1.1, Dn().value) == Success(run.sent[i])
                   && !run.sent[i].AddEntry? && run.sent[i].dn == Dn().value
                   && Lookup(cls.fields, diff[i].0).Some? && run.sent[i].attr == Lookup(cls.fields, diff[i].0).value.ldap
    {
      var diff := Diff(refetched, false, true);
      var dn, who := Dn().value, DnAttr();
      var ps := ExistingPasses(diff, cls.fields, dn, directory, who);
      var run := RunOf(ps);
      ExistingPassesSendOne(diff, cls.fields, dn, directory, who);
      RunShape(ps);
      SentByPasses(ps);
      forall i | 0 <= i < |run.sent|
        ensures OpFor(cls.fields, diff[i].0, diff[i].1.0, diff[i].1.1, dn) == Success(run.sent[i])
      {
        assert ps[i] == ExistingStep(cls.fields, diff[i], dn, directory, i, who);
      }
    }

    /**
     * A new object of a class without a primary field is never saved
     * cleanly: after its add, the success log's `dnattr()` raises.
     */
    lemma NoPrimaryAddRaises(refetched: Result<LdapNode?, PyError>, directory: Directory)
      requires cls.primary.None? && Dn().Success?
      ensures var r := SaveSpec(true, false, refetched, directory);
              r.ending.Failure? && |r.sent| <= 1
              && (LdapEntry().Success? && directory(0, AddEntry(Dn().value, LdapEntry().value)).Done? ==>
                    r == SaveRun([AddEntry(Dn().value, LdapEntry().value)], Failure(AttributeError("primary"))))
    {
    }

    /**
     * `attr_difference_since_last_save(attr)`: the values added and removed
     * since the refetched copy; None for the empty dict returned when the
     * attribute did not change. `diff()` comes first, so an exception of
     * its refetch wins over the check of the name.
     */
    function AttrDifference(attr: string, refetched: Result<LdapNode?, PyError>): (r: Result<Option<(seq<Value>, seq<Value>)>, PyError>)
      reads this, Copy(refetched)
      ensures refetched.Failure? ==> r == Failure(refetched.error)
      ensures refetched.Success? && attr !in Keys(cls.fields) ==> r == Failure(Ldapper(ArgumentError(attr + " is not a valid attribute")))
      ensures r.Success? && r.value.Some? ==>
                NoRepeats(r.value.value.0) && NoRepeats(r.value.value.1)
                && forall x :: !(x in r.value.value.0 && x in r.value.value.1)
    {
      var copy :- refetched;
      var diff := Diff(copy, false, false);
      if attr !in Keys(cls.fields) then Failure(Ldapper(ArgumentError(attr + " is not a valid attribute")))
      else
        match Lookup(diff, attr)
        case None => Success(None)
        case Some(change) =>
          var olds :- Elements(change.0);
          var news :- Elements(change.1);
          Success(Some((Difference(news, olds), Difference(olds, news))))
    }

    /**
     * For a list attribute, the values added are those now present (and
     * non-empty) that the directory lacks, and the values removed the
     * reverse; nothing is reported when the normalised lists agree. When
     * they differ and either holds a non-empty list item, `set()` raises.
     */
    lemma ListAttrDifference(attr: string, f: Field, refetched: LdapNode, mine: seq<Value>, theirs: seq<Value>)
      requires DistinctKeys(cls.nonSystemFields) && (attr, f) in cls.nonSystemFields && !Derived(f)
      requires attr in Keys(cls.fields)
      requires Get(attr) == List(mine) && refetched.Get(attr) == List(theirs)
      ensures var r := AttrDifference(attr, Success(refetched));
              && (r.Failure? <==> FilterTruthy(mine) != FilterTruthy(theirs)
                                  && exists x :: x in mine + theirs && Truthy(x) && !Hashable(x))
              && (r.Failure? ==> r.error == Unhashable)
              && (r == Success(None) <==> FilterTruthy(mine) == FilterTruthy(theirs))
              && (r.Success? && r.value.Some? ==> forall x :: x in r.value.value.0 <==> x in mine && Truthy(x) && x !in theirs)
              && (r.Success? && r.value.Some? ==> forall x :: x in r.value.value.1 <==> x in theirs && Truthy(x) && x !in mine)
    {
      DiffReports(refetched, false, attr);
      LookupDistinct(cls.nonSystemFields, attr, f);
      var fm := FilterTruthy(mine);
      var ft := FilterTruthy(theirs);
      var change := Change(attr, f, refetched, false);
      assert RemoveEmptyStrings(Get(attr)) == List(fm);
      assert OldValue(refetched, attr) == List(ft);
      AttrDifferenceOf(attr, refetched, change);
      if fm != ft {
        assert change == Some((List(ft), List(fm)));
        if exists x :: x in mine + theirs && Truthy(x) && !Hashable(x) {
          var x :| x in mine + theirs && Truthy(x) && !Hashable(x);
          assert x in ft + fm;
        } else {
          forall x | x in ft + fm
            ensures Hashable(x)
          {
            assert x in mine + theirs && Truthy(x);
          }
          DifferenceOfFiltered(mine, theirs);
          DifferenceOfFiltered(theirs, mine);
        }
      }
    }

    /** `attr_difference_since_last_save` in terms of what `diff()` reports for the attribute. */
    lemma AttrDifferenceOf(attr: string, refetched: LdapNode?, change: Option<(Value, Value)>)
      requires attr in Keys(cls.fields) && Lookup(Diff(refetched, false, false), attr) == change
      ensures change.None? ==> AttrDifference(attr, Success(refetched)) == Success(None)
      ensures change.Some? && change.value.0.List? && change.value.1.List?
              && (forall x :: x in change.value.0.items + change.value.1.items ==> Hashable(x)) ==>
                AttrDifference(attr, Success(refetched))
                == Success(Some((Difference(change.value.1.items, change.value.0.items),
                                 Difference(change.value.0.items, change.value.1.items))))
      ensures change.Some? && change.value.0.List? && change.value.1.List?
              && (exists x :: x in change.value.0.items + change.value.1.items && !Hashable(x)) ==>
                AttrDifference(attr, Success(refetched)) == Failure(Unhashable)
    {
    }
  }

  /** The copy a refetch gave, as a frame: empty when it raised or found nothing. */
  function Copy(refetched: Result<LdapNode?, PyError>): set<LdapNode>
  {
    if refetched.Success? && refetched.value != null then {refetched.value} else {}
  }

  /** The values of one list, kept when truthy, that the other list lacks. */
  lemma DifferenceOfFiltered(a: seq<Value>, b: seq<Value>)
    ensures forall x :: x in Difference(FilterTruthy(a), FilterTruthy(b)) <==> x in a && Truthy(x) && x !in b
  {
  }

  /** The object classes encoded as UTF-8. */
  function EncodedNames(names: seq<string>): (r: seq<Value>)
    ensures |r| == |names| && forall i :: 0 <= i < |names| ==> r[i] == Bytes(Encode(names[i]))
  {
    if names == [] then [] else [Bytes(Encode(names[0]))] + EncodedNames(names[1..])
  }

  /** The operation `_save_existing` issues for one changed attribute. */
  function OpFor(fields: FieldMap, attr: string, before: Value, after: Value, dn: string): (r: Result<Op, PyError>)
    ensures Lookup(fields, attr).None? ==> r == Failure(KeyError(attr))
    ensures r.Success? ==> !r.value.AddEntry? && r.value.dn == dn
                           && Lookup(fields, attr).Some? && r.value.attr == Lookup(fields, attr).value.ldap
    ensures r.Success? && !r.value.DeleteAttr? ==>
              Truthy(r.value.value) && after != PyNone && Sanitize(Lookup(fields, attr).value, after) == Success(r.value.value)
    ensures r.Success? && r.value.Replace? ==> Truthy(before)
    ensures r.Success? && r.value.AddAttr? ==> !Truthy(before)
    ensures r.Success? ==> Sanitize(Lookup(fields, attr).value, after).Success?
    ensures r.Success? && r.value.DeleteAttr? ==> after == PyNone || !Truthy(Sanitize(Lookup(fields, attr).value, after).value)
  {
    match Lookup(fields, attr)
    case None => Failure(KeyError(attr))
    case Some(f) =>
      var wire :- Sanitize(f, after);
      if Truthy(wire) && after != PyNone then
        if Truthy(before) then Success(Replace(dn, f.ldap, wire)) else Success(AddAttr(dn, f.ldap, wire))
      else Success(DeleteAttr(dn, f.ldap))
  }

  /** The reply the connection method for a request turns the directory's answer into. */
  function Request(op: Op, answer: LdapOutcome): (r: Result<bool, PyError>)
    ensures r.Success? <==> answer.Done?
    ensures r.Success? ==> r.value
  {
    match op
    case Replace(dn, attr, v) => ModifyReply(dn, attr, v, answer)
    case AddAttr(dn, attr, v) => ModifyReply(dn, attr, v, answer)
    case DeleteAttr(dn, attr) => DeleteAttrReply(dn, attr, answer)
    case AddEntry(dn, _) => AddReply(dn, answer)
  }

  /**
   * Whether the success log line of a request reads `dnattr()`: every one
   * does, except a replacement of a list by a list with the same members,
   * for which `log__modify_attr_success` logs nothing.
   */
  predicate LogsDnAttr(op: Op, before: Value, after: Value)
  {
    !(op.Replace? && before.List? && after.List?
      && Difference(after.items, before.items) == [] && Difference(before.items, after.items) == [])
  }

  /** The directory: its answer to the n-th request of a save, counting from 0. */
  type Directory = (nat, Op) -> LdapOutcome

  /** One call of `save()`: the requests sent to the directory, in order, and what it returned or raised. */
  datatype SaveRun = SaveRun(sent: seq<Op>, ending: Result<Value, PyError>)

  function WithSent(sent: seq<Op>, run: SaveRun): SaveRun
  {
    SaveRun(sent + run.sent, run.ending)
  }

  lemma WithSentEmpty(run: SaveRun)
    ensures WithSent([], run) == run
  {
    assert [] + run.sent == run.sent;
  }

  lemma WithSentTwice(a: seq<Op>, b: seq<Op>, run: SaveRun)
    ensures WithSent(a, WithSent(b, run)) == WithSent(a + b, run)
  {
    assert a + (b + run.sent) == (a + b) + run.sent;
  }

  /** One pass of a save: the request sent, if it got that far, and the exception that ends the save, if any. */
  type Pass = (seq<Op>, Option<PyError>)

  /**
   * One pass of `_save_existing`'s loop as the n-th request. The field's
   * `sanitize_for_ldap` may raise before anything is sent; the connection
   * method may raise; the success log reads `dnattr()`.
   */
  function ExistingStep(fields: FieldMap, e: (string, (Value, Value)), dn: string, directory: Directory, n: nat,
                        dnattr: Result<Value, PyError>): (r: Pass)
    ensures var op := OpFor(fields, e.0, e.1.0, e.1.1, dn);
            && (op.Failure? ==> r == ([], Some(op.error)))
            && (op.Success? ==> r.0 == [op.value])
  {
    match OpFor(fields, e.0, e.1.0, e.1.1, dn)
    case Failure(err) => ([], Some(err))
    case Success(op) =>
      match Request(op, directory(n, op))
      case Failure(err) => ([op], Some(err))
      case Success(_) =>
        if LogsDnAttr(op, e.1.0, e.1.1) && dnattr.Failure? then ([op], Some(dnattr.error)) else ([op], None)
  }

  /** A pass goes through exactly when its request is sent, answered with success, and its log line can be written. */
  lemma StepPasses(fields: FieldMap, e: (string, (Value, Value)), dn: string, directory: Directory, n: nat,
                   dnattr: Result<Value, PyError>)
    ensures var r := ExistingStep(fields, e, dn, directory, n, dnattr);
            var op := OpFor(fields, e.0, e.1.0, e.1.1, dn);
            r.1.None? <==> op.Success? && directory(n, op.value).Done? && (LogsDnAttr(op.value, e.1.0, e.1.1) ==> dnattr.Success?)
  {
  }

  /** The passes of `_save_existing`'s loop, the i-th diffed attribute being the i-th request. */
  function ExistingPasses(diff: Dict<(Value, Value)>, fields: FieldMap, dn: string, directory: Directory,
                          dnattr: Result<Value, PyError>): (ps: seq<Pass>)
    ensures |ps| == |diff|
    ensures forall i :: 0 <= i < |diff| ==> ps[i] == ExistingStep(fields, diff[i], dn, directory, i, dnattr)
  {
    seq(|diff|, i requires 0 <= i < |diff| => ExistingStep(fields, diff[i], dn, directory, i, dnattr))
  }

  /** Each pass sends at most one request, and exactly one when it goes through. */
  ghost predicate OneRequestEach(ps: seq<Pass>)
  {
    forall i :: 0 <= i < |ps| ==> |ps[i].0| <= 1 && (ps[i].1.None? ==> |ps[i].0| == 1)
  }

  lemma ExistingPassesSendOne(diff: Dict<(Value, Value)>, fields: FieldMap, dn: string, directory: Directory,
                              dnattr: Result<Value, PyError>)
    ensures OneRequestEach(ExistingPasses(diff, fields, dn, directory, dnattr))
  {
    var ps := ExistingPasses(diff, fields, dn, directory, dnattr);
    forall i | 0 <= i < |ps|
      ensures |ps[i].0| <= 1 && (ps[i].1.None? ==> |ps[i].0| == 1)
    {
      assert ps[i] == ExistingStep(fields, diff[i], dn, directory, i, dnattr);
    }
  }

  /** The passes in order, up to the first exception: what the loop does with them. */
  function RunOf(ps: seq<Pass>): (r: SaveRun)
    ensures |r.sent| <= Sent(ps)
    ensures r.ending.Success? ==> r.ending.value == PyNone
  {
    if ps == [] then SaveRun([], Success(PyNone))
    else if ps[0].1.Some? then SaveRun(ps[0].0, Failure(ps[0].1.value))
    else WithSent(ps[0].0, RunOf(ps[1..]))
  }

  /** The requests all the passes would send. */
  function Sent(ps: seq<Pass>): nat
  {
    if ps == [] then 0 else |ps[0].0| + Sent(ps[1..])
  }

  /** `_save_existing()`: the run of its passes. */
  function ExistingRun(diff: Dict<(Value, Value)>, fields: FieldMap, dn: string, directory: Directory,
                       dnattr: Result<Value, PyError>): SaveRun
  {
    RunOf(ExistingPasses(diff, fields, dn, directory, dnattr))
  }

  lemma RunOfUnfold(ps: seq<Pass>, i: nat)
    requires i < |ps|
    ensures RunOf(ps[i..]) == if ps[i].1.Some? then SaveRun(ps[i].0, Failure(ps[i].1.value)) else WithSent(ps[i].0, RunOf(ps[i + 1..]))
  {
    assert ps[i..][0] == ps[i] && ps[i..][1..] == ps[i + 1..];
  }

  ghost predicate AllThrough(ps: seq<Pass>)
  {
    forall i :: 0 <= i < |ps| ==> ps[i].1.None?
  }

  /** The first `upto` passes went through, and the i-th of them sent `sent[i]`. */
  ghost predicate SentInOrder(ps: seq<Pass>, sent: seq<Op>, upto: nat)
  {
    && upto <= |ps| && upto <= |sent|
    && forall i :: 0 <= i < upto ==> ps[i] == ([sent[i]], None)
  }

  /** The run stopped at pass j: every earlier pass went through, and pass j raised what the run raised. */
  ghost predicate StoppedAt(ps: seq<Pass>, run: SaveRun, j: nat)
  {
    && j < |ps|
    && SentInOrder(ps, run.sent, j)
    && run.sent[j..] == ps[j].0
    && run.ending.Failure?
    && ps[j].1 == Some(run.ending.error)
  }

  /**
   * The run returns None exactly when every pass goes through, having sent
   * one request per pass; otherwise it stops at some pass whose predecessors
   * all went through, raising that pass's exception, with the requests of
   * the passes up to and including it sent.
   */
  ghost predicate RunFollows(ps: seq<Pass>)
  {
    var run := RunOf(ps);
    && (run.ending.Success? <==> AllThrough(ps))
    && (run.ending.Success? ==> run.ending == Success(PyNone) && |run.sent| == |ps| && SentInOrder(ps, run.sent, |ps|))
    && (run.ending.Failure? ==> exists j: nat :: StoppedAt(ps, run, j))
  }

  /** The loop stops at the first exception, keeping the requests already sent. */
  lemma {:induction false} RunShape(ps: seq<Pass>)
    requires OneRequestEach(ps)
    ensures RunFollows(ps)
  {
    if ps != [] {
      assert OneRequestEach(ps[1..]) by {
        forall i | 0 <= i < |ps| - 1
          ensures |ps[1..][i].0| <= 1 && (ps[1..][i].1.None? ==> |ps[1..][i].0| == 1)
        {
          assert ps[1..][i] == ps[i + 1];
        }
      }
      RunShape(ps[1..]);
      if ps[0].1.Some? {
        RunStopsFirst(ps);
      } else {
        RunContinues(ps);
      }
    }
  }

  lemma RunStopsFirst(ps: seq<Pass>)
    requires ps != [] && ps[0].1.Some?
    ensures RunFollows(ps)
  {
    var run := RunOf(ps);
    assert run.sent[0..] == run.sent;
    assert StoppedAt(ps, run, 0);
  }

  lemma RunContinues(ps: seq<Pass>)
    requires ps != [] && ps[0].1.None? && |ps[0].0| == 1
    requires RunFollows(ps[1..])
    ensures RunFollows(ps)
  {
    var rest, run := RunOf(ps[1..]), RunOf(ps);
    var op := ps[0].0[0];
    assert ps[0].0 == [op];
    assert ps[0] == ([op], None);
    assert run.sent == [op] + rest.sent;
    if rest.ending.Success? {
      RunContinuesThrough(ps);
    } else {
      var j: nat :| StoppedAt(ps[1..], rest, j);
      assert run.sent[j + 1..] == rest.sent[j..];
      forall i | 0 <= i < j + 1
        ensures ps[i] == ([run.sent[i]], None)
      {
        if i > 0 {
          assert ps[i] == ps[1..][i - 1];
        }
      }
      assert StoppedAt(ps, run, j + 1);
      assert ps[j + 1] == ps[1..][j];
    }
  }

  lemma RunContinuesThrough(ps: seq<Pass>)
    requires ps != [] && ps[0].1.None? && |ps[0].0| == 1
    requires RunFollows(ps[1..]) && RunOf(ps[1..]).ending.Success?
    ensures AllThrough(ps) && |RunOf(ps).sent| == |ps| && SentInOrder(ps, RunOf(ps).sent, |ps|)
  {
    var rest, run := RunOf(ps[1..]), RunOf(ps);
    var op := ps[0].0[0];
    assert ps[0].0 == [op];
    assert ps[0] == ([op], None);
    assert run.sent == [op] + rest.sent;
    forall i | 0 <= i < |ps|
      ensures ps[i] == ([run.sent[i]], None)
    {
      if i > 0 {
        assert ps[i] == ps[1..][i - 1];
      }
    }
  }

  /** Every request a run sends is the one of the pass at its position. */
  lemma SentByPasses(ps: seq<Pass>)
    requires OneRequestEach(ps) && RunFollows(ps)
    ensures var run := RunOf(ps);
            && |run.sent| <= |ps|
            && forall i :: 0 <= i < |run.sent| ==> ps[i].0 == [run.sent[i]]
  {
    var run := RunOf(ps);
    if run.ending.Failure? {
      var j: nat :| StoppedAt(ps, run, j);
      forall i | 0 <= i < |run.sent|
        ensures ps[i].0 == [run.sent[i]]
      {
        if i >= j {
          assert run.sent[i] == run.sent[j..][i - j];
        }
      }
    }
  }

  /**
   * The elements `set()` iterates over: a list's items, a string's
   * characters, bytes' integers; nothing for None. A list among a list's
   * items makes `set()` raise.
   */
  function Elements(v: Value): (r: Result<seq<Value>, PyError>)
    ensures r.Success? ==> forall x :: x in r.value ==> Hashable(x)
    ensures v.List? ==> (r.Failure? <==> exists x :: x in v.items && !Hashable(x))
    ensures v.List? && r.Failure? ==> r.error == Unhashable
    ensures v.List? && r.Success? ==> r.value == v.items
  {
    match v
    case PyNone => Success([])
    case List(items) =>
      if forall i :: 0 <= i < |items| ==> Hashable(items[i]) then Success(items) else Failure(Unhashable)
    case Str(s) => Success(Chars(s))
    case Bytes(bs) => Success(ByteInts(bs))
    case _ => Failure(TypeError("object is not iterable"))
  }

  function ByteInts(bs: seq<byte>): (r: seq<Value>)
    ensures |r| == |bs| && forall i :: 0 <= i < |bs| ==> r[i] == Int(bs[i] as int)
  {
    if bs == [] then [] else [Int(bs[0] as int)] + ByteInts(bs[1..])
  }

  /** `list(set(a).difference(b))`, in order of first occurrence. */
  function Difference(a: seq<Value>, b: seq<Value>): (r: seq<Value>)
    ensures NoRepeats(r)
    ensures forall x :: x in r <==> x in a && x !in b
  {
    Distinct(Without(a, b))
  }

  function Without(a: seq<Value>, b: seq<Value>): (r: seq<Value>)
    ensures forall x :: x in r <==> x in a && x !in b
  {
    if a == [] then []
    else if a[0] in b then Without(a[1..], b)
    else [a[0]] + Without(a[1..], b)
  }

  // ---------------------------------------------------------------------------
  // Creating objects
  // ---------------------------------------------------------------------------

  /** `cls(**kwargs)`: the object, or the exception `__init__` raises. */
  method Create(c: NodeClass, basedn: string, kwargs: Kwargs) returns (r: Result<LdapNode, PyError>)
    ensures r.Failure? ==> InitValues(c, kwargs) == Failure(r.error)
    ensures r.Success? ==> InitValues(c, kwargs) == Success(r.value.values)
    ensures r.Success? ==> fresh(r.value) && fresh(r.value.logger) && r.value.cls == c && r.value.basedn == basedn
    ensures r.Success? ==> r.value.logger.messages == []
  {
    var missing := CheckRequired(c.fields, Names(kwargs));
    if missing != [] {
      return Failure(MissingFields(MissingMessage(missing)));
    }
    var values: map<string, Value> := map[];
    for i := 0 to |kwargs|
      invariant Assign(c.fields, kwargs, map[]) == Assign(c.fields, kwargs[i..], values)
    {
      assert kwargs[i..][1..] == kwargs[i + 1..];
      var (name, value) := kwargs[i];
      var f := Lookup(c.fields, name);
      if f.None? {
        return Failure(InvalidKeyword(name));
      }
      var v := Coerce(f.value, value);
      if v.Failure? {
        return Failure(v.error);
      }
      values := values[name := v.value];
    }
    assert kwargs[|kwargs|..] == [];
    var node := new LdapNode(c, basedn, values);
    r := Success(node);
  }

  /** `_check_required_fields_present(names)`: the missing required fields, in declaration order. */
  method CheckRequired(fields: FieldMap, names: set<string>) returns (missing: seq<string>)
    ensures missing == MissingRequired(fields, names)
  {
    missing := [];
    assert fields[0..] == fields;
    for i := 0 to |fields|
      invariant missing + MissingRequired(fields[i..], names) == MissingRequired(fields, names)
    {
      var tail := fields[i..];
      assert tail[0] == fields[i] && tail[1..] == fields[i + 1..];
      MissingRequiredCons(tail, names);
      var rest := MissingRequired(fields[i + 1..], names);
      if !fields[i].1.optional && fields[i].0 !in names {
        assert missing + ([fields[i].0] + rest) == (missing + [fields[i].0]) + rest;
        missing := missing + [fields[i].0];
      }
    }
    assert fields[|fields|..] == [];
  }

  lemma MissingRequiredCons(fields: FieldMap, names: set<string>)
    requires fields != []
    ensures MissingRequired(fields, names)
            == (if !fields[0].1.optional && fields[0].0 !in names then [fields[0].0] else [])
               + MissingRequired(fields[1..], names)
  {
  }

  /** `populate(dn, entry)` of every field, as the keyword arguments `_parse_ldap_entry` passes. */
  function PopulateAll(fields: FieldMap, dn: string, entry: Entry): (r: Result<Kwargs, PyError>)
    ensures r.Success? ==> |r.value| == |fields| && forall i :: 0 <= i < |fields| ==> r.value[i].0 == fields[i].0
  {
    if fields == [] then Success([])
    else
      var v :- Populate(fields[0].1, dn, entry);
      var rest :- PopulateAll(fields[1..], dn, entry);
      Success([(fields[0].0, v)] + rest)
  }

  /** `_parse_ldap_entry(dn, entry)`: the object a directory entry describes. */
  method ParseLdapEntry(c: NodeClass, basedn: string, dn: string, entry: Entry) returns (r: Result<LdapNode, PyError>)
    ensures r.Failure? ==> ParsedValues(c, dn, entry) == Failure(r.error)
    ensures r.Success? ==> ParsedValues(c, dn, entry) == Success(r.value.values)
    ensures r.Success? ==> fresh(r.value) && r.value.cls == c && r.value.basedn == basedn
  {
    var kwargs := PopulateAll(c.fields, dn, entry);
    if kwargs.Failure? {
      return Failure(kwargs.error);
    }
    r := Create(c, basedn, kwargs.value);
  }

  function ParsedValues(c: NodeClass, dn: string, entry: Entry): Result<map<string, Value>, PyError>
  {
    var kwargs :- PopulateAll(c.fields, dn, entry);
    InitValues(c, kwargs)
  }

  /**
   * An entry as `list` and `fetch` load it: parsed into an object, whose
   * `dnattr()` the debug message then reads.
   */
  function Loaded(c: NodeClass, dn: string, entry: Entry): (r: Result<map<string, Value>, PyError>)
    ensures r.Success? ==> ParsedValues(c, dn, entry) == r && c.primary.Some?
    ensures ParsedValues(c, dn, entry).Failure? ==> r == ParsedValues(c, dn, entry)
    ensures c.primary.None? && ParsedValues(c, dn, entry).Success? ==> r == Failure(AttributeError("primary"))
  {
    var values :- ParsedValues(c, dn, entry);
    if c.primary.None? then Failure(AttributeError("primary"))
    else if c.primary.value.0 in values || c.primary.value.0 in Keys(c.fields) then Success(values)
    else Failure(AttributeError(c.primary.value.0))
  }

  /**
   * A parsed entry passes every field name, so construction from it never
   * reports a missing field or an unknown keyword: it fails only where a
   * value cannot be read or coerced, and otherwise sets every field.
   */
  lemma ParsedEntryPassesEveryField(c: NodeClass, dn: string, entry: Entry)
    ensures var r := ParsedValues(c, dn, entry);
            && (r.Failure? ==> !r.error.MissingFields? && !r.error.TypeError?)
            && (r.Success? ==> forall k :: k in Keys(c.fields) ==> k in r.value)
  {
    var kwargs := PopulateAll(c.fields, dn, entry);
    if kwargs.Success? {
      var kw := kwargs.value;
      forall e | e in c.fields
        ensures e.0 in Names(kw)
      {
        var i :| 0 <= i < |c.fields| && c.fields[i] == e;
        assert kw[i].0 == e.0;
      }
      NothingMissing(c.fields, Names(kw));
      assert forall i :: 0 <= i < |kw| ==> kw[i].0 in Keys(c.fields) by {
        forall i | 0 <= i < |kw|
          ensures kw[i].0 in Keys(c.fields)
        {
          assert Keys(c.fields)[i] == kw[i].0;
        }
      }
      var r := Assign(c.fields, kw, map[]);
      if r.Success? {
        AssignKeys(c.fields, kw, map[]);
        forall k | k in Keys(c.fields)
          ensures k in Names(kw)
        {
          var i :| 0 <= i < |c.fields| && Keys(c.fields)[i] == k;
          assert c.fields[i] in c.fields;
        }
      } else {
        AssignKnownFailsByValue(c.fields, kw, map[]);
      }
    } else {
      PopulateErrors(c.fields, dn, entry);
    }
  }

  /** No required field is missing when every declared name was passed. */
  lemma {:induction false} NothingMissing(fields: FieldMap, names: set<string>)
    requires forall e :: e in fields ==> e.0 in names
    ensures MissingRequired(fields, names) == []
  {
    if fields != [] {
      assert fields[0] in fields;
      assert forall e :: e in fields[1..] ==> e in fields;
      NothingMissing(fields[1..], names);
    }
  }

  /** When every keyword names a field, the keyword loop can only fail in a coercion. */
  lemma {:induction false} AssignKnownFailsByValue(fields: FieldMap, kwargs: Kwargs, acc: map<string, Value>)
    requires forall i :: 0 <= i < |kwargs| ==> kwargs[i].0 in Keys(fields)
    requires Assign(fields, kwargs, acc).Failure?
    ensures Assign(fields, kwargs, acc).error.ValueError?
    decreases |kwargs|
  {
    if kwargs != [] {
      assert kwargs[0].0 in Keys(fields);
      var f := Lookup(fields, kwargs[0].0);
      if f.Some? && Coerce(f.value, kwargs[0].1).Success? {
        assert forall i :: 0 <= i < |kwargs[1..]| ==> kwargs[1..][i] == kwargs[i + 1];
        AssignKnownFailsByValue(fields, kwargs[1..], acc[kwargs[0].0 := Coerce(f.value, kwargs[0].1).value]);
      }
    }
  }

  /** Reading a field from an entry fails only by a missing first value or bad UTF-8. */
  lemma {:induction false} PopulateErrors(fields: FieldMap, dn: string, entry: Entry)
    requires PopulateAll(fields, dn, entry).Failure?
    ensures !PopulateAll(fields, dn, entry).error.MissingFields? && !PopulateAll(fields, dn, entry).error.TypeError?
  {
    if Populate(fields[0].1, dn, entry).Success? {
      PopulateErrors(fields[1..], dn, entry);
    }
  }

  /**
   * Objects of one class whose primary values are strings are strictly and
   * totally ordered by `__lt__`: comparison never fails, no object is below
   * itself, the order is transitive, and two objects neither of which is
   * below the other have the same primary value.
   */
  lemma LtOrdersStringPrimaries(x: LdapNode, y: LdapNode, z: LdapNode)
    requires x.cls == y.cls == z.cls && x.cls.primary.Some?
    requires var p := x.cls.primary.value.0; x.Get(p).Str? && y.Get(p).Str? && z.Get(p).Str?
    ensures x.Lt(y).Success?
    ensures x.Lt(x) == Success(false)
    ensures x.Lt(y) == Success(true) && y.Lt(z) == Success(true) ==> x.Lt(z) == Success(true)
    ensures x.Lt(y) == Success(false) && y.Lt(x) == Success(false) ==> x.Get(x.cls.primary.value.0) == y.Get(x.cls.primary.value.0)
  {
    var p := x.cls.primary.value.0;
    var a, b, c := x.Get(p).s, y.Get(p).s, z.Get(p).s;
    StrLessIrreflexive(a);
    if StrLess(a, b) && StrLess(b, c) {
      StrLessTransitive(a, b, c);
    }
    if a != b {
      StrLessTotal(a, b);
    }
  }
}
