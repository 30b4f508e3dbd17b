/**
 * The field kinds of ldapper/fields.py. Each kind converts three ways: a raw
 * directory entry to a Python value (`populate`), a caller's value to the
 * canonical one (`coerce_for_python`), and a value to the bytes sent to the
 * directory (`sanitize_for_ldap`).
 */
module Fields {
  import opened Wrappers
  import opened Utf8
  import opened DecimalText
  import opened PyValues
  import opened Exceptions
  import opened Utils

  datatype Kind = StringKind | IntegerKind | ListKind | DNPartKind | BinaryKind

  /**
   * A declared field: its kind, the name of its directory attribute and the
   * flags it was declared with. `system` marks server-managed attributes
   * (creation and modification stamps) that are never diffed or saved.
   */
  datatype Field = Field(
    kind: Kind,
    ldap: string,
    optional: bool,
    readonly: bool,
    printable: bool,
    primary: bool,
    system: bool)

  /** A raw entry as the directory returns it: attribute name to its list of byte-string values. */
  type Entry = map<string, seq<seq<byte>>>

  /** `Field(ldap, optional=False, readonly=False, printable=True, primary=False)` of the given kind. */
  function NewField(kind: Kind, ldap: string, optional: bool, readonly: bool, printable: bool, primary: bool): (f: Field)
    ensures f.kind == kind && f.ldap == ldap && f.optional == optional && f.readonly == readonly
    ensures f.printable == printable && f.primary == primary && !f.system
  {
    Field(kind, ldap, optional, readonly, printable, primary, false)
  }

  /** Only a DNPartField is derived: computed from the DN, never stored in the directory. */
  predicate Derived(f: Field)
  {
    f.kind == DNPartKind
  }

  /** `default_value()`: [] for a ListField, None for every other kind. */
  function DefaultValue(f: Field): (v: Value)
    ensures f.kind == ListKind ==> v == List([])
    ensures f.kind != ListKind ==> v == PyNone
  {
    if f.kind == ListKind then List([]) else PyNone
  }

  /** `bytes.decode('utf-8')`. */
  function DecodeValue(b: seq<byte>): (r: Result<Value, PyError>)
    ensures r.Success? <==> Decode(b).Some?
    ensures r.Success? ==> r.value == Str(Decode(b).value)
    ensures r.Failure? ==> r.error == UnicodeDecodeError
  {
    match Decode(b)
    case None => Failure(UnicodeDecodeError)
    case Some(s) => Success(Str(s))
  }

  /** `[v.decode('utf-8') for v in vals]`. */
  function DecodeAll(vals: seq<seq<byte>>): (r: Result<seq<Value>, PyError>)
    ensures r.Success? <==> forall i :: 0 <= i < |vals| ==> Decode(vals[i]).Some?
    ensures r.Success? ==> |r.value| == |vals| && forall i :: 0 <= i < |vals| ==> r.value[i] == Str(Decode(vals[i]).value)
    ensures r.Failure? ==> r.error == UnicodeDecodeError
  {
    if vals == [] then Success([])
    else
      match Decode(vals[0])
      case None => Failure(UnicodeDecodeError)
      case Some(first) =>
        match DecodeAll(vals[1..])
        case Failure(e) => Failure(e)
        case Success(rest) => Success([Str(first)] + rest)
  }

  /** `populate(dn, entry)`. */
  function Populate(f: Field, dn: string, entry: Entry): Result<Value, PyError>
  {
    match f.kind
    case StringKind | IntegerKind =>
      var val :- GetAttr(entry, f.ldap);
      (match val
       case None => Success(PyNone)
       case Some(b) => if b != [] then DecodeValue(b) else Success(Bytes(b)))
    case ListKind =>
      var vals := GetAttrList(entry, f.ldap);
      if vals != [] then
        var decoded :- DecodeAll(vals);
        Success(List(decoded))
      else Success(List([]))
    case DNPartKind =>
      (match DnAttribute(dn, f.ldap)
       case None => Success(PyNone)
       case Some(v) => Success(Str(v)))
    case BinaryKind =>
      var val :- GetAttr(entry, f.ldap);
      (match val
       case None => Success(PyNone)
       case Some(b) => Success(Bytes(b)))
  }

  /** `coerce_for_python(value)`. */
  function Coerce(f: Field, v: Value): (r: Result<Value, PyError>)
    ensures r.Failure? ==> f.kind.IntegerKind? && r.error.ValueError?
  {
    match f.kind
    case IntegerKind =>
      if v == PyNone && f.optional then Success(PyNone)
      else
        (match ToInt(v)
         case Success(i) => Success(Int(i))
         case Failure(NotNumeric) => Failure(ValueError(f.ldap + " must be an int: got " + Text(v)))
         case Failure(NotConvertible) => Failure(ValueError("value for " + f.ldap + " cannot be converted to an integer")))
    case StringKind => if v.Int? then Success(Str(IntToDecimal(v.i))) else Success(v)
    case ListKind => Success(List(ToList(v)))
    case DNPartKind => Success(PrimaryOrSelf(v))
    case BinaryKind => Success(v)
  }

  /** `[v.encode('utf-8') for v in val]`. Iterating a str yields its characters; bytes yield ints, which have no `encode`. */
  function EncodeEach(items: seq<Value>): (r: Result<seq<Value>, PyError>)
    ensures r.Success? <==> forall i :: 0 <= i < |items| ==> items[i].Str?
    ensures r.Success? ==> |r.value| == |items| && forall i :: 0 <= i < |items| ==> r.value[i] == Bytes(Encode(items[i].s))
  {
    if items == [] then Success([])
    else if !items[0].Str? then Failure(AttributeError("encode"))
    else
      match EncodeEach(items[1..])
      case Failure(e) => Failure(e)
      case Success(rest) => Success([Bytes(Encode(items[0].s))] + rest)
  }

  function Chars(s: string): (r: seq<Value>)
    ensures |r| == |s| && forall i :: 0 <= i < |s| ==> r[i] == Str([s[i]])
  {
    if s == [] then [] else [Str([s[0]])] + Chars(s[1..])
  }

  /** `sanitize_for_ldap(val)`. */
  function Sanitize(f: Field, v: Value): Result<Value, PyError>
  {
    match f.kind
    case IntegerKind => if v == PyNone then Success(PyNone) else Success(Bytes(Encode(Text(v))))
    case StringKind => if Truthy(v) then Success(Bytes(Encode(Text(v)))) else Success(PyNone)
    case ListKind =>
      (match v
       case List(items) =>
         var encoded :- EncodeEach(items);
         Success(List(encoded))
       case Str(s) =>
         var encoded :- EncodeEach(Chars(s));
         Success(List(encoded))
       case Bytes(bs) => if bs == [] then Success(List([])) else Failure(AttributeError("encode"))
       case _ => Failure(TypeError("object is not iterable")))
    case DNPartKind => Failure(RuntimeError("DNPartField.sanitize_for_ldap() should never get called."))
    case BinaryKind => Success(v)
  }

  // ---------------------------------------------------------------------------
  // StringField
  // ---------------------------------------------------------------------------

  /** StringField.populate decodes the first value, and gives None when the attribute is absent. */
  lemma StringPopulate(f: Field, dn: string, entry: Entry)
    requires f.kind == StringKind
    ensures f.ldap !in entry ==> Populate(f, dn, entry) == Success(PyNone)
    ensures f.ldap in entry && entry[f.ldap] != [] && Decode(entry[f.ldap][0]).Some? && entry[f.ldap][0] != [] ==>
              Populate(f, dn, entry) == Success(Str(Decode(entry[f.ldap][0]).value))
  {
  }

  /** StringField.coerce_for_python turns an int into its decimal text and keeps everything else. */
  lemma StringCoerce(f: Field, v: Value)
    requires f.kind == StringKind
    ensures v.Int? ==> Coerce(f, v) == Success(Str(IntToDecimal(v.i)))
    ensures !v.Int? ==> Coerce(f, v) == Success(v)
  {
  }

  /** A non-empty string read from the directory and written back gives back the very same bytes. */
  lemma StringRoundTrip(f: Field, dn: string, entry: Entry)
    requires f.kind == StringKind
    requires f.ldap in entry && entry[f.ldap] != [] && entry[f.ldap][0] != []
    requires Decode(entry[f.ldap][0]).Some?
    ensures Populate(f, dn, entry).Success?
    ensures Coerce(f, Populate(f, dn, entry).value) == Populate(f, dn, entry)
    ensures Sanitize(f, Populate(f, dn, entry).value) == Success(Bytes(entry[f.ldap][0]))
  {
    var b := entry[f.ldap][0];
    var s := Decode(b).value;
    EncodeDecode(b);
    assert s != [];
  }

  /** Every non-empty string written to the directory reads back as itself. */
  lemma StringWriteRead(f: Field, dn: string, s: string, entry: Entry)
    requires f.kind == StringKind && s != []
    requires entry == map[f.ldap := [Encode(s)]]
    ensures Sanitize(f, Str(s)) == Success(Bytes(Encode(s)))
    ensures Populate(f, dn, entry) == Success(Str(s))
  {
    DecodeEncode(s);
  }

  // ---------------------------------------------------------------------------
  // IntegerField
  // ---------------------------------------------------------------------------

  /** None coerces to None only on an optional IntegerField; on a required one it is a ValueError. */
  lemma IntegerCoerceNone(f: Field)
    requires f.kind == IntegerKind
    ensures f.optional ==> Coerce(f, PyNone) == Success(PyNone)
    ensures !f.optional ==> Coerce(f, PyNone).Failure? && Coerce(f, PyNone).error.ValueError?
  {
  }

  /** Text that is not a number is a ValueError, whether or not the field is optional. */
  lemma IntegerCoerceNonNumeric(f: Field, s: string)
    requires f.kind == IntegerKind && ParseInt(s, false).None?
    ensures Coerce(f, Str(s)) == Failure(ValueError(f.ldap + " must be an int: got " + s))
  {
  }

  /** Canonical decimal bytes survive populate, coerce and sanitize unchanged. */
  lemma IntegerRoundTrip(f: Field, dn: string, entry: Entry)
    requires f.kind == IntegerKind
    requires f.ldap in entry && entry[f.ldap] != []
    requires Decode(entry[f.ldap][0]).Some? && IsCanonicalDecimal(Decode(entry[f.ldap][0]).value)
    ensures Populate(f, dn, entry).Success?
    ensures Coerce(f, Populate(f, dn, entry).value).Success?
    ensures Sanitize(f, Coerce(f, Populate(f, dn, entry).value).value) == Success(Bytes(entry[f.ldap][0]))
  {
    var b := entry[f.ldap][0];
    var t := Decode(b).value;
    assert t != [];
    PopulateFirst(f, dn, entry);
    DecimalOfParse(t, false);
    var i := ParseInt(t, false).value;
    CoerceParsed(f, t, i);
    SanitizeInt(f, i);
    EncodeDecode(b);
  }

  lemma CoerceParsed(f: Field, t: string, i: int)
    requires f.kind == IntegerKind && ParseInt(t, false) == Some(i)
    ensures Coerce(f, Str(t)) == Success(Int(i))
  {
  }

  lemma SanitizeInt(f: Field, i: int)
    requires f.kind == IntegerKind
    ensures Sanitize(f, Int(i)) == Success(Bytes(Encode(IntToDecimal(i))))
  {
  }

  /** A scalar field populated from a non-empty first value is that value decoded. */
  lemma PopulateFirst(f: Field, dn: string, entry: Entry)
    requires f.kind == StringKind || f.kind == IntegerKind
    requires f.ldap in entry && entry[f.ldap] != [] && entry[f.ldap][0] != []
    ensures Populate(f, dn, entry) == DecodeValue(entry[f.ldap][0])
  {
  }

  /** Every int written to the directory reads back, after coercion, as itself. */
  lemma IntegerWriteRead(f: Field, dn: string, i: int, entry: Entry)
    requires f.kind == IntegerKind
    requires entry == map[f.ldap := [Encode(IntToDecimal(i))]]
    ensures Sanitize(f, Int(i)) == Success(Bytes(Encode(IntToDecimal(i))))
    ensures Populate(f, dn, entry) == Success(Str(IntToDecimal(i)))
    ensures Coerce(f, Str(IntToDecimal(i))) == Success(Int(i))
  {
    var t := IntToDecimal(i);
    assert t != [] by {
      if i < 0 { assert t[0] == '-'; }
    }
    assert Text(Int(i)) == t;
    var b := Encode(t);
    assert b != [];
    assert GetAttr(entry, f.ldap) == Success(Some(b));
    DecodeEncode(t);
    assert Populate(f, dn, entry) == DecodeValue(b);
    ParseDecimal(i, false);
    assert ToInt(Str(t)) == Success(i);
  }

  // ---------------------------------------------------------------------------
  // ListField
  // ---------------------------------------------------------------------------

  /** ListField.populate decodes every value in order, and gives [] when the attribute is absent. */
  lemma ListPopulate(f: Field, dn: string, entry: Entry)
    requires f.kind == ListKind
    ensures f.ldap !in entry ==> Populate(f, dn, entry) == Success(List([]))
    ensures f.ldap in entry && (forall i :: 0 <= i < |entry[f.ldap]| ==> Decode(entry[f.ldap][i]).Some?) ==>
              Populate(f, dn, entry).Success? && Populate(f, dn, entry).value.List?
              && |Populate(f, dn, entry).value.items| == |entry[f.ldap]|
              && forall i :: 0 <= i < |entry[f.ldap]| ==>
                   Populate(f, dn, entry).value.items[i] == Str(Decode(entry[f.ldap][i]).value)
  {
  }

  /** ListField.coerce_for_python: None to [], a string to a singleton, a list to itself. */
  lemma ListCoerce(f: Field, v: Value)
    requires f.kind == ListKind
    ensures v == PyNone ==> Coerce(f, v) == Success(List([]))
    ensures v.Str? ==> Coerce(f, v) == Success(List([v]))
    ensures v.List? ==> Coerce(f, v) == Success(v)
  {
  }

  /** Lists of strings are encoded element by element, keeping length and order. */
  lemma ListSanitize(f: Field, items: seq<Value>)
    requires f.kind == ListKind && forall i :: 0 <= i < |items| ==> items[i].Str?
    ensures Sanitize(f, List(items)).Success?
    ensures var r := Sanitize(f, List(items)).value;
            r.List? && |r.items| == |items| && forall i :: 0 <= i < |items| ==> r.items[i] == Bytes(Encode(items[i].s))
  {
  }

  function AllBytes(bs: seq<seq<byte>>): (r: seq<Value>)
    ensures |r| == |bs| && forall i :: 0 <= i < |bs| ==> r[i] == Bytes(bs[i])
  {
    if bs == [] then [] else [Bytes(bs[0])] + AllBytes(bs[1..])
  }

  /** Values read from the directory and written back give back the very same byte strings. */
  lemma ListRoundTrip(f: Field, dn: string, entry: Entry)
    requires f.kind == ListKind && f.ldap in entry
    requires forall i :: 0 <= i < |entry[f.ldap]| ==> Decode(entry[f.ldap][i]).Some?
    ensures Populate(f, dn, entry).Success?
    ensures Coerce(f, Populate(f, dn, entry).value) == Populate(f, dn, entry)
    ensures Sanitize(f, Populate(f, dn, entry).value) == Success(List(AllBytes(entry[f.ldap])))
  {
    var vals := entry[f.ldap];
    forall i | 0 <= i < |vals|
      ensures Encode(Decode(vals[i]).value) == vals[i]
    {
      EncodeDecode(vals[i]);
    }
    var r := Sanitize(f, Populate(f, dn, entry).value).value;
    assert r.items == AllBytes(vals);
  }

  // ---------------------------------------------------------------------------
  // DNPartField and BinaryField
  // ---------------------------------------------------------------------------

  /** A DNPartField is derived, reads its value out of the DN, and refuses to be written. */
  lemma DNPartBehaviour(f: Field, dn: string, entry: Entry, v: Value)
    requires f.kind == DNPartKind
    ensures Derived(f)
    ensures DnAttribute(dn, f.ldap).Some? ==> Populate(f, dn, entry) == Success(Str(DnAttribute(dn, f.ldap).value))
    ensures DnAttribute(dn, f.ldap).None? ==> Populate(f, dn, entry) == Success(PyNone)
    ensures Sanitize(f, v).Failure? && Sanitize(f, v).error.RuntimeError?
  {
  }

  /** An LDAPNode given to a DNPartField stands for its primary value; anything else is kept. */
  lemma DNPartCoerce(f: Field, v: Value)
    requires f.kind == DNPartKind
    ensures v.Node? && v.primaryName != [] ==> Coerce(f, v) == Success(v.primaryValue)
    ensures !v.Node? ==> Coerce(f, v) == Success(v)
  {
  }

  /** A BinaryField keeps the raw first value undecoded, and writes any value as it is. */
  lemma BinaryRoundTrip(f: Field, dn: string, entry: Entry, v: Value)
    requires f.kind == BinaryKind
    requires f.ldap in entry && entry[f.ldap] != []
    ensures Populate(f, dn, entry) == Success(Bytes(entry[f.ldap][0]))
    ensures Coerce(f, v) == Success(v) && Sanitize(f, v) == Success(v)
  {
  }
}
