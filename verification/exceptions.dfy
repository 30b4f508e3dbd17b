/**
 * The errors the mapper raises: Python's built-in exceptions where the code
 * lets one escape, and the LdapperError family with the payload and message
 * each constructor computes.
 */
module Exceptions {
  import opened Wrappers
  import opened PyValues

  /** The LdapperError subclasses, each holding the attributes its constructor stores. */
  datatype LdapperError =
    | AddDNFailed(dn: string)
    | ArgumentError(argMsg: string)
    | DuplicateValue(attr: string, originalValue: Value, offendingValues: Value)
    | NoSuchAttrValue(dn: string, attribute: string, value: string)
    | NoSuchDN(dn: string)

  /** An exception that escapes an operation of the model. */
  datatype PyError =
    | ValueError(message: string)
    | TypeError(message: string)
    | KeyError(key: string)
    | AttributeError(name: string)
    | IndexError
    | RuntimeError(message: string)
    | UnicodeDecodeError
    /** The bare `Exception` raised for missing required fields. */
    | MissingFields(message: string)
    | Ldapper(error: LdapperError)
    /** `ldap.SERVER_DOWN`. */
    | ServerDown
    /** Any other `ldap.LDAPError`. */
    | DirectoryError
    /** Python's RecursionError, once the interpreter's recursion limit is reached. */
    | RecursionError

  /** What `set()` raises for a list among its items. */
  const Unhashable := TypeError("unhashable type: 'list'")

  /** The exceptions that derive from `ldap.LDAPError`. */
  predicate IsLdapError(e: PyError)
  {
    e.ServerDown? || e.DirectoryError?
  }

  // ---------------------------------------------------------------------------
  // DuplicateValue's offending values
  // ---------------------------------------------------------------------------

  predicate NoRepeats<T(==)>(s: seq<T>)
  {
    forall i, j :: 0 <= i < j < |s| ==> s[i] != s[j]
  }

  /** `[x for x in items if items.count(x) >= 2]`, looking the counts up in `all`. */
  function Repeated(items: seq<Value>, all: seq<Value>): (r: seq<Value>)
    ensures forall x :: x in r <==> x in items && multiset(all)[x] >= 2
  {
    if items == [] then []
    else if multiset(all)[items[0]] >= 2 then [items[0]] + Repeated(items[1..], all)
    else Repeated(items[1..], all)
  }

  /**
   * `list(set(xs))`. Python's order depends on hashing; the model keeps the
   * first occurrence of each element.
   */
  function Distinct(xs: seq<Value>): (r: seq<Value>)
    ensures forall x :: x in r <==> x in xs
    ensures NoRepeats(r)
  {
    if xs == [] then []
    else
      var rest := Distinct(xs[1..]);
      if xs[0] in rest then rest else [xs[0]] + rest
  }

  /**
   * The offending values DuplicateValue computes from the value it is
   * given. For a list, `set()` of the repeated items raises when one of
   * them is itself a list.
   */
  function Offending(value: Value): (r: Result<Value, PyError>)
    ensures r.Failure? <==> value.List? && exists x :: x in value.items && multiset(value.items)[x] >= 2 && !Hashable(x)
    ensures r.Failure? ==> r.error == Unhashable
    ensures r.Success? && value.List? ==> r.value.List? && NoRepeats(r.value.items)
    ensures r.Success? && value.List? ==> forall x :: x in r.value.items <==> multiset(value.items)[x] >= 2
    ensures !value.List? ==> r == Success(value)
  {
    if value.List? then
      var dups := Repeated(value.items, value.items);
      if forall i :: 0 <= i < |dups| ==> Hashable(dups[i]) then Success(List(Distinct(dups)))
      else Failure(Unhashable)
    else Success(value)
  }

  /** The `DuplicateValue(attr, value)` constructor, or the TypeError its `set()` raises. */
  function NewDuplicateValue(attr: string, value: Value): (r: Result<LdapperError, PyError>)
    ensures r.Failure? <==> Offending(value).Failure?
    ensures r.Failure? ==> r.error == Unhashable
    ensures r.Success? ==> r.value.DuplicateValue? && r.value.attr == attr && r.value.originalValue == value
    ensures r.Success? ==> Success(r.value.offendingValues) == Offending(value)
  {
    var offending :- Offending(value);
    Success(DuplicateValue(attr, value, offending))
  }

  // ---------------------------------------------------------------------------
  // Messages
  // ---------------------------------------------------------------------------

  function ClassName(e: LdapperError): (n: string)
    ensures n != [] && ')' !in n
  {
    match e
    case AddDNFailed(_) => "AddDNFailed"
    case ArgumentError(_) => "ArgumentError"
    case DuplicateValue(_, _, _) => "DuplicateValue"
    case NoSuchAttrValue(_, _, _) => "NoSuchAttrValue"
    case NoSuchDN(_) => "NoSuchDN"
  }

  /** The `msg` attribute. */
  function Msg(e: LdapperError): string
  {
    match e
    case AddDNFailed(dn) => "Unable to add the DN " + dn + " to LDAP"
    case ArgumentError(m) => m
    case DuplicateValue(attr, _, offending) => "Attribute \"" + attr + "\" has duplicate value(s): " + Text(offending)
    case NoSuchAttrValue(dn, attribute, value) => "DN " + dn + " does not have " + attribute + " " + value
    case NoSuchDN(dn) => "DN " + dn + " does not exist."
  }

  /** `str(e)`: the class name in parentheses, then the message. */
  function Str(e: LdapperError): string
  {
    "(" + ClassName(e) + ") " + Msg(e)
  }

  /** The DN is recoverable from an AddDNFailed message: distinct DNs give distinct messages. */
  lemma AddDNFailedMessageInjective(a: string, b: string)
    requires Msg(AddDNFailed(a)) == Msg(AddDNFailed(b))
    ensures a == b
  {
    var ma := Msg(AddDNFailed(a));
    var mb := Msg(AddDNFailed(b));
    assert |a| == |b|;
    assert a == ma[21..21 + |a|];
    assert b == mb[21..21 + |b|];
  }

  /** The same for NoSuchDN. */
  lemma NoSuchDNMessageInjective(a: string, b: string)
    requires Msg(NoSuchDN(a)) == Msg(NoSuchDN(b))
    ensures a == b
  {
    var ma := Msg(NoSuchDN(a));
    var mb := Msg(NoSuchDN(b));
    assert |a| == |b|;
    assert a == ma[3..3 + |a|];
    assert b == mb[3..3 + |b|];
  }

  /** The class name in `str(e)` runs up to the first ')', so two equal texts name the same class. */
  lemma {:induction false} StrNamesClass(e1: LdapperError, e2: LdapperError)
    requires Str(e1) == Str(e2)
    ensures ClassName(e1) == ClassName(e2)
  {
    var s := Str(e1);
    var n1 := ClassName(e1);
    var n2 := ClassName(e2);
    Framed(n1, Msg(e1));
    Framed(n2, Msg(e2));
    SameFrameSameLength(s, n1, n2);
    forall k | 0 <= k < |n1| && k < |n2|
      ensures n1[k] == n2[k]
    {
      assert s[1 + k] == n1[k] && s[1 + k] == n2[k];
    }
  }

  /** Two names without ')' that both fill a text from position 1 up to a ')' have the same length. */
  lemma SameFrameSameLength(s: string, n1: string, n2: string)
    requires ')' !in n1 && ')' !in n2
    requires |s| > 1 + |n1| && s[1 + |n1|] == ')' && forall k :: 0 <= k < |n1| ==> s[1 + k] == n1[k]
    requires |s| > 1 + |n2| && s[1 + |n2|] == ')' && forall k :: 0 <= k < |n2| ==> s[1 + k] == n2[k]
    ensures |n1| == |n2|
  {
    forall j | 1 <= j < 1 + |n1|
      ensures s[j] != ')'
    {
      assert n1[j - 1] in n1;
    }
    forall j | 1 <= j < 1 + |n2|
      ensures s[j] != ')'
    {
      assert n2[j - 1] in n2;
    }
  }

  /** In `(n) m` the name n fills positions 1 to |n| and is followed by ')'. */
  lemma Framed(n: string, m: string)
    ensures var s := "(" + n + ") " + m;
            && |s| > 1 + |n| && s[1 + |n|] == ')'
            && forall k :: 0 <= k < |n| ==> s[1 + k] == n[k]
  {
  }
}
