/**
 * The class-level searches of LDAPNode: the filters they send (object
 * classes, searchable fields, the composition in `list`), the search base,
 * the `max_results` truncation, `_list_by` and its wrappers, the
 * exactly-one rule of `_fetch_entry`, and `fetch_by_dn`. The directory is a
 * function from (search base, filter) to its answer.
 */
module Search {
  import opened Wrappers
  import opened PyValues
  import opened Exceptions
  import opened Utils
  import opened Fields
  import opened Registry
  import opened Entity
  import opened Query

  /**
   * What a search returns or raises: the `(dn, entry)` results, None,
   * NO_SUCH_OBJECT or FILTER_ERROR (which `_fetch_entry` catches and `list`
   * lets escape as directory errors), or any other exception, which both
   * let escape.
   */
  datatype SearchAnswer =
    | Entries(entries: seq<(string, Entry)>)
    | NoResult
    | NoSuchObject
    | FilterError
    | Raised(error: PyError)

  type Directory = (string, string) -> SearchAnswer

  // ---------------------------------------------------------------------------
  // objectclass_filter
  // ---------------------------------------------------------------------------

  /** `(&<filter><extra>)`: one more condition that must hold as well. */
  function AndAlso(filter: string, extra: string): string
  {
    "(&" + filter + extra + ")"
  }

  /** `objectclass_filter()`: the AND of the object classes, then the NOT of the excluded ones. */
  function ObjectclassFilter(meta: Options): (r: Result<string, PyError>)
    ensures r.Failure? <==> meta.objectclasses == []
    ensures r.Failure? ==> r.error == ValueError("items list must exist")
    ensures r.Success? ==>
              var inc := "(" + "&" + EqualityFilters("objectClass", meta.objectclasses) + ")";
              r.value == if meta.excludedObjectclasses == [] then inc
                         else AndAlso(inc, "(" + "!" + EqualityFilters("objectClass", meta.excludedObjectclasses) + ")")
  {
    var f :- BuildLdapFilter("&", "objectClass", meta.objectclasses);
    if meta.excludedObjectclasses != [] then
      Success(AndAlso(f, BuildLdapFilter("!", "objectClass", meta.excludedObjectclasses).value))
    else Success(f)
  }

  /** No parenthesis in any of the strings. */
  predicate Plain(names: seq<string>)
  {
    forall i :: 0 <= i < |names| ==> '(' !in names[i] && ')' !in names[i]
  }

  lemma {:induction false} EqualityFiltersBalanced(attr: string, items: seq<string>)
    requires '(' !in attr && ')' !in attr && Plain(items)
    ensures Balanced(EqualityFilters(attr, items))
  {
    if items == [] {
      assert Depth("", 0) == Some(0);
    } else {
      Atom(attr, items[0]);
      EqualityFiltersBalanced(attr, items[1..]);
      Concatenated("(" + attr + "=" + items[0] + ")", EqualityFilters(attr, items[1..]));
    }
  }

  /** With parenthesis-free class names the object-class filter is a well-nested filter. */
  lemma ObjectclassFilterBalanced(meta: Options)
    requires Plain(meta.objectclasses) && Plain(meta.excludedObjectclasses) && meta.objectclasses != []
    ensures Balanced(ObjectclassFilter(meta).value)
  {
    var inc := EqualityFilters("objectClass", meta.objectclasses);
    EqualityFiltersBalanced("objectClass", meta.objectclasses);
    Wrapped("&", inc);
    if meta.excludedObjectclasses != [] {
      var exc := EqualityFilters("objectClass", meta.excludedObjectclasses);
      EqualityFiltersBalanced("objectClass", meta.excludedObjectclasses);
      Wrapped("!", exc);
      AndAlsoBalanced("(" + "&" + inc + ")", "(" + "!" + exc + ")");
    }
  }

  lemma AndAlsoBalanced(filter: string, extra: string)
    requires Balanced(filter) && Balanced(extra)
    ensures Balanced(AndAlso(filter, extra))
  {
    Concatenated(filter, extra);
    Wrapped("&", filter + extra);
    assert "(" + "&" + (filter + extra) + ")" == AndAlso(filter, extra);
  }

  // ---------------------------------------------------------------------------
  // Searchable-field filters
  // ---------------------------------------------------------------------------

  /** One of the templates `(%s=%s)`, `(%s=%s*)`, `(%s=*%s)`, `(%s=*%s*)`: where the wildcards go. */
  datatype Match = Match(leading: bool, trailing: bool)

  function Star(b: bool): string
  {
    if b then "*" else ""
  }

  /** The template filled with a field and the search term. */
  function Substring(attr: string, term: string, m: Match): string
  {
    "(" + attr + "=" + Star(m.leading) + term + Star(m.trailing) + ")"
  }

  function Substrings(fields: seq<string>, term: string, m: Match): string
  {
    if fields == [] then "" else Substring(fields[0], term, m) + Substrings(fields[1..], term, m)
  }

  /** `_searchable_fields_filter(term, template, fields)`: the OR of the template over the fields. */
  function SearchableFilter(fields: seq<string>, term: string, m: Match): string
  {
    "(|" + Substrings(fields, term, m) + ")"
  }

  lemma {:induction false} SubstringsAppend(fields: seq<string>, f: string, term: string, m: Match)
    ensures Substrings(fields + [f], term, m) == Substrings(fields, term, m) + Substring(f, term, m)
  {
    if fields == [] {
      assert fields + [f] == [f];
    } else {
      assert (fields + [f])[1..] == fields[1..] + [f];
      SubstringsAppend(fields[1..], f, term, m);
    }
  }

  /** The fields searched: the ones passed, else the class's `searchable_fields`. */
  function SearchedFields(meta: Options, fields: Option<seq<string>>): seq<string>
  {
    if fields.Some? then fields.value else meta.searchableFields
  }

  /** `_searchable_fields_filter`, growing the filter one field at a time. */
  method SearchableFieldsFilter(meta: Options, term: string, m: Match, fields: Option<seq<string>>) returns (r: string)
    ensures r == SearchableFilter(SearchedFields(meta, fields), term, m)
  {
    var searched := SearchedFields(meta, fields);
    var filter := "";
    for i := 0 to |searched|
      invariant filter == Substrings(searched[..i], term, m)
    {
      SubstringsAppend(searched[..i], searched[i], term, m);
      assert searched[..i + 1] == searched[..i] + [searched[i]];
      filter := filter + Substring(searched[i], term, m);
    }
    assert searched[..|searched|] == searched;
    r := "(|" + filter + ")";
  }

  /** `searchable_fields_search_prefix_filter`: a field starts with the term. */
  method SearchPrefixFilter(meta: Options, term: string, fields: Option<seq<string>>) returns (r: string)
    ensures r == SearchableFilter(SearchedFields(meta, fields), term, Match(false, true))
  {
    r := SearchableFieldsFilter(meta, term, Match(false, true), fields);
  }

  /** The four templates of a substring search, in the order they are tried. */
  const StringMatches: seq<Match> := [Match(false, false), Match(false, true), Match(true, false), Match(true, true)]

  function StringFilters(fields: seq<string>, term: string, ms: seq<Match>): string
  {
    if ms == [] then "" else SearchableFilter(fields, term, ms[0]) + StringFilters(fields, term, ms[1..])
  }

  /** The OR, over the four templates, of each template's searchable-field filter. */
  function SearchStringSpec(fields: seq<string>, term: string): string
  {
    "(|" + StringFilters(fields, term, StringMatches) + ")"
  }

  lemma {:induction false} StringFiltersAppend(fields: seq<string>, term: string, ms: seq<Match>, m: Match)
    ensures StringFilters(fields, term, ms + [m]) == StringFilters(fields, term, ms) + SearchableFilter(fields, term, m)
  {
    if ms == [] {
      assert ms + [m] == [m];
    } else {
      assert (ms + [m])[1..] == ms[1..] + [m];
      StringFiltersAppend(fields, term, ms[1..], m);
    }
  }

  /** `searchable_fields_search_string_filter`. */
  method SearchStringFilter(meta: Options, term: string, fields: Option<seq<string>>) returns (r: string)
    ensures r == SearchStringSpec(SearchedFields(meta, fields), term)
  {
    var filter := "";
    for i := 0 to |StringMatches|
      invariant filter == StringFilters(SearchedFields(meta, fields), term, StringMatches[..i])
    {
      var part := SearchableFieldsFilter(meta, term, StringMatches[i], fields);
      StringFiltersAppend(SearchedFields(meta, fields), term, StringMatches[..i], StringMatches[i]);
      assert StringMatches[..i + 1] == StringMatches[..i] + [StringMatches[i]];
      filter := filter + part;
    }
    assert StringMatches[..|StringMatches|] == StringMatches;
    r := "(|" + filter + ")";
  }

  lemma SubstringBalanced(attr: string, term: string, m: Match)
    requires '(' !in attr && ')' !in attr && '(' !in term && ')' !in term
    ensures Balanced(Substring(attr, term, m))
  {
    var value := Star(m.leading) + term + Star(m.trailing);
    assert '(' !in value && ')' !in value;
    Atom(attr, value);
    assert "(" + attr + "=" + value + ")" == Substring(attr, term, m);
  }

  lemma {:induction false} SubstringsBalanced(fields: seq<string>, term: string, m: Match)
    requires Plain(fields) && '(' !in term && ')' !in term
    ensures Balanced(Substrings(fields, term, m))
  {
    if fields == [] {
      assert Depth("", 0) == Some(0);
    } else {
      SubstringBalanced(fields[0], term, m);
      SubstringsBalanced(fields[1..], term, m);
      Concatenated(Substring(fields[0], term, m), Substrings(fields[1..], term, m));
    }
  }

  /** With parenthesis-free field names and term, each searchable-field filter is well nested. */
  lemma SearchableFilterBalanced(fields: seq<string>, term: string, m: Match)
    requires Plain(fields) && '(' !in term && ')' !in term
    ensures Balanced(SearchableFilter(fields, term, m))
  {
    SubstringsBalanced(fields, term, m);
    Wrapped("|", Substrings(fields, term, m));
    assert "(" + "|" + Substrings(fields, term, m) + ")" == SearchableFilter(fields, term, m);
  }

  lemma {:induction false} StringFiltersBalanced(fields: seq<string>, term: string, ms: seq<Match>)
    requires Plain(fields) && '(' !in term && ')' !in term
    ensures Balanced(StringFilters(fields, term, ms))
  {
    if ms == [] {
      assert Depth("", 0) == Some(0);
    } else {
      SearchableFilterBalanced(fields, term, ms[0]);
      StringFiltersBalanced(fields, term, ms[1..]);
      Concatenated(SearchableFilter(fields, term, ms[0]), StringFilters(fields, term, ms[1..]));
    }
  }

  lemma SearchStringBalanced(fields: seq<string>, term: string)
    requires Plain(fields) && '(' !in term && ')' !in term
    ensures Balanced(SearchStringSpec(fields, term))
  {
    StringFiltersBalanced(fields, term, StringMatches);
    Wrapped("|", StringFilters(fields, term, StringMatches));
    assert "(" + "|" + StringFilters(fields, term, StringMatches) + ")" == SearchStringSpec(fields, term);
  }

  // ---------------------------------------------------------------------------
  // list
  // ---------------------------------------------------------------------------

  /** The keyword arguments of `list` other than the ones filling the primary DN prefix. */
  datatype ListArgs = ListArgs(
    filter: Option<string>,
    prefix: Option<string>,
    rdnSubstring: Option<string>,
    searchPrefix: Option<string>,
    searchString: Option<string>,
    dnprefix: Option<string>,
    maxResults: Option<int>)

  /** `list()` with no arguments. */
  const NoArgs := ListArgs(None, None, None, None, None, None, None)

  /** A string argument that is given and not empty. */
  predicate Given(s: Option<string>)
  {
    s.Some? && s.value != ""
  }

  /** `str(secondary_dnprefix)`, as it is formatted into the search base. */
  function SecondaryText(meta: Options): string
  {
    if meta.secondaryDnprefix.Some? then meta.secondaryDnprefix.value else "None"
  }

  /**
   * The DN prefix `list` searches under: the one passed; else the primary
   * prefix filled from the keyword arguments, falling back to the secondary
   * one when a name is missing; else the secondary one.
   */
  function ListPrefix(meta: Options, dnprefix: Option<string>, kwargs: map<string, Value>): (r: Result<string, PyError>)
    ensures dnprefix.Some? ==> r == Success(dnprefix.value)
    ensures dnprefix.None? && kwargs == map[] ==> r == Success(SecondaryText(meta))
    ensures r.Failure? ==> dnprefix.None? && kwargs != map[] && meta.primaryDnprefix.None? && r.error.TypeError?
    ensures dnprefix.None? && kwargs != map[] && meta.primaryDnprefix.Some? ==>
              r == Success(if Fill(meta.primaryDnprefix.value, kwargs).Success? then Fill(meta.primaryDnprefix.value, kwargs).value
                           else SecondaryText(meta))
  {
    if dnprefix.Some? then Success(dnprefix.value)
    else if kwargs != map[] then
      match meta.primaryDnprefix
      case None => Failure(TypeError("unsupported operand type(s) for %: 'NoneType' and 'dict'"))
      case Some(t) =>
        match Fill(t, kwargs)
        case Success(s) => Success(s)
        case Failure(_) => Success(SecondaryText(meta))
    else Success(SecondaryText(meta))
  }

  /** The name of the class's primary field in the directory; AttributeError for a class without one. */
  function PrimaryLdap(c: NodeClass): (r: Result<string, PyError>)
    ensures r.Success? <==> c.primary.Some?
    ensures r.Success? ==> r.value == c.primary.value.1.ldap
  {
    if c.primary.Some? then Success(c.primary.value.1.ldap) else Failure(AttributeError("_primary_field"))
  }

  /** A condition on the primary field's directory name, ANDed on when the argument is given. */
  function PrimaryCondition(c: NodeClass, filter: string, arg: Option<string>, pattern: string -> string): Result<string, PyError>
  {
    if Given(arg) then
      var ldap :- PrimaryLdap(c);
      Success(AndAlso(filter, "(" + ldap + "=" + pattern(arg.value) + ")"))
    else Success(filter)
  }

  /** `prefix`: the primary value starts with it. */
  function PrefixPattern(p: string): string { p + "*" }

  /** `rdn_substring`: the primary value contains it. */
  function SubstringPattern(p: string): string { "*" + p + "*" }

  /** A searchable-field filter, ANDed on when the argument is given. */
  function SearchCondition(filter: string, arg: Option<string>, extra: string -> string): string
  {
    if Given(arg) then AndAlso(filter, extra(arg.value)) else filter
  }

  /**
   * The filter `list` builds from its arguments: the object-class filter,
   * then, each ANDed around what came before, the caller's filter, the
   * primary prefix, the primary substring, the searchable-field prefix
   * and the searchable-field substring search.
   */
  function ListFilter(c: NodeClass, args: ListArgs): Result<string, PyError>
  {
    var oc :- ObjectclassFilter(c.meta);
    var f0 := if args.filter.Some? then AndAlso(oc, args.filter.value) else oc;
    var f1 :- PrimaryCondition(c, f0, args.prefix, PrefixPattern);
    var f2 :- PrimaryCondition(c, f1, args.rdnSubstring, SubstringPattern);
    var f3 := SearchCondition(f2, args.searchPrefix, t => SearchableFilter(c.meta.searchableFields, t, Match(false, true)));
    Success(SearchCondition(f3, args.searchString, t => SearchStringSpec(c.meta.searchableFields, t)))
  }

  /** The search base and filter `list` sends, from stringified keyword arguments. */
  function ListQuery(c: NodeClass, args: ListArgs, kwargs: map<string, Value>, basedn: string): Result<(string, string), PyError>
  {
    var prefix :- ListPrefix(c.meta, args.dnprefix, kwargs);
    var filter :- ListFilter(c, args);
    Success((prefix + "," + basedn, filter))
  }

  /** No parenthesis in the string. */
  predicate PlainText(s: string)
  {
    '(' !in s && ')' !in s
  }

  predicate PlainArg(arg: Option<string>)
  {
    arg.Some? ==> PlainText(arg.value)
  }

  lemma PrimaryConditionBalanced(c: NodeClass, filter: string, arg: Option<string>, pattern: string -> string)
    requires Balanced(filter) && PlainArg(arg) && PrimaryCondition(c, filter, arg, pattern).Success?
    requires c.primary.Some? ==> PlainText(c.primary.value.1.ldap)
    requires arg.Some? ==> PlainText(pattern(arg.value))
    ensures Balanced(PrimaryCondition(c, filter, arg, pattern).value)
  {
    if Given(arg) {
      var ldap := c.primary.value.1.ldap;
      Atom(ldap, pattern(arg.value));
      AndAlsoBalanced(filter, "(" + ldap + "=" + pattern(arg.value) + ")");
    }
  }

  /**
   * Every filter `list` composes is well nested, given a well-nested caller
   * filter and parenthesis-free names and search terms: each argument adds
   * one complete `(&...)` around what came before.
   */
  lemma ListFilterBalanced(c: NodeClass, args: ListArgs)
    requires ListFilter(c, args).Success?
    requires Plain(c.meta.objectclasses) && Plain(c.meta.excludedObjectclasses) && Plain(c.meta.searchableFields)
    requires args.filter.Some? ==> Balanced(args.filter.value)
    requires c.primary.Some? ==> PlainText(c.primary.value.1.ldap)
    requires PlainArg(args.prefix) && PlainArg(args.rdnSubstring) && PlainArg(args.searchPrefix) && PlainArg(args.searchString)
    ensures Balanced(ListFilter(c, args).value)
  {
    ObjectclassFilterBalanced(c.meta);
    var oc := ObjectclassFilter(c.meta).value;
    if args.filter.Some? {
      AndAlsoBalanced(oc, args.filter.value);
    }
    var f0 := if args.filter.Some? then AndAlso(oc, args.filter.value) else oc;
    PrimaryConditionBalanced(c, f0, args.prefix, PrefixPattern);
    var f1 := PrimaryCondition(c, f0, args.prefix, PrefixPattern).value;
    PrimaryConditionBalanced(c, f1, args.rdnSubstring, SubstringPattern);
    var f2 := PrimaryCondition(c, f1, args.rdnSubstring, SubstringPattern).value;
    if Given(args.searchPrefix) {
      SearchableFilterBalanced(c.meta.searchableFields, args.searchPrefix.value, Match(false, true));
      AndAlsoBalanced(f2, SearchableFilter(c.meta.searchableFields, args.searchPrefix.value, Match(false, true)));
    }
    var f3 := SearchCondition(f2, args.searchPrefix, t => SearchableFilter(c.meta.searchableFields, t, Match(false, true)));
    if Given(args.searchString) {
      SearchStringBalanced(c.meta.searchableFields, args.searchString.value);
      AndAlsoBalanced(f3, SearchStringSpec(c.meta.searchableFields, args.searchString.value));
    }
  }

  /**
   * The results `list` turns into objects: all of them when `max_results`
   * is None or 0, otherwise the first `max_results`, in search order.
   */
  function Taken<T>(results: seq<T>, maxResults: Option<int>): (r: seq<T>)
    ensures maxResults.None? || maxResults.value == 0 ==> r == results
    ensures maxResults.Some? && maxResults.value != 0 ==>
              |r| == Min(Max(maxResults.value, 0), |results|) && r == results[..|r|]
  {
    if maxResults.None? || maxResults.value == 0 then results
    else results[..Min(Max(maxResults.value, 0), |results|)]
  }

  function Min(a: int, b: int): int { if a < b then a else b }
  function Max(a: int, b: int): int { if a < b then b else a }

  /** `objs` are the objects loaded, in order, from the `(dn, entry)` results. */
  predicate ParsedAs(c: NodeClass, results: seq<(string, Entry)>, objs: seq<LdapNode>)
    reads objs
  {
    |objs| == |results|
    && forall i :: 0 <= i < |results| ==>
         objs[i].cls == c && Loaded(c, results[i].0, results[i].1) == Success(objs[i].values)
  }

  /** The first of the results that cannot be loaded fails with `e`. */
  predicate FailsFirstWith(c: NodeClass, results: seq<(string, Entry)>, e: PyError)
  {
    exists i :: 0 <= i < |results| && Loaded(c, results[i].0, results[i].1) == Failure(e)
                && forall j :: 0 <= j < i ==> Loaded(c, results[j].0, results[j].1).Success?
  }

  /** `_parse_ldap_entry(dn, entry)`, then the `dnattr()` of the debug message. */
  method Load(c: NodeClass, basedn: string, dn: string, entry: Entry) returns (r: Result<LdapNode, PyError>)
    ensures r.Failure? ==> Loaded(c, dn, entry) == Failure(r.error)
    ensures r.Success? ==> Loaded(c, dn, entry) == Success(r.value.values) && r.value.cls == c
  {
    var o := ParseLdapEntry(c, basedn, dn, entry);
    if o.Failure? {
      return Failure(o.error);
    }
    var d := o.value.DnAttr();
    if d.Failure? {
      return Failure(d.error);
    }
    r := o;
  }

  lemma ParsedAsSnoc(c: NodeClass, t: seq<(string, Entry)>, i: nat, objs: seq<LdapNode>, o: LdapNode)
    requires i < |t| && ParsedAs(c, t[..i], objs)
    requires o.cls == c && Loaded(c, t[i].0, t[i].1) == Success(o.values)
    ensures ParsedAs(c, t[..i + 1], objs + [o])
  {
    var objs' := objs + [o];
    forall j | 0 <= j < i + 1
      ensures objs'[j].cls == c && Loaded(c, t[..i + 1][j].0, t[..i + 1][j].1) == Success(objs'[j].values)
    {
      if j < i {
        assert t[..i][j] == t[..i + 1][j];
      }
    }
  }

  lemma FirstFailure(c: NodeClass, t: seq<(string, Entry)>, i: nat, objs: seq<LdapNode>, e: PyError)
    requires i < |t| && ParsedAs(c, t[..i], objs)
    requires Loaded(c, t[i].0, t[i].1) == Failure(e)
    ensures FailsFirstWith(c, t, e)
  {
    forall j | 0 <= j < i
      ensures Loaded(c, t[j].0, t[j].1).Success?
    {
      assert t[..i][j] == t[j];
    }
  }

  /** The parsing loop of `list`, with its `num_results_processed` counter when `max_results` is set. */
  method ParseResults(c: NodeClass, basedn: string, results: seq<(string, Entry)>, maxResults: Option<int>)
    returns (r: Result<seq<LdapNode>, PyError>)
    ensures r.Success? ==> ParsedAs(c, Taken(results, maxResults), r.value)
    ensures r.Failure? ==> FailsFirstWith(c, Taken(results, maxResults), r.error)
  {
    ghost var t := Taken(results, maxResults);
    var objs: seq<LdapNode> := [];
    var limited := maxResults.Some? && maxResults.value != 0;
    var n := if limited then maxResults.value else 0;
    var count := 0;
    var i := 0;
    assert t[..0] == [];
    while i < |results|
      invariant 0 <= i <= |t| && count == i == |objs|
      invariant ParsedAs(c, t[..i], objs)
    {
      if limited && count >= n {
        break;
      }
      assert i < |t| && t[i] == results[i];
      var o := Load(c, basedn, results[i].0, results[i].1);
      if o.Failure? {
        FirstFailure(c, t, i, objs, o.error);
        return Failure(o.error);
      }
      ParsedAsSnoc(c, t, i, objs, o.value);
      objs := objs + [o.value];
      count := count + 1;
      i := i + 1;
    }
    assert i == |t| && t[..i] == t;
    r := Success(objs);
  }

  /** The values loaded from each result, in order, or the exception of the first that cannot be loaded. */
  function LoadAll(c: NodeClass, results: seq<(string, Entry)>): (r: Result<seq<map<string, Value>>, PyError>)
    ensures r.Success? ==> |r.value| == |results|
    decreases |results|
  {
    if results == [] then Success([])
    else
      var v :- Loaded(c, results[0].0, results[0].1);
      var vs :- LoadAll(c, results[1..]);
      Success([v] + vs)
  }

  /** Objects that were loaded in order from the results are what LoadAll gives. */
  lemma {:induction false} LoadAllParsed(c: NodeClass, results: seq<(string, Entry)>, objs: seq<LdapNode>)
    requires ParsedAs(c, results, objs)
    ensures LoadAll(c, results).Success? && Holds(c, objs, LoadAll(c, results).value)
    decreases |results|
  {
    if results != [] {
      assert ParsedAs(c, results[1..], objs[1..]) by {
        forall i | 0 <= i < |results[1..]|
          ensures objs[1..][i].cls == c && Loaded(c, results[1..][i].0, results[1..][i].1) == Success(objs[1..][i].values)
        {
          assert results[1..][i] == results[i + 1] && objs[1..][i] == objs[i + 1];
        }
      }
      LoadAllParsed(c, results[1..], objs[1..]);
      assert objs[0].cls == c && Loaded(c, results[0].0, results[0].1) == Success(objs[0].values);
    }
  }

  /** When the first result that cannot be loaded fails with `e`, LoadAll fails with `e`. */
  lemma {:induction false} LoadAllFails(c: NodeClass, results: seq<(string, Entry)>, e: PyError)
    requires FailsFirstWith(c, results, e)
    ensures LoadAll(c, results) == Failure(e)
    decreases |results|
  {
    var i :| 0 <= i < |results| && Loaded(c, results[i].0, results[i].1) == Failure(e)
             && forall j :: 0 <= j < i ==> Loaded(c, results[j].0, results[j].1).Success?;
    if i > 0 {
      assert Loaded(c, results[0].0, results[0].1).Success?;
      assert results[1..][i - 1] == results[i];
      assert forall j :: 0 <= j < i - 1 ==> results[1..][j] == results[j + 1];
      LoadAllFails(c, results[1..], e);
    }
  }

  /** `objs` are objects of class `c` holding, in order, exactly the values `vals`. */
  predicate Holds(c: NodeClass, objs: seq<LdapNode>, vals: seq<map<string, Value>>)
    reads objs
  {
    |objs| == |vals| && forall i :: 0 <= i < |objs| ==> objs[i].cls == c && objs[i].values == vals[i]
  }

  function Objects(r: Result<seq<LdapNode>, PyError>): set<LdapNode>
  {
    if r.Success? then set o | o in r.value else {}
  }

  /** A `list` result as `o` describes it: the same exception, or objects holding its values. */
  predicate Reports(c: NodeClass, r: Result<seq<LdapNode>, PyError>, o: Result<seq<map<string, Value>>, PyError>)
    reads Objects(r)
  {
    match r
    case Failure(e) => o == Failure(e)
    case Success(objs) => o.Success? && Holds(c, objs, o.value)
  }

  function Object(r: Result<Option<LdapNode>, PyError>): set<LdapNode>
  {
    if r.Success? && r.value.Some? then {r.value.value} else {}
  }

  /** `objects[0]` of a `list` result `o`, None for no objects (the caught IndexError). */
  predicate ReportsFirst(c: NodeClass, r: Result<Option<LdapNode>, PyError>, o: Result<seq<map<string, Value>>, PyError>)
    reads Object(r)
  {
    match r
    case Failure(e) => o == Failure(e)
    case Success(None) => o == Success([])
    case Success(Some(obj)) => o.Success? && o.value != [] && obj.cls == c && obj.values == o.value[0]
  }

  /**
   * What `list(...)` returns, as values: the search for the base and filter
   * built from the arguments, then every result kept by `max_results`
   * loaded in order.
   */
  function ListOutcome(c: NodeClass, basedn: string, args: ListArgs, kwargs: map<string, Value>, search: Directory)
    : Result<seq<map<string, Value>>, PyError>
  {
    var q :- ListQuery(c, args, Stringified(kwargs), basedn);
    match search(q.0, q.1)
    case Entries(results) => LoadAll(c, Taken(results, args.maxResults))
    case NoResult => Failure(TypeError("'NoneType' object is not iterable"))
    case Raised(e) => Failure(e)
    case _ => Failure(DirectoryError)
  }

  /**
   * With `max_results=1`, `list` gives at most one object. It gives none
   * exactly when the search succeeds with no results; one exactly when
   * there are results and the first loads, and then it is that first
   * result's values; otherwise the exception of the query, the search or
   * the first load.
   */
  lemma ListOfOne(c: NodeClass, basedn: string, args: ListArgs, kwargs: map<string, Value>, search: Directory)
    requires args.maxResults == Some(1)
    ensures var o := ListOutcome(c, basedn, args, kwargs, search);
            var q := ListQuery(c, args, Stringified(kwargs), basedn);
            && (o.Success? ==> |o.value| <= 1)
            && (o == Success([]) <==> q.Success? && search(q.value.0, q.value.1) == Entries([]))
            && (o.Success? && o.value != [] <==>
                  q.Success? && search(q.value.0, q.value.1).Entries? && search(q.value.0, q.value.1).entries != []
                  && Loaded(c, search(q.value.0, q.value.1).entries[0].0, search(q.value.0, q.value.1).entries[0].1).Success?)
            && (o.Success? && o.value != [] ==>
                  Success(o.value[0]) == Loaded(c, search(q.value.0, q.value.1).entries[0].0, search(q.value.0, q.value.1).entries[0].1))
            && (q.Failure? ==> o == Failure(q.error))
  {
    var q := ListQuery(c, args, Stringified(kwargs), basedn);
    if q.Success? && search(q.value.0, q.value.1).Entries? {
      var results := search(q.value.0, q.value.1).entries;
      var t := Taken(results, args.maxResults);
      if results != [] {
        assert t == [results[0]];
        assert LoadAll(c, t[1..]) == Success([]) by { assert t[1..] == []; }
        match Loaded(c, results[0].0, results[0].1) {
          case Success(v) =>
            assert t[0] == results[0] && [v] + [] == [v];
            assert LoadAll(c, t) == Success([v]);
          case Failure(e) => assert LoadAll(c, t) == Failure(e);
        }
      } else {
        assert t == [];
      }
    }
  }

  /**
   * `list(...)`: the objects the directory returns for the base and filter
   * built from the arguments, truncated to `max_results`.
   */
  method List(c: NodeClass, basedn: string, args: ListArgs, kwargs: map<string, Value>, search: Directory)
    returns (r: Result<seq<LdapNode>, PyError>)
    ensures var q := ListQuery(c, args, Stringified(kwargs), basedn);
            && (q.Failure? ==> r == Failure(q.error))
            && (q.Success? && !search(q.value.0, q.value.1).Entries? ==> r.Failure?)
            && (r.Success? ==> q.Success? && search(q.value.0, q.value.1).Entries?
                               && ParsedAs(c, Taken(search(q.value.0, q.value.1).entries, args.maxResults), r.value))
            && (r.Failure? && q.Success? && search(q.value.0, q.value.1).Entries? ==>
                  FailsFirstWith(c, Taken(search(q.value.0, q.value.1).entries, args.maxResults), r.error))
    ensures Reports(c, r, ListOutcome(c, basedn, args, kwargs, search))
  {
    var kw := Stringify(kwargs);
    var q := ListQuery(c, args, kw, basedn);
    if q.Failure? {
      return Failure(q.error);
    }
    var answer := search(q.value.0, q.value.1);
    match answer
    case Entries(results) =>
      r := ParseResults(c, basedn, results, args.maxResults);
      if r.Success? {
        LoadAllParsed(c, Taken(results, args.maxResults), r.value);
      } else {
        LoadAllFails(c, Taken(results, args.maxResults), r.error);
      }
    case NoResult =>
      r := Failure(TypeError("'NoneType' object is not iterable"));
    case Raised(e) =>
      r := Failure(e);
    case _ =>
      r := Failure(DirectoryError);
  }

  // ---------------------------------------------------------------------------
  // _list_by and its wrappers
  // ---------------------------------------------------------------------------

  /** One `(attr=value)` term of a `_list_by` filter. */
  function Pair(e: (string, Value)): string
  {
    "(" + e.0 + "=" + Text(e.1) + ")"
  }

  function Pairs(attrs: Dict<Value>): string
  {
    if attrs == [] then "" else Pair(attrs[0]) + Pairs(attrs[1..])
  }

  /** The filter `_list_by(op, attrs)` sends: the operator over one equality per attribute, in order. */
  function ListByFilter(op: string, attrs: Dict<Value>): string
  {
    "(" + op + Pairs(attrs) + ")"
  }

  lemma {:induction false} PairsAppend(attrs: Dict<Value>, e: (string, Value))
    ensures Pairs(attrs + [e]) == Pairs(attrs) + Pair(e)
  {
    if attrs == [] {
      assert attrs + [e] == [e];
      assert Pairs([e]) == Pair(e) + Pairs([]);
    } else {
      var tail := attrs[1..];
      assert (attrs + [e])[1..] == tail + [e];
      assert Pairs(attrs + [e]) == Pair(attrs[0]) + Pairs(tail + [e]);
      PairsAppend(tail, e);
      assert Pair(attrs[0]) + (Pairs(tail) + Pair(e)) == (Pair(attrs[0]) + Pairs(tail)) + Pair(e);
    }
  }

  method BuildListByFilter(op: string, attrs: Dict<Value>) returns (filter: string)
    ensures filter == ListByFilter(op, attrs)
  {
    filter := "(" + op;
    assert attrs[..0] == [];
    for i := 0 to |attrs|
      invariant filter == "(" + op + Pairs(attrs[..i])
    {
      PairsAppend(attrs[..i], attrs[i]);
      assert attrs[..i + 1] == attrs[..i] + [attrs[i]];
      assert "(" + op + Pairs(attrs[..i]) + Pair(attrs[i]) == "(" + op + (Pairs(attrs[..i]) + Pair(attrs[i]));
      filter := filter + Pair(attrs[i]);
    }
    assert attrs[..|attrs|] == attrs;
    filter := filter + ")";
  }

  /** The TypeError of a call that passes a keyword argument twice. */
  function Twice(name: string): PyError
  {
    TypeError("list() got multiple values for keyword argument '" + name + "'")
  }

  /**
   * `_list_by(op, attrs, **kwargs)`: no search and no objects for no
   * attributes; otherwise `list` with the `_list_by` filter, which the
   * caller cannot pass as well. `list_by` passes '&' and `list_by_union` '|'.
   */
  method ListBy(c: NodeClass, basedn: string, op: string, attrs: Dict<Value>, args: ListArgs, kwargs: map<string, Value>, search: Directory)
    returns (r: Result<seq<LdapNode>, PyError>)
    ensures attrs == [] ==> r == Success([])
    ensures attrs != [] && args.filter.Some? ==> r == Failure(Twice("filter"))
    ensures attrs != [] && args.filter.None? ==>
              Reports(c, r, ListOutcome(c, basedn, args.(filter := Some(ListByFilter(op, attrs))), kwargs, search))
    ensures attrs != [] && args.filter.None? ==>
              var q := ListQuery(c, args.(filter := Some(ListByFilter(op, attrs))), Stringified(kwargs), basedn);
              && (q.Failure? ==> r == Failure(q.error))
              && (r.Success? ==> q.Success? && search(q.value.0, q.value.1).Entries?
                                 && ParsedAs(c, Taken(search(q.value.0, q.value.1).entries, args.maxResults), r.value))
  {
    if attrs == [] {
      return Success([]);
    }
    var filter := BuildListByFilter(op, attrs);
    if args.filter.Some? {
      return Failure(Twice("filter"));
    }
    r := List(c, basedn, args.(filter := Some(filter)), kwargs, search);
  }

  /** `list_by_negation(attrs)`: exactly one attribute, negated. */
  method ListByNegation(c: NodeClass, basedn: string, attrs: Dict<Value>, args: ListArgs, kwargs: map<string, Value>, search: Directory)
    returns (r: Result<seq<LdapNode>, PyError>)
    ensures |attrs| != 1 ==> r == Failure(Ldapper(ArgumentError("Only one attribute value pair supported")))
    ensures |attrs| == 1 && args.filter.Some? ==> r == Failure(Twice("filter"))
    ensures |attrs| == 1 && args.filter.None? ==>
              Reports(c, r, ListOutcome(c, basedn, args.(filter := Some("(!(" + attrs[0].0 + "=" + Text(attrs[0].1) + "))")), kwargs, search))
    ensures |attrs| == 1 && args.filter.None? ==>
              var q := ListQuery(c, args.(filter := Some("(!(" + attrs[0].0 + "=" + Text(attrs[0].1) + "))")), Stringified(kwargs), basedn);
              && (q.Failure? ==> r == Failure(q.error))
              && (r.Success? ==> q.Success? && search(q.value.0, q.value.1).Entries?
                                 && ParsedAs(c, Taken(search(q.value.0, q.value.1).entries, args.maxResults), r.value))
  {
    if |attrs| != 1 {
      return Failure(Ldapper(ArgumentError("Only one attribute value pair supported")));
    }
    assert attrs[1..] == [];
    assert Pairs(attrs) == Pair(attrs[0]) + Pairs([]);
    assert ListByFilter("!", attrs) == "(!(" + attrs[0].0 + "=" + Text(attrs[0].1) + "))";
    r := ListBy(c, basedn, "!", attrs, args, kwargs, search);
  }

  // ---------------------------------------------------------------------------
  // _fetch_entry and fetch
  // ---------------------------------------------------------------------------

  /** The primary value searched for: the one passed (an object's own primary value), else the keyword named after the primary field. */
  function FetchPrimary(c: NodeClass, primary: Value, kwargs: map<string, Value>): Result<Value, PyError>
  {
    if primary == PyNone then
      if c.primary.None? then Failure(AttributeError("primary"))
      else if c.primary.value.0 in kwargs then Success(kwargs[c.primary.value.0])
      else Success(PyNone)
    else if primary.Node? then
      if primary.primaryName == [] then Failure(AttributeError("primary")) else Success(primary.primaryValue)
    else Success(primary)
  }

  /** The DN prefix `_fetch_entry` searches under; None when a name of the primary prefix is missing. */
  function FetchPrefix(meta: Options, dnprefix: Option<string>, kwargs: map<string, Value>): Result<Option<string>, PyError>
  {
    if dnprefix.Some? then Success(dnprefix)
    else if kwargs != map[] then
      match meta.primaryDnprefix
      case None => Failure(TypeError("unsupported operand type(s) for %: 'NoneType' and 'dict'"))
      case Some(t) =>
        match Fill(t, kwargs)
        case Success(s) => Success(Some(s))
        case Failure(_) => Success(None)
    else Success(Some(SecondaryText(meta)))
  }

  /**
   * The search base and filter `_fetch_entry` sends, from stringified
   * keyword arguments; None when it gives up before searching.
   */
  function FetchQuery(c: NodeClass, primary: Value, dnprefix: Option<string>, kwargs: map<string, Value>, basedn: string)
    : (r: Result<Option<(string, string)>, PyError>)
    ensures r.Success? && r.value.Some? ==>
              FetchPrimary(c, primary, kwargs).Success? && c.primary.Some? && ObjectclassFilter(c.meta).Success?
              && r.value.value.1 == "(&(" + c.primary.value.1.ldap + "=" + Text(FetchPrimary(c, primary, kwargs).value) + ")"
                                   + ObjectclassFilter(c.meta).value + ")"
  {
    var p :- FetchPrimary(c, primary, kwargs);
    var prefix :- FetchPrefix(c.meta, dnprefix, kwargs);
    if prefix.None? then Success(None)
    else
      var ldap :- PrimaryLdap(c);
      var oc :- ObjectclassFilter(c.meta);
      Success(Some((prefix.value + "," + basedn, "(&(" + ldap + "=" + Text(p) + ")" + oc + ")")))
  }

  /** The exactly-one rule: an entry only when the search found exactly one. */
  function FetchOutcome(answer: SearchAnswer): (r: Option<(string, Entry)>)
    ensures r.Some? <==> answer.Entries? && |answer.entries| == 1
    ensures r.Some? ==> r.value == answer.entries[0]
  {
    match answer
    case Entries(results) => if |results| == 1 then Some(results[0]) else None
    case _ => None
  }

  /** `_fetch_entry(primary, dnprefix, **kwargs)`. */
  function FetchEntry(c: NodeClass, primary: Value, dnprefix: Option<string>, kwargs: map<string, Value>, basedn: string, search: Directory)
    : Result<Option<(string, Entry)>, PyError>
  {
    var q :- FetchQuery(c, primary, dnprefix, Stringified(kwargs), basedn);
    if q.None? then Success(None)
    else
      var answer := search(q.value.0, q.value.1);
      if answer.Raised? then Failure(answer.error) else Success(FetchOutcome(answer))
  }

  /** `fetch(primary, dnprefix, **kwargs)`: the object for the single entry found, else None. */
  method Fetch(c: NodeClass, basedn: string, primary: Value, dnprefix: Option<string>, kwargs: map<string, Value>, search: Directory)
    returns (r: Result<Option<LdapNode>, PyError>)
    ensures var e := FetchEntry(c, primary, dnprefix, kwargs, basedn, search);
            && (e.Failure? ==> r == Failure(e.error))
            && (e == Success(None) ==> r == Success(None))
            && (e.Success? && e.value.Some? ==>
                  (r.Success? ==> r.value.Some? && r.value.value.cls == c
                                  && Loaded(c, e.value.value.0, e.value.value.1) == Success(r.value.value.values))
                  && (r.Failure? ==> Loaded(c, e.value.value.0, e.value.value.1) == Failure(r.error)))
  {
    var e := FetchEntry(c, primary, dnprefix, kwargs, basedn, search);
    if e.Failure? {
      return Failure(e.error);
    }
    if e.value.None? {
      return Success(None);
    }
    var o := Load(c, basedn, e.value.value.0, e.value.value.1);
    if o.Failure? {
      return Failure(o.error);
    }
    r := Success(Some(o.value));
  }

  /**
   * A search finding several entries, or none, fetches nothing; NO_SUCH_OBJECT
   * and FILTER_ERROR are caught, every other exception of the search escapes.
   */
  lemma FetchNeedsExactlyOne(c: NodeClass, primary: Value, dnprefix: Option<string>, kwargs: map<string, Value>, basedn: string, search: Directory)
    ensures var e := FetchEntry(c, primary, dnprefix, kwargs, basedn, search);
            var q := FetchQuery(c, primary, dnprefix, Stringified(kwargs), basedn);
            && (e.Success? && e.value.Some? <==>
                  q.Success? && q.value.Some? && search(q.value.value.0, q.value.value.1).Entries?
                  && |search(q.value.value.0, q.value.value.1).entries| == 1)
            && (e.Failure? <==> q.Failure? || (q.value.Some? && search(q.value.value.0, q.value.value.1).Raised?))
            && (q.Success? && q.value.Some? && search(q.value.value.0, q.value.value.1).Raised? ==>
                  e == Failure(search(q.value.value.0, q.value.value.1).error))
  {
  }

  /**
   * `fetch_by(attrs, op, **kwargs)`: the first object `list` finds for the
   * `_list_by` filter with one result at most; None for no attributes or no
   * result. The caller cannot pass `filter` or `max_results` as well.
   */
  method FetchBy(c: NodeClass, basedn: string, op: string, attrs: Dict<Value>, args: ListArgs, kwargs: map<string, Value>, search: Directory)
    returns (r: Result<Option<LdapNode>, PyError>)
    ensures attrs == [] ==> r == Success(None)
    ensures attrs != [] && args.filter.Some? ==> r == Failure(Twice("filter"))
    ensures attrs != [] && args.filter.None? && args.maxResults.Some? ==> r == Failure(Twice("max_results"))
    ensures attrs != [] && args.filter.None? && args.maxResults.None? ==>
              ReportsFirst(c, r, ListOutcome(c, basedn, args.(filter := Some(ListByFilter(op, attrs)), maxResults := Some(1)), kwargs, search))
    ensures attrs != [] && args.filter.None? && args.maxResults.None? ==>
              var q := ListQuery(c, args.(filter := Some(ListByFilter(op, attrs)), maxResults := Some(1)), Stringified(kwargs), basedn);
              && (q.Failure? ==> r == Failure(q.error))
              && (r.Success? && r.value.Some? ==>
                    q.Success? && search(q.value.0, q.value.1).Entries? && search(q.value.0, q.value.1).entries != []
                    && r.value.value.cls == c
                    && Loaded(c, search(q.value.0, q.value.1).entries[0].0, search(q.value.0, q.value.1).entries[0].1)
                       == Success(r.value.value.values))
  {
    if attrs == [] {
      return Success(None);
    }
    var filter := BuildListByFilter(op, attrs);
    if args.filter.Some? {
      return Failure(Twice("filter"));
    }
    if args.maxResults.Some? {
      return Failure(Twice("max_results"));
    }
    var objs := List(c, basedn, args.(filter := Some(filter), maxResults := Some(1)), kwargs, search);
    if objs.Failure? {
      return Failure(objs.error);
    }
    if objs.value == [] {
      return Success(None);
    }
    r := Success(Some(objs.value[0]));
  }

  // ---------------------------------------------------------------------------
  // fetch_by_dn
  // ---------------------------------------------------------------------------

  /**
   * The `list` arguments `fetch_by_dn(dn)` uses: the first RDN as an
   * equality filter, the middle of the DN as prefix, one result. None when
   * the first RDN has no '='.
   */
  function FetchByDnArgs(dn: string, basedn: string): Option<ListArgs>
  {
    match SplitOnce(FirstRdn(dn), '=')
    case None => None
    case Some(pair) => Some(NoArgs.(filter := Some("(" + pair.0 + "=" + pair.1 + ")"), dnprefix := MiddleDn(dn, "," + basedn), maxResults := Some(1)))
  }

  /** `dn.split(',', 1)[0]`: the DN up to its first comma. */
  function FirstRdn(dn: string): string
  {
    match SplitOnce(dn, ',') case None => dn case Some(parts) => parts.0
  }

  lemma FirstRdnOf(first: string, rest: string)
    requires ',' !in first
    ensures FirstRdn(first + "," + rest) == first
  {
    assert first + "," + rest == first + [','] + rest;
    SplitOnceAt(first, ',', rest);
  }

  /**
   * For a DN built as `attr=value,middle,basedn` (as `dn` builds them), the
   * search looks for `(attr=value)` under `middle`.
   */
  lemma FetchByDnOf(attr: string, value: string, middle: string, basedn: string)
    requires ',' !in attr && '=' !in attr && ',' !in value
    ensures FetchByDnArgs(attr + "=" + value + "," + middle + "," + basedn, basedn)
            == Some(NoArgs.(filter := Some("(" + attr + "=" + value + ")"), dnprefix := Some(middle), maxResults := Some(1)))
  {
    var first := attr + "=" + value;
    var dn := attr + "=" + value + "," + middle + "," + basedn;
    assert dn == first + "," + (middle + "," + basedn);
    FirstRdnOf(first, middle + "," + basedn);
    assert first == attr + ['='] + value;
    SplitOnceAt(attr, '=', value);
    assert dn == first + "," + middle + ("," + basedn);
    MiddleDnOf(first, middle, "," + basedn);
  }

  /** The `list` arguments of `fetch_by_dn`: the caller's, with the filter, prefix and one result it derives from the DN. */
  function DnListArgs(a: ListArgs, args: ListArgs): ListArgs
  {
    args.(filter := a.filter, dnprefix := a.dnprefix, maxResults := a.maxResults)
  }

  /**
   * `fetch_by_dn(dn, **kwargs)`: the first object `list` finds for those
   * arguments and the caller's other `list` arguments, else None. The
   * caller cannot pass `filter`, `dnprefix` or `max_results` as well.
   */
  method FetchByDn(c: NodeClass, basedn: string, dn: string, args: ListArgs, kwargs: map<string, Value>, search: Directory)
    returns (r: Result<Option<LdapNode>, PyError>)
    ensures FetchByDnArgs(dn, basedn).None? ==> r == Success(None)
    ensures FetchByDnArgs(dn, basedn).Some? && args.filter.Some? ==> r == Failure(Twice("filter"))
    ensures FetchByDnArgs(dn, basedn).Some? && args.filter.None? && args.dnprefix.Some? ==> r == Failure(Twice("dnprefix"))
    ensures FetchByDnArgs(dn, basedn).Some? && args.filter.None? && args.dnprefix.None? && args.maxResults.Some? ==>
              r == Failure(Twice("max_results"))
    ensures FetchByDnArgs(dn, basedn).Some? && args.filter.None? && args.dnprefix.None? && args.maxResults.None? ==>
              ReportsFirst(c, r, ListOutcome(c, basedn, DnListArgs(FetchByDnArgs(dn, basedn).value, args), kwargs, search))
    ensures FetchByDnArgs(dn, basedn).Some? && args.filter.None? && args.dnprefix.None? && args.maxResults.None? ==>
              var q := ListQuery(c, DnListArgs(FetchByDnArgs(dn, basedn).value, args), Stringified(kwargs), basedn);
              && (q.Failure? ==> r == Failure(q.error))
              && (r.Success? && r.value.Some? ==>
                    q.Success? && search(q.value.0, q.value.1).Entries? && search(q.value.0, q.value.1).entries != []
                    && r.value.value.cls == c
                    && Loaded(c, search(q.value.0, q.value.1).entries[0].0, search(q.value.0, q.value.1).entries[0].1)
                       == Success(r.value.value.values))
  {
    var derived := FetchByDnArgs(dn, basedn);
    if derived.None? {
      return Success(None);
    }
    if args.filter.Some? {
      return Failure(Twice("filter"));
    }
    if args.dnprefix.Some? {
      return Failure(Twice("dnprefix"));
    }
    if args.maxResults.Some? {
      return Failure(Twice("max_results"));
    }
    var objs := List(c, basedn, DnListArgs(derived.value, args), kwargs, search);
    if objs.Failure? {
      return Failure(objs.error);
    }
    if objs.value == [] {
      return Success(None);
    }
    r := Success(Some(objs.value[0]));
  }

  // ---------------------------------------------------------------------------
  // refetch, and save with it
  // ---------------------------------------------------------------------------

  /** What `refetch()` searches for: `_fetch_entry(**self.dnattrs())`, after `dnattrs()` itself. */
  function RefetchEntry(node: LdapNode, basedn: string, search: Directory): Result<Option<(string, Entry)>, PyError>
    reads node
  {
    var attrs :- node.DnAttrs();
    FetchEntry(node.cls, PyNone, None, attrs, basedn, search)
  }

  /** `r` is what `refetch()` gives for `node`: the object `fetch` loads from the entry found, None, or the exception. */
  predicate RefetchGives(node: LdapNode, basedn: string, search: Directory, r: Result<LdapNode?, PyError>)
    reads node, Copy(r)
  {
    match RefetchEntry(node, basedn, search)
    case Failure(e) => r == Failure(e)
    case Success(None) => r == Success(null)
    case Success(Some(entry)) =>
      match Loaded(node.cls, entry.0, entry.1)
      case Failure(e) => r == Failure(e)
      case Success(values) => r.Success? && r.value != null && r.value.cls == node.cls && r.value.values == values
  }

  /** `refetch()`: `fetch(**self.dnattrs())`. */
  method Refetch(node: LdapNode, basedn: string, search: Directory) returns (r: Result<LdapNode?, PyError>)
    ensures RefetchGives(node, basedn, search, r)
  {
    var attrs := node.DnAttrs();
    if attrs.Failure? {
      return Failure(attrs.error);
    }
    var f := Fetch(node.cls, basedn, PyNone, None, attrs.value, search);
    if f.Failure? {
      return Failure(f.error);
    }
    if f.value.None? {
      return Success(null);
    }
    r := Success(f.value.value);
  }

  /**
   * A class with a primary field but no `primary_dnprefix` cannot refetch
   * an object with identifying attributes: `None % kwargs` raises TypeError.
   */
  lemma RefetchNeedsPrimaryPrefix(node: LdapNode, basedn: string, search: Directory)
    requires node.cls.primary.Some? && node.cls.meta.primaryDnprefix.None?
    requires node.DnAttrs().Success? && node.DnAttrs().value != map[]
    ensures RefetchEntry(node, basedn, search).Failure? && RefetchEntry(node, basedn, search).error.TypeError?
  {
    var attrs := node.DnAttrs().value;
    assert Stringified(attrs).Keys == attrs.Keys;
    assert Stringified(attrs) != map[] by {
      var k :| k in attrs;
      assert k in Stringified(attrs);
    }
  }

  /**
   * `save()` with the refetch its `diff()` makes: only an object that
   * validates, whose DN can be built and which exists is refetched.
   */
  method RefetchAndSave(node: LdapNode, valid: bool, present: bool, basedn: string, search: Directory, directory: Entity.Directory)
    returns (run: SaveRun, refetched: Result<LdapNode?, PyError>)
    ensures valid && node.Dn().Success? && present ==> RefetchGives(node, basedn, search, refetched)
    ensures run == node.SaveSpec(valid, present, refetched, directory)
  {
    refetched := Success(null);
    if valid && node.Dn().Success? && present {
      refetched := Refetch(node, basedn, search);
    }
    run := node.Save(valid, present, refetched, directory);
  }

  /**
   * A class without a primary field never saves cleanly. An object that
   * does not validate raises from the `dnattr()` of its log line; an
   * existing one raises AttributeError from its refetch (`fetch` looks up
   * `cls.primary`) before any request; a new one sends at most its add.
   */
  lemma NoPrimarySaveRaises(node: LdapNode, valid: bool, present: bool, basedn: string, search: Directory,
                            refetched: Result<LdapNode?, PyError>, directory: Entity.Directory)
    requires node.cls.primary.None?
    requires valid && node.Dn().Success? && present ==> RefetchGives(node, basedn, search, refetched)
    ensures var r := node.SaveSpec(valid, present, refetched, directory);
            && r.ending.Failure? && |r.sent| <= 1
            && (!valid || present ==> r.sent == [])
            && (!valid || (node.Dn().Success? && present) ==> r.ending == Failure(AttributeError("primary")))
  {
    if valid && node.Dn().Success? && !present {
      node.NoPrimaryAddRaises(refetched, directory);
    }
  }
}
