# ldapper in Dafny

A verified model of the core of ldapper, a Python object mapper for LDAP
directories. An application declares entity classes (subclasses of
`LDAPNode`) whose class attributes are `Field`s. ldapper then turns directory
entries (`attribute -> [bytes]`) into objects and objects back into entries,
builds the RFC 4515 search filters its class-level searches send, and sends
the requests of `save()` to the directory.

The model covers:

- **Utf8, DecimalText, PyValues, Wrappers**: the Python behaviour the mapper
  relies on. This is strict UTF-8 encoding and decoding, `int()` on ASCII
  text, `str()`/`repr()`, truthiness, the ordering of `str`, and
  Option/Result.
- **Utils** (`ldapper/utils.py`): DN splitting, entry lookups,
  `build_ldap_filter`, `list_items_to_sentence`, `print_word_list`,
  `remove_empty_strings`, `stringify` and `to_list`.
- **Fields** (`ldapper/fields.py`): the five field kinds, each with its
  `default_value`, `populate`, `coerce_for_python` and `sanitize_for_ldap`.
- **Exceptions** (`ldapper/exceptions.py`): the LdapperError family and its
  payloads and messages.
- **Logging** (`ldapper/logging.py`): the `ProxyLogger` message buffer, as a
  class.
- **Registry** (the `LDAPNodeBase` metaclass and `Options` in
  `ldapper/ldapnode.py`):
  - merging the parents' field maps with the class's own;
  - the attribute list;
  - the system / non-system split;
  - the at-most-one-primary rule.

  Python dicts are modelled as ordered key/value sequences with dict-update
  semantics.
- **Query** (`ldapper/query.py`): the `Q` class, as a Dafny class whose `&`
  and `|` mutate and return the left operand, and its recursive `compile`.
- **Entity** (instances in `ldapper/ldapnode.py`):
  - `__init__`'s checks;
  - read-only fields;
  - `__eq__`/`__lt__`;
  - the DN;
  - `_ldap_entry`, `_parse_ldap_entry` and `diff`;
  - the requests `save`/`_save_existing` send, up to the first exception,
    the refetch of `diff()` before them, and the `dnattr()` reads of their
    log lines;
  - `attr_difference_since_last_save`.
- **Search** (the class-level searches in `ldapper/ldapnode.py`):
  - `objectclass_filter` and the searchable-field filters;
  - the filter and search base `list` composes;
  - `max_results` truncation;
  - `_list_by` and its wrappers;
  - the exactly-one rule of `_fetch_entry`;
  - `fetch`, `fetch_by` and `fetch_by_dn`;
  - `refetch`, and `save` with it.
- **Connection** (`ldapper/connection.py`):
  - login DN qualification;
  - `whoami` parsing and `whoami_short`;
  - the registered class connection;
  - `search`'s retry-once-if-anonymous policy;
  - `delete` reporting a directory error as False;
  - the replies of `add`, `modify_attr`, `add_attr` and `delete_attr`.

The directory is never contacted. It is always a parameter:

- a search is a function from (search base, filter) to an answer;
- the transport of a connection is a function from (session, base, filter)
  to a reply;
- `save` receives what `refetch()` gave (the copy, null when there is
  none, or the exception it raised), whether its DN exists, whether
  `validate()` passed, and the directory's answer to each request. It
  returns the requests it sent, in order, and what it returned or raised.
  `Search.RefetchAndSave` obtains that refetch from the search function,
  as `fetch(**self.dnattrs())` does.

## Model

| member | source | states |
|---|---|---|
| Utf8.DecodeEncode | ldapper/fields.py:104 | every string decodes back from its UTF-8 encoding |
| Utf8.EncodeChar | ldapper/fields.py:117 | one to four bytes per character, one byte exactly for code points below 0x80 |
| Utf8.Encode | ldapper/fields.py:117 | never shorter than the text, and empty only for empty text |
| Utf8.EncodeDecode | ldapper/fields.py:117 | every byte string the strict decoder accepts re-encodes to exactly the same bytes |
| Utf8.DecodeSucceedsIffEncoding | ldapper/fields.py:104 | decoding succeeds exactly on byte strings that are the encoding of some string |
| Utf8.EncodeAppend | ldapper/fields.py:117 | encoding a concatenation is the concatenation of the encodings |
| Utf8.EncodeAscii | ldapper/fields.py:96 | ASCII text encodes one byte per character, each byte its code point |
| Utf8.DecodeCharIsCanonical | ldapper/fields.py:104 | a character the decoder accepts was written in its one canonical (shortest, non-surrogate) form |
| DecimalText.DecimalOfDigits | ldapper/fields.py:96 | `str()` of the value of a digit run without a leading zero gives back that digit run |
| DecimalText.DigitsValueOfDecimal | ldapper/fields.py:84 | the digits `str()` writes for a natural number read back as that number |
| DecimalText.NatToDecimal | ldapper/fields.py:96 | `str()` of a natural number is a non-empty run of ASCII digits |
| PyValues.ParseDecimal | ldapper/fields.py:80-96 | `int(str(i)) == i` for every int, whether the text came as str or bytes |
| PyValues.DecimalOfParse | ldapper/fields.py:80-96 | `str(int(s)) == s` for canonical decimal text |
| PyValues.ParseNegativeText | ldapper/fields.py:84 | '-' followed by digits parses to the negated value of the digits |
| PyValues.StrLessIrreflexive | ldapper/ldapnode.py:197-198 | no str is below itself |
| PyValues.StrLessTransitive | ldapper/ldapnode.py:197-198 | the order on str is transitive |
| PyValues.StrLessTotal | ldapper/ldapnode.py:197-198 | of two distinct strs, one is below the other |
| Utils.Split | ldapper/utils.py:17 | `split` gives at least one part, and no part holds the separator |
| Utils.JoinSplit | ldapper/utils.py:17 | joining the split parts with the separator gives back the text |
| Utils.SplitJoin | ldapper/utils.py:17 | splitting separator-free parts joined by the separator gives back those parts |
| Utils.SplitOnce | ldapper/utils.py:19 | `split(sep, 1)` is absent exactly when there is no separator; otherwise the text is the separator-free part, the separator and the rest |
| Utils.SplitOnceAt | ldapper/utils.py:19 | splitting once at the first separator gives back the two parts around it |
| Utils.SplitFirst | ldapper/utils.py:17-19 | the first part of a split is the text before the first separator |
| Utils.FirstWithPrefix | ldapper/utils.py:15-19 | the search loop finds nothing iff no component starts with `attr=`; otherwise it reads the value after the '=' of the leftmost such component |
| Utils.DnAttributeOfFirst | ldapper/utils.py:15-19 | in `attr=value,rest` the attribute reads back as `value` |
| Utils.StripSuffix | ldapper/utils.py:26-28 | the result is the text unchanged, or the text with a case-insensitive match of the suffix removed; it is unchanged when there is no match |
| Utils.StripPrefix | ldapper/utils.py:29-31 | the same for a prefix at the start |
| Utils.StripDnPathBothSides | ldapper/utils.py:22-32 | with neither side the DN is unchanged; a matching right side, left side or both are removed, ignoring case |
| Utils.MiddleDn | ldapper/utils.py:35-41 | None exactly when the DN has no comma |
| Utils.MiddleDnOf | ldapper/utils.py:35-41 | `first,middle<right>` gives `middle` |
| Utils.GetAttrList | ldapper/utils.py:57-67 | all values of the attribute, or [] when it is absent |
| Utils.GetAttr | ldapper/utils.py:44-54 | the first value, None when absent; IndexError exactly when the value list is empty |
| Utils.BuildLdapFilter | ldapper/utils.py:81-123 | ValueError exactly for no items; otherwise the operator over one `(attr=item)` per item |
| Utils.EqualityFiltersAppend | ldapper/utils.py:122 | a further item appends its term at the end, so the items keep their order |
| Utils.ListItemsToSentence | ldapper/utils.py:126-137 | None exactly for no items; one item is itself; two are `a and b` |
| Utils.SentenceIsOxfordList | ldapper/utils.py:136-137 | three or more items are joined by ", " with "and " before the last |
| Utils.PrintWordList | ldapper/utils.py:140-154 | the loop produces the text of the word-list specification, for a full line at the start |
| Utils.WordListWithoutBreaks | ldapper/utils.py:140-154 | deleting the newlines leaves each word preceded by one space, in order |
| Utils.WordListBreaksWhenFull | ldapper/utils.py:148-149 | a newline comes before a word exactly when the word and its space do not fit in what is left of the line |
| Utils.FilterTruthy | ldapper/utils.py:167 | keeps exactly the truthy elements and never grows the list; a one-element list keeps its element iff it is truthy |
| Utils.FilterTruthyAppend | ldapper/utils.py:167 | filtering distributes over concatenation, so the kept elements stay in their order |
| Utils.FilterTruthyCounts | ldapper/utils.py:167 | every truthy value is kept as often as it occurs, every falsy value is dropped |
| Utils.RemoveEmptyStrings | ldapper/utils.py:157-174 | a list becomes its filtered list (order and repeats kept, only truthy elements); '' becomes None; every other value is returned unchanged |
| Utils.FilterTruthyIdempotent | ldapper/utils.py:167 | filtering twice is filtering once |
| Utils.RemoveEmptyStringsIdempotent | ldapper/utils.py:157-174 | normalising twice is normalising once |
| Utils.RemoveEmptyStringsMerges | ldapper/utils.py:161-165 | [] and [''] normalise alike, and so do '' and None |
| Utils.PrimaryOrSelf | ldapper/utils.py:184-188 | a value that is not an LDAPNode stands for itself |
| Utils.Stringified | ldapper/utils.py:177-189 | same keys, and each argument replaced by its primary value when it is an LDAPNode |
| Utils.Stringify | ldapper/utils.py:177-189 | the loop fills exactly the dict of `Stringified`: every key kept, every node replaced by its primary value |
| Utils.ToList | ldapper/utils.py:192-204 | a list is returned as it is, a str becomes a singleton, anything else [] |
| Fields.NewField | ldapper/fields.py:35-53 | the flags are stored as given, and a new field is never a system field |
| Fields.DefaultValue | ldapper/fields.py:55-57 | [] for a ListField, None for every other kind |
| Fields.DecodeValue | ldapper/fields.py:104 | succeeds exactly on valid UTF-8; otherwise UnicodeDecodeError |
| Fields.DecodeAll | ldapper/fields.py:132 | succeeds exactly when every value is valid UTF-8, keeping length and order |
| Fields.Coerce | ldapper/fields.py:59-68 | only an IntegerField can refuse a value, and then with ValueError |
| Fields.EncodeEach | ldapper/fields.py:140 | succeeds exactly on a list of strs, encoding each in order |
| Fields.StringPopulate | ldapper/fields.py:101-106 | an absent attribute gives None; a non-empty first value is decoded |
| Fields.StringCoerce | ldapper/fields.py:108-111 | an int becomes its decimal text; anything else is kept |
| Fields.StringRoundTrip | ldapper/fields.py:101-119 | a non-empty string read from the directory coerces to itself and sanitises back to the very same bytes |
| Fields.StringWriteRead | ldapper/fields.py:101-119 | every non-empty str written to the directory reads back as itself |
| Fields.IntegerCoerceNone | ldapper/fields.py:80-90 | None stays None only on an optional field; on a required one it is a ValueError |
| Fields.IntegerCoerceNonNumeric | ldapper/fields.py:83-87 | non-numeric text is the ValueError with the `must be an int` message, whether or not the field is optional |
| Fields.IntegerRoundTrip | ldapper/fields.py:73-96 | canonical decimal bytes survive populate, coerce and sanitize unchanged |
| Fields.IntegerWriteRead | ldapper/fields.py:73-96 | every int is written as its decimal text and reads back, after coercion, as itself |
| Fields.ListPopulate | ldapper/fields.py:129-134 | an absent attribute gives []; otherwise every value is decoded, keeping length and order |
| Fields.ListCoerce | ldapper/fields.py:136-137 | None becomes [], a str becomes a singleton, a list is kept |
| Fields.ListSanitize | ldapper/fields.py:139-140 | a list of strs is encoded element by element, keeping length and order |
| Fields.ListRoundTrip | ldapper/fields.py:126-140 | values read from the directory coerce to themselves and are written back as the very same byte strings |
| Fields.DNPartBehaviour | ldapper/fields.py:156-171 | the field is derived; its value is read out of the DN, or None; sanitising always raises RuntimeError |
| Fields.DNPartCoerce | ldapper/fields.py:161-166 | an LDAPNode becomes its primary value; anything else is kept |
| Fields.BinaryRoundTrip | ldapper/fields.py:174-180 | the raw first value is kept undecoded, and coercion and sanitising are the identity |
| Exceptions.Repeated | ldapper/exceptions.py:51 | keeps exactly the elements occurring at least twice |
| Exceptions.Distinct | ldapper/exceptions.py:52 | the same elements, each once |
| Exceptions.Offending | ldapper/exceptions.py:50-56 | for a list, exactly the values occurring at least twice, with no repeats, unless one of those is itself a list, when `set()` raises TypeError (unhashable type); any other value is kept as it is |
| Exceptions.NewDuplicateValue | ldapper/exceptions.py:47-58 | stores the attribute, the original value and the offending values; raises `set()`'s TypeError exactly when Offending does |
| Exceptions.ClassName | ldapper/exceptions.py:9 | the class name shown is non-empty and holds no ')' |
| Exceptions.AddDNFailedMessageInjective | ldapper/exceptions.py:21-23 | distinct DNs give distinct AddDNFailed messages |
| Exceptions.NoSuchDNMessageInjective | ldapper/exceptions.py:88-90 | distinct DNs give distinct NoSuchDN messages |
| Exceptions.StrNamesClass | ldapper/exceptions.py:8-9 | two exceptions with the same `str()` are of the same class |
| Logging.LevelName | ldapper/logging.py:25-39 | each level is stored under one of the four tags |
| Logging.LevelNameInjective | ldapper/logging.py:25-45 | distinct levels have distinct tags |
| Logging.ProxyLogger.constructor | ldapper/logging.py:12-14 | a new logger holds no messages |
| Logging.ProxyLogger.GetMessages | ldapper/logging.py:16-17 | returns the stored messages and changes nothing |
| Logging.ProxyLogger.Flush | ldapper/logging.py:19-23 | returns the stored messages and leaves the buffer empty |
| Logging.ProxyLogger.Log | ldapper/logging.py:25-39 | appends exactly one `(level, msg)` at the end |
| Logging.ProxyLogger.Warning | ldapper/logging.py:25-27 | appends exactly one WARNING message at the end |
| Logging.ProxyLogger.Info | ldapper/logging.py:29-31 | appends exactly one INFO message at the end |
| Logging.ProxyLogger.Error | ldapper/logging.py:33-35 | appends exactly one ERROR message at the end |
| Logging.ProxyLogger.Debug | ldapper/logging.py:37-39 | appends exactly one DEBUG message at the end |
| Logging.ProxyLogger.HasLevel | ldapper/logging.py:41-45 | true iff some stored message has the level |
| Logging.ProxyLogger.HasErrors | ldapper/logging.py:41-42 | true iff some stored message is an ERROR |
| Logging.ProxyLogger.HasWarnings | ldapper/logging.py:44-45 | true iff some stored message is a WARNING |
| Logging.ErrorUntilFlush | ldapper/logging.py:12-45 | a new logger has no errors; one error makes `has_errors` true; flush returns that one message and clears it |
| Registry.Keys | ldapper/ldapnode.py:111 | the names of a dict, in order |
| Registry.Lookup | ldapper/ldapnode.py:152 | absent exactly for a name the dict lacks; otherwise a value stored under it |
| Registry.PutKeys | ldapper/ldapnode.py:70 | setting a name appends it only when it is new, so the order of names is kept |
| Registry.PutDistinct | ldapper/ldapnode.py:70 | setting a name keeps names distinct |
| Registry.PutLookup | ldapper/ldapnode.py:70 | after `m[k] = f` the name maps to f, and every other name keeps its value |
| Registry.PutMember | ldapper/ldapnode.py:70 | every entry after a set is the new pair or one already there |
| Registry.UpdateKeys | ldapper/ldapnode.py:66 | `update` keeps names distinct, holds the names of both dicts, and keeps the old names first, in order |
| Registry.UpdateLookup | ldapper/ldapnode.py:66 | after `update` a name of the other dict has its value there; any other name keeps its old value |
| Registry.FillFails | ldapper/ldapnode.py:297 | `template % args` fails exactly when a hole names a missing argument, and then with KeyError for a missing name |
| Registry.FillAppend | ldapper/ldapnode.py:297 | filling a template in two parts gives the two fillings joined |
| Registry.FillUsesOnlyItsHoles | ldapper/ldapnode.py:360 | arguments that agree on the names a template uses fill it alike |
| Registry.MakeOptions | ldapper/ldapnode.py:30-45 | without Meta the defaults; for each of the eight attributes, a value Meta gives is stored as given and an absent one takes its default ([] for the lists, None for the prefixes and dn format, the class name for the readable name) |
| Registry.WireNames | ldapper/ldapnode.py:111 | one wire name per field, in field order |
| Registry.WithSystem | ldapper/ldapnode.py:113-114 | exactly the entries with the given `system` flag |
| Registry.Primaries | ldapper/ldapnode.py:123 | exactly the entries flagged primary |
| Registry.DeclareClass | ldapper/ldapnode.py:50-132 | the metaclass's loops build the class the specification function describes |
| Registry.MergeFields | ldapper/ldapnode.py:59-70 | the parents' fields in base order, then the class's own fields |
| Registry.UpdateInPlace | ldapper/ldapnode.py:66 | the in-place update loop computes `update` |
| Registry.CollectWireNames | ldapper/ldapnode.py:111 | the attribute list is the wire names in field order |
| Registry.SelectSystem | ldapper/ldapnode.py:113-114 | the comprehension keeps exactly the entries with the given flag |
| Registry.CollectPrimaries | ldapper/ldapnode.py:123 | the comprehension keeps exactly the primary entries |
| Registry.ChildOverrides | ldapper/ldapnode.py:65-70 | a child's declaration of a name fully replaces the parent's field |
| Registry.ParentFieldKept | ldapper/ldapnode.py:65-66 | a name the class does not redeclare keeps the field of the last parent declaring it |
| Registry.MergedFieldsNames | ldapper/ldapnode.py:59-70 | the merged map holds each name of the parents and the class exactly once |
| Registry.ParentFieldsNames | ldapper/ldapnode.py:65-66 | the parents' merged map holds each of their names exactly once |
| Registry.DeclaredClassShape | ldapper/ldapnode.py:111-115 | the attribute list names every field's wire name in order; system and non-system fields partition the fields |
| Registry.WithSystemKeys | ldapper/ldapnode.py:113-114 | a filtered map holds only names of the whole map and keeps them distinct |
| Registry.DeclaredNamesDistinct | ldapper/ldapnode.py:113-115 | a declared class, and its system and non-system maps, never hold a name twice |
| Registry.PrimaryRule | ldapper/ldapnode.py:123-129 | ValueError exactly for more than one primary field; exactly one becomes the class's primary; with none the class keeps the primary it inherits |
| Registry.LookupDistinct | ldapper/ldapnode.py:152 | with distinct names, the value found for a name is the one stored with it |
| Registry.AsWrittenRejectsEveryField | ldapper/ldapnode.py:113-114 | as written, a class with one plain field raises AttributeError; the corrected registry declares it |
| Query.Q.constructor | ldapper/query.py:5-10 | the conditions in order, with no AND or OR children |
| Query.Q.And | ldapper/query.py:41-44 | appends the other Q to this one's AND list and returns this object; nothing else changes |
| Query.Q.Or | ldapper/query.py:46-49 | appends the other Q to this one's OR list and returns this object; nothing else changes |
| Query.Q.Compile | ldapper/query.py:12-39 | the object graph compiles to the filter of the tree it describes |
| Query.Q.CompileChildren | ldapper/query.py:20-30 | the loops over the children concatenate the children's filters |
| Query.SelfJoinNeverCompiles | ldapper/query.py:12-44 | as written, after `q & q` compiling q raises RecursionError however much recursion is left, once q's own conditions compile |
| Query.CompileConditions | ldapper/query.py:13-16 | the loop over the conditions builds their `(wire=value)` terms in order |
| Query.PrefixedEmpty | ldapper/query.py:13-16 | an empty accumulator adds nothing |
| Query.PrefixedTwice | ldapper/query.py:13-16 | prefixing twice is prefixing with the concatenation |
| Query.CompileSucceedsIffKnown | ldapper/query.py:15 | compiling fails exactly when some condition in the tree names no field, and then with AttributeError |
| Query.CompileListSucceedsIffKnown | ldapper/query.py:21-28 | the same for a list of children |
| Query.ConditionsSucceedIffKnown | ldapper/query.py:14-16 | the same for the conditions of one Q |
| Query.CompiledIsBalanced | ldapper/query.py:12-39 | with no parenthesis in names and values, every compiled filter is well nested |
| Query.CompileListBalanced | ldapper/query.py:20-30 | the concatenated filters of the children are well nested |
| Query.GroupBalanced | ldapper/query.py:17-30 | grouping under one operator keeps a filter well nested |
| Query.CombineBalanced | ldapper/query.py:32-39 | the final combination keeps well-nested parts well nested |
| Query.JoinedBalanced | ldapper/query.py:33-37 | `(op a b)` of well-nested parts is well nested |
| Query.OrThenAndBalanced | ldapper/query.py:33 | an AND around an OR group and the AND part, all well nested, is well nested |
| Query.OneCondition | ldapper/query.py:13-16 | a Q with one condition compiles to `(wire=value)` |
| Query.SeveralConditions | ldapper/query.py:17-18 | several conditions are wrapped in `(&...)` |
| Query.OrOfTwo | ldapper/query.py:34-35 | the OR of two one-condition Qs compiles to the OR operator over the two terms, in order |
| Query.ChainedAnd | ldapper/query.py:26-37 | `a & b & c` nests instead of flattening: `(&(a)(&(b)(c)))` |
| Query.EmptyQ | ldapper/query.py:38-39 | a Q with no conditions and no children compiles to the empty filter |
| Entity.MissingRequired | ldapper/ldapnode.py:1010-1014 | exactly the non-optional fields whose names were not passed |
| Entity.AssignKeys | ldapper/ldapnode.py:150-155 | the keyword loop succeeds only when every keyword names a field, and then stores exactly the names passed |
| Entity.AssignValues | ldapper/ldapnode.py:159-162 | each stored value is the coercion, by its field, of a value passed under that name |
| Entity.AssignErrors | ldapper/ldapnode.py:150-162 | the keyword loop fails only with the TypeError for an unknown keyword or a coercion's ValueError |
| Entity.InitContract | ldapper/ldapnode.py:139-162 | missing-fields exception iff a required field was not passed; on success every keyword is a field and exactly those names are stored, coerced; any other failure is an unknown keyword or a ValueError |
| Entity.InitMissing | ldapper/ldapnode.py:148 | the missing-fields exception is raised iff a required field was not passed |
| Entity.MissingRequiredDistinct | ldapper/ldapnode.py:1011-1013 | with distinct field names, each missing name is listed once |
| Entity.InitOneMissing | ldapper/ldapnode.py:1010-1017 | exactly one required field not passed: the exception says "Required field 'k' is missing" for that field |
| Entity.InitSeveralMissing | ldapper/ldapnode.py:1010-1020 | two or more required fields not passed: the exception says "Required fields [...] are missing" with exactly the missing names quoted, each once, joined by ", " |
| Entity.InitStores | ldapper/ldapnode.py:150-162 | a constructed object holds exactly the names passed, each coerced by its field |
| Entity.InitRejects | ldapper/ldapnode.py:150-162 | any other construction failure is an unknown keyword's TypeError or a ValueError |
| Entity.UnknownKeywordRejected | ldapper/ldapnode.py:150-155 | an unknown keyword always makes construction fail |
| Entity.LdapNode.constructor | ldapper/ldapnode.py:139-147 | the class, base DN and values given, and a fresh, empty logger |
| Entity.LdapNode.Get | ldapper/ldapnode.py:84-105 | the instance's value, else the field's class default |
| Entity.LdapNode.Attr | ldapper/ldapnode.py:193 | AttributeError exactly for a name that is neither set nor a field; otherwise `Get` |
| Entity.LdapNode.DnAttr | ldapper/ldapnode.py:307-313 | the primary field's value; AttributeError for a class without a primary |
| Entity.LdapNode.SetAttr | ldapper/ldapnode.py:87-89 | a read-only field only logs a warning; assigning `dn` raises ValueError; any other name is stored |
| Entity.LdapNode.DelAttr | ldapper/ldapnode.py:90-91 | a read-only field only logs a warning; an instance value is removed; otherwise AttributeError |
| Entity.LdapNode.DnReadsBack | ldapper/ldapnode.py:290-330 | with `attr=%(attr)s<path>` as format, the DN is `attr=<value><path>,<basedn>`, and `dn_attribute` reads the value back out of it |
| Entity.LdapNode.EntryShape | ldapper/ldapnode.py:474-495 | every attribute of the serialised entry is the encoded object classes, or the truthy sanitised value of a set, non-derived, non-system field under its wire name |
| Entity.LdapNode.EntryHasField | ldapper/ldapnode.py:474-495 | conversely, a field that serialises to a truthy value puts it in the entry under its wire name, when no other field has that wire name |
| Entity.LdapNode.EntryFromShape | ldapper/ldapnode.py:484-494 | the serialising loop adds only truthy sanitised values of the fields it visits |
| Entity.LdapNode.Change | ldapper/ldapnode.py:550-571 | a field is reported iff it is compared and its normalised values differ, and then as `(old, new)` |
| Entity.LdapNode.DiffReports | ldapper/ldapnode.py:545-572 | `diff()` holds an entry for a name exactly when that field is compared and its normalised values differ |
| Entity.LdapNode.DiffFromLookup | ldapper/ldapnode.py:547-571 | the loop's entry for a name is that field's change, else what was there before |
| Entity.LdapNode.DiffFromKeys | ldapper/ldapnode.py:547-571 | every name reported is a compared field |
| Entity.LdapNode.UnchangedDiffEmpty | ldapper/ldapnode.py:545-572 | an object equal to its refetched copy has an empty diff, whatever the options |
| Entity.LdapNode.EmptyDiffAgrees | ldapper/ldapnode.py:564-567 | an empty diff means every compared field agrees with the directory once normalised |
| Entity.LdapNode.SaveExisting | ldapper/ldapnode.py:544-600 | an exception of the refetch in `diff()` ends it before any request; otherwise the loop sends, in diff order, each attribute's request and stops at the first exception, keeping the requests already sent |
| Entity.LdapNode.SaveSpec | ldapper/ldapnode.py:611-628 | an invalid object sends nothing and returns False, or raises what `dnattr()` raises; a DN that cannot be built raises before anything is sent; an existing object raises the refetch's exception before any request, else runs `_save_existing` on the copy; a new object sends one add of its entry and returns None iff the directory accepts it and `dnattr()` can be read |
| Entity.LdapNode.Save | ldapper/ldapnode.py:611-628 | the method does what SaveSpec states |
| Entity.LdapNode.SaveUnchangedSendsNothing | ldapper/ldapnode.py:574-628 | saving an existing object whose refetch gives an equal copy sends no request and returns None |
| Entity.LdapNode.SaveExistingShape | ldapper/ldapnode.py:574-600 | once the refetch gives a copy, the i-th request sent is the operation for the i-th diffed attribute, on the object's DN and the field's wire name, never an add of the entry; the run returns None iff every attribute goes through, else stops at the first that does not |
| Entity.LdapNode.NoPrimaryAddRaises | ldapper/ldapnode.py:602-608 | a new object of a class without a primary never saves cleanly: at most its add is sent, and once the add is accepted the success log's `dnattr()` raises AttributeError |
| Entity.LdapNode.AttrDifference | ldapper/ldapnode.py:965-994 | the refetch's exception first, as `diff()` runs before the check; then ArgumentError for a name that is not a field; the added and removed values are disjoint and each holds no repeats |
| Entity.LdapNode.ListAttrDifference | ldapper/ldapnode.py:965-994 | for a list attribute, nothing is reported iff the filtered lists agree; when they differ, TypeError (unhashable type) iff either holds a non-empty list item; otherwise added is exactly the truthy values present that the directory lacks, removed the reverse |
| Entity.LdapNode.AttrDifferenceOf | ldapper/ldapnode.py:965-994 | the result is read off `diff()`: empty when the attribute did not change, the unhashable TypeError when either side holds a list item, else the two set differences |
| Entity.EncodedNames | ldapper/ldapnode.py:482 | the object classes UTF-8 encoded, in order |
| Entity.OpFor | ldapper/ldapnode.py:577-600 | KeyError for an unknown name; replace when the sanitised new value is truthy, the new value is not None and the old is truthy; add when the old is falsy; delete otherwise |
| Entity.Request | ldapper/connection.py:271-339 | the connection method of a request returns True iff the directory accepts it, and never False |
| Entity.StepPasses | ldapper/ldapnode.py:577-600 | an attribute goes through iff its request can be built, the directory accepts it and its success log can read `dnattr()` |
| Entity.ExistingPassesSendOne | ldapper/ldapnode.py:577-600 | each attribute sends at most one request, and exactly one when it goes through |
| Entity.RunShape | ldapper/ldapnode.py:577-600 | the loop returns None iff every attribute goes through, with one request each; otherwise it raises the exception of the first attribute that does not, after the requests of every attribute up to it |
| Entity.SentByPasses | ldapper/ldapnode.py:577-600 | each request sent is the one of the attribute at its position |
| Entity.Difference | ldapper/ldapnode.py:988-993 | exactly the values of the first list absent from the second, without repeats |
| Entity.Create | ldapper/ldapnode.py:139-162 | the new object holds what `__init__` stores, or `__init__`'s exception |
| Entity.CheckRequired | ldapper/ldapnode.py:1010-1013 | the loop collects exactly the missing required fields, in declaration order |
| Entity.PopulateAll | ldapper/ldapnode.py:498-503 | one keyword per field, in field order |
| Entity.ParseLdapEntry | ldapper/ldapnode.py:498-503 | the object holds what construction from the populated keywords stores |
| Entity.Loaded | ldapper/ldapnode.py:416-418 | a parse followed by `dnattr()`, which fails for a class without a primary |
| Entity.ParsedEntryPassesEveryField | ldapper/ldapnode.py:498-503 | a parsed entry never misses a required field nor passes an unknown keyword, and on success sets every field |
| Entity.NothingMissing | ldapper/ldapnode.py:1010-1014 | no field is missing when every declared name was passed |
| Entity.AssignKnownFailsByValue | ldapper/ldapnode.py:150-162 | with only known keywords, construction can fail only in a coercion |
| Entity.PopulateErrors | ldapper/ldapnode.py:498-503 | populating fails only on a missing first value or invalid UTF-8 |
| Entity.LdapNode.Eq | ldapper/ldapnode.py:187-195 | an object equals itself; equal objects are of the same class (and, by UnchangedDiffEmpty, have an empty diff) |
| Entity.LdapNode.Lt | ldapper/ldapnode.py:197-198 | AttributeError when either class has no primary; two str primaries always compare; an object is never below itself |
| PyValues.PyLessIrreflexive | ldapper/ldapnode.py:197-198 | no value is below itself under Python's `<` |
| Entity.LtOrdersStringPrimaries | ldapper/ldapnode.py:197-198 | with str primaries `<` never fails and is a strict total order on primary values |
| Search.ObjectclassFilter | ldapper/ldapnode.py:954-963 | ValueError exactly without object classes; otherwise their AND, then the NOT of the excluded classes when there are some |
| Search.ObjectclassFilterBalanced | ldapper/ldapnode.py:954-963 | with parenthesis-free class names the filter is well nested |
| Search.SearchableFieldsFilter | ldapper/ldapnode.py:790-807 | the loop builds the OR of the template over the fields passed, else the class's searchable fields |
| Search.SearchPrefixFilter | ldapper/ldapnode.py:810-815 | the OR of `(field=term*)` over the searched fields |
| Search.SearchStringFilter | ldapper/ldapnode.py:818-827 | the OR, over the four templates in order, of each template's filter |
| Search.SearchableFilterBalanced | ldapper/ldapnode.py:790-807 | with parenthesis-free fields and term the filter is well nested |
| Search.SearchStringBalanced | ldapper/ldapnode.py:818-827 | the same for the substring search filter |
| Search.ListPrefix | ldapper/ldapnode.py:672-682 | the DN prefix passed; else the primary prefix filled from the keywords, the secondary one when a name is missing; else the secondary one |
| Search.PrimaryLdap | ldapper/ldapnode.py:692-696 | the primary field's wire name, present exactly when the class has a primary |
| Search.ListFilterBalanced | ldapper/ldapnode.py:687-708 | every filter `list` composes is well nested, given a well-nested caller filter and parenthesis-free names and terms |
| Search.PrimaryConditionBalanced | ldapper/ldapnode.py:692-696 | the prefix and substring conditions on the primary field keep the filter well nested |
| Search.Taken | ldapper/ldapnode.py:713-723 | all results when `max_results` is falsy; otherwise its first `max_results` results, in search order |
| Search.Load | ldapper/ldapnode.py:717-719 | an entry is loaded as a parse followed by `dnattr()` |
| Search.ParseResults | ldapper/ldapnode.py:713-729 | the objects loaded, in order, from the truncated results, or the failure of the first result that cannot be loaded |
| Search.List | ldapper/ldapnode.py:643-730 | the objects the directory returns for the base and filter built from the arguments, truncated to `max_results`; exactly what ListOutcome describes: the same exception, or objects holding its values in order |
| Search.LoadAllParsed | ldapper/ldapnode.py:724-729 | when every entry loads, the objects hold, in order, the values each entry loads to |
| Search.LoadAllFails | ldapper/ldapnode.py:724-729 | the first entry that fails to load makes the whole listing fail with its exception |
| Search.ListOfOne | ldapper/ldapnode.py:710-722 | with `max_results=1`: at most one object; none iff the search answers no results; one iff there are results and the first loads, holding its values; otherwise the query's, the search's or the first load's exception |
| Search.BuildListByFilter | ldapper/ldapnode.py:747-750 | the loop builds the operator over one `(attr=value)` per attribute, in order |
| Search.ListBy | ldapper/ldapnode.py:733-787 | no search and no objects for no attributes; TypeError when the caller passes `filter` too; otherwise exactly what `list` gives with the `_list_by` filter |
| Search.ListByNegation | ldapper/ldapnode.py:765-776 | ArgumentError unless exactly one attribute is given; TypeError for a second `filter`; otherwise exactly what `list` gives with its negation |
| Search.FetchQuery | ldapper/ldapnode.py:346-375 | the filter searched is the primary field's equality ANDed with the object-class filter |
| Search.FetchOutcome | ldapper/ldapnode.py:388-397 | an entry exactly when the search found exactly one, and then that entry |
| Search.Fetch | ldapper/ldapnode.py:400-421 | the object loaded from the single entry found, else None; the exception of the query, of the search (other than the two `_fetch_entry` catches) or of the load |
| Search.FetchNeedsExactlyOne | ldapper/ldapnode.py:337-397 | `_fetch_entry` gives an entry iff the search it sends finds exactly one result; it raises iff building the search raises or the search raises something other than NO_SUCH_OBJECT or FILTER_ERROR, and then with that exception |
| Search.FetchBy | ldapper/ldapnode.py:424-445 | None for no attributes; TypeError for a second `filter` or `max_results`; otherwise the exception of that `list` call, None iff it finds no object, else its first object |
| Search.FetchByDnOf | ldapper/ldapnode.py:448-464 | for `attr=value,middle,basedn` the search is `(attr=value)` under `middle`, one result at most |
| Search.FetchByDn | ldapper/ldapnode.py:448-468 | None when the first RDN has no '='; TypeError for a second `filter`, `dnprefix` or `max_results`; otherwise, with the caller's other `list` arguments, the exception of that `list` call, None iff it finds no object, else its first object |
| Search.Refetch | ldapper/ldapnode.py:470-472 | the copy `fetch` loads from the one entry found for `dnattrs()`, None when there is not exactly one, or the exception of `dnattrs()`, the search setup, the search itself or the load |
| Search.RefetchNeedsPrimaryPrefix | ldapper/ldapnode.py:357-361 | without `primary_dnprefix`, refetching an object with identifying attributes raises TypeError |
| Search.RefetchAndSave | ldapper/ldapnode.py:611-628 | `save()` refetches only a valid, existing object whose DN can be built, and then does what SaveSpec states for that refetch |
| Search.NoPrimarySaveRaises | ldapper/ldapnode.py:337-350 | a class without a primary never saves cleanly: an invalid object and an existing one send nothing and raise AttributeError (the latter from the refetch's `cls.primary`); a new one sends at most its add |
| Connection.FullyQualifyDn | ldapper/connection.py:76-80 | a login holding '=' or '@' is kept; any other becomes `uid=<login>,ou=people,<basedn>` |
| Connection.FullyQualifyIdempotent | ldapper/connection.py:76-80 | qualifying twice is qualifying once |
| Connection.QualifiedNamesUser | ldapper/connection.py:76-80 | the qualified DN of a bare login names that user in its `uid` component |
| Connection.BindDn | ldapper/connection.py:67-71 | anonymous exactly without login and password; a password without a login fails; otherwise the qualified login |
| Connection.ParseWhoami | ldapper/connection.py:192-207 | an identity only for a `dn:` or `u:` answer, which is that answer without the prefix; None for no answer, an empty one or any other |
| Connection.WhoamiReadsBack | ldapper/connection.py:198-205 | both answer forms give back the identity they carry |
| Connection.WhoamiShort | ldapper/connection.py:209-214 | None when anonymous; a failure is only ever IndexError |
| Connection.WhoamiShortOf | ldapper/connection.py:209-214 | for `attr=value,rest` the short name is `value` |
| Connection.ShortNameOfLogin | ldapper/connection.py:76-80 | a user who logged in with a bare name has that name as short name |
| Connection.LdapConnection.constructor | ldapper/connection.py:49-74 | the base DN passed, else the class's; the identity from the whoami answer |
| Connection.LdapConnection.SearchBase | ldapper/connection.py:237-238 | the base passed, else the connection's |
| Connection.LdapConnection.Search | ldapper/connection.py:228-269 | any reply but server-down is returned after one attempt; on server-down an authenticated connection gives it back; an anonymous one retries exactly once on a fresh anonymous connection, and registers it only when the retry answers |
| Connection.LdapConnection.Delete | ldapper/connection.py:284-291 | True iff the directory deleted the entry; False iff `delete_s` raised an LDAPError; any other exception escapes as it is; never an LDAPError |
| Connection.AddReply | ldapper/connection.py:271-282 | True iff the entry was added, never False; NO_SUCH_OBJECT becomes AddDNFailed for the DN; every other directory error escapes |
| Connection.ModifyReply | ldapper/connection.py:293-323 | True iff the change was made, never False; NO_SUCH_OBJECT becomes NoSuchDN; TYPE_OR_VALUE_EXISTS becomes DuplicateValue for the attribute and value, or the TypeError DuplicateValue's `set()` raises for a repeated list item; every other directory error escapes |
| Connection.DeleteAttrReply | ldapper/connection.py:325-339 | True iff the attribute was removed, never False; NO_SUCH_OBJECT becomes NoSuchDN, NO_SUCH_ATTRIBUTE becomes NoSuchAttrValue; every other directory error escapes |
| Connection.ConnectionSlot.constructor | ldapper/connection.py:163-164 | a connection class with no registered connection |
| Connection.ConnectionSlot.ConnectAnon | ldapper/connection.py:158-160 | a fresh anonymous connection under the class's base DN |
| Connection.ConnectionSlot.SetConnection | ldapper/connection.py:163-164 | registers the connection on the class |
| Connection.ConnectionSlot.GetConnection | ldapper/connection.py:167-177 | the registered connection, else a fresh anonymous one that is then registered |
| Connection.Open | ldapper/connection.py:49-74 | fails exactly for a password without a login; otherwise binds as the qualified login under the chosen base DN |

## Left out

- Directory I/O is left out: `ldap.initialize`, binds, TLS options, the `search_s`/`add_s`/`modify_s`/`delete_s` calls and `__del__`. The directory's answers are parameters; a search's answer may be any exception it raises (`Search.SearchAnswer.Raised`). Python's `logging` module and the logger ProxyLogger forwards to are also left out.
- The interactive `connect` and `prompt` loops and `ldif` are left out: they are I/O. `add`, `modify_attr`, `add_attr` and `delete_attr` are modelled by the reply each gives for the directory's answer; their `log` calls are left out.
- `LDAPNode.exists`, `obj_exists`, `dn_exists` and `validate` are not modelled as calls. Their answers are the `present` and `valid` parameters of `SaveSpec`, and the `search` parameter. `refetch` is modelled (`Search.Refetch`); `SaveSpec` and `AttrDifference` take its outcome as a parameter, and `Search.RefetchAndSave` ties the two together for `save`.
- Search.Refetch: `fetch(**self.dnattrs())` would bind an identifying attribute named `primary` or `dnprefix` to `fetch`'s own parameter. The model passes every identifying attribute as a keyword.
- `LDAPNode.delete` is not modelled: it is one directory call between no-op hooks and log messages.
- `_save_new` is modelled as its one add request and the `dnattr()` read of its log line. Its hooks do nothing and are left out.
- The text of the `log__*` messages, the `_before_*`/`_after_*` hooks, `__str__`, `__repr__`, `pretty_print`, `bolded`, `hrn` and the module-level `logging` debug/warning calls are cosmetic and left out. Every `dnattr()` read these messages make is modelled, in `save` and in `list`/`fetch`, because it raises AttributeError for a class without a primary. For an existing object of such a class the refetch raises first (`Search.NoPrimarySaveRaises`).
- The `log__*_failure` branches of `_save_existing` and `_save_new` are not modelled: `add`, `modify_attr`, `add_attr` and `delete_attr` return True or raise, so those branches are never taken.
- In `log__modify_attr_success`, `set()` of unhashable list items would raise TypeError. This is not modelled: the model only decides whether the line reads `dnattr()`.
- `LDAPNode.__hash__` relies on Python's hash of arbitrary values and is left out.
- `inflect_given_cardinality` wraps an external library and is left out.
- `has_attrval` is left out.
- `attr_added_since_last_save` and `attr_removed_since_last_save` are left out. Each only picks one half of `AttrDifference`'s result.
- Utils.StripDnPath: `strip_dn_path` builds regular expressions from its arguments. The model treats them as literal text stripped without regard to ASCII case. Regex metacharacters in a DN are not modelled, and neither is the case folding of non-ASCII letters that `re.IGNORECASE` also does on str patterns.
- PyValues.StrRepr: escapes the quote, the backslash, characters below 0x20 and 0x7f. Python's `repr()` also escapes other non-printable code points (such as '\x85', '\xa0' and '\u2028'); the model keeps them as they are.
- Entity.LdapNode.Lt: orders str, int and bool primary values. Python also orders two lists or two bytes values lexicographically; the model raises TypeError for them.
- DecimalText.ParseInt: `int()` is modelled for ASCII input only. Underscores between digits are accepted; Unicode digits and Unicode whitespace are not modelled.
- Exceptions.Distinct: `list(set(...))` has a hash-dependent order. The model keeps first occurrences, so contracts state membership and absence of repeats, not order. The same holds for Entity.Difference.
- Exceptions.Msg: the message of `DuplicateValue` uses `repr()` of the offending values. It is modelled for the values the model knows; an LDAPNode's repr is its DN, taken as given.
- The metaclass's `property`/`partial` plumbing is modelled directly. `LdapNode.SetAttr`/`DelAttr` implement the read-only rules, and `Get` implements reading a field's class default. The late-binding closures are not modelled.
- Method resolution order over several bases and inherited non-field class attributes are not modelled. A class's own `meta` is the only Meta used.
- The `get_connection()` call in `LDAPNode.__init__` is not modelled: its only effect is the registered connection, which `ConnectionSlot` models separately.
- `connect_anon(uri)` is modelled without the URI.
- Search.ListBy, Search.FetchBy, Search.FetchByDn: a `list` argument the wrapper passes itself is a TypeError when the caller passes it too. The model treats an argument as passed when it is not None, so an explicit `filter=None` is not caught. When several are passed twice, the model reports the first in the order `filter`, `dnprefix`, `max_results`; Python reports the first in the caller's order, naming `list` by its qualified name.
- Search results are `(dn, entry)` pairs with string-keyed entries. The `attrlist` restriction of a search is left to the directory function.
- Where a natural reading of the behaviour differs from what the code does, the model follows the code:
  - chained `&` nests and does not flatten;
  - `whoami_short` takes the text between the first and the second '=' of the first DN component;
  - a Q condition on a name that is not a field raises AttributeError, because `None.ldap` fails.
- Connection.LdapConnection.Search: the model returns the failure reply of a retry instead of raising it. The fresh connection is registered only when the retry answers with results.
- Entity.InitSeveralMissing: Python's `missing` is a set, so the order of the names in the plural message depends on hashing. The model lists them in declaration order; only which names appear, each once, is the source's promise.
- Query.Q.And, Query.Q.Or: both require that this object is not reachable from `other`. So the model cannot build a Q that reaches itself (`q & q`, or `b & a` after `a & b`), which Python accepts. Compiling such a Q never finishes; see Findings.
- Query.Q.Compile: a Q joined into another keeps, in the model, the tree it had when it was joined. Python shares the object, so a later `b & c` also changes every Q that b was joined to. In the model those parents no longer satisfy `Valid()` and cannot be compiled: aliasing between Q objects is not modelled.
- Utils.PrintWordList: takes strings only. `print_word_list` first applies `str()` to any other word.
- Logging.ProxyLogger.GetMessages: returns the buffer as a value. Python returns the list itself, so a caller's later changes to it would show in the logger; that aliasing is not modelled.
- Python's `1 == True` (and their equal hashes) is not modelled: `Int(1)` and `Bool(true)` differ in `diff`, `__eq__` and the set operations.
- Entity.LdapNode.Eq: compares the classes' descriptions (`NodeClass` values) structurally. Python compares class identity, so two distinct classes with the same fields and options are equal in the model but not in Python.

## Findings

| source | as written | input that shows it | evidently intended | confidence | as-written member | corrected member |
|---|---|---|---|---|---|---|
| ldapper/ldapnode.py:113-114 | `LDAPNodeBase.__new__` reads `f.system` on every merged field, but `Field.__init__` (ldapper/fields.py:35-53) never sets a `system` attribute | a class with the single field `uid = StringField('uid')` raises AttributeError when it is declared | fields default to non-system (`system` False unless a subclass sets it), so the class is declared with `uid` as a non-system field | not executed | Registry.AsWrittenRejectsEveryField | Registry.ClassSpec |
| ldapper/query.py:41-49 | `__and__` and `__or__` append `other` without checking that it does not reach this object, and `compile` (ldapper/query.py:12-39) follows the references recursively | `q = Q(uid='x')`, then `q & q`, then `q.compile(cls)` recurses until RecursionError | joining never makes a Q reach itself, so `compile` ends with a filter or AttributeError | not executed | Query.SelfJoinNeverCompiles | Query.CompileSucceedsIffKnown |
