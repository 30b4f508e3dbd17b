/**
 * The helpers of ldapper/utils.py: naive DN splitting (commas and equals
 * signs, not RFC 4514 parsing), entry lookups, the objectClass-style filter
 * builder, and the small value normalisations the entity engine relies on.
 */
module Utils {
  import opened Wrappers
  import opened PyValues
  import opened Exceptions

  // ---------------------------------------------------------------------------
  // str.split, str.join, str.startswith
  // ---------------------------------------------------------------------------

  /** `s.split(sep)` for a one-character separator: never empty, no part holds the separator. */
  function Split(s: string, sep: char): (parts: seq<string>)
    ensures |parts| >= 1
    ensures forall i :: 0 <= i < |parts| ==> sep !in parts[i]
  {
    if s == [] then [""]
    else
      var rest := Split(s[1..], sep);
      if s[0] == sep then [""] + rest
      else [[s[0]] + rest[0]] + rest[1..]
  }

  /** `sep.join(parts)`. */
  function Join(parts: seq<string>, sep: string): string
  {
    if parts == [] then ""
    else if |parts| == 1 then parts[0]
    else parts[0] + sep + Join(parts[1..], sep)
  }

  /** Splitting loses nothing: joining the parts back gives the original text. */
  lemma {:induction false} JoinSplit(s: string, sep: char)
    ensures Join(Split(s, sep), [sep]) == s
  {
    if s != [] {
      var rest := Split(s[1..], sep);
      JoinSplit(s[1..], sep);
      if s[0] == sep {
        assert s == [sep] + s[1..];
      } else if |rest| == 1 {
        assert s == [s[0]] + s[1..];
      } else {
        assert Join(rest, [sep]) == rest[0] + [sep] + Join(rest[1..], [sep]);
        assert s == [s[0]] + s[1..];
      }
    }
  }

  /** And joining separator-free parts splits back into exactly those parts. */
  lemma {:induction false} SplitJoin(parts: seq<string>, sep: char)
    requires |parts| >= 1
    requires forall i :: 0 <= i < |parts| ==> sep !in parts[i]
    ensures Split(Join(parts, [sep]), sep) == parts
    decreases |parts|, |parts[0]|
  {
    if |parts| == 1 {
      SplitNoSeparator(parts[0], sep);
    } else if parts[0] == [] {
      var tail := Join(parts[1..], [sep]);
      assert Join(parts, [sep]) == [sep] + tail;
      SplitJoin(parts[1..], sep);
      assert ([sep] + tail)[1..] == tail;
      assert [""] + parts[1..] == parts;
    } else {
      var p0 := parts[0];
      var shorter := [p0[1..]] + parts[1..];
      assert shorter[1..] == parts[1..];
      SplitJoin(shorter, sep);
      var s := Join(parts, [sep]);
      assert s == p0 + [sep] + Join(parts[1..], [sep]);
      assert Join(shorter, [sep]) == p0[1..] + [sep] + Join(parts[1..], [sep]);
      assert s[1..] == Join(shorter, [sep]);
      assert [p0[0]] + p0[1..] == p0;
    }
  }

  lemma {:induction false} SplitNoSeparator(s: string, sep: char)
    requires sep !in s
    ensures Split(s, sep) == [s]
  {
    if s != [] {
      SplitNoSeparator(s[1..], sep);
      assert [s[0]] + s[1..] == s;
    }
  }

  /** `s.split(sep, 1)`: None when there is no separator, else the text before and after the first one. */
  function SplitOnce(s: string, sep: char): (r: Option<(string, string)>)
    ensures r.None? <==> sep !in s
    ensures r.Some? ==> sep !in r.value.0 && s == r.value.0 + [sep] + r.value.1
  {
    if s == [] then None
    else if s[0] == sep then Some(([], s[1..]))
    else
      match SplitOnce(s[1..], sep)
      case None => None
      case Some((before, after)) => Some(([s[0]] + before, after))
  }

  predicate StartsWith(s: string, prefix: string)
  {
    |prefix| <= |s| && s[..|prefix|] == prefix
  }

  // ---------------------------------------------------------------------------
  // DN helpers
  // ---------------------------------------------------------------------------

  /** The text after the first '=' of the first component that starts with `prefix`. */
  function FirstWithPrefix(rdns: seq<string>, prefix: string): (r: Option<string>)
    requires '=' in prefix
    ensures r.None? <==> forall i :: 0 <= i < |rdns| ==> !StartsWith(rdns[i], prefix)
    ensures r.Some? ==> exists i :: 0 <= i < |rdns| && StartsWith(rdns[i], prefix)
                                   && (forall j :: 0 <= j < i ==> !StartsWith(rdns[j], prefix))
                                   && SplitOnce(rdns[i], '=') == Some((SplitOnce(rdns[i], '=').value.0, r.value))
  {
    if rdns == [] then None
    else if StartsWith(rdns[0], prefix) then
      assert '=' in rdns[0][..|prefix|];
      Some(SplitOnce(rdns[0], '=').value.1)
    else
      var r := FirstWithPrefix(rdns[1..], prefix);
      if r.Some? then
        var i :| 0 <= i < |rdns[1..]| && StartsWith(rdns[1..][i], prefix)
                 && (forall j :: 0 <= j < i ==> !StartsWith(rdns[1..][j], prefix))
                 && SplitOnce(rdns[1..][i], '=') == Some((SplitOnce(rdns[1..][i], '=').value.0, r.value));
        assert StartsWith(rdns[i + 1], prefix);
        r
      else r
  }

  /**
   * `dn_attribute(dn, attr)`: the value of the leftmost `attr=` component of
   * the DN, i.e. the text after that component's first '='; None when no
   * component starts with `attr=`.
   */
  function DnAttribute(dn: string, attr: string): Option<string>
  {
    FirstWithPrefix(Split(dn, ','), attr + "=")
  }

  /** Reading back the first component of a DN built as `attr=value,rest` gives `value`. */
  lemma DnAttributeOfFirst(attr: string, value: string, rest: string)
    requires '=' !in attr && ',' !in attr && ',' !in value
    ensures DnAttribute(attr + "=" + value + "," + rest, attr) == Some(value)
  {
    var dn := attr + "=" + value + "," + rest;
    var first := attr + "=" + value;
    assert dn == first + [','] + rest;
    SplitOnceAt(first, ',', rest);
    SplitFirst(dn, ',');
    assert Split(dn, ',')[0] == first;
    assert StartsWith(first, attr + "=");
    assert first == attr + ['='] + value;
    SplitOnceAt(attr, '=', value);
  }

  /** The first part of a split is the text before the first separator. */
  lemma {:induction false} SplitFirst(s: string, sep: char)
    ensures SplitOnce(s, sep).None? ==> Split(s, sep) == [s]
    ensures SplitOnce(s, sep).Some? ==> Split(s, sep)[0] == SplitOnce(s, sep).value.0
  {
    if s != [] {
      SplitFirst(s[1..], sep);
      assert [s[0]] + s[1..] == s;
    }
  }

  /** Splitting once at a separator the first part lacks gives back the two parts. */
  lemma {:induction false} SplitOnceAt(before: string, sep: char, after: string)
    requires sep !in before
    ensures SplitOnce(before + [sep] + after, sep) == Some((before, after))
  {
    if before == [] {
      assert before + [sep] + after == [sep] + after;
    } else {
      var s := before + [sep] + after;
      assert s[0] == before[0] && s[1..] == before[1..] + [sep] + after;
      SplitOnceAt(before[1..], sep, after);
      assert SplitOnce(s, sep) == Some(([before[0]] + before[1..], after));
      assert [before[0]] + before[1..] == before;
    }
  }

  /** ASCII case folding; the regular expressions ldapper builds ignore case. */
  function Lower(c: char): char
  {
    if 'A' <= c <= 'Z' then (c as int + 32) as char else c
  }

  predicate EqualsIgnoreCase(a: string, b: string)
  {
    |a| == |b| && forall i :: 0 <= i < |a| ==> Lower(a[i]) == Lower(b[i])
  }

  /** Removes `suffix` from the end of `s` when `s` ends with it, ignoring case. */
  function StripSuffix(s: string, suffix: string): (r: string)
    ensures r == s || (|r| + |suffix| == |s| && r == s[..|r|] && EqualsIgnoreCase(s[|r|..], suffix))
    ensures r == s <== !(|suffix| <= |s| && EqualsIgnoreCase(s[|s| - |suffix|..], suffix))
  {
    if |suffix| <= |s| && EqualsIgnoreCase(s[|s| - |suffix|..], suffix) then s[..|s| - |suffix|] else s
  }

  /** Removes `prefix` from the start of `s` when `s` starts with it, ignoring case. */
  function StripPrefix(s: string, prefix: string): (r: string)
    ensures r == s || (|prefix| + |r| == |s| && r == s[|prefix|..] && EqualsIgnoreCase(s[..|prefix|], prefix))
    ensures r == s <== !(|prefix| <= |s| && EqualsIgnoreCase(s[..|prefix|], prefix))
  {
    if |prefix| <= |s| && EqualsIgnoreCase(s[..|prefix|], prefix) then s[|prefix|..] else s
  }

  /** `strip_dn_path(dn, left, right)`: the right side first, then the left. */
  function StripDnPath(dn: string, left: Option<string>, right: Option<string>): string
  {
    var afterRight := if right.Some? then StripSuffix(dn, right.value) else dn;
    if left.Some? then StripPrefix(afterRight, left.value) else afterRight
  }

  lemma EqualsIgnoreCaseRefl(s: string)
    ensures EqualsIgnoreCase(s, s)
  {
  }

  /** With neither side given the DN comes back unchanged; a matching right and left are both removed. */
  lemma StripDnPathBothSides(left: string, middle: string, right: string, l: string, r: string)
    requires EqualsIgnoreCase(left, l) && EqualsIgnoreCase(right, r)
    ensures StripDnPath(left + middle + right, None, None) == left + middle + right
    ensures StripDnPath(left + middle + right, None, Some(r)) == left + middle
    ensures StripDnPath(left + middle + right, Some(l), None) == middle + right
    ensures StripDnPath(left + middle + right, Some(l), Some(r)) == middle
  {
    var dn := left + middle + right;
    assert dn[|dn| - |r|..] == right;
    assert dn[..|dn| - |r|] == left + middle;
    assert dn[..|l|] == left;
    assert dn[|l|..] == middle + right;
    assert (left + middle)[..|l|] == left;
    assert (left + middle)[|l|..] == middle;
  }

  /** `middle_dn(dn, right)`: None without a comma; else what follows the first comma, with `right` stripped. */
  function MiddleDn(dn: string, right: string): (r: Option<string>)
    ensures r.None? <==> ',' !in dn
  {
    match SplitOnce(dn, ',')
    case None => None
    case Some((_, rest)) => Some(StripDnPath(rest, None, Some(right)))
  }

  lemma MiddleDnOf(first: string, middle: string, right: string)
    requires ',' !in first
    ensures MiddleDn(first + "," + middle + right, right) == Some(middle)
  {
    assert first + "," + middle + right == first + [','] + (middle + right);
    SplitOnceAt(first, ',', middle + right);
    EqualsIgnoreCaseRefl(right);
    StripDnPathBothSides("", middle, right, "", right);
    assert "" + middle + right == middle + right;
  }

  // ---------------------------------------------------------------------------
  // Entry lookups
  // ---------------------------------------------------------------------------

  /** `get_attrlist(entry, attr)`: all values of the attribute, or [] when it is absent. */
  function GetAttrList<T>(entry: map<string, seq<T>>, attr: string): (r: seq<T>)
    ensures attr in entry ==> r == entry[attr]
    ensures attr !in entry ==> r == []
  {
    if attr in entry then entry[attr] else []
  }

  /** `get_attr(entry, attr)`: the first value, None when absent; an empty value list raises IndexError. */
  function GetAttr<T>(entry: map<string, seq<T>>, attr: string): (r: Result<Option<T>, PyError>)
    ensures r.Failure? <==> attr in entry && entry[attr] == []
    ensures r.Success? ==> (r.value.None? <==> attr !in entry)
    ensures r.Success? && r.value.Some? ==> r.value.value == GetAttrList(entry, attr)[0]
    ensures r.Failure? ==> r.error == IndexError
  {
    if attr !in entry then Success(None)
    else if entry[attr] == [] then Failure(IndexError)
    else Success(Some(entry[attr][0]))
  }

  // ---------------------------------------------------------------------------
  // Filters and sentences
  // ---------------------------------------------------------------------------

  /** `''.join('(%s=%s)' % (attrname, item) for item in items)`. */
  function EqualityFilters(attrname: string, items: seq<string>): string
  {
    if items == [] then "" else "(" + attrname + "=" + items[0] + ")" + EqualityFilters(attrname, items[1..])
  }

  /** `build_ldap_filter(op, attrname, items)`: ValueError without items. */
  function BuildLdapFilter(op: string, attrname: string, items: seq<string>): (r: Result<string, PyError>)
    ensures r.Failure? <==> items == []
    ensures r.Failure? ==> r.error == ValueError("items list must exist")
    ensures r.Success? ==> r.value == "(" + op + EqualityFilters(attrname, items) + ")"
  {
    if items == [] then Failure(ValueError("items list must exist"))
    else Success("(" + op + EqualityFilters(attrname, items) + ")")
  }

  /** Adding an item appends its `(attr=item)` term at the end: the items keep their order. */
  lemma {:induction false} EqualityFiltersAppend(attrname: string, items: seq<string>, item: string)
    ensures EqualityFilters(attrname, items + [item]) == EqualityFilters(attrname, items) + "(" + attrname + "=" + item + ")"
  {
    if items != [] {
      assert (items + [item])[1..] == items[1..] + [item];
      EqualityFiltersAppend(attrname, items[1..], item);
    } else {
      assert items + [item] == [item];
    }
  }

  /** `list_items_to_sentence(items)`: None for no items. */
  function ListItemsToSentence(items: seq<string>): (r: Option<string>)
    ensures r.None? <==> items == []
    ensures |items| == 1 ==> r == Some(items[0])
    ensures |items| == 2 ==> r == Some(items[0] + " and " + items[1])
  {
    if |items| == 1 then Some(items[0])
    else if |items| == 2 then Some(items[0] + " and " + items[1])
    else if |items| > 1 then Some(Join(items[..|items| - 1], ", ") + ", and " + items[|items| - 1])
    else None
  }

  /** From three items on, the sentence is the items joined by ", " with "and " before the last. */
  lemma SentenceIsOxfordList(items: seq<string>)
    requires |items| >= 3
    ensures ListItemsToSentence(items) == Some(Join(items[..|items| - 1] + ["and " + items[|items| - 1]], ", "))
  {
    var init := items[..|items| - 1];
    var last := items[|items| - 1];
    JoinSnoc(init, "and " + last, ", ");
    assert Join(init, ", ") + ", " + ("and " + last) == Join(init, ", ") + ", and " + last;
  }

  lemma {:induction false} JoinSnoc(parts: seq<string>, last: string, sep: string)
    requires parts != []
    ensures Join(parts + [last], sep) == Join(parts, sep) + sep + last
  {
    if |parts| == 1 {
      assert (parts + [last])[1..] == [last];
    } else {
      assert (parts + [last])[1..] == parts[1..] + [last];
      JoinSnoc(parts[1..], last, sep);
    }
  }

  // ---------------------------------------------------------------------------
  // print_word_list
  // ---------------------------------------------------------------------------

  /**
   * The text print_word_list produces for `words` when `left` characters
   * remain on the current line: a newline first when the word and its space
   * do not fit, then a space and the word.
   */
  function WordListText(words: seq<string>, lineLength: int, left: int): string
  {
    if words == [] then ""
    else WordHead(words[0], left) + WordListText(words[1..], lineLength, LeftAfter(words[0], lineLength, left))
  }

  /** Whether the word and its space no longer fit in what is left of the line. */
  predicate Breaks(w: string, left: int)
  {
    left < |w| + 1
  }

  /** What one word adds: a newline when it does not fit, then a space and the word. */
  function WordHead(w: string, left: int): string
  {
    (if Breaks(w, left) then "\n" else "") + " " + w
  }

  /** What is left of the line after the word. */
  function LeftAfter(w: string, lineLength: int, left: int): int
  {
    (if Breaks(w, left) then lineLength else left) - (|w| + 1)
  }

  /** `print_word_list(words, line_length)`. */
  method PrintWordList(words: seq<string>, lineLength: int) returns (r: string)
    ensures r == WordListText(words, lineLength, lineLength)
  {
    var left := lineLength;
    r := "";
    assert words[0..] == words;
    for i := 0 to |words|
      invariant r + WordListText(words[i..], lineLength, left) == WordListText(words, lineLength, lineLength)
    {
      var w := words[i];
      assert words[i..][1..] == words[i + 1..];
      ghost var r0, left0 := r, left;
      ghost var tail := WordListText(words[i + 1..], lineLength, LeftAfter(w, lineLength, left0));
      if left < |w| + 1 {
        r := r + "\n";
        left := lineLength;
      }
      r := r + (" " + w);
      left := left - (|w| + 1);
      WordStep(r0, w, left0, tail);
    }
    assert words[|words|..] == [];
  }

  /** Appending a word's text to the output so far, in the two steps the loop takes. */
  lemma WordStep(r: string, w: string, left: int, tail: string)
    ensures (if Breaks(w, left) then r + "\n" else r) + (" " + w) + tail == r + (WordHead(w, left) + tail)
  {
    if Breaks(w, left) {
      assert WordHead(w, left) == "\n" + " " + w;
      assert r + "\n" + (" " + w) + tail == r + ("\n" + " " + w + tail);
    } else {
      assert WordHead(w, left) == " " + w;
    }
  }

  function DropNewlines(s: string): string
  {
    if s == [] then "" else (if s[0] == '\n' then "" else [s[0]]) + DropNewlines(s[1..])
  }

  lemma {:induction false} DropNewlinesAppend(a: string, b: string)
    ensures DropNewlines(a + b) == DropNewlines(a) + DropNewlines(b)
  {
    if a == [] {
      assert a + b == b;
    } else {
      assert (a + b)[1..] == a[1..] + b;
      DropNewlinesAppend(a[1..], b);
    }
  }

  lemma {:induction false} DropNewlinesNone(s: string)
    requires '\n' !in s
    ensures DropNewlines(s) == s
  {
    if s != [] {
      DropNewlinesNone(s[1..]);
      assert [s[0]] + s[1..] == s;
    }
  }

  /** Every word, each preceded by a space. */
  function SpacedWords(words: seq<string>): string
  {
    if words == [] then "" else " " + words[0] + SpacedWords(words[1..])
  }

  /** Line breaks are the only thing print_word_list adds: without them the text is each word after a space. */
  lemma {:induction false} WordListWithoutBreaks(words: seq<string>, lineLength: int, left: int)
    requires forall i :: 0 <= i < |words| ==> '\n' !in words[i]
    ensures DropNewlines(WordListText(words, lineLength, left)) == SpacedWords(words)
  {
    if words != [] {
      var w := words[0];
      var tail := WordListText(words[1..], lineLength, LeftAfter(w, lineLength, left));
      DropNewlinesAppend(WordHead(w, left), tail);
      DropNewlinesOfWord(Breaks(w, left), w);
      WordListWithoutBreaks(words[1..], lineLength, LeftAfter(w, lineLength, left));
    }
  }

  lemma DropNewlinesOfWord(breaks: bool, w: string)
    requires '\n' !in w
    ensures DropNewlines((if breaks then "\n" else "") + " " + w) == " " + w
  {
    DropNewlinesNone(" " + w);
    if breaks {
      assert ("\n" + " " + w)[1..] == " " + w;
    } else {
      assert "" + " " + w == " " + w;
    }
  }

  /** A break happens exactly when the next word and its space do not fit in what is left of the line. */
  lemma WordListBreaksWhenFull(words: seq<string>, lineLength: int, left: int)
    requires words != []
    ensures var t := WordListText(words, lineLength, left);
            (t[0] == '\n') <==> left < |words[0]| + 1
  {
  }

  // ---------------------------------------------------------------------------
  // Value normalisations
  // ---------------------------------------------------------------------------

  /** `[x for x in items if x]`: the truthy items, in their order and with their repeats. */
  function FilterTruthy(items: seq<Value>): (r: seq<Value>)
    ensures forall x :: x in r <==> x in items && Truthy(x)
    ensures |r| <= |items|
    ensures |items| == 1 ==> r == if Truthy(items[0]) then items else []
  {
    if items == [] then []
    else if Truthy(items[0]) then [items[0]] + FilterTruthy(items[1..])
    else FilterTruthy(items[1..])
  }

  /**
   * Filtering distributes over concatenation. With the one-item case of
   * FilterTruthy's contract this fixes the result entirely: the order of the
   * kept items is their order in the input, and nothing is merged or dropped
   * but the falsy items.
   */
  lemma {:induction false} FilterTruthyAppend(a: seq<Value>, b: seq<Value>)
    ensures FilterTruthy(a + b) == FilterTruthy(a) + FilterTruthy(b)
  {
    if a != [] {
      assert (a + b)[0] == a[0];
      assert (a + b)[1..] == a[1..] + b;
      FilterTruthyAppend(a[1..], b);
    } else {
      assert a + b == b;
    }
  }

  /** Every truthy item is kept as often as it occurs; every falsy one is gone. */
  lemma {:induction false} FilterTruthyCounts(items: seq<Value>, x: Value)
    ensures multiset(FilterTruthy(items))[x] == if Truthy(x) then multiset(items)[x] else 0
  {
    if items != [] {
      FilterTruthyCounts(items[1..], x);
      assert items == [items[0]] + items[1..];
      assert multiset(items) == multiset{items[0]} + multiset(items[1..]);
    }
  }

  /** `remove_empty_strings(val)`. */
  function RemoveEmptyStrings(v: Value): (r: Value)
    ensures v.List? ==> r.List? && forall x :: x in r.items <==> x in v.items && Truthy(x)
    ensures v.List? ==> r.items == FilterTruthy(v.items)
    ensures v == Str("") ==> r == PyNone
    ensures !v.List? && v != Str("") ==> r == v
  {
    match v
    case List(items) => List(FilterTruthy(items))
    case Str(s) => if s == [] then PyNone else v
    case _ => v
  }

  lemma {:induction false} FilterTruthyIdempotent(items: seq<Value>)
    ensures FilterTruthy(FilterTruthy(items)) == FilterTruthy(items)
  {
    if items != [] {
      FilterTruthyIdempotent(items[1..]);
      if Truthy(items[0]) {
        assert ([items[0]] + FilterTruthy(items[1..]))[1..] == FilterTruthy(items[1..]);
      }
    }
  }

  /** Normalising twice is normalising once. */
  lemma RemoveEmptyStringsIdempotent(v: Value)
    ensures RemoveEmptyStrings(RemoveEmptyStrings(v)) == RemoveEmptyStrings(v)
  {
    if v.List? {
      FilterTruthyIdempotent(v.items);
    }
  }

  /** The superficial differences normalisation hides: [] and [''] agree, and so do '' and None. */
  lemma RemoveEmptyStringsMerges()
    ensures RemoveEmptyStrings(List([])) == RemoveEmptyStrings(List([Str("")]))
    ensures RemoveEmptyStrings(Str("")) == RemoveEmptyStrings(PyNone)
  {
    assert FilterTruthy([Str("")]) == [];
  }

  /**
   * What `getattr(v, 'primary', None)` then `getattr(v, primary)` give: an
   * LDAPNode whose class names a primary field stands for that field's value;
   * anything else stands for itself.
   */
  function PrimaryOrSelf(v: Value): (r: Value)
    ensures !v.Node? ==> r == v
  {
    if v.Node? && v.primaryName != [] then v.primaryValue else v
  }

  /** The arguments with every LDAPNode replaced by its primary value. */
  function Stringified(args: map<string, Value>): (r: map<string, Value>)
    ensures r.Keys == args.Keys
    ensures forall k :: k in args ==> r[k] == PrimaryOrSelf(args[k])
  {
    map k | k in args :: PrimaryOrSelf(args[k])
  }

  /** `stringify(args)`: every LDAPNode argument replaced by its primary value. */
  method Stringify(args: map<string, Value>) returns (r: map<string, Value>)
    ensures r.Keys == args.Keys
    ensures forall k :: k in args ==> r[k] == PrimaryOrSelf(args[k])
    ensures r == Stringified(args)
  {
    r := map[];
    var todo := args.Keys;
    while todo != {}
      invariant todo <= args.Keys
      invariant r.Keys == args.Keys - todo
      invariant forall k :: k in r ==> r[k] == PrimaryOrSelf(args[k])
      decreases todo
    {
      var k :| k in todo;
      r := r[k := PrimaryOrSelf(args[k])];
      todo := todo - {k};
    }
  }

  /** `to_list(v)`: a list's items, a string as a singleton, otherwise nothing. */
  function ToList(v: Value): (r: seq<Value>)
    ensures v.List? ==> r == v.items
    ensures v.Str? ==> r == [v]
    ensures !v.List? && !v.Str? ==> r == []
  {
    match v
    case List(items) => items
    case Str(_) => [v]
    case _ => []
  }
}
