/**
 * Q objects: a tree of keyword conditions joined by `&` and `|`, compiled
 * into an LDAP search filter string (the prefix notation of RFC 4515,
 * without escaping) against a class's field map.
 */
module Query {
  import opened Wrappers
  import opened PyValues
  import opened Exceptions
  import opened Fields
  import opened Registry

  /** The shape of a Q object: its own conditions and the Q objects joined to it. */
  datatype QTree = QTree(conditions: seq<(string, Value)>, ands: seq<QTree>, ors: seq<QTree>)

  // ---------------------------------------------------------------------------
  // What compile() produces
  // ---------------------------------------------------------------------------

  /** `(attr=value)` for each condition, the field name looked up in the class's fields. */
  function Conditions(conds: seq<(string, Value)>, fields: FieldMap): Result<string, PyError>
  {
    if conds == [] then Success("")
    else
      match Lookup(fields, conds[0].0)
      case None => Failure(AttributeError("ldap"))
      case Some(f) =>
        var rest :- Conditions(conds[1..], fields);
        Success("(" + f.ldap + "=" + Text(conds[0].1) + ")" + rest)
  }

  /** The compiled filters of several Q objects, concatenated. */
  function CompileList(ts: seq<QTree>, fields: FieldMap): Result<string, PyError>
    decreases ts, 0
  {
    if ts == [] then Success("")
    else
      var head :- CompileTree(ts[0], fields);
      var rest :- CompileList(ts[1..], fields);
      Success(head + rest)
  }

  /** Wraps several parts in one operator; a single part stands alone. */
  function Group(op: char, parts: string, count: nat): string
  {
    if count > 1 then ['(', op] + parts + ")" else parts
  }

  /** `Q.compile(cls)`. */
  function CompileTree(t: QTree, fields: FieldMap): Result<string, PyError>
    decreases t, 1
  {
    var imm :- Conditions(t.conditions, fields);
    var ors :- CompileList(t.ors, fields);
    var ands :- CompileList(t.ands, fields);
    Success(Combine(imm, ors, ands, |t.conditions|, |t.ors|, |t.ands|))
  }

  /**
   * The last step of compile(): each part grouped when it has several
   * members, the OR part joined with the Q's own conditions, the AND part
   * joined with that.
   */
  function Combine(imm: string, ors: string, ands: string, nConds: nat, nOrs: nat, nAnds: nat): string
  {
    var immediate := Group('&', imm, nConds);
    var orFilter := Group('|', ors, nOrs);
    var andFilter := Group('&', ands, nAnds);
    if andFilter != "" && orFilter != "" then "(&(|" + immediate + orFilter + ")" + andFilter + ")"
    else if orFilter != "" then "(|" + immediate + orFilter + ")"
    else if andFilter != "" then "(&" + immediate + andFilter + ")"
    else immediate
  }

  /** Every condition anywhere in the tree names a field of the class. */
  predicate KnownFields(t: QTree, fields: FieldMap)
    decreases t, 1
  {
    (forall c :: c in t.conditions ==> c.0 in Keys(fields))
    && KnownAll(t.ands, fields) && KnownAll(t.ors, fields)
  }

  predicate KnownAll(ts: seq<QTree>, fields: FieldMap)
    decreases ts, 0
  {
    ts == [] || (KnownFields(ts[0], fields) && KnownAll(ts[1..], fields))
  }

  // ---------------------------------------------------------------------------
  // The mutable Q object
  // ---------------------------------------------------------------------------

  class Q {
    var conditions: seq<(string, Value)>
    var ands: seq<Q>
    var ors: seq<Q>
    /** The tree this object and the objects joined to it describe. */
    ghost var tree: QTree
    ghost var Repr: set<object>

    ghost predicate Valid()
      reads this, Repr
      decreases Repr
    {
      this in Repr
      && tree.conditions == conditions && |tree.ands| == |ands| && |tree.ors| == |ors|
      && (forall i :: 0 <= i < |ands| ==>
            ands[i] in Repr && ands[i].Repr <= Repr && this !in ands[i].Repr
            && ands[i].tree == tree.ands[i] && ands[i].Valid())
      && (forall i :: 0 <= i < |ors| ==>
            ors[i] in Repr && ors[i].Repr <= Repr && this !in ors[i].Repr
            && ors[i].tree == tree.ors[i] && ors[i].Valid())
    }

    /** `Q(**conditions)`. */
    constructor (conditions: seq<(string, Value)>)
      ensures Valid() && fresh(Repr)
      ensures tree == QTree(conditions, [], [])
    {
      this.conditions := conditions;
      ands := [];
      ors := [];
      tree := QTree(conditions, [], []);
      Repr := {this};
    }

    /** `self & other`: appends `other` to this object's AND list and returns this object. */
    method And(other: Q) returns (r: Q)
      requires Valid() && other.Valid() && this !in other.Repr
      modifies this
      ensures r == this && Valid()
      ensures tree == QTree(old(tree.conditions), old(tree.ands) + [other.tree], old(tree.ors))
      ensures Repr == old(Repr) + other.Repr
    {
      ands := ands + [other];
      tree := tree.(ands := tree.ands + [other.tree]);
      Repr := Repr + other.Repr;
      r := this;
    }

    /** `self | other`: appends `other` to this object's OR list and returns this object. */
    method Or(other: Q) returns (r: Q)
      requires Valid() && other.Valid() && this !in other.Repr
      modifies this
      ensures r == this && Valid()
      ensures tree == QTree(old(tree.conditions), old(tree.ands), old(tree.ors) + [other.tree])
      ensures Repr == old(Repr) + other.Repr
    {
      ors := ors + [other];
      tree := tree.(ors := tree.ors + [other.tree]);
      Repr := Repr + other.Repr;
      r := this;
    }

    /** `compile(cls)`: the filter, or AttributeError for a condition on a name that is not a field. */
    method Compile(fields: FieldMap) returns (r: Result<string, PyError>)
      requires Valid()
      ensures r == CompileTree(tree, fields)
      decreases Repr, 1
    {
      var immediate := CompileConditions(conditions, fields);
      if immediate.Failure? {
        return Failure(immediate.error);
      }
      var orFilter := CompileChildren(ors, tree.ors, fields);
      if orFilter.Failure? {
        return Failure(orFilter.error);
      }
      var andFilter := CompileChildren(ands, tree.ands, fields);
      if andFilter.Failure? {
        return Failure(andFilter.error);
      }
      r := Success(Combine(immediate.value, orFilter.value, andFilter.value, |conditions|, |ors|, |ands|));
    }

    /** One of the two loops over the joined Q objects, concatenating their filters. */
    method CompileChildren(qs: seq<Q>, ghost ts: seq<QTree>, fields: FieldMap) returns (r: Result<string, PyError>)
      requires Valid()
      requires (qs == ands && ts == tree.ands) || (qs == ors && ts == tree.ors)
      ensures r == CompileList(ts, fields)
      decreases Repr, 0
    {
      var acc := "";
      assert ts[0..] == ts;
      PrefixedEmpty(CompileList(ts, fields));
      for i := 0 to |qs|
        invariant CompileList(ts, fields) == Prefixed(acc, CompileList(ts[i..], fields))
      {
        assert ts[i..][1..] == ts[i + 1..];
        var c := qs[i].Compile(fields);
        if c.Failure? {
          assert CompileList(ts[i..], fields) == Failure(c.error);
          return Failure(c.error);
        }
        assert CompileList(ts[i..], fields) == Prefixed(c.value, CompileList(ts[i + 1..], fields));
        PrefixedTwice(acc, c.value, CompileList(ts[i + 1..], fields));
        acc := acc + c.value;
      }
      assert ts[|qs|..] == [];
      assert acc + "" == acc;
      r := Success(acc);
    }
  }

  /** The loop over a Q's own conditions. */
  method CompileConditions(conds: seq<(string, Value)>, fields: FieldMap) returns (r: Result<string, PyError>)
    ensures r == Conditions(conds, fields)
  {
    var acc := "";
    assert conds[0..] == conds;
    PrefixedEmpty(Conditions(conds, fields));
    for i := 0 to |conds|
      invariant Conditions(conds, fields) == Prefixed(acc, Conditions(conds[i..], fields))
    {
      assert conds[i..][1..] == conds[i + 1..];
      var f := Lookup(fields, conds[i].0);
      if f.None? {
        assert Conditions(conds[i..], fields) == Failure(AttributeError("ldap"));
        return Failure(AttributeError("ldap"));
      }
      var atom := "(" + f.value.ldap + "=" + Text(conds[i].1) + ")";
      assert Conditions(conds[i..], fields) == Prefixed(atom, Conditions(conds[i + 1..], fields));
      PrefixedTwice(acc, atom, Conditions(conds[i + 1..], fields));
      acc := acc + atom;
    }
    assert conds[|conds|..] == [];
    assert acc + "" == acc;
    r := Success(acc);
  }

  /** `acc` followed by the text of a successful result; a failure passes through. */
  function Prefixed(acc: string, r: Result<string, PyError>): Result<string, PyError>
  {
    if r.Success? then Success(acc + r.value) else r
  }

  lemma PrefixedEmpty(r: Result<string, PyError>)
    ensures Prefixed("", r) == r
  {
    if r.Success? {
      assert "" + r.value == r.value;
    }
  }

  lemma PrefixedTwice(a: string, b: string, r: Result<string, PyError>)
    ensures Prefixed(a, Prefixed(b, r)) == Prefixed(a + b, r)
  {
    if r.Success? {
      assert a + (b + r.value) == (a + b) + r.value;
    }
  }

  // ---------------------------------------------------------------------------
  // Properties of compile()
  // ---------------------------------------------------------------------------

  /** Compiling fails exactly when some condition, anywhere in the tree, names no field; the failure is AttributeError. */
  lemma {:induction false} CompileSucceedsIffKnown(t: QTree, fields: FieldMap)
    ensures CompileTree(t, fields).Success? <==> KnownFields(t, fields)
    ensures CompileTree(t, fields).Failure? ==> CompileTree(t, fields).error == AttributeError("ldap")
    decreases t, 1
  {
    ConditionsSucceedIffKnown(t.conditions, fields);
    CompileListSucceedsIffKnown(t.ors, fields);
    CompileListSucceedsIffKnown(t.ands, fields);
  }

  lemma {:induction false} CompileListSucceedsIffKnown(ts: seq<QTree>, fields: FieldMap)
    ensures CompileList(ts, fields).Success? <==> KnownAll(ts, fields)
    ensures CompileList(ts, fields).Failure? ==> CompileList(ts, fields).error == AttributeError("ldap")
    decreases ts, 0
  {
    if ts != [] {
      CompileSucceedsIffKnown(ts[0], fields);
      CompileListSucceedsIffKnown(ts[1..], fields);
    }
  }

  lemma {:induction false} ConditionsSucceedIffKnown(conds: seq<(string, Value)>, fields: FieldMap)
    ensures Conditions(conds, fields).Success? <==> forall c :: c in conds ==> c.0 in Keys(fields)
    ensures Conditions(conds, fields).Failure? ==> Conditions(conds, fields).error == AttributeError("ldap")
  {
    if conds != [] {
      ConditionsSucceedIffKnown(conds[1..], fields);
      assert forall c :: c in conds <==> c == conds[0] || c in conds[1..];
    }
  }

  // ---------------------------------------------------------------------------
  // Q objects as Python shares them
  // ---------------------------------------------------------------------------

  /**
   * A Q object in a graph of Python objects: its conditions and the
   * positions, in the graph, of the objects on its AND and OR lists. Nothing
   * stops an object from reaching itself: `q & q` puts q on its own AND list.
   */
  datatype QNode = QNode(conditions: seq<(string, Value)>, ands: seq<nat>, ors: seq<nat>)

  /** Every list entry refers to an object of the graph. */
  predicate ClosedGraph(g: seq<QNode>)
  {
    && (forall i, j :: 0 <= i < |g| && 0 <= j < |g[i].ands| ==> g[i].ands[j] < |g|)
    && (forall i, j :: 0 <= i < |g| && 0 <= j < |g[i].ors| ==> g[i].ors[j] < |g|)
  }

  /**
   * `compile(cls)` as written, on the object at position i: the joined
   * objects are compiled by following the references, wherever they lead.
   * `frames` is the recursion the interpreter has left; RecursionError is
   * raised when a call finds none.
   */
  function CompileAt(g: seq<QNode>, i: nat, fields: FieldMap, frames: nat): Result<string, PyError>
    requires ClosedGraph(g) && i < |g|
    decreases frames, 0
  {
    if frames == 0 then Failure(RecursionError)
    else
      var imm :- Conditions(g[i].conditions, fields);
      var ors :- CompileAtAll(g, g[i].ors, fields, frames - 1);
      var ands :- CompileAtAll(g, g[i].ands, fields, frames - 1);
      Success(Combine(imm, ors, ands, |g[i].conditions|, |g[i].ors|, |g[i].ands|))
  }

  function CompileAtAll(g: seq<QNode>, refs: seq<nat>, fields: FieldMap, frames: nat): Result<string, PyError>
    requires ClosedGraph(g) && forall k :: 0 <= k < |refs| ==> refs[k] < |g|
    decreases frames, 1, |refs|
  {
    if refs == [] then Success("")
    else
      var head :- CompileAt(g, refs[0], fields, frames);
      var rest :- CompileAtAll(g, refs[1..], fields, frames);
      Success(head + rest)
  }

  /**
   * `q & q` makes q reach itself, and then `compile` never finishes: once
   * q's own conditions compile, every call recurses into q again until the
   * interpreter's recursion limit raises RecursionError, however much
   * recursion is left.
   */
  lemma {:induction false} SelfJoinNeverCompiles(conds: seq<(string, Value)>, fields: FieldMap, frames: nat)
    requires Conditions(conds, fields).Success?
    ensures CompileAt([QNode(conds, [0], [])], 0, fields, frames) == Failure(RecursionError)
    decreases frames
  {
    if frames > 0 {
      SelfJoinNeverCompiles(conds, fields, frames - 1);
    }
  }

  /** Parentheses nesting depth after reading `s`, starting from `d`; None once it would go below zero. */
  function Depth(s: string, d: nat): Option<nat>
  {
    if s == [] then Some(d)
    else if s[0] == '(' then Depth(s[1..], d + 1)
    else if s[0] == ')' then (if d == 0 then None else Depth(s[1..], d - 1))
    else Depth(s[1..], d)
  }

  /** Every '(' is closed, and no ')' comes before its '('. */
  predicate Balanced(s: string)
  {
    Depth(s, 0) == Some(0)
  }

  lemma {:induction false} DepthAppend(a: string, b: string, d: nat)
    ensures Depth(a + b, d) == if Depth(a, d).None? then None else Depth(b, Depth(a, d).value)
  {
    if a == [] {
      assert a + b == b;
    } else {
      assert (a + b)[1..] == a[1..] + b;
      if a[0] == '(' {
        DepthAppend(a[1..], b, d + 1);
      } else if a[0] == ')' {
        if d > 0 {
          DepthAppend(a[1..], b, d - 1);
        }
      } else {
        DepthAppend(a[1..], b, d);
      }
    }
  }

  /** Text without parentheses leaves the depth where it was. */
  lemma {:induction false} DepthPlain(s: string, d: nat)
    requires '(' !in s && ')' !in s
    ensures Depth(s, d) == Some(d)
  {
    if s != [] {
      DepthPlain(s[1..], d);
    }
  }

  /** A balanced text stays balanced inside one more pair of parentheses, after a plain prefix. */
  lemma Wrapped(prefix: string, inner: string)
    requires '(' !in prefix && ')' !in prefix && Balanced(inner)
    ensures Balanced("(" + prefix + inner + ")")
  {
    BalancedAt(inner, 1);
    DepthPlain(prefix, 1);
    DepthAppend("(" + prefix, inner + ")", 0);
    DepthAppend(inner, ")", 1);
    assert ("(" + prefix)[1..] == prefix;
    DepthAppend(prefix, [], 1);
    assert "(" + prefix + inner + ")" == ("(" + prefix) + (inner + ")");
  }

  lemma Concatenated(a: string, b: string)
    requires Balanced(a) && Balanced(b)
    ensures Balanced(a + b)
  {
    DepthAppend(a, b, 0);
  }

  /** A balanced text read from any depth returns to that depth. */
  lemma {:induction false} BalancedAt(s: string, d: nat)
    requires Balanced(s)
    ensures Depth(s, d) == Some(d)
  {
    DepthShift(s, 0, d);
  }

  lemma {:induction false} DepthShift(s: string, d: nat, e: nat)
    requires Depth(s, d).Some?
    ensures Depth(s, d + e) == Some(Depth(s, d).value + e)
  {
    if s != [] {
      if s[0] == '(' {
        DepthShift(s[1..], d + 1, e);
      } else if s[0] == ')' {
        DepthShift(s[1..], d - 1, e);
      } else {
        DepthShift(s[1..], d, e);
      }
    }
  }

  /** No wire name and no condition value in the tree holds a parenthesis. */
  predicate PlainTree(t: QTree, fields: FieldMap)
    decreases t, 1
  {
    (forall c :: c in t.conditions ==> '(' !in Text(c.1) && ')' !in Text(c.1))
    && PlainAll(t.ands, fields) && PlainAll(t.ors, fields)
  }

  predicate PlainAll(ts: seq<QTree>, fields: FieldMap)
    decreases ts, 0
  {
    ts == [] || (PlainTree(ts[0], fields) && PlainAll(ts[1..], fields))
  }

  predicate PlainNames(fields: FieldMap)
  {
    forall e :: e in fields ==> '(' !in e.1.ldap && ')' !in e.1.ldap && '=' !in e.1.ldap
  }

  /** With no parenthesis in names or values, every compiled filter is balanced. */
  lemma {:induction false} CompiledIsBalanced(t: QTree, fields: FieldMap)
    requires PlainNames(fields) && PlainTree(t, fields)
    requires CompileTree(t, fields).Success?
    ensures Balanced(CompileTree(t, fields).value)
    decreases t, 1
  {
    var imm := Conditions(t.conditions, fields).value;
    var ors := CompileList(t.ors, fields).value;
    var ands := CompileList(t.ands, fields).value;
    ConditionsBalanced(t.conditions, fields);
    CompileListBalanced(t.ors, fields);
    CompileListBalanced(t.ands, fields);
    CombineBalanced(imm, ors, ands, |t.conditions|, |t.ors|, |t.ands|);
  }

  lemma GroupBalanced(op: char, parts: string, count: nat)
    requires op != '(' && op != ')' && Balanced(parts)
    ensures Balanced(Group(op, parts, count))
  {
    if count > 1 {
      Wrapped([op], parts);
      assert ['(', op] + parts + ")" == "(" + [op] + parts + ")";
    }
  }

  /** The last step of compile() keeps balanced parts balanced. */
  lemma CombineBalanced(imm: string, ors: string, ands: string, nConds: nat, nOrs: nat, nAnds: nat)
    requires Balanced(imm) && Balanced(ors) && Balanced(ands)
    ensures Balanced(Combine(imm, ors, ands, nConds, nOrs, nAnds))
  {
    var immediate := Group('&', imm, nConds);
    var orFilter := Group('|', ors, nOrs);
    var andFilter := Group('&', ands, nAnds);
    GroupBalanced('&', imm, nConds);
    GroupBalanced('|', ors, nOrs);
    GroupBalanced('&', ands, nAnds);
    if andFilter != "" && orFilter != "" {
      OrThenAndBalanced(immediate, orFilter, andFilter);
    } else if orFilter != "" {
      JoinedBalanced('|', immediate, orFilter);
    } else if andFilter != "" {
      JoinedBalanced('&', immediate, andFilter);
    }
  }

  lemma JoinedBalanced(op: char, a: string, b: string)
    requires op != '(' && op != ')' && Balanced(a) && Balanced(b)
    ensures Balanced(['(', op] + a + b + ")")
  {
    Concatenated(a, b);
    Wrapped([op], a + b);
    assert ['(', op] + a + b + ")" == "(" + [op] + (a + b) + ")";
  }

  lemma OrThenAndBalanced(immediate: string, orFilter: string, andFilter: string)
    requires Balanced(immediate) && Balanced(orFilter) && Balanced(andFilter)
    ensures Balanced("(&(|" + immediate + orFilter + ")" + andFilter + ")")
  {
    JoinedBalanced('|', immediate, orFilter);
    var alt := "(|" + immediate + orFilter + ")";
    JoinedBalanced('&', alt, andFilter);
    assert "(&(|" + immediate + orFilter + ")" + andFilter + ")" == "(&" + alt + andFilter + ")";
  }

  lemma {:induction false} CompileListBalanced(ts: seq<QTree>, fields: FieldMap)
    requires PlainNames(fields) && PlainAll(ts, fields)
    requires CompileList(ts, fields).Success?
    ensures Balanced(CompileList(ts, fields).value)
    decreases ts, 0
  {
    if ts != [] {
      CompiledIsBalanced(ts[0], fields);
      CompileListBalanced(ts[1..], fields);
      Concatenated(CompileTree(ts[0], fields).value, CompileList(ts[1..], fields).value);
    } else {
      assert Depth("", 0) == Some(0);
    }
  }

  lemma {:induction false} ConditionsBalanced(conds: seq<(string, Value)>, fields: FieldMap)
    requires PlainNames(fields)
    requires forall c :: c in conds ==> '(' !in Text(c.1) && ')' !in Text(c.1)
    requires Conditions(conds, fields).Success?
    ensures Balanced(Conditions(conds, fields).value)
  {
    if conds != [] {
      var f := Lookup(fields, conds[0].0).value;
      assert (conds[0].0, f) in fields;
      var atom := "(" + f.ldap + "=" + Text(conds[0].1) + ")";
      ConditionsBalanced(conds[1..], fields);
      Atom(f.ldap, Text(conds[0].1));
      Concatenated(atom, Conditions(conds[1..], fields).value);
    } else {
      assert Depth("", 0) == Some(0);
    }
  }

  /** One `(name=value)` term is balanced when neither part holds a parenthesis. */
  lemma Atom(name: string, value: string)
    requires '(' !in name && ')' !in name && '(' !in value && ')' !in value
    ensures Balanced("(" + name + "=" + value + ")")
  {
    var body := name + "=" + value;
    assert '(' !in body && ')' !in body;
    assert Depth("", 0) == Some(0);
    Wrapped(body, "");
    assert "(" + body + "" + ")" == "(" + name + "=" + value + ")";
  }

  // ---------------------------------------------------------------------------
  // The documented shapes
  // ---------------------------------------------------------------------------

  /** A Q with one condition compiles to a single equality filter. */
  lemma OneCondition(k: string, v: Value, f: Field, fields: FieldMap)
    requires Lookup(fields, k) == Some(f)
    ensures CompileTree(QTree([(k, v)], [], []), fields) == Success("(" + f.ldap + "=" + Text(v) + ")")
  {
    SingleConditions(k, v, f, fields);
  }

  /** Several conditions in one Q are ANDed. */
  lemma SeveralConditions(conds: seq<(string, Value)>, fields: FieldMap)
    requires |conds| > 1 && Conditions(conds, fields).Success?
    ensures CompileTree(QTree(conds, [], []), fields) == Success("(&" + Conditions(conds, fields).value + ")")
  {
    assert ['(', '&'] == "(&";
  }

  /** `a | b` of two one-condition Qs compiles to `(|(a)(b))`. */
  lemma OrOfTwo(ka: string, va: Value, kb: string, vb: Value, fa: Field, fb: Field, fields: FieldMap)
    requires Lookup(fields, ka) == Some(fa) && Lookup(fields, kb) == Some(fb)
    ensures var a := "(" + fa.ldap + "=" + Text(va) + ")";
            var b := "(" + fb.ldap + "=" + Text(vb) + ")";
            CompileTree(QTree([(ka, va)], [], [QTree([(kb, vb)], [], [])]), fields) == Success("(|" + a + b + ")")
  {
    var a := "(" + fa.ldap + "=" + Text(va) + ")";
    var b := "(" + fb.ldap + "=" + Text(vb) + ")";
    SingleConditions(ka, va, fa, fields);
    OneCondition(kb, vb, fb, fields);
    var ors := [QTree([(kb, vb)], [], [])];
    assert ors[1..] == [];
    assert CompileList(ors, fields) == Success(b + "");
    assert b + "" == b;
    assert Combine(a, b, "", 1, 1, 0) == "(|" + a + b + ")";
  }

  lemma SingleConditions(k: string, v: Value, f: Field, fields: FieldMap)
    requires Lookup(fields, k) == Some(f)
    ensures Conditions([(k, v)], fields) == Success("(" + f.ldap + "=" + Text(v) + ")")
  {
    var conds := [(k, v)];
    assert conds[1..] == [];
    var atom := "(" + f.ldap + "=" + Text(v) + ")";
    assert Conditions(conds, fields) == Success(atom + "");
    assert atom + "" == atom;
  }

  /** Two one-condition Qs side by side compile to their two terms in order. */
  lemma TwoLeaves(kb: string, vb: Value, kc: string, vc: Value, fb: Field, fc: Field, fields: FieldMap)
    requires Lookup(fields, kb) == Some(fb) && Lookup(fields, kc) == Some(fc)
    ensures var b := "(" + fb.ldap + "=" + Text(vb) + ")";
            var c := "(" + fc.ldap + "=" + Text(vc) + ")";
            CompileList([QTree([(kb, vb)], [], []), QTree([(kc, vc)], [], [])], fields) == Success(b + c)
  {
    var b := "(" + fb.ldap + "=" + Text(vb) + ")";
    var c := "(" + fc.ldap + "=" + Text(vc) + ")";
    OneCondition(kb, vb, fb, fields);
    OneCondition(kc, vc, fc, fields);
    var ts := [QTree([(kb, vb)], [], []), QTree([(kc, vc)], [], [])];
    var tail := ts[1..];
    assert tail == [QTree([(kc, vc)], [], [])];
    assert tail[1..] == [];
    assert CompileList(tail, fields) == Success(c + "");
    assert c + "" == c;
    assert CompileList(ts, fields) == Success(b + c);
  }

  /**
   * `a & b & c`: Python evaluates it as `(a & b) & c`, which appends both b
   * and c to a's AND list, so the filter nests rather than flattening:
   * `(&(a)(&(b)(c)))`.
   */
  lemma ChainedAnd(ka: string, va: Value, kb: string, vb: Value, kc: string, vc: Value,
                   fa: Field, fb: Field, fc: Field, fields: FieldMap)
    requires Lookup(fields, ka) == Some(fa) && Lookup(fields, kb) == Some(fb) && Lookup(fields, kc) == Some(fc)
    ensures var a := "(" + fa.ldap + "=" + Text(va) + ")";
            var b := "(" + fb.ldap + "=" + Text(vb) + ")";
            var c := "(" + fc.ldap + "=" + Text(vc) + ")";
            CompileTree(QTree([(ka, va)], [QTree([(kb, vb)], [], []), QTree([(kc, vc)], [], [])], []), fields)
              == Success("(&" + a + "(&" + b + c + "))")
  {
    var a := "(" + fa.ldap + "=" + Text(va) + ")";
    var b := "(" + fb.ldap + "=" + Text(vb) + ")";
    var c := "(" + fc.ldap + "=" + Text(vc) + ")";
    SingleConditions(ka, va, fa, fields);
    TwoLeaves(kb, vb, kc, vc, fb, fc, fields);
    AndOfTwo([(ka, va)], a, [QTree([(kb, vb)], [], []), QTree([(kc, vc)], [], [])], b + c, fields);
    NestedText(a, b, c);
  }

  /** A Q whose own conditions compile to `imm` and which is joined by `&` to two Qs compiling to `ands`. */
  lemma AndOfTwo(conds: seq<(string, Value)>, imm: string, ands: seq<QTree>, ands': string, fields: FieldMap)
    requires |conds| == 1 && |ands| == 2
    requires Conditions(conds, fields) == Success(imm) && CompileList(ands, fields) == Success(ands')
    ensures CompileTree(QTree(conds, ands, []), fields) == Success("(&" + imm + (['(', '&'] + ands' + ")") + ")")
  {
    assert CompileList([], fields) == Success("");
  }

  lemma NestedText(a: string, b: string, c: string)
    ensures "(&" + a + (['(', '&'] + (b + c) + ")") + ")" == "(&" + a + "(&" + b + c + "))"
  {
    assert "(&" == ['(', '&'] && "))" == ")" + ")";
  }

  /** Joining Qs that carry no condition and no children adds nothing to the filter. */
  lemma EmptyQ(fields: FieldMap)
    ensures CompileTree(QTree([], [], []), fields) == Success("")
  {
  }
}
