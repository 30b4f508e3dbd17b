/**
 * The string logic of BaseConnection (login DN qualification, parsing the
 * whoami answer, the short name) and its connection state: the connection
 * registered on the connection class, the retry-once-if-anonymous policy of
 * `search`, and `delete` reporting failure as False. The LDAP transport is
 * a function from (session, search base, filter) to its reply.
 */
module Connection {
  import opened Wrappers
  import opened PyValues
  import opened Exceptions
  import opened Utils
  import opened Fields

  // ---------------------------------------------------------------------------
  // Login DN and whoami
  // ---------------------------------------------------------------------------

  /** `_fully_qualify_dn(logindn)`: a bare user name becomes a DN under `ou=people`. */
  function FullyQualifyDn(login: string, basedn: string): (r: string)
    ensures '=' in login || '@' in login ==> r == login
    ensures '=' !in login && '@' !in login ==> r == "uid=" + login + ",ou=people," + basedn
  {
    if '=' !in login && '@' !in login then "uid=" + login + ",ou=people," + basedn else login
  }

  /** A qualified login DN is left as it is: qualifying twice is qualifying once. */
  lemma FullyQualifyIdempotent(login: string, basedn: string)
    ensures FullyQualifyDn(FullyQualifyDn(login, basedn), basedn) == FullyQualifyDn(login, basedn)
  {
    if '=' !in login && '@' !in login {
      var r := "uid=" + login + ",ou=people," + basedn;
      assert r[3] == '=';
    }
  }

  /** The qualified DN of a bare user name names that user in its `uid` component. */
  lemma QualifiedNamesUser(login: string, basedn: string)
    requires '=' !in login && '@' !in login && ',' !in login
    ensures DnAttribute(FullyQualifyDn(login, basedn), "uid") == Some(login)
  {
    QualifiedShape(login, basedn);
    DnAttributeOfFirst("uid", login, "ou=people," + basedn);
  }

  lemma QualifiedShape(login: string, basedn: string)
    requires '=' !in login && '@' !in login
    ensures FullyQualifyDn(login, basedn) == "uid" + "=" + login + "," + ("ou=people," + basedn)
  {
    assert "uid=" + login + ",ou=people," + basedn == "uid" + "=" + login + "," + ("ou=people," + basedn);
  }

  /**
   * The DN a connection binds as: none for an anonymous bind (no login and
   * no password), else the qualified login. A password without a login
   * fails as searching a regular expression in None does.
   */
  function BindDn(login: Option<string>, password: Option<string>, basedn: string): (r: Result<Option<string>, PyError>)
    ensures r.Success? && r.value.None? <==> login.None? && password.None?
    ensures r.Failure? <==> login.None? && password.Some?
    ensures login.Some? ==> r == Success(Some(FullyQualifyDn(login.value, basedn)))
  {
    if login.None? && password.None? then Success(None)
    else if login.None? then Failure(TypeError("expected string or bytes-like object"))
    else Success(Some(FullyQualifyDn(login.value, basedn)))
  }

  /**
   * `whoami()` from the server's answer: None for an anonymous bind (no
   * answer or an empty one); the answer without its `dn:` or else `u:`
   * prefix; None for anything else.
   */
  function ParseWhoami(answer: Option<string>): (r: Option<string>)
    ensures r.Some? ==> answer.Some? && (answer.value == "dn:" + r.value || answer.value == "u:" + r.value)
    ensures answer.None? || answer.value == "" ==> r.None?
    ensures answer.Some? && !StartsWith(answer.value, "dn:") && !StartsWith(answer.value, "u:") ==> r.None?
  {
    if answer.None? || answer.value == "" then None
    else if StartsWith(answer.value, "dn:") then Some(answer.value[3..])
    else if StartsWith(answer.value, "u:") then Some(answer.value[2..])
    else None
  }

  /** Both answer forms give back the identity they carry. */
  lemma WhoamiReadsBack(id: string)
    ensures ParseWhoami(Some("dn:" + id)) == Some(id)
    ensures ParseWhoami(Some("u:" + id)) == Some(id)
  {
    assert ("dn:" + id)[..3] == "dn:" && ("dn:" + id)[3..] == id;
    assert ("u:" + id)[..2] == "u:" && ("u:" + id)[2..] == id;
    assert !StartsWith("u:" + id, "dn:") by {
      assert ("u:" + id)[0] == 'u';
    }
  }

  /**
   * `whoami_short()`: None when anonymous; else the text between the first
   * and the second '=' of the first DN component, which is an IndexError
   * when that component has no '='.
   */
  function WhoamiShort(answer: Option<string>): (r: Result<Option<string>, PyError>)
    ensures ParseWhoami(answer).None? ==> r == Success(None)
    ensures r.Failure? ==> r.error == IndexError
  {
    match ParseWhoami(answer)
    case None => Success(None)
    case Some(dn) =>
      var parts := Split(Split(dn, ',')[0], '=');
      if |parts| < 2 then Failure(IndexError) else Success(Some(parts[1]))
  }

  /** For a DN `attr=value,rest` the short name is `value`, e.g. `admin` for `cn=admin,dc=acme,dc=org`. */
  lemma WhoamiShortOf(attr: string, value: string, rest: string)
    requires '=' !in attr && ',' !in attr && '=' !in value && ',' !in value
    ensures WhoamiShort(Some("dn:" + (attr + "=" + value + "," + rest))) == Success(Some(value))
  {
    var first := attr + "=" + value;
    var dn := attr + "=" + value + "," + rest;
    WhoamiReadsBack(dn);
    assert ',' !in first;
    assert dn == first + [','] + rest;
    SplitOnceAt(first, ',', rest);
    SplitFirst(dn, ',');
    assert Join([attr, value], "=") == first;
    SplitJoin([attr, value], '=');
  }

  /** A user who logged in with a bare name has that name as short name. */
  lemma ShortNameOfLogin(login: string, basedn: string)
    requires '=' !in login && '@' !in login && ',' !in login
    ensures WhoamiShort(Some("dn:" + FullyQualifyDn(login, basedn))) == Success(Some(login))
  {
    QualifiedShape(login, basedn);
    WhoamiShortOf("uid", login, "ou=people," + basedn);
  }

  // ---------------------------------------------------------------------------
  // Connections
  // ---------------------------------------------------------------------------

  /** What the directory replies to a search. */
  datatype Reply =
    | Found(entries: seq<(string, Entry)>)
    | ServerDown
    | Failed

  /** The transport: the reply a session gets for a search base and filter. */
  type Transport = (nat, string, string) -> Reply

  /** What `delete_s(dn)` does on a session: deletes the entry or raises. */
  datatype DeleteReply = Deleted | Raised(error: PyError)

  type Deleter = (nat, string) -> DeleteReply

  /** A bound connection: its base DN, the transport session it talks through and who it is bound as. */
  class LdapConnection {
    const basedn: string
    const session: nat
    const dn: Option<string>

    /**
     * `BaseConnection(logindn, password, basedn=...)` after the bind: the
     * base DN passed if any, else the class's; `dn` from the whoami answer.
     */
    constructor (basedn: Option<string>, classBasedn: string, session: nat, whoamiAnswer: Option<string>)
      ensures this.basedn == if basedn.Some? && basedn.value != "" then basedn.value else classBasedn
      ensures this.session == session && dn == ParseWhoami(whoamiAnswer)
    {
      this.basedn := if basedn.Some? && basedn.value != "" then basedn.value else classBasedn;
      this.session := session;
      dn := ParseWhoami(whoamiAnswer);
    }

    predicate IsAnonymous()
    {
      dn.None?
    }

    /** The search base used: the one passed, else the connection's own. */
    function SearchBase(base: Option<string>): (r: string)
      ensures base.None? ==> r == basedn
    {
      if base.Some? then base.value else basedn
    }

    /**
     * `search(basedn, filter)`. A reply other than server-down is returned
     * as it is. On server-down an authenticated connection re-raises; an
     * anonymous one retries once, on a fresh anonymous connection of the
     * class, and registers that connection only when the retry answers.
     * `attempts` counts the searches sent.
     */
    method Search(slot: ConnectionSlot, base: Option<string>, filter: string, transport: Transport, freshSession: nat)
      returns (r: Reply, attempts: nat)
      modifies slot
      ensures var first := transport(session, SearchBase(base), filter);
              && (!(first.ServerDown? && IsAnonymous()) ==> r == first && attempts == 1 && slot.conn == old(slot.conn))
              && (first.ServerDown? && IsAnonymous() ==>
                    r == transport(freshSession, SearchBase(base), filter) && attempts == 2
                    && (r.Found? ==> slot.conn.Some? && fresh(slot.conn.value) && slot.conn.value.IsAnonymous()
                                     && slot.conn.value.session == freshSession && slot.conn.value.basedn == slot.basedn)
                    && (!r.Found? ==> slot.conn == old(slot.conn)))
    {
      var b := SearchBase(base);
      r := transport(session, b, filter);
      attempts := 1;
      if r.ServerDown? && IsAnonymous() {
        var anon := slot.ConnectAnon(freshSession);
        r := transport(anon.session, b, filter);
        attempts := 2;
        if r.Found? {
          slot.SetConnection(anon);
        }
      }
    }

    /**
     * `delete(dn)`: True when the directory deleted the entry; False, not an
     * exception, when `delete_s` raises an `ldap.LDAPError`; any other
     * exception propagates.
     */
    method Delete(dn: string, directory: Deleter) returns (r: Result<bool, PyError>)
      ensures var reply := directory(session, dn);
              && (r == Success(true) <==> reply.Deleted?)
              && (r == Success(false) <==> reply.Raised? && IsLdapError(reply.error))
              && (r.Failure? <==> reply.Raised? && !IsLdapError(reply.error))
              && (r.Failure? ==> r.error == reply.error)
      ensures r.Failure? ==> !IsLdapError(r.error)
    {
      var reply := directory(session, dn);
      match reply
      case Deleted =>
        r := Success(true);
      case Raised(e) =>
        if IsLdapError(e) {
          r := Success(false);
        } else {
          r := Failure(e);
        }
    }
  }

  // ---------------------------------------------------------------------------
  // Writes: add, modify_attr, add_attr, delete_attr
  // ---------------------------------------------------------------------------

  /** What the directory answers an `add_s` or `modify_s` request with: success, or the `ldap.LDAPError` it raises. */
  datatype LdapOutcome = Done | NoSuchObject | TypeOrValueExists | NoSuchAttribute | Down | OtherLdapError

  /** The exception an outcome other than success raises when it is re-raised as it is. */
  function LdapErrorOf(o: LdapOutcome): (e: PyError)
    ensures IsLdapError(e)
    ensures o.Down? <==> e.ServerDown?
  {
    if o.Down? then PyError.ServerDown else DirectoryError
  }

  /**
   * `add(dn, attrs)`: True when the entry was added; NO_SUCH_OBJECT becomes
   * AddDNFailed for the DN; every other directory error escapes as it is.
   * It never returns False.
   */
  function AddReply(dn: string, o: LdapOutcome): (r: Result<bool, PyError>)
    ensures r.Success? <==> o.Done?
    ensures r.Success? ==> r.value
    ensures o.NoSuchObject? ==> r == Failure(Ldapper(AddDNFailed(dn)))
    ensures !o.Done? && !o.NoSuchObject? ==> r.Failure? && IsLdapError(r.error)
  {
    match o
    case Done => Success(true)
    case NoSuchObject => Failure(Ldapper(AddDNFailed(dn)))
    case _ => Failure(LdapErrorOf(o))
  }

  /**
   * `modify_attr(dn, attribute, value)` and `add_attr(dn, attribute, value)`:
   * True on success; NO_SUCH_OBJECT becomes NoSuchDN, TYPE_OR_VALUE_EXISTS
   * becomes DuplicateValue for the attribute and value (or the TypeError
   * its `set()` raises for a repeated list item); every other directory
   * error escapes. Neither returns False.
   */
  function ModifyReply(dn: string, attr: string, value: Value, o: LdapOutcome): (r: Result<bool, PyError>)
    ensures r.Success? <==> o.Done?
    ensures r.Success? ==> r.value
    ensures o.NoSuchObject? ==> r == Failure(Ldapper(NoSuchDN(dn)))
    ensures o.TypeOrValueExists? ==> r.Failure? && (r.error.Ldapper? <==> Offending(value).Success?)
    ensures o.TypeOrValueExists? && r.Failure? && r.error.Ldapper? ==>
              r.error.error.DuplicateValue? && r.error.error.attr == attr && r.error.error.originalValue == value
    ensures o.TypeOrValueExists? && r.Failure? && !r.error.Ldapper? ==> r.error == Unhashable
    ensures !o.Done? && !o.NoSuchObject? && !o.TypeOrValueExists? ==> r.Failure? && IsLdapError(r.error)
  {
    match o
    case Done => Success(true)
    case NoSuchObject => Failure(Ldapper(NoSuchDN(dn)))
    case TypeOrValueExists =>
      (match NewDuplicateValue(attr, value)
       case Success(e) => Failure(Ldapper(e))
       case Failure(e) => Failure(e))
    case _ => Failure(LdapErrorOf(o))
  }

  /**
   * `delete_attr(dn, attribute)`, whose value defaults to None: True on
   * success; NO_SUCH_OBJECT becomes NoSuchDN, NO_SUCH_ATTRIBUTE becomes
   * NoSuchAttrValue naming the value None; every other directory error
   * escapes. It never returns False.
   */
  function DeleteAttrReply(dn: string, attr: string, o: LdapOutcome): (r: Result<bool, PyError>)
    ensures r.Success? <==> o.Done?
    ensures r.Success? ==> r.value
    ensures o.NoSuchObject? ==> r == Failure(Ldapper(NoSuchDN(dn)))
    ensures o.NoSuchAttribute? ==> r == Failure(Ldapper(NoSuchAttrValue(dn, attr, "None")))
    ensures !o.Done? && !o.NoSuchObject? && !o.NoSuchAttribute? ==> r.Failure? && IsLdapError(r.error)
  {
    match o
    case Done => Success(true)
    case NoSuchObject => Failure(Ldapper(NoSuchDN(dn)))
    case NoSuchAttribute => Failure(Ldapper(NoSuchAttrValue(dn, attr, "None")))
    case _ => Failure(LdapErrorOf(o))
  }

  /** A connection class: its `BASE_DN` and the connection registered on it (`cls.conn`). */
  class ConnectionSlot {
    const basedn: string
    var conn: Option<LdapConnection>

    constructor (basedn: string)
      ensures this.basedn == basedn && conn.None?
    {
      this.basedn := basedn;
      conn := None;
    }

    /** `connect_anon()`: an anonymous connection under the class's base DN. */
    method ConnectAnon(session: nat) returns (c: LdapConnection)
      ensures fresh(c) && c.IsAnonymous() && c.session == session && c.basedn == basedn
    {
      c := new LdapConnection(None, basedn, session, None);
    }

    method SetConnection(c: LdapConnection)
      modifies this
      ensures conn == Some(c)
    {
      conn := Some(c);
    }

    /** `get_connection()`: the registered connection, registering a new anonymous one when there is none. */
    method GetConnection(freshSession: nat) returns (c: LdapConnection)
      modifies this
      ensures old(conn).Some? ==> c == old(conn).value && conn == old(conn)
      ensures old(conn).None? ==> fresh(c) && c.IsAnonymous() && c.session == freshSession && conn == Some(c)
    {
      if conn.Some? {
        return conn.value;
      }
      c := ConnectAnon(freshSession);
      SetConnection(c);
    }
  }

  /**
   * `BaseConnection(logindn, password, basedn=...)`: the DN it binds as and
   * the connection, or the error the login arguments raise before any bind.
   */
  method Open(slot: ConnectionSlot, login: Option<string>, password: Option<string>, basedn: Option<string>,
              session: nat, whoamiAnswer: Option<string>)
    returns (r: Result<(Option<string>, LdapConnection), PyError>)
    ensures r.Failure? <==> login.None? && password.Some?
    ensures r.Success? ==>
              && fresh(r.value.1) && r.value.1.session == session && r.value.1.dn == ParseWhoami(whoamiAnswer)
              && r.value.0 == BindDn(login, password, r.value.1.basedn).value
              && r.value.1.basedn == if basedn.Some? && basedn.value != "" then basedn.value else slot.basedn
  {
    var c := new LdapConnection(basedn, slot.basedn, session, whoamiAnswer);
    var bind := BindDn(login, password, c.basedn);
    if bind.Failure? {
      return Failure(bind.error);
    }
    r := Success((bind.value, c));
  }
}
