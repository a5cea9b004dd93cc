/**
 * The database helpers: how getDb turns DATABASE_URL into a connection
 * (with the SSL option decided from the `ssl` query parameter) and keeps it
 * in a process-wide slot, and how upsertUser assembles the inserted values
 * and the on-duplicate update set of a user.
 *
 * The URL parser, decodeURIComponent and JSON.parse are function
 * parameters (decodeURIComponent yields None where it throws a URIError); the drizzle/mysql2 connection is the configuration it is
 * created from.  A Date is its millisecond timestamp.
 */
module Db {
  import opened Wrappers
  import opened Strings
  import opened Json

  // ---------------------------------------------------------------------------
  // getDb
  // ---------------------------------------------------------------------------

  /** A URL port: decimal digits, or empty when the URL names none (or the scheme's default). */
  type PortString = s: string | forall i :: 0 <= i < |s| ==> IsDigit(s[i])

  /** What the URL parser yields for the rewritten DATABASE_URL; query parameters decoded, in order. */
  datatype Url = Url(
    hostname: string, port: PortString, username: string, password: string,
    pathname: string, searchParams: seq<(string, string)>)

  /** `{ rejectUnauthorized: true }`. */
  const SecureSsl := JObj([("rejectUnauthorized", JBool(true))])

  /**
   * The `ssl` option from the `ssl` query parameter.  A parameter that
   * parses to an object (or array) is used as it is; parsed `true` is the
   * secure default and parsed `false` disables SSL; any other parsed value
   * keeps the secure default.  Text that does not parse is `true`, `false`
   * or anything else, with the same outcomes.
   */
  function SslOption(sslParam: string, parse: string -> Result<Json, string>): (ssl: Json)
    ensures parse(sslParam).Ok? && (parse(sslParam).value.JObj? || parse(sslParam).value.JArr?) ==> ssl == parse(sslParam).value
    ensures parse(sslParam) == Ok(JBool(true)) ==> ssl == SecureSsl
    ensures parse(sslParam).Ok? && (parse(sslParam).value.JNum? || parse(sslParam).value.JNull? || parse(sslParam).value.JStr?) ==>
      ssl == SecureSsl
    ensures ssl == JBool(false) <==> parse(sslParam) == Ok(JBool(false)) || (parse(sslParam).Err? && sslParam == "false")
    ensures parse(sslParam).Err? && sslParam != "false" ==> ssl == SecureSsl
    ensures ssl == SecureSsl || ssl == JBool(false) || ssl.JObj? || ssl.JArr?
  {
    match parse(sslParam)
    case Ok(parsed) =>
      if parsed.JObj? || parsed.JArr? then parsed
      else if parsed == JBool(true) then SecureSsl
      else if parsed == JBool(false) then JBool(false)
      else SecureSsl
    case Err(_) =>
      if sslParam == "true" then SecureSsl
      else if sslParam == "false" then JBool(false)
      else SecureSsl
  }

  /** SSL is off only when it is asked off: every option other than `false` is a configuration object. */
  lemma SslSecureUnlessDisabled(sslParam: string, parse: string -> Result<Json, string>)
    requires parse(sslParam) != Ok(JBool(false)) && sslParam != "false"
    ensures SslOption(sslParam, parse) != JBool(false)
  {
  }

  const DefaultPort := 3306

  /** `url.pathname.slice(1)`: the path without its leading character. */
  function DatabaseName(pathname: string): (name: string)
    ensures |pathname| >= 1 ==> pathname == [pathname[0]] + name
    ensures pathname == [] ==> name == []
  {
    if |pathname| >= 1 then pathname[1..] else []
  }

  /**
   * The connection configuration before the query parameters are copied in;
   * `user` and `password` are the URL's user name and password decoded.
   */
  function BaseConfig(url: Url, ssl: Json, user: string, password: string): seq<(string, Json)>
  {
    [ ("host", JStr(url.hostname)),
      ("port", JNum(if url.port != "" then DigitsValue(url.port) else DefaultPort)),
      ("user", JStr(user)),
      ("password", JStr(password)),
      ("database", JStr(DatabaseName(url.pathname))),
      ("ssl", ssl) ]
  }

  /** `config[key] = value` for every query parameter but `ssl`, in order, on a plain object. */
  function WithParams(config: seq<(string, Json)>, params: seq<(string, string)>): seq<(string, Json)>
  {
    if params == [] then config
    else
      var last := params[|params| - 1];
      var before := WithParams(config, params[..|params| - 1]);
      if last.0 != "ssl" then AssignKey(before, last.0, JStr(last.1)) else before
  }

  /** The value of the last parameter named `key`, if any. */
  function LastParam(params: seq<(string, string)>, key: string): (r: Option<string>)
    ensures r.Some? ==> (key, r.value) in params
    ensures r.None? ==> forall p :: p in params ==> p.0 != key
  {
    if params == [] then None
    else if params[|params| - 1].0 == key then Some(params[|params| - 1].1)
    else
      var r := LastParam(params[..|params| - 1], key);
      assert forall p :: p in params ==> p in params[..|params| - 1] || p == params[|params| - 1];
      r
  }

  /**
   * After the copy, a parameter name other than `ssl` and `__proto__` reads
   * the value of its last occurrence, also when it overrides host, port,
   * user, password or database; every other key, `ssl` and `__proto__`
   * included, reads what it read before.
   */
  lemma {:induction false} WithParamsValues(config: seq<(string, Json)>, params: seq<(string, string)>, k: string)
    ensures Get(WithParams(config, params), k)
      == if k != "ssl" && k != ProtoKey && LastParam(params, k).Some? then Some(JStr(LastParam(params, k).value)) else Get(config, k)
  {
    if params != [] {
      var last := params[|params| - 1];
      var init := params[..|params| - 1];
      WithParamsValues(config, init, k);
      if last.0 != "ssl" {
        GetAssignKey(WithParams(config, init), last.0, JStr(last.1), k);
      }
    }
  }

  /** A `__proto__` query parameter creates no option: the configuration never has that key. */
  lemma ProtoParamNotCopied(url: Url, ssl: Json, user: string, password: string)
    ensures ProtoKey !in Keys(WithParams(BaseConfig(url, ssl, user, password), url.searchParams))
  {
    WithParamsValues(BaseConfig(url, ssl, user, password), url.searchParams, ProtoKey);
  }

  /** The manual configuration of getDb: the base options, then the query parameters (forEach). */
  method ConnectionConfig(url: Url, ssl: Json, user: string, password: string) returns (config: seq<(string, Json)>)
    ensures config == WithParams(BaseConfig(url, ssl, user, password), url.searchParams)
  {
    config := BaseConfig(url, ssl, user, password);
    var params := url.searchParams;
    var i := 0;
    while i < |params|
      invariant 0 <= i <= |params|
      invariant config == WithParams(BaseConfig(url, ssl, user, password), params[..i])
    {
      assert params[..i + 1][..i] == params[..i];
      var (key, value) := params[i];
      if key != "ssl" {
        config := AssignKey(config, key, JStr(value));
      }
      i := i + 1;
    }
    assert params[..|params|] == params;
  }

  /** `url.searchParams.get("ssl")`: the first `ssl` parameter. */
  function FirstParam(params: seq<(string, string)>, key: string): (r: Option<string>)
    ensures r.Some? ==> exists i :: 0 <= i < |params| && params[i] == (key, r.value)
                                    && forall j :: 0 <= j < i ==> params[j].0 != key
    ensures r.None? ==> forall p :: p in params ==> p.0 != key
  {
    if params == [] then None
    else if params[0].0 == key then
      assert params[0] == (key, params[0].1);
      Some(params[0].1)
    else
      var r := FirstParam(params[1..], key);
      assert forall p :: p in params ==> p == params[0] || p in params[1..];
      if r.Some? then
        var i :| 0 <= i < |params[1..]| && params[1..][i] == (key, r.value)
                 && forall j :: 0 <= j < i ==> params[1..][j].0 != key;
        assert params[i + 1] == (key, r.value);
        assert forall j :: 0 <= j < i + 1 ==> params[j].0 != key by {
          forall j | 0 <= j < i + 1 ensures params[j].0 != key {
            if j > 0 { assert params[j] == params[1..][j - 1]; }
          }
        }
        r
      else r
  }

  /** `s.replace(pat, v)` with a string pattern: the first occurrence only. */
  function ReplaceFirst(s: string, pat: string, v: string): (r: string)
    ensures (forall i: nat :: !OccursAt(s, pat, i)) ==> r == s
    ensures (exists i: nat :: OccursAt(s, pat, i)) ==>
      exists i: nat :: OccursAt(s, pat, i) && (forall j: nat :: j < i ==> !OccursAt(s, pat, j))
                       && r == s[..i] + v + s[i + |pat|..]
  {
    match FindFrom(s, pat, 0)
    case None => s
    case Some(i) => s[..i] + v + s[i + |pat|..]
  }

  /** A connection: from the URL as it is, or a pool created from a configuration. */
  datatype Connection = FromUrl(url: string) | Pool(config: seq<(string, Json)>)

  /** The process-wide connection slot of getDb. */
  class Database {
    var db: Option<Connection>

    constructor ()
      ensures db.None?
    {
      db := None;
    }

    /**
     * getDb: a connection once made is reused.  Otherwise, with a non-empty
     * DATABASE_URL: a URL that does not parse leaves no connection; without
     * a (non-empty) `ssl` parameter the URL is used as it is; with one, a
     * pool is configured with the decided SSL option, the decoded user name
     * and password and the other parameters, unless decoding either of them
     * fails, which the catch turns into no connection.
     */
    method GetDb(databaseUrl: string, parseUrl: string -> Option<Url>, parse: string -> Result<Json, string>,
                 decode: string -> Option<string>) returns (r: Option<Connection>)
      modifies this
      ensures r == db
      ensures old(db).Some? || databaseUrl == "" ==> db == old(db)
      ensures old(db).None? && databaseUrl != "" ==>
        var url := parseUrl(ReplaceFirst(databaseUrl, "mysql://", "http://"));
        && (url.None? ==> db.None?)
        && ((url.Some? && (FirstParam(url.value.searchParams, "ssl").None? || FirstParam(url.value.searchParams, "ssl") == Some("")))
             ==> db == Some(FromUrl(databaseUrl)))
        && ((url.Some? && FirstParam(url.value.searchParams, "ssl").Some? && FirstParam(url.value.searchParams, "ssl") != Some(""))
             ==> var user := decode(url.value.username);
                 var password := decode(url.value.password);
                 && (user.None? || password.None? ==> db.None?)
                 && (user.Some? && password.Some? ==>
                       db == Some(Pool(WithParams(BaseConfig(url.value, SslOption(FirstParam(url.value.searchParams, "ssl").value, parse),
                                                             user.value, password.value),
                                                  url.value.searchParams)))))
    {
      if db.None? && databaseUrl != "" {
        var url := parseUrl(ReplaceFirst(databaseUrl, "mysql://", "http://"));
        if url.None? {
          db := None;
        } else {
          var sslParam := FirstParam(url.value.searchParams, "ssl");
          if sslParam.Some? && sslParam.value != "" {
            var sslConfig := SslOption(sslParam.value, parse);
            var user := decode(url.value.username);
            var password := decode(url.value.password);
            if user.None? || password.None? {
              db := None;
            } else {
              var config := ConnectionConfig(url.value, sslConfig, user.value, password.value);
              db := Some(Pool(config));
            }
          } else {
            db := Some(FromUrl(databaseUrl));
          }
        }
      }
      return db;
    }
  }

  /** The base configuration names each option once. */
  lemma BaseConfigUnique(url: Url, ssl: Json, user: string, password: string)
    ensures UniqueKeys(BaseConfig(url, ssl, user, password))
  {
    var base := BaseConfig(url, ssl, user, password);
    forall i, j | 0 <= i < j < |base| ensures base[i].0 != base[j].0 {
      assert |base[i].0| != |base[j].0| || base[i].0[0] != base[j].0[0];
    }
  }

  /**
   * A pool's configuration carries the decided SSL option whatever the
   * other parameters are, and the port and database of the URL unless a
   * parameter overrides them.
   */
  lemma PoolConfig(url: Url, ssl: Json, user: string, password: string)
    ensures var config := WithParams(BaseConfig(url, ssl, user, password), url.searchParams);
      && Get(config, "ssl") == Some(ssl)
      && (LastParam(url.searchParams, "port").None? ==>
            Get(config, "port") == Some(JNum(if url.port == "" then DefaultPort else DigitsValue(url.port))))
      && (LastParam(url.searchParams, "database").None? ==>
            Get(config, "database") == Some(JStr(DatabaseName(url.pathname))))
  {
    var base := BaseConfig(url, ssl, user, password);
    BaseConfigUnique(url, ssl, user, password);
    GetUniqueEntry(base, 1);
    GetUniqueEntry(base, 4);
    GetUniqueEntry(base, 5);
    WithParamsValues(base, url.searchParams, "ssl");
    WithParamsValues(base, url.searchParams, "port");
    WithParamsValues(base, url.searchParams, "database");
  }

  // ---------------------------------------------------------------------------
  // upsertUser
  // ---------------------------------------------------------------------------

  /** An optional, nullable text column of the input: not given, given as null, or given. */
  datatype TextInput = Unset | SetNull | SetText(text: string)

  datatype Role = UserRole | AdminRole

  function RoleName(r: Role): string
  {
    match r
    case UserRole => "user"
    case AdminRole => "admin"
  }

  /** The user upsertUser is called with. */
  datatype InsertUser = InsertUser(
    openId: string, name: TextInput, email: TextInput, loginMethod: TextInput,
    lastSignedIn: Option<int>, role: Option<Role>)

  const OpenIdRequired := "User openId is required for upsert"

  const TextFields: seq<string> := ["name", "email", "loginMethod"]

  function TextField(user: InsertUser, i: nat): TextInput
    requires i < |TextFields|
  {
    if i == 0 then user.name else if i == 1 then user.email else user.loginMethod
  }

  /** What a text column contributes: nothing when not given, otherwise its value with null kept. */
  function Assigned(t: TextInput): Option<Json>
  {
    match t
    case Unset => None
    case SetNull => Some(JNull)
    case SetText(s) => Some(JStr(s))
  }

  /** The role written: the explicit one, else admin for the owner, else none. */
  function RoleWritten(user: InsertUser, ownerOpenId: string): Option<Json>
  {
    if user.role.Some? then Some(JStr(RoleName(user.role.value)))
    else if user.openId == ownerOpenId then Some(JStr("admin"))
    else None
  }

  /** Whether anything but the fallback goes into the update set. */
  predicate UpdatesSomething(user: InsertUser, ownerOpenId: string)
  {
    user.name != Unset || user.email != Unset || user.loginMethod != Unset
    || user.lastSignedIn.Some? || RoleWritten(user, ownerOpenId).Some?
  }

  /** A record under construction; the order of its columns does not matter to the insert. */
  type Record = map<string, Json>

  /** The column `k` of a record, if set. */
  function At(m: Record, k: string): (r: Option<Json>)
    ensures r.Some? <==> k in m
  {
    if k in m then Some(m[k]) else None
  }

  /** The insert of an upsert: the inserted values and the columns updated on a duplicate openId. */
  datatype Upsert = Upsert(values: Record, updateSet: Record)

  /** `values[field] = v; updateSet[field] = v` when `v` is given. */
  function AssignBoth(records: (Record, Record), field: string, v: Option<Json>): (r: (Record, Record))
    ensures forall k :: k != field ==> At(r.0, k) == At(records.0, k) && At(r.1, k) == At(records.1, k)
    ensures At(r.0, field) == (if v.Some? then v else At(records.0, field))
    ensures At(r.1, field) == (if v.Some? then v else At(records.1, field))
    ensures r.1 == map[] <==> records.1 == map[] && v.None?
  {
    if v.None? then records
    else
      assert field in records.1[field := v.value];
      (records.0[field := v.value], records.1[field := v.value])
  }

  /** `textFields.forEach(assignNullable)`: each given text column goes into both records, null kept as null. */
  method AssignTextFields(user: InsertUser) returns (values: Record, updateSet: Record)
    ensures At(values, "openId") == Some(JStr(user.openId)) && At(updateSet, "openId").None?
    ensures At(values, "name") == Assigned(user.name) && At(updateSet, "name") == Assigned(user.name)
    ensures At(values, "email") == Assigned(user.email) && At(updateSet, "email") == Assigned(user.email)
    ensures At(values, "loginMethod") == Assigned(user.loginMethod) && At(updateSet, "loginMethod") == Assigned(user.loginMethod)
    ensures At(values, "role").None? && At(updateSet, "role").None?
    ensures At(values, "lastSignedIn").None? && At(updateSet, "lastSignedIn").None?
    ensures updateSet == map[] <==> user.name == Unset && user.email == Unset && user.loginMethod == Unset
  {
    values := map["openId" := JStr(user.openId)];
    updateSet := map[];
    var i := 0;
    while i < |TextFields|
      invariant 0 <= i <= |TextFields|
      invariant At(values, "openId") == Some(JStr(user.openId)) && At(updateSet, "openId").None?
      invariant forall j :: 0 <= j < i ==>
        At(values, TextFields[j]) == Assigned(TextField(user, j)) && At(updateSet, TextFields[j]) == Assigned(TextField(user, j))
      invariant forall j :: i <= j < |TextFields| ==> At(values, TextFields[j]).None? && At(updateSet, TextFields[j]).None?
      invariant At(values, "role").None? && At(updateSet, "role").None?
      invariant At(values, "lastSignedIn").None? && At(updateSet, "lastSignedIn").None?
      invariant updateSet == map[] <==> forall j :: 0 <= j < i ==> TextField(user, j) == Unset
    {
      var records := AssignBoth((values, updateSet), TextFields[i], Assigned(TextField(user, i)));
      values, updateSet := records.0, records.1;
      i := i + 1;
    }
    assert TextFields[0] == "name" && TextFields[1] == "email" && TextFields[2] == "loginMethod";
  }

  /**
   * upsertUser up to the database call.  An empty openId throws; without a
   * database nothing happens.  Otherwise each given text column goes into
   * both records (null stays null, a column not given is skipped), so does
   * a given sign-in time and the role (explicit, or admin for the owner);
   * the inserted sign-in time defaults to now, and an update set that would
   * be empty updates the sign-in time to now.
   */
  method UpsertUser(user: InsertUser, ownerOpenId: string, dbAvailable: bool, now: int)
    returns (r: Result<Option<Upsert>, string>)
    ensures user.openId == "" <==> r == Err(OpenIdRequired)
    ensures user.openId != "" && !dbAvailable ==> r == Ok(None)
    ensures user.openId != "" && dbAvailable ==> r.Ok? && r.value.Some?
    ensures r.Ok? && r.value.Some? ==>
      var u := r.value.value;
      && At(u.values, "openId") == Some(JStr(user.openId))
      && At(u.updateSet, "openId").None?
      && At(u.values, "name") == Assigned(user.name) && At(u.updateSet, "name") == Assigned(user.name)
      && At(u.values, "email") == Assigned(user.email) && At(u.updateSet, "email") == Assigned(user.email)
      && At(u.values, "loginMethod") == Assigned(user.loginMethod) && At(u.updateSet, "loginMethod") == Assigned(user.loginMethod)
      && At(u.values, "role") == RoleWritten(user, ownerOpenId)
      && At(u.updateSet, "role") == RoleWritten(user, ownerOpenId)
      && At(u.values, "lastSignedIn") == Some(JNum(if user.lastSignedIn.Some? then user.lastSignedIn.value else now))
      && u.updateSet != map[]
      && At(u.updateSet, "lastSignedIn")
           == (if user.lastSignedIn.Some? then Some(JNum(user.lastSignedIn.value))
               else if UpdatesSomething(user, ownerOpenId) then None
               else Some(JNum(now)))
  {
    if user.openId == "" {
      return Err(OpenIdRequired);
    }
    if !dbAvailable {
      return Ok(None);
    }
    var values, updateSet := AssignTextFields(user);
    var signedIn := if user.lastSignedIn.Some? then Some(JNum(user.lastSignedIn.value)) else None;
    var records := AssignBoth((values, updateSet), "lastSignedIn", signedIn);
    records := AssignBoth(records, "role", RoleWritten(user, ownerOpenId));
    values, updateSet := records.0, records.1;
    if "lastSignedIn" !in values {
      values := values["lastSignedIn" := JNum(now)];
    }
    if updateSet == map[] {
      updateSet := updateSet["lastSignedIn" := JNum(now)];
    }
    return Ok(Some(Upsert(values, updateSet)));
  }
}
