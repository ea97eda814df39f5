/**
 * The admin server actions of app/admin/actions.ts: the session-cookie
 * password check, login and logout, the folding of the `game_settings` rows
 * into a configuration map, and the coercion of a submitted setting value
 * before it is upserted.
 */
module Admin {
  import opened Wrappers
  import opened JsStrings
  import opened JsNumbers

  const SessionCookieName := "admin_session"
  /** Seconds the session cookie lives: 24 hours. */
  const SessionMaxAge := 60 * 60 * 24
  const UnauthorizedMessage := "No autorizado. Por favor recarga y logueate de nuevo."

  /** The `admin_session` cookie as `login` sets it. */
  datatype SessionCookie = SessionCookie(value: string, httpOnly: bool, secure: bool, maxAge: nat)

  function CookieValue(cookie: Option<SessionCookie>): Option<string> {
    match cookie
    case None => None
    case Some(c) => Some(c.value)
  }

  /**
   * `authCookie?.value === process.env.ADMIN_PASSWORD`, with `None` for a
   * missing cookie and for an unset variable; `undefined === undefined` holds.
   */
  predicate CheckAuth(cookie: Option<string>, adminPassword: Option<string>) {
    cookie == adminPassword
  }

  /** With the password set, only a cookie carrying exactly that password authenticates. */
  lemma CheckAuthWithPassword(cookie: Option<string>, password: string)
    ensures CheckAuth(cookie, Some(password)) <==> cookie.Some? && cookie.value == password
  {
  }

  /** With ADMIN_PASSWORD unset, a request without the cookie is authenticated and one with any cookie is not. */
  lemma UnsetPasswordAdmitsNoCookie(cookie: Option<string>)
    ensures CheckAuth(cookie, None) <==> cookie.None?
  {
  }

  /** The check as evidently intended: an unset password authenticates nobody. */
  predicate CheckAuthRequiringPassword(cookie: Option<string>, adminPassword: Option<string>) {
    adminPassword.Some? && cookie == adminPassword
  }

  /**
   * The intended check rejects every request when the password is unset,
   * and agrees with the check as written whenever it is set.
   */
  lemma RequiringPasswordClosesUnsetCase(cookie: Option<string>, adminPassword: Option<string>)
    ensures adminPassword.None? ==> !CheckAuthRequiringPassword(cookie, adminPassword)
    ensures adminPassword.Some? ==> (CheckAuthRequiringPassword(cookie, adminPassword) <==> CheckAuth(cookie, adminPassword))
    ensures CheckAuthRequiringPassword(cookie, adminPassword) <==> cookie.Some? && cookie == adminPassword
  {
  }

  /** A JSON value a setting can be coerced to. */
  datatype JsonValue = JNumber(n: real) | JBool(b: bool) | JString(s: string)

  /** `!isNaN(Number(trimmed)) && trimmed !== ''`. */
  predicate IsNumeric(trimmed: string) {
    Number(trimmed).Some? && trimmed != ""
  }

  /**
   * `Number("")` is 0, so without the `trimmed !== ''` guard a blank value
   * would be stored as the number 0; with it, the numeric strings are
   * exactly the decimal literals.
   */
  lemma EmptyGuardExcludesZero(trimmed: string)
    ensures Number("") == Some(0.0) && !IsNumeric("")
    ensures IsNumeric(trimmed) <==> IsDecimalLiteral(trimmed)
  {
  }

  /**
   * The value `updateSetting` stores for a trimmed input: a number when
   * numeric, else a boolean for "true"/"false" in any letter case, else the
   * text itself.
   */
  function Coerce(trimmed: string): (v: JsonValue)
    ensures v.JNumber? <==> IsNumeric(trimmed)
    ensures v.JNumber? ==> Some(v.n) == Number(trimmed)
    ensures v == JBool(true) <==> !IsNumeric(trimmed) && EqualsIgnoringAsciiCase(trimmed, "true")
    ensures v == JBool(false) <==> !IsNumeric(trimmed) && EqualsIgnoringAsciiCase(trimmed, "false")
    ensures v.JString? <==> !IsNumeric(trimmed) && !EqualsIgnoringAsciiCase(trimmed, "true") && !EqualsIgnoringAsciiCase(trimmed, "false")
    ensures v.JString? ==> v.s == trimmed
  {
    if IsNumeric(trimmed) then JNumber(Number(trimmed).value)
    else if EqualsIgnoringAsciiCase(trimmed, "true") then JBool(true)
    else if EqualsIgnoringAsciiCase(trimmed, "false") then JBool(false)
    else JString(trimmed)
  }

  /** A blank submission is stored as the empty string, not as a number. */
  lemma BlankBecomesEmptyString(newValue: string)
    requires AllWhitespace(newValue)
    ensures Coerce(Trim(newValue)) == JString("")
  {
    TrimStartSpec(newValue);
    assert TrimStart(newValue) == "";
  }

  /** Whitespace around a submission, however much on each side, changes nothing about the value stored. */
  lemma PaddingIgnored(newValue: string, pre: string, post: string)
    requires AllWhitespace(pre) && AllWhitespace(post)
    ensures Trim(pre + newValue + post) == Trim(newValue)
    ensures Coerce(Trim(pre + newValue + post)) == Coerce(Trim(newValue))
  {
    TrimStartPrefix(pre, newValue + post);
    assert pre + newValue + post == pre + (newValue + post);
    TrimStartSuffix(newValue, post);
  }

  lemma {:induction false} TrimStartPrefix(pad: string, s: string)
    requires AllWhitespace(pad)
    ensures TrimStart(pad + s) == TrimStart(s)
    decreases |pad|
  {
    if pad != [] {
      assert (pad + s)[1..] == pad[1..] + s;
      TrimStartPrefix(pad[1..], s);
    } else {
      assert pad + s == s;
    }
  }

  lemma {:induction false} TrimEndSuffix(s: string, pad: string)
    requires AllWhitespace(pad)
    ensures TrimEnd(s + pad) == TrimEnd(s)
    decreases |pad|
  {
    if pad != [] {
      var last := |pad| - 1;
      assert (s + pad)[..|s + pad| - 1] == s + pad[..last];
      TrimEndSuffix(s, pad[..last]);
    } else {
      assert s + pad == s;
    }
  }

  /** Trailing whitespace makes no difference once both ends are trimmed. */
  lemma {:induction false} TrimStartSuffix(s: string, pad: string)
    requires AllWhitespace(pad)
    ensures TrimEnd(TrimStart(s + pad)) == TrimEnd(TrimStart(s))
    decreases |s|
  {
    if s == [] {
      assert s + pad == pad;
      TrimStartPrefix(pad, "");
      assert pad + "" == pad;
    } else if IsWhitespace(s[0]) {
      assert (s + pad)[1..] == s[1..] + pad;
      TrimStartSuffix(s[1..], pad);
    } else {
      TrimEndSuffix(s, pad);
    }
  }

  /** A row of `SELECT key, value FROM game_settings`. */
  datatype SettingRow = SettingRow(key: string, value: JsonValue)

  /** The map the `forEach` over the rows builds: each row writes its key in turn. */
  function ConfigOf(rows: seq<SettingRow>): map<string, JsonValue> {
    if rows == [] then map[]
    else ConfigOf(rows[..|rows| - 1])[rows[|rows| - 1].key := rows[|rows| - 1].value]
  }

  /** Every row's key is in the map. */
  lemma {:induction false} RowKeyInConfig(rows: seq<SettingRow>, i: nat)
    requires i < |rows|
    ensures rows[i].key in ConfigOf(rows)
    decreases |rows|
  {
    var front := rows[..|rows| - 1];
    if i < |rows| - 1 {
      assert front[i] == rows[i];
      RowKeyInConfig(front, i);
    }
  }

  /** Every key of the map comes from some row. */
  lemma {:induction false} ConfigKeyFromRow(rows: seq<SettingRow>, k: string)
    requires k in ConfigOf(rows)
    ensures exists i :: 0 <= i < |rows| && rows[i].key == k
    decreases |rows|
  {
    var front := rows[..|rows| - 1];
    if rows[|rows| - 1].key != k {
      ConfigKeyFromRow(front, k);
      var i :| 0 <= i < |front| && front[i].key == k;
      assert rows[i].key == k;
    }
  }

  /** A key holds the value of the last row that has it. */
  lemma {:induction false} LastRowWins(rows: seq<SettingRow>, i: nat)
    requires i < |rows|
    requires forall j :: i < j < |rows| ==> rows[j].key != rows[i].key
    ensures rows[i].key in ConfigOf(rows) && ConfigOf(rows)[rows[i].key] == rows[i].value
    decreases |rows|
  {
    RowKeyInConfig(rows, i);
    var front := rows[..|rows| - 1];
    if i < |rows| - 1 {
      assert front[i] == rows[i];
      assert rows[|rows| - 1].key != rows[i].key;
      LastRowWins(front, i);
    }
  }

  /** With one row per key, as the table's primary key guarantees, the map holds exactly the rows. */
  lemma UniqueKeysConfig(rows: seq<SettingRow>, i: nat)
    requires forall a, b :: 0 <= a < b < |rows| ==> rows[a].key != rows[b].key
    requires i < |rows|
    ensures rows[i].key in ConfigOf(rows) && ConfigOf(rows)[rows[i].key] == rows[i].value
  {
    LastRowWins(rows, i);
  }

  /** The statistics and configuration `getDashboardData` returns. */
  datatype Dashboard = Dashboard(users: nat, claims: nat, codes: nat, config: map<string, JsonValue>)

  /** The server actions as seen from one admin browser, against the settings table. */
  class AdminServer {
    /** `process.env.ADMIN_PASSWORD`; `None` when unset. */
    const adminPassword: Option<string>
    /** `process.env.NODE_ENV === 'production'`. */
    const production: bool
    /** The browser's `admin_session` cookie. */
    var session: Option<SessionCookie>
    /** The `game_settings` table: key to stored value. */
    var settings: map<string, JsonValue>
    /** Database connections and queries made so far. */
    var databaseUses: nat

    constructor (adminPassword: Option<string>, production: bool, settings: map<string, JsonValue>)
      ensures this.adminPassword == adminPassword && this.production == production
      ensures this.settings == settings && session == None && databaseUses == 0
    {
      this.adminPassword, this.production := adminPassword, production;
      this.settings := settings;
      session, databaseUses := None, 0;
    }

    predicate Authenticated()
      reads this
    {
      CheckAuth(CookieValue(session), adminPassword)
    }

    /** `login(password)`: on a match the session cookie is set for a day, otherwise nothing changes. */
    method Login(password: string) returns (ok: bool)
      modifies this
      ensures ok <==> adminPassword == Some(password)
      ensures ok ==> session == Some(SessionCookie(password, true, production, SessionMaxAge)) && Authenticated()
      ensures !ok ==> session == old(session)
      ensures settings == old(settings) && databaseUses == old(databaseUses)
    {
      if adminPassword == Some(password) {
        session := Some(SessionCookie(password, true, production, SessionMaxAge));
        return true;
      }
      return false;
    }

    /** `logout()`: the cookie is deleted. */
    method Logout()
      modifies this
      ensures session == None
      ensures Authenticated() <==> adminPassword.None?
      ensures settings == old(settings) && databaseUses == old(databaseUses)
    {
      session := None;
    }

    /**
     * `getDashboardData`, given what the count queries and the settings
     * query return: `None` without touching the database when not
     * authenticated, otherwise the counts and the folded configuration.
     */
    method GetDashboardData(users: nat, claims: nat, codes: nat, rows: seq<SettingRow>) returns (r: Option<Dashboard>)
      modifies this
      ensures r.None? <==> !old(Authenticated())
      ensures r.None? ==> databaseUses == old(databaseUses)
      ensures r.Some? ==> r.value == Dashboard(users, claims, codes, ConfigOf(rows))
      ensures session == old(session) && settings == old(settings)
    {
      if !Authenticated() {
        return None;
      }
      databaseUses := databaseUses + 1;
      var config := BuildConfigMap(rows);
      r := Some(Dashboard(users, claims, codes, config));
    }

    /**
     * `updateSetting(key, newValue)`: rejected before any write when not
     * authenticated; otherwise the trimmed value, coerced, is upserted.
     */
    method UpdateSetting(key: string, newValue: string) returns (r: Result<bool, string>)
      modifies this
      ensures r.Err? <==> !old(Authenticated())
      ensures r.Err? ==> r.error == UnauthorizedMessage && settings == old(settings) && databaseUses == old(databaseUses)
      ensures r.Ok? ==> r.value && settings == old(settings)[key := Coerce(Trim(newValue))]
      ensures session == old(session)
    {
      if !Authenticated() {
        return Err(UnauthorizedMessage);
      }
      var trimmed := Trim(newValue);
      var valueToStore := JString(trimmed);
      if IsNumeric(trimmed) {
        valueToStore := JNumber(Number(trimmed).value);
      } else if EqualsIgnoringAsciiCase(trimmed, "true") {
        valueToStore := JBool(true);
      } else if EqualsIgnoringAsciiCase(trimmed, "false") {
        valueToStore := JBool(false);
      }
      assert valueToStore == Coerce(trimmed);
      databaseUses := databaseUses + 1;
      settings := settings[key := valueToStore];
      return Ok(true);
    }
  }

  /** The `forEach` loop writing each row into the map. */
  method BuildConfigMap(rows: seq<SettingRow>) returns (config: map<string, JsonValue>)
    ensures config == ConfigOf(rows)
  {
    config := map[];
    var i := 0;
    while i < |rows|
      invariant 0 <= i <= |rows|
      invariant config == ConfigOf(rows[..i])
    {
      assert rows[..i + 1][..i] == rows[..i];
      config := config[rows[i].key := rows[i].value];
      i := i + 1;
    }
    assert rows[..i] == rows;
  }

  /**
   * With ADMIN_PASSWORD unset, a browser that never logged in passes the
   * check as written and its update is stored.
   */
  method UnsetPasswordOpensUpdates(key: string, newValue: string, settings: map<string, JsonValue>)
    returns (r: Result<bool, string>, stored: map<string, JsonValue>)
    ensures r == Ok(true) && stored == settings[key := Coerce(Trim(newValue))]
  {
    var server := new AdminServer(None, true, settings);
    r := server.UpdateSetting(key, newValue);
    stored := server.settings;
  }
}
