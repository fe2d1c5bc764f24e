/** DatabaseEngine/UsersRepo.go: the accounts.users table, keyed by user_id with a unique email. */
module Accounts {
  import opened Wrappers
  import opened Decimal

  datatype Account = Account(
    userId: int64,
    email: string,
    password: string,
    firstName: string,
    middleName: Option<string>,
    lastName: Option<string>,
    countryCode: Option<string>,
    username: Option<string>,
    isVerified: bool)

  /** The rows by primary key, and the UNIQUE constraint on email as an index into them. */
  datatype Table = Table(rows: map<int64, Account>, byEmail: map<string, int64>)

  ghost predicate Consistent(t: Table) {
    && (forall u :: u in t.rows ==> t.rows[u].userId == u)
    && (forall u :: u in t.rows ==> t.rows[u].email in t.byEmail && t.byEmail[t.rows[u].email] == u)
    && (forall e :: e in t.byEmail ==> t.byEmail[e] in t.rows && t.rows[t.byEmail[e]].email == e)
  }

  function ById(t: Table, id: int64): Option<Account> {
    if id in t.rows then Some(t.rows[id]) else None
  }

  function ByEmail(t: Table, email: string): Option<Account> {
    if email in t.byEmail then ById(t, t.byEmail[email]) else None
  }

  /** UPDATE ... SET password = $1 WHERE email = $2: no row, no change. */
  function SetPassword(t: Table, email: string, password: string): Table {
    match ByEmail(t, email)
    case None => t
    case Some(a) => t.(rows := t.rows[t.byEmail[email] := a.(password := password)])
  }

  /** UPDATE ... SET is_verified = 1 WHERE email = $1. */
  function SetVerified(t: Table, email: string): Table {
    match ByEmail(t, email)
    case None => t
    case Some(a) => t.(rows := t.rows[t.byEmail[email] := a.(isVerified := true)])
  }

  datatype Registration = Registration(
    email: string, password: string, firstName: string, lastName: string, countryCode: string, username: string)

  predicate Complete(r: Registration) {
    && r.email != "" && r.username != "" && r.countryCode != ""
    && r.firstName != "" && r.lastName != "" && r.password != ""
  }

  /** RegisterAccount: refused when a field is blank or too long, or a key is taken. */
  function Insert(t: Table, id: int64, r: Registration, rowFits: Registration -> bool): Option<Table> {
    if !Complete(r) || !rowFits(r) || id in t.rows || r.email in t.byEmail then None
    else
      var a := Account(id, r.email, r.password, r.firstName, None, Some(r.lastName), Some(r.countryCode),
                       Some(r.username), false);
      Some(Table(t.rows[id := a], t.byEmail[r.email := id]))
  }

  lemma UpdatesKeepConsistent(t: Table, email: string, password: string)
    requires Consistent(t)
    ensures Consistent(SetPassword(t, email, password))
    ensures Consistent(SetVerified(t, email))
  {
  }

  lemma InsertKeepsConsistent(t: Table, id: int64, r: Registration, rowFits: Registration -> bool)
    requires Consistent(t) && Insert(t, id, r, rowFits).Some?
    ensures Consistent(Insert(t, id, r, rowFits).value)
  {
  }

  class UsersRepo {
    var rows: map<int64, Account>
    var byEmail: map<string, int64>

    function Contents(): Table
      reads this
    {
      Table(rows, byEmail)
    }

    constructor (existing: Table)
      ensures Contents() == existing
    {
      rows, byEmail := existing.rows, existing.byEmail;
    }

    method GetAccountById(id: int64) returns (a: Option<Account>)
      ensures a == ById(Contents(), id)
    {
      a := None;
      if id in rows {
        a := Some(rows[id]);
      }
    }

    method GetAccountByEmail(mail: string) returns (a: Option<Account>)
      ensures a == ByEmail(Contents(), mail)
    {
      a := None;
      if mail in byEmail {
        a := GetAccountById(byEmail[mail]);
      }
    }

    method ResetPassword(email: string, password: string)
      modifies this
      ensures Contents() == SetPassword(old(Contents()), email, password)
    {
      var a := GetAccountByEmail(email);
      if a.Some? {
        rows := rows[byEmail[email] := a.value.(password := password)];
      }
    }

    method VerifyAccount(email: string)
      modifies this
      ensures Contents() == SetVerified(old(Contents()), email)
    {
      var a := GetAccountByEmail(email);
      if a.Some? {
        rows := rows[byEmail[email] := a.value.(isVerified := true)];
      }
    }

    method RegisterAccount(id: int64, r: Registration, rowFits: Registration -> bool) returns (ok: bool)
      modifies this
      ensures ok == Insert(old(Contents()), id, r, rowFits).Some?
      ensures Contents() == Insert(old(Contents()), id, r, rowFits).GetOr(old(Contents()))
    {
      ok := false;
      if Complete(r) && rowFits(r) && id !in rows && r.email !in byEmail {
        rows := rows[id := Account(id, r.email, r.password, r.firstName, None, Some(r.lastName),
                                   Some(r.countryCode), Some(r.username), false)];
        byEmail := byEmail[r.email := id];
        ok := true;
      }
    }
  }
}
